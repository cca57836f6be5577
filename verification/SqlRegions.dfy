// What the splitter makes of each kind of text, stated on whole texts: quotes, comments,
// dollar blocks and plain characters, and what is left of a segment.
module SqlRegions {
  import opened Options
  import opened Texts
  import opened SqlLexer

  // The rest of a script behind a text that does not separate.
  lemma Behind(s: string, n: nat)
    requires s != "" && KindAt(s) != Semicolon && TokenLength(s) == Some(n)
    ensures n <= |s| && Raw(s) == Prepend(s[..n], Raw(s[n..]))
  {
    RawStep(s);
  }

  lemma {:induction false} BehindText(text: string, rest: string)
    requires text != "" && KindAt(text + rest) != Semicolon && TokenLength(text + rest) == Some(|text|)
    ensures Raw(text + rest) == Prepend(text, Raw(rest))
  {
    Behind(text + rest, |text|);
    assert (text + rest)[..|text|] == text && (text + rest)[|text|..] == rest;
  }

  /******* Dollar blocks *******/

  // What may stand between the dollar signs of a tag: nothing, or an identifier.
  predicate TagName(name: string) {
    forall i | 0 <= i < |name| ::
      'A' <= name[i] <= 'Z' || 'a' <= name[i] <= 'z' || name[i] == '_' || (i > 0 && '0' <= name[i] <= '9')
  }

  function Tag(name: string): string {
    "$" + name + "$"
  }

  lemma {:induction false} NameStops(s: string, n: nat)
    requires n < |s| && s[n] == '$'
    requires forall i | 0 <= i < n ::
               'A' <= s[i] <= 'Z' || 'a' <= s[i] <= 'z' || s[i] == '_' || '0' <= s[i] <= '9'
    ensures NameLength(s) == n
  {
    if n > 0 {
      NameStops(s[1..], n - 1);
    }
  }

  lemma TagFound(name: string, rest: string)
    requires TagName(name)
    ensures TagLength(Tag(name) + rest) == Some(|name| + 2)
    ensures (Tag(name) + rest)[..|name| + 2] == Tag(name) && (Tag(name) + rest)[|name| + 2..] == rest
  {
    var s := Tag(name) + rest;
    assert s[1..] == name + "$" + rest;
    assert forall i | 0 <= i < |name| :: s[1..][i] == name[i];
    if name != "" {
      NameStops(s[1..], |name|);
      assert s[1] == name[0];
    }
  }

  lemma {:induction false} DollarOpens(name: string, rest: string)
    requires TagName(name)
    ensures KindAt(Tag(name) + rest) == Dollar
    ensures TokenLength(Tag(name) + rest) == Plus(|name| + 2, DollarLength(rest, Tag(name)))
  {
    var s := Tag(name) + rest;
    TagFound(name, rest);
    assert s[0] == '$' && s[..2][0] == '$';
  }

  lemma {:induction false} ClosedAt(body: string, tag: string, rest: string)
    requires tag != "" && forall i | 0 <= i < |body| :: !(tag <= (body + tag)[i..])
    ensures DollarLength(body + tag + rest, tag) == Some(|body| + |tag|)
  {
    var s := body + tag + rest;
    if body == "" {
      assert s[..|tag|] == tag;
    } else {
      assert s[1..] == body[1..] + tag + rest;
      forall i | 0 <= i < |body| - 1 ensures !(tag <= (body[1..] + tag)[i..]) {
        assert (body + tag)[i + 1..] == (body[1..] + tag)[i..];
      }
      ClosedAt(body[1..], tag, rest);
      assert (body + tag)[0..] == body + tag;
      assert s[..|tag|] == (body + tag)[..|tag|];
    }
  }

  lemma {:induction false} NeverClosed(body: string, tag: string)
    requires tag != "" && forall i | 0 <= i <= |body| :: !(tag <= body[i..])
    ensures DollarLength(body, tag) == None
  {
    assert body[0..] == body;
    if body != "" {
      forall i | 0 <= i <= |body| - 1 ensures !(tag <= body[1..][i..]) {
        assert body[1..][i..] == body[i + 1..];
      }
      NeverClosed(body[1..], tag);
    }
  }

  // A block from a tag to the next occurrence of that tag is one text, whatever it holds.
  lemma DollarBlock(name: string, body: string, rest: string)
    requires TagName(name) && forall i | 0 <= i < |body| :: !(Tag(name) <= (body + Tag(name))[i..])
    ensures Raw(Tag(name) + body + Tag(name) + rest) == Prepend(Tag(name) + body + Tag(name), Raw(rest))
  {
    var tag := Tag(name);
    var block := tag + body + tag;
    assert block + rest == tag + (body + tag + rest);
    DollarOpens(name, body + tag + rest);
    ClosedAt(body, tag, rest);
    BehindText(block, rest);
  }

  // Without one the script has no end.
  lemma DollarUnclosed(name: string, body: string)
    requires TagName(name) && forall i | 0 <= i <= |body| :: !(Tag(name) <= body[i..])
    ensures Raw(Tag(name) + body) == None
  {
    DollarOpens(name, body);
    NeverClosed(body, Tag(name));
    RawStep(Tag(name) + body);
  }

  /******* Quotes *******/

  // A text inside quotes: each mark of the quote is doubled.
  function Doubled(text: string, quote: char): string {
    if text == "" then ""
    else (if text[0] == quote then [quote, quote] else [text[0]]) + Doubled(text[1..], quote)
  }

  lemma {:induction false} QuoteCloses(text: string, quote: char, rest: string)
    requires rest == "" || rest[0] != quote
    ensures QuoteLength(Doubled(text, quote) + [quote] + rest, quote) == Some(|Doubled(text, quote)| + 1)
  {
    var s := Doubled(text, quote) + [quote] + rest;
    if text != "" {
      QuoteCloses(text[1..], quote, rest);
      var step := if text[0] == quote then 2 else 1;
      assert s[step..] == Doubled(text[1..], quote) + [quote] + rest;
    }
  }

  lemma {:induction false} QuoteStays(text: string, quote: char)
    ensures QuoteLength(Doubled(text, quote), quote) == None
  {
    if text != "" {
      QuoteStays(text[1..], quote);
      var step := if text[0] == quote then 2 else 1;
      assert Doubled(text, quote)[step..] == Doubled(text[1..], quote);
    }
  }

  lemma {:induction false} QuoteOpens(quote: char, rest: string)
    requires quote == '\'' || quote == '"'
    ensures KindAt([quote] + rest) == Quote
    ensures TokenLength([quote] + rest) == Plus(1, QuoteLength(rest, quote))
  {
    var s := [quote] + rest;
    assert s[0] == quote && s[1..] == rest;
    assert |s| >= 2 ==> s[..2][0] == quote;
  }

  lemma {:induction false} Quoted(text: string, quote: char, rest: string)
    requires (quote == '\'' || quote == '"') && (rest == "" || rest[0] != quote)
    ensures var whole := [quote] + Doubled(text, quote) + [quote];
            Raw(whole + rest) == Prepend(whole, Raw(rest))
  {
    var whole := [quote] + Doubled(text, quote) + [quote];
    var s := whole + rest;
    assert s == [quote] + (Doubled(text, quote) + [quote] + rest);
    QuoteOpens(quote, Doubled(text, quote) + [quote] + rest);
    QuoteCloses(text, quote, rest);
    Behind(s, |whole|);
    assert s[..|whole|] == whole && s[|whole|..] == rest;
  }

  lemma {:induction false} QuoteUnclosed(text: string, quote: char)
    requires quote == '\'' || quote == '"'
    ensures Raw([quote] + Doubled(text, quote)) == None
  {
    QuoteOpens(quote, Doubled(text, quote));
    QuoteStays(text, quote);
    RawStep([quote] + Doubled(text, quote));
  }

  /******* Line comments *******/

  lemma {:induction false} LineEnds(body: string, rest: string)
    requires '\n' !in body
    ensures LineLength(body + "\n" + rest) == |body| + 1
  {
    if body != "" {
      assert (body + "\n" + rest)[1..] == body[1..] + "\n" + rest;
      LineEnds(body[1..], rest);
    }
  }

  lemma {:induction false} LineGoesOn(body: string)
    requires '\n' !in body
    ensures LineLength(body) == |body|
  {
    if body != "" {
      LineGoesOn(body[1..]);
    }
  }

  lemma {:induction false} LineOpens(rest: string)
    ensures KindAt("--" + rest) == Line && TokenLength("--" + rest) == Some(2 + LineLength(rest))
  {
    assert ("--" + rest)[..2] == "--" && ("--" + rest)[2..] == rest;
  }

  lemma LineComment(body: string, rest: string)
    requires '\n' !in body
    ensures Raw("--" + body + "\n" + rest) == Prepend("--" + body + "\n", Raw(rest))
  {
    var s, whole := "--" + body + "\n" + rest, "--" + body + "\n";
    assert s == "--" + (body + "\n" + rest);
    LineOpens(body + "\n" + rest);
    LineEnds(body, rest);
    Behind(s, |whole|);
    assert s[..|whole|] == whole && s[|whole|..] == rest;
  }

  // The last line may end with the script.
  lemma LastLineComment(body: string)
    requires '\n' !in body
    ensures Raw("--" + body) == Some(["--" + body])
  {
    var s := "--" + body;
    LineOpens(body);
    LineGoesOn(body);
    Behind(s, |s|);
    assert s[..|s|] == s && s[|s|..] == "" && s + "" == s;
    Nothing();
    assert Prepend(s, Some([""])).value == [s];
  }

  lemma Nothing()
    ensures Raw("") == Some([""])
  {
  }

  /******* Block comments *******/

  // A comment cut into its marks and other characters.
  datatype Part = Open | Close | Char(c: char)

  function Written(parts: seq<Part>): string {
    if parts == [] then ""
    else (match parts[0] case Open => "/*" case Close => "*/" case Char(c) => [c]) + Written(parts[1..])
  }

  // No character begins a mark where it stands.
  predicate Clear(parts: seq<Part>) {
    forall k | 0 <= k < |parts| && parts[k].Char? ::
      !("/*" <= Written(parts[k..])) && !("*/" <= Written(parts[k..]))
  }

  // How deep the comments nest behind some parts, one mark being open before.
  function Level(parts: seq<Part>): int {
    var opens, closes: int := multiset(parts)[Open], multiset(parts)[Close];
    1 + opens - closes
  }

  function Change(part: Part): int {
    match part case Open => 1 case Close => -1 case Char(_) => 0
  }

  lemma FirstPart(parts: seq<Part>, k: nat)
    requires k < |parts|
    ensures Level(parts[..k + 1]) == Level(parts[1..][..k]) + Change(parts[0])
  {
    assert parts[..k + 1] == [parts[0]] + parts[1..][..k];
    assert multiset([parts[0]] + parts[1..][..k]) == multiset{parts[0]} + multiset(parts[1..][..k]);
  }

  lemma ClearRest(parts: seq<Part>)
    requires parts != [] && Clear(parts)
    ensures Clear(parts[1..])
  {
    forall k | 0 <= k < |parts| - 1 ensures parts[1..][k..] == parts[k + 1..] && parts[1..][k] == parts[k + 1] {}
  }

  // Seen from `depth` open marks, the last part closes the outermost one.
  predicate Ends(parts: seq<Part>, depth: int) {
    && depth > 0 && parts != []
    && if |parts| == 1 then depth + Change(parts[0]) == 0 else Ends(parts[1..], depth + Change(parts[0]))
  }

  lemma {:induction false} LevelsEnd(parts: seq<Part>, more: int)
    requires parts != [] && Level(parts) + more == 0 && forall k | 0 <= k < |parts| :: Level(parts[..k]) + more > 0
    ensures Ends(parts, 1 + more)
  {
    assert parts[..0] == [] && Level([]) == 1;
    assert parts[..|parts|] == parts && parts[1..][..|parts| - 1] == parts[1..];
    FirstPart(parts, |parts| - 1);
    if |parts| == 1 {
      assert Level(parts[1..]) == 1;
    } else {
      forall k | 0 <= k < |parts| - 1 ensures Level(parts[1..][..k]) + more + Change(parts[0]) > 0 {
        FirstPart(parts, k);
        assert Level(parts[..k + 1]) + more > 0;
      }
      LevelsEnd(parts[1..], more + Change(parts[0]));
    }
  }

  lemma {:induction false} PartStep(parts: seq<Part>)
    requires parts != [] && Clear(parts)
    ensures parts[0].Char? ==> Written(parts)[1..] == Written(parts[1..])
                               && !StartsWith(Written(parts), "/*") && !StartsWith(Written(parts), "*/")
    ensures !parts[0].Char? ==> |Written(parts)| >= 2 && Written(parts)[2..] == Written(parts[1..])
                                && Written(parts)[..2] == if parts[0].Open? then "/*" else "*/"
  {
    assert parts[0..] == parts;
  }

  // One mark or character of a comment that goes on.
  lemma MarkStep(parts: seq<Part>, depth: nat, rest: string)
    requires parts != [] && Clear(parts) && depth > 0 && !parts[0].Char?
    ensures BlockLength(Written(parts) + rest, depth)
         == if parts[0].Close? && depth == 1 then Some(2)
            else Plus(2, BlockLength(Written(parts[1..]) + rest, depth + Change(parts[0])))
  {
    var s := Written(parts) + rest;
    PartStep(parts);
    assert s[..2] == Written(parts)[..2] && s[2..] == Written(parts)[2..] + rest;
  }

  lemma {:induction false} CharStep(parts: seq<Part>, depth: nat, rest: string)
    requires |parts| > 1 && Clear(parts) && depth > 0 && parts[0].Char?
    ensures BlockLength(Written(parts) + rest, depth) == Plus(1, BlockLength(Written(parts[1..]) + rest, depth))
  {
    var s := Written(parts) + rest;
    PartStep(parts);
    assert |Written(parts[1..])| > 0 by {
      assert parts[1..] != [];
    }
    assert s[..2] == Written(parts)[..2] && s[1..] == Written(parts)[1..] + rest;
  }

  lemma {:induction false} BlockCloses(parts: seq<Part>, depth: nat, rest: string)
    requires Clear(parts) && Ends(parts, depth)
    ensures BlockLength(Written(parts) + rest, depth) == Some(|Written(parts)|)
    decreases |parts|
  {
    if |parts| > 1 {
      PartSize(parts);
      GoesOn(parts, depth, rest);
      ClearRest(parts);
      BlockCloses(parts[1..], depth + Change(parts[0]), rest);
    } else {
      OnePart(parts, depth, rest);
    }
  }

  lemma {:induction false} OnePart(parts: seq<Part>, depth: nat, rest: string)
    requires Clear(parts) && Ends(parts, depth) && |parts| == 1
    ensures BlockLength(Written(parts) + rest, depth) == Some(|Written(parts)|)
  {
    PartSize(parts);
    MarkStep(parts, depth, rest);
  }

  lemma {:induction false} PartSize(parts: seq<Part>)
    requires parts != []
    ensures |Written(parts)| == (if parts[0].Char? then 1 else 2) + |Written(parts[1..])|
    ensures |parts| == 1 ==> |Written(parts[1..])| == 0
  {
  }

  lemma {:induction false} GoesOn(parts: seq<Part>, depth: nat, rest: string)
    requires |parts| > 1 && Clear(parts) && Ends(parts, depth)
    ensures depth + Change(parts[0]) > 0
    ensures BlockLength(Written(parts) + rest, depth)
         == Plus(if parts[0].Char? then 1 else 2,
                 BlockLength(Written(parts[1..]) + rest, depth + Change(parts[0])))
  {
    if parts[0].Char? {
      CharStep(parts, depth, rest);
    } else {
      MarkStep(parts, depth, rest);
    }
  }

  lemma {:induction false} BlockOpens(rest: string)
    ensures KindAt("/*" + rest) == Block && TokenLength("/*" + rest) == Plus(2, BlockLength(rest, 1))
  {
    assert ("/*" + rest)[..2] == "/*" && ("/*" + rest)[2..] == rest;
  }

  // A comment ends where as many marks have closed as have opened, and not before.
  lemma {:induction false} BlockComment(parts: seq<Part>, rest: string)
    requires Clear(parts) && Level(parts) == 0 && forall k | 0 <= k < |parts| :: Level(parts[..k]) > 0
    ensures Raw("/*" + Written(parts) + rest) == Prepend("/*" + Written(parts), Raw(rest))
  {
    assert Level([]) == 1;
    LevelsEnd(parts, 0);
    BlockCloses(parts, 1, rest);
    BlockIsToken(Written(parts), rest);
  }

  lemma {:induction false} BlockIsToken(body: string, rest: string)
    requires BlockLength(body + rest, 1) == Some(|body|)
    ensures Raw("/*" + body + rest) == Prepend("/*" + body, Raw(rest))
  {
    var s, whole := "/*" + body + rest, "/*" + body;
    assert s == "/*" + (body + rest);
    BlockOpens(body + rest);
    Behind(s, |whole|);
    assert s[..|whole|] == whole && s[|whole|..] == rest;
  }

  lemma {:induction false} BlockStays(parts: seq<Part>, more: int)
    requires Clear(parts) && forall k | 0 <= k <= |parts| :: Level(parts[..k]) + more > 0
    ensures 1 + more > 0 && BlockLength(Written(parts), 1 + more) == None
    decreases |parts|
  {
    assert parts[..0] == [] && Level([]) == 1;
    assert Level(parts[..0]) + more > 0;
    if parts != [] {
      ClearRest(parts);
      forall k | 0 <= k <= |parts| - 1 ensures Level(parts[1..][..k]) + more + Change(parts[0]) > 0 {
        FirstPart(parts, k);
        assert Level(parts[..k + 1]) + more > 0;
      }
      BlockStays(parts[1..], more + Change(parts[0]));
      PartStep(parts);
    }
  }

  lemma {:induction false} BlockUnclosed(parts: seq<Part>)
    requires Clear(parts) && forall k | 0 <= k <= |parts| :: Level(parts[..k]) > 0
    ensures Raw("/*" + Written(parts)) == None
  {
    BlockStays(parts, 0);
    NoBlock(Written(parts));
  }

  lemma {:induction false} NoBlock(body: string)
    requires BlockLength(body, 1) == None
    ensures Raw("/*" + body) == None
  {
    BlockOpens(body);
    RawStep("/*" + body);
  }

  /******* Everything else *******/

  // A semicolon where none of these is open separates.
  lemma Separator(rest: string)
    ensures Raw(";" + rest) == if Raw(rest).None? then None else Some([""] + Raw(rest).value)
  {
    var s := ";" + rest;
    assert s[0] == ';' && s[1..] == rest && (|s| >= 2 ==> s[..2][0] == ';');
    RawStep(s);
  }

  // Any other character that opens nothing stands for itself.
  lemma PlainCharacter(s: string)
    requires s != "" && s[0] != '\'' && s[0] != '"' && s[0] != ';' && !("--" <= s) && !("/*" <= s)
    requires forall name | TagName(name) :: !(Tag(name) <= s)
    ensures Raw(s) == Prepend([s[0]], Raw(s[1..]))
  {
    if TagLength(s).Some? {
      var name := TagRead(s);
      assert false;
    }
    Behind(s, 1);
    assert s[..1] == [s[0]];
  }

  lemma {:induction false} NameRead(s: string, i: nat)
    requires i < NameLength(s)
    ensures 'A' <= s[i] <= 'Z' || 'a' <= s[i] <= 'z' || s[i] == '_' || '0' <= s[i] <= '9'
  {
    if i > 0 {
      NameRead(s[1..], i - 1);
    }
  }

  lemma TagRead(s: string) returns (name: string)
    requires TagLength(s).Some?
    ensures TagName(name) && Tag(name) <= s
  {
    var n := TagLength(s).value;
    name := s[1..n - 1];
    forall i | 0 <= i < |name|
      ensures 'A' <= name[i] <= 'Z' || 'a' <= name[i] <= 'z' || name[i] == '_' || (i > 0 && '0' <= name[i] <= '9')
    {
      NameRead(s[1..], i);
    }
    assert s[..n] == Tag(name);
  }

  /******* Statements *******/

  // What strip() takes away, by code point.
  predicate White(c: char) {
    (c as int) in {9, 10, 11, 12, 13, 28, 29, 30, 31, 32, 133, 160, 5760, 8192, 8193, 8194, 8195, 8196, 8197, 8198,
                   8199, 8200, 8201, 8202, 8232, 8233, 8239, 8287, 12288}
  }

  lemma WhiteIff(c: char)
    ensures IsSpace(c) <==> White(c)
  {
  }

  predicate AllWhite(s: string) {
    forall i | 0 <= i < |s| :: White(s[i])
  }

  lemma {:induction false} LeftStripped(s: string) returns (left: string)
    ensures s == left + StripLeft(s) && AllWhite(left)
    ensures StripLeft(s) != "" ==> !White(StripLeft(s)[0])
  {
    left := "";
    if s != "" {
      WhiteIff(s[0]);
      if IsSpace(s[0]) {
        var more := LeftStripped(s[1..]);
        left := [s[0]] + more;
        assert s == [s[0]] + s[1..];
      }
    }
  }

  lemma {:induction false} RightStripped(s: string) returns (right: string)
    ensures s == StripRight(s) + right && AllWhite(right)
    ensures StripRight(s) != "" ==> !White(StripRight(s)[|StripRight(s)| - 1]) && StripRight(s)[0] == s[0]
  {
    right := "";
    if s != "" {
      var n := |s| - 1;
      WhiteIff(s[n]);
      if IsSpace(s[n]) {
        var more := RightStripped(s[..n]);
        right := more + [s[n]];
        assert s == s[..n] + [s[n]];
      }
    }
  }

  // A stripped text is what stands between the white space at both ends.
  lemma StripIs(s: string) returns (left: string, right: string)
    ensures s == left + Strip(s) + right && AllWhite(left) && AllWhite(right)
    ensures Strip(s) != "" ==> !White(Strip(s)[0]) && !White(Strip(s)[|Strip(s)| - 1])
  {
    left := LeftStripped(s);
    right := RightStripped(StripLeft(s));
    assert s == left + (Strip(s) + right);
  }

  // The statements are the stripped segments that are not blank, in order.
  lemma {:induction false} StatementsAre(segments: seq<string>, more: seq<string>, segment: string)
    ensures Statements([]) == []
    ensures Statements([segment]) == if Strip(segment) == "" then [] else [Strip(segment)]
    ensures Statements(segments + more) == Statements(segments) + Statements(more)
  {
    assert [segment][..0] == [];
    if more == [] {
      assert segments + more == segments;
    } else {
      var n := |more| - 1;
      StatementsAre(segments, more[..n], segment);
      assert (segments + more)[..|segments| + n] == segments + more[..n];
    }
  }

  lemma SplitIs(s: string)
    ensures Split(s) == if Raw(s).None? then None else Some(Statements(Raw(s).value))
  {
  }
}
