// Properties of splitting: nothing is lost, errors are exactly unfinished regions, and
// splitting is stable and can be undone.
module SqlStability {
  import opened Options
  import opened SqlLexer
  import opened Texts

  /******* Nothing is lost *******/

  lemma {:induction false} JoinPrepend(text: string, list: seq<string>, separator: string)
    requires list != []
    ensures Join([text + list[0]] + list[1..], separator) == text + Join(list, separator)
  {
    var after := [text + list[0]] + list[1..];
    assert after[1..] == list[1..];
    var tail := Join(list[1..], separator);
    assert text + (list[0] + separator + tail) == (text + list[0]) + separator + tail;
  }

  // The script is its raw segments joined by semicolons.
  lemma {:induction false} Lossless(s: string)
    requires Raw(s).Some?
    ensures Join(Raw(s).value, ";") == s
    decreases |s|
  {
    if s != "" {
      RawStep(s);
      var n := TokenLength(s).value;
      TokenFits(s);
      Lossless(s[n..]);
      var rest := Raw(s[n..]).value;
      assert s == s[..n] + s[n..];
      if KindAt(s) == Semicolon {
        assert Raw(s).value[1..] == rest;
      } else {
        JoinPrepend(s[..n], rest, ";");
      }
    }
  }

  // Tokens tile the script; a semicolon that does not separate statements lies inside a
  // comment, quote or dollar block.
  lemma {:induction false} KeptSemicolons(s: string, i: nat)
    requires Lex(s).Some? && i < |Lex(s).value|
    ensures Concat(Lex(s).value) == s
    ensures ';' in Lex(s).value[i].text ==> Lex(s).value[i].kind in {Semicolon, Line, Block, Quote, Dollar}
    ensures Lex(s).value[i].kind == Semicolon ==> Lex(s).value[i].text == ";"
    decreases |s|
  {
    TokenFits(s);
    var n := TokenLength(s).value;
    assert s == s[..n] + s[n..];
    assert Lex(s).value[1..] == Lex(s[n..]).value;
    if i > 0 {
      KeptSemicolons(s[n..], i - 1);
    } else if |Lex(s).value| > 1 {
      KeptSemicolons(s[n..], 0);
    } else {
      assert Lex(s[n..]).value == [];
    }
  }

  // The tokens that are not separators.
  function Inside(tokens: seq<Token>): seq<Token> {
    if tokens == [] then []
    else (if tokens[0].kind == Semicolon then [] else [tokens[0]]) + Inside(tokens[1..])
  }

  // The raw segments hold the text of exactly those tokens, in order.
  lemma {:induction false} SegmentsHoldTheRest(tokens: seq<Token>)
    ensures Join(Segments(tokens), "") == Concat(Inside(tokens))
  {
    if tokens != [] {
      SegmentsHoldTheRest(tokens[1..]);
      var rest := Segments(tokens[1..]);
      if tokens[0].kind == Semicolon {
        assert ([""] + rest)[1..] == rest;
        assert Inside(tokens) == Inside(tokens[1..]);
        assert "" + "" + Join(rest, "") == Join(rest, "");
      } else {
        JoinPrepend(tokens[0].text, rest, "");
        assert Inside(tokens) == [tokens[0]] + Inside(tokens[1..]);
        assert Inside(tokens)[1..] == Inside(tokens[1..]);
      }
    }
  }

  // Positions where a token starts.
  predicate Boundary(s: string, p: nat)
    decreases |s|
  {
    p == 0
    || (s != "" && TokenLength(s).Some? && (TokenFits(s); TokenLength(s).value <= p)
        && Boundary(s[TokenLength(s).value..], p - TokenLength(s).value))
  }

  // A quote, block comment or dollar block that starts at a position and has no end.
  predicate OpenAt(s: string, p: nat) {
    p < |s| && Boundary(s, p) && KindAt(s[p..]) in {Block, Quote, Dollar} && TokenLength(s[p..]).None?
  }

  lemma OpenLater(s: string, p: nat)
    requires s != "" && TokenLength(s).Some? && TokenLength(s).value <= |s|
    ensures OpenAt(s, p) <==> TokenLength(s).value <= p && OpenAt(s[TokenLength(s).value..], p - TokenLength(s).value)
  {
    var n := TokenLength(s).value;
    assert s[0..] == s;
    if n <= p <= |s| {
      assert s[n..][p - n..] == s[p..];
    }
  }

  // The splitter raises exactly when some quote, block comment or dollar block that
  // starts at a token position has no end.
  lemma {:induction false} RaisesIff(s: string)
    ensures Split(s).None? <==> exists p: nat :: OpenAt(s, p)
    decreases |s|
  {
    if s == "" {
    } else if TokenLength(s).None? {
      assert s[0..] == s;
      assert OpenAt(s, 0);
    } else {
      TokenFits(s);
      RaisesIff(s[TokenLength(s).value..]);
      OpenBehind(s);
    }
  }

  lemma OpenBehind(s: string)
    requires s != "" && TokenLength(s).Some? && TokenLength(s).value <= |s|
    ensures (exists p: nat :: OpenAt(s, p)) <==> exists q: nat :: OpenAt(s[TokenLength(s).value..], q)
  {
    var n := TokenLength(s).value;
    if p: nat :| OpenAt(s, p) {
      OpenLater(s, p);
    }
    if q: nat :| OpenAt(s[n..], q) {
      OpenLater(s, n + q);
    }
  }

  /******* Cutting a text where a token ends *******/

  lemma {:induction false} QuoteCut(s: string, u: string, quote: char)
    requires QuoteLength(s + u, quote).Some? && QuoteLength(s + u, quote).value <= |s|
    ensures QuoteLength(s, quote) == QuoteLength(s + u, quote)
    decreases |s|
  {
    QuoteFits(s + u, quote);
    if (s + u)[0] != quote {
      assert (s + u)[1..] == s[1..] + u;
      QuoteCut(s[1..], u, quote);
    } else if |s + u| > 1 && (s + u)[1] == quote {
      QuoteFits((s + u)[2..], quote);
      assert (s + u)[2..] == s[2..] + u;
      QuoteCut(s[2..], u, quote);
    }
  }

  lemma {:induction false} LineCut(s: string, u: string)
    requires LineLength(s + u) <= |s|
    ensures LineLength(s) == LineLength(s + u)
  {
    if s != "" && s[0] != '\n' {
      assert (s + u)[1..] == s[1..] + u;
      LineCut(s[1..], u);
    }
  }

  lemma {:induction false} BlockCut(s: string, u: string, depth: nat)
    requires BlockLength(s + u, depth).Some? && BlockLength(s + u, depth).value <= |s|
    ensures BlockLength(s, depth) == BlockLength(s + u, depth)
    decreases |s|
  {
    BlockFits(s + u, depth);
    assert |s| >= 2 && (s + u)[..2] == s[..2];
    if StartsWith(s + u, "/*") {
      assert (s + u)[2..] == s[2..] + u;
      BlockCut(s[2..], u, depth + 1);
    } else if StartsWith(s + u, "*/") {
      assert (s + u)[2..] == s[2..] + u;
      if depth > 1 { BlockCut(s[2..], u, depth - 1); }
    } else {
      assert (s + u)[1..] == s[1..] + u;
      BlockCut(s[1..], u, depth);
    }
  }

  lemma {:induction false} DollarCut(s: string, u: string, tag: string)
    requires tag != "" && tag[|tag| - 1] == '$'
    requires DollarLength(s + u, tag).Some? && DollarLength(s + u, tag).value <= |s|
    ensures DollarLength(s, tag) == DollarLength(s + u, tag)
  {
    DollarFits(s + u, tag);
    if |tag| <= |s| {
      assert (s + u)[..|tag|] == s[..|tag|];
    }
    if !StartsWith(s + u, tag) {
      assert (s + u)[1..] == s[1..] + u;
      DollarCut(s[1..], u, tag);
    }
  }

  lemma {:induction false} NameCut(s: string, u: string)
    ensures NameLength(s) <= NameLength(s + u)
    ensures NameLength(s) < |s| ==> NameLength(s) == NameLength(s + u)
  {
    if s != "" && IsNamePart(s[0]) {
      assert (s + u)[1..] == s[1..] + u;
      NameCut(s[1..], u);
    }
  }

  lemma TagCut(s: string, u: string)
    ensures TagLength(s).Some? ==> TagLength(s + u) == TagLength(s)
    ensures TagLength(s + u).Some? && TagLength(s + u).value <= |s| ==> TagLength(s) == TagLength(s + u)
  {
    if |s| >= 2 {
      assert (s + u)[1..] == s[1..] + u;
      NameCut(s[1..], u);
    }
  }

  // The mark at the start is the same when the token it opens ends within s.
  lemma KindCut(s: string, u: string)
    requires s != "" && TokenLength(s + u).Some? && TokenLength(s + u).value <= |s|
    ensures KindAt(s) == KindAt(s + u)
    ensures KindAt(s) == Dollar ==> TagLength(s) == TagLength(s + u) && TagLength(s + u).value <= |s|
  {
    TokenFits(s + u);
    TagCut(s, u);
    assert |s| >= 2 ==> (s + u)[..2] == s[..2];
    if KindAt(s + u) == Block {
      BlockFits((s + u)[2..], 1);
    } else if KindAt(s + u) == Dollar {
      DollarTagFits(s + u);
    }
  }

  // The tag that opens a dollar block lies within the block.
  lemma DollarTagFits(s: string)
    requires s != "" && KindAt(s) == Dollar && TokenLength(s).Some?
    ensures TagLength(s).value <= TokenLength(s).value
    ensures s[..TagLength(s).value][TagLength(s).value - 1] == '$'
  {
    var n := TagLength(s).value;
    assert s[..n][n - 1] == s[n - 1] == '$';
    DollarFits(s[n..], s[..n]);
  }

  // A token that ends within s is there already when the rest is cut off.
  lemma TokenCut(s: string, u: string)
    requires s != "" && TokenLength(s + u).Some? && TokenLength(s + u).value <= |s|
    ensures KindAt(s) == KindAt(s + u) && TokenLength(s) == TokenLength(s + u)
  {
    KindCut(s, u);
    if KindAt(s + u) == Line {
      assert (s + u)[2..] == s[2..] + u;
      LineCut(s[2..], u);
    } else if KindAt(s + u) == Block {
      assert (s + u)[2..] == s[2..] + u;
      BlockCut(s[2..], u, 1);
    } else if KindAt(s + u) == Quote {
      assert (s + u)[1..] == s[1..] + u;
      QuoteCut(s[1..], u, s[0]);
    } else if KindAt(s + u) == Dollar {
      var n := TagLength(s + u).value;
      DollarTagFits(s + u);
      assert (s + u)[n..] == s[n..] + u && (s + u)[..n] == s[..n];
      DollarCut(s[n..], u, s[..n]);
    }
  }

  /******* Texts that are one segment *******/

  predicate Alone(g: string) { Raw(g) == Some([g]) }

  lemma PrependTo(a: string, b: string, r: seq<string>)
    ensures Prepend(a, Some([b] + r)) == Some([a + b] + r)
  {
    assert ([b] + r)[1..] == r;
  }

  lemma PrependIff(a: string, b: string, r: Option<seq<string>>)
    requires r.Some? && r.value != []
    ensures Prepend(a, r) == Some([a + b]) <==> r == Some([b])
  {
    var p := Prepend(a, r).value;
    assert p[0] == a + r.value[0] && p[1..] == r.value[1..];
    assert (a + b)[|a|..] == b && (a + r.value[0])[|a|..] == r.value[0];
    assert r.value == [r.value[0]] + r.value[1..];
    if r.value == [b] {
      assert r.value[1..] == [] && p == [a + b] + [];
    }
    if p == [a + b] {
      assert p[1..] == [] && p[0] == a + b;
      assert r.value == [b];
    }
  }

  lemma AloneStep(g: string)
    requires g != ""
    ensures Alone(g) <==>
            && TokenLength(g).Some? && KindAt(g) != Semicolon
            && (TokenFits(g); Alone(g[TokenLength(g).value..]))
  {
    RawStep(g);
    if TokenLength(g).Some? {
      TokenFits(g);
      var n := TokenLength(g).value;
      var rest := Raw(g[n..]);
      assert g == g[..n] + g[n..];
      if rest.Some? && KindAt(g) != Semicolon {
        assert Raw(g).value == [g[..n] + rest.value[0]] + rest.value[1..];
        PrependIff(g[..n], g[n..], rest);
      } else if rest.Some? {
        assert |Raw(g).value| == 1 + |rest.value|;
      }
    }
  }

  lemma {:induction false} FirstIsPrefix(s: string)
    requires Raw(s).Some?
    ensures Raw(s).value[0] <= s
    decreases |s|
  {
    if s != "" {
      RawStep(s);
      TokenFits(s);
      var n := TokenLength(s).value;
      if KindAt(s) != Semicolon {
        FirstIsPrefix(s[n..]);
        assert s == s[..n] + s[n..];
      }
    }
  }

  lemma FirstAlone(s: string)
    requires s != "" && TokenLength(s).Some? && TokenLength(s).value <= |s| && KindAt(s) != Semicolon
    requires Raw(s[TokenLength(s).value..]).Some? && Alone(Raw(s[TokenLength(s).value..]).value[0])
    ensures Alone(s[..TokenLength(s).value] + Raw(s[TokenLength(s).value..]).value[0])
  {
    var n := TokenLength(s).value;
    var first := Raw(s[n..]).value[0];
    FirstIsPrefix(s[n..]);
    TokenFits(s);
    var g, u := s[..n] + first, s[n..][|first|..];
    Rejoined(s, n, first);
    TokenCut(g, u);
    AloneStep(g);
  }

  lemma Rejoined(s: string, n: nat, first: string)
    requires n <= |s| && first <= s[n..]
    ensures (s[..n] + first) + s[n..][|first|..] == s && (s[..n] + first)[n..] == first
  {
  }

  // Each raw segment, lexed by itself, is one segment again.
  lemma {:induction false} SegmentAlone(s: string, i: nat)
    requires Raw(s).Some? && i < |Raw(s).value|
    ensures Alone(Raw(s).value[i])
    decreases |s|
  {
    if s != "" {
      RawStep(s);
      TokenFits(s);
      var n := TokenLength(s).value;
      var rest := Raw(s[n..]).value;
      if KindAt(s) == Semicolon {
        if i > 0 { SegmentAlone(s[n..], i - 1); }
      } else if i > 0 {
        SegmentAlone(s[n..], i);
      } else {
        SegmentAlone(s[n..], 0);
        FirstAlone(s);
      }
    }
  }

  /******* Stripping *******/

  lemma {:induction false} StripLeftAlone(g: string)
    requires Alone(g)
    ensures Alone(StripLeft(g))
    ensures StripLeft(g) != "" ==> !IsSpace(StripLeft(g)[0])
  {
    if g != "" && IsSpace(g[0]) {
      AloneStep(g);
      StripLeftAlone(g[1..]);
    }
  }

  lemma {:induction false} LineShort(s: string, c: char)
    requires LineLength(s + [c]) == |s| + 1
    ensures LineLength(s) == |s|
  {
    if s != "" {
      assert (s + [c])[1..] == s[1..] + [c];
      if s[0] != '\n' { LineShort(s[1..], c); }
    }
  }

  lemma {:induction false} DropSpace(t: string, c: char)
    requires Alone(t + [c]) && IsSpace(c)
    ensures Alone(t)
    decreases |t|
  {
    if t != "" {
      AloneStep(t + [c]);
      TokenFits(t + [c]);
      var n := TokenLength(t + [c]).value;
      if n <= |t| {
        TokenCut(t, [c]);
        assert (t + [c])[n..] == t[n..] + [c];
        DropSpace(t[n..], c);
        AloneStep(t);
      } else {
        DropFromLine(t, c);
      }
    }
  }

  // A token that ends with a space is a line comment.
  lemma DropFromLine(t: string, c: char)
    requires t != "" && IsSpace(c) && TokenLength(t + [c]) == Some(|t| + 1)
    ensures Alone(t)
  {
    TokenFits(t + [c]);
    assert KindAt(t + [c]) == Line;
    assert (t + [c])[..2][1] == '-' && |t| >= 2 && (t + [c])[..2] == t[..2];
    assert (t + [c])[2..] == t[2..] + [c];
    LineShort(t[2..], c);
    assert t[|t|..] == "";
    AloneStep(t);
  }

  lemma {:induction false} StripRightAlone(g: string)
    requires Alone(g)
    ensures Alone(StripRight(g))
    ensures StripRight(g) <= g
    ensures StripRight(g) != "" ==> !IsSpace(StripRight(g)[|StripRight(g)| - 1])
    decreases |g|
  {
    if g != "" && IsSpace(g[|g| - 1]) {
      assert g == g[..|g| - 1] + [g[|g| - 1]];
      DropSpace(g[..|g| - 1], g[|g| - 1]);
      StripRightAlone(g[..|g| - 1]);
    }
  }

  predicate Stripped(g: string) {
    g != "" && !IsSpace(g[0]) && !IsSpace(g[|g| - 1])
  }

  lemma StripAlone(g: string)
    requires Alone(g)
    ensures Alone(Strip(g))
    ensures Strip(g) == "" || Stripped(Strip(g))
  {
    StripLeftAlone(g);
    StripRightAlone(StripLeft(g));
  }

  // What a statement of the result is.
  predicate Statement(g: string) { Stripped(g) && Alone(g) }

  lemma {:induction false} StatementsAre(segments: seq<string>)
    requires forall i | 0 <= i < |segments| :: Alone(segments[i])
    ensures forall i | 0 <= i < |Statements(segments)| :: Statement(Statements(segments)[i])
  {
    if segments != [] {
      StatementsAre(segments[..|segments| - 1]);
      StripAlone(segments[|segments| - 1]);
    }
  }

  lemma SplitGivesStatements(source: string)
    requires Split(source).Some?
    ensures forall i | 0 <= i < |Split(source).value| :: Statement(Split(source).value[i])
  {
    forall i | 0 <= i < |Raw(source).value| ensures Alone(Raw(source).value[i]) {
      SegmentAlone(source, i);
    }
    StatementsAre(Raw(source).value);
  }

  // Splitting is stable: a statement of the result splits to itself.
  lemma SplittingIsStable(source: string, i: nat)
    requires Split(source).Some? && i < |Split(source).value|
    ensures Split(Split(source).value[i]) == Some([Split(source).value[i]])
  {
    SplitGivesStatements(source);
    var g := Split(source).value[i];
    assert Statement(g);
    StripLineEnd(g);
    StatementsCons(g, []);
    assert [g] + [] == [g] && Statements([]) == [];
    assert Raw(g).value == [g];
  }

  /******* Joining the statements again *******/

  lemma {:induction false} QuoteExtend(s: string, u: string, quote: char)
    requires u != "" && u[0] == '\n' && quote != '\n' && QuoteLength(s, quote).Some?
    ensures QuoteLength(s + u, quote) == QuoteLength(s, quote)
    decreases |s|
  {
    if s[0] != quote {
      assert (s + u)[1..] == s[1..] + u;
      QuoteExtend(s[1..], u, quote);
    } else if |s| > 1 && s[1] == quote {
      assert (s + u)[2..] == s[2..] + u;
      QuoteExtend(s[2..], u, quote);
    }
  }

  lemma {:induction false} LineExtend(s: string, u: string)
    requires u != "" && u[0] == '\n'
    ensures LineLength(s + u) == LineLength(s) || (LineLength(s) == |s| && LineLength(s + u) == |s| + 1)
  {
    if s != "" && s[0] != '\n' {
      assert (s + u)[1..] == s[1..] + u;
      LineExtend(s[1..], u);
    } else if s == "" {
      assert s + u == u;
    }
  }

  lemma {:induction false} BlockExtend(s: string, u: string, depth: nat)
    requires BlockLength(s, depth).Some?
    ensures BlockLength(s + u, depth) == BlockLength(s, depth)
    decreases |s|
  {
    BlockFits(s, depth);
    assert (s + u)[..2] == s[..2];
    if StartsWith(s, "/*") {
      assert (s + u)[2..] == s[2..] + u;
      BlockExtend(s[2..], u, depth + 1);
    } else if StartsWith(s, "*/") {
      assert (s + u)[2..] == s[2..] + u;
      if depth > 1 { BlockExtend(s[2..], u, depth - 1); }
    } else {
      assert (s + u)[1..] == s[1..] + u;
      BlockExtend(s[1..], u, depth);
    }
  }

  lemma {:induction false} DollarExtend(s: string, u: string, tag: string)
    requires u != "" && u[0] == '\n' && tag != "" && '\n' !in tag && DollarLength(s, tag).Some?
    ensures DollarLength(s + u, tag) == DollarLength(s, tag)
  {
    if |tag| <= |s| {
      assert (s + u)[..|tag|] == s[..|tag|];
    } else if |tag| <= |s + u| {
      assert (s + u)[..|tag|][|s|] == '\n' && tag[|s|] != '\n';
    }
    if !StartsWith(s, tag) {
      assert (s + u)[1..] == s[1..] + u;
      DollarExtend(s[1..], u, tag);
    }
  }

  lemma {:induction false} NameExtend(s: string, u: string)
    requires u != "" && u[0] == '\n'
    ensures NameLength(s + u) == NameLength(s)
    ensures '\n' !in s[..NameLength(s)]
  {
    if s == "" {
      assert s + u == u;
    } else if IsNamePart(s[0]) {
      assert (s + u)[1..] == s[1..] + u;
      NameExtend(s[1..], u);
      assert s[..NameLength(s)] == [s[0]] + s[1..][..NameLength(s[1..])];
    }
  }

  lemma TagExtend(s: string, u: string)
    requires u != "" && u[0] == '\n' && s != ""
    ensures TagLength(s + u) == TagLength(s)
    ensures TagLength(s).Some? ==> '\n' !in s[..TagLength(s).value]
  {
    assert (s + u)[1..] == s[1..] + u;
    NameExtend(s[1..], u);
    if TagLength(s).Some? {
      var n := TagLength(s).value;
      assert s[..n] == [s[0]] + s[1..][..n - 2] + [s[n - 1]];
    }
  }

  // A token stays as it is when a line end follows, except an open line comment, which
  // takes the line end in.
  lemma TokenExtend(s: string, u: string)
    requires s != "" && u != "" && u[0] == '\n' && TokenLength(s).Some?
    ensures KindAt(s + u) == KindAt(s)
    ensures TokenLength(s + u) == TokenLength(s)
            || (KindAt(s) == Line && TokenLength(s) == Some(|s|) && TokenLength(s + u) == Some(|s| + 1))
  {
    KindExtend(s, u);
    if KindAt(s) == Line {
      LineExtends(s, u);
    } else {
      RegionExtend(s, u);
    }
  }

  lemma KindExtend(s: string, u: string)
    requires s != "" && u != "" && u[0] == '\n'
    requires TokenLength(s).Some?
    ensures KindAt(s + u) == KindAt(s) && TagLength(s + u) == TagLength(s)
    ensures KindAt(s) == Dollar ==> '\n' !in s[..TagLength(s).value]
  {
    TokenFits(s);
    TagExtend(s, u);
    assert |s| >= 2 ==> (s + u)[..2] == s[..2];
    assert |s| == 1 ==> (s + u)[..2][1] == '\n';
  }

  lemma LineExtends(s: string, u: string)
    requires s != "" && u != "" && u[0] == '\n' && KindAt(s) == Line && KindAt(s + u) == Line
    ensures TokenLength(s + u) == TokenLength(s)
            || (TokenLength(s) == Some(|s|) && TokenLength(s + u) == Some(|s| + 1))
  {
    assert (s + u)[2..] == s[2..] + u;
    LineExtend(s[2..], u);
  }

  lemma RegionExtend(s: string, u: string)
    requires s != "" && u != "" && u[0] == '\n' && KindAt(s + u) == KindAt(s) != Line
    requires TagLength(s + u) == TagLength(s) && TokenLength(s).Some?
    requires KindAt(s) == Dollar ==> '\n' !in s[..TagLength(s).value]
    ensures TokenLength(s + u) == TokenLength(s)
  {
    if KindAt(s) == Block {
      assert StartsWith(s, "/*");
      assert (s + u)[2..] == s[2..] + u;
      BlockExtend(s[2..], u, 1);
    } else if KindAt(s) == Quote {
      assert (s + u)[1..] == s[1..] + u;
      QuoteExtend(s[1..], u, s[0]);
    } else if KindAt(s) == Dollar {
      var n := TagLength(s).value;
      DollarTagFits(s);
      assert (s + u)[n..] == s[n..] + u && (s + u)[..n] == s[..n];
      DollarExtend(s[n..], u, s[..n]);
    }
  }

  lemma SemicolonNext(rest: string)
    requires Raw(rest).Some?
    ensures Raw(";" + rest) == Some([""] + Raw(rest).value)
  {
    var s := ";" + rest;
    assert |s| >= 2 ==> s[..2][0] == ';';
    RawStep(s);
    assert s[1..] == rest;
  }

  // A text that is all one token, followed by its separator.
  lemma ClosedToken(g: string, rest: string)
    requires Raw(rest).Some? && g[|g|..] == ""
    requires TokenLength(g + ";" + rest) == Some(|g|)
    requires g != "" && KindAt(g + ";" + rest) != Semicolon
    ensures Raw(g + ";" + rest) == Some([g] + Raw(rest).value)
  {
    var s := g + ";" + rest;
    RawStep(s);
    SemicolonNext(rest);
    assert s[..|g|] == g && s[|g|..] == ";" + rest;
    assert ([""] + Raw(rest).value)[1..] == Raw(rest).value && g + "" == g;
  }

  // A single segment followed by a line end and a semicolon is closed there, even when
  // it ends in a line comment.
  lemma {:induction false} Closed(g: string, rest: string)
    requires Alone(g) && Raw(rest).Some?
    ensures Raw(g + "\n;" + rest) == Some([g + "\n"] + Raw(rest).value)
    decreases |g|, 1
  {
    var u := "\n;" + rest;
    var s := g + "\n" + ";" + rest;
    assert g + "\n;" + rest == g + u == s;
    if g == "" {
      assert s[0] == '\n' && g + "\n" == "\n";
      ClosedToken("\n", rest);
    } else {
      AloneStep(g);
      TokenFits(g);
      TokenExtend(g, u);
      if TokenLength(s) == TokenLength(g) {
        ClosedFirst(g, rest);
      } else {
        ClosedToken(g + "\n", rest);
      }
    }
  }

  lemma CutAt(g: string, rest: string, n: nat)
    requires n <= |g|
    ensures g[..n] + (g[n..] + "\n") == g + "\n"
    ensures (g + "\n" + ";" + rest)[..n] == g[..n]
    ensures (g + "\n" + ";" + rest)[n..] == g[n..] + "\n;" + rest
  {
  }

  lemma {:induction false} ClosedFirst(g: string, rest: string)
    requires g != "" && Alone(g) && Raw(rest).Some? && KindAt(g) != Semicolon
    requires TokenLength(g).Some? && TokenLength(g + "\n" + ";" + rest) == TokenLength(g)
    requires KindAt(g + "\n" + ";" + rest) == KindAt(g)
    ensures Raw(g + "\n" + ";" + rest) == Some([g + "\n"] + Raw(rest).value)
    decreases |g|, 0
  {
    var s := g + "\n" + ";" + rest;
    var n := TokenLength(g).value;
    AloneStep(g);
    TokenFits(g);
    Closed(g[n..], rest);
    CutAt(g, rest, n);
    PrependTo(g[..n], g[n..] + "\n", Raw(rest).value);
    RawStep(s);
  }

  // The segments after joining: every statement but the last keeps the added line end.
  function Terminated(list: seq<string>): seq<string> {
    if |list| <= 1 then list else [list[0] + "\n"] + Terminated(list[1..])
  }

  lemma {:induction false} JoinedSegments(list: seq<string>)
    requires list != [] && forall i | 0 <= i < |list| :: Statement(list[i])
    ensures Raw(Join(list, "\n;")) == Some(Terminated(list))
  {
    assert Statement(list[0]);
    if |list| > 1 {
      JoinedSegments(list[1..]);
      Closed(list[0], Join(list[1..], "\n;"));
    } else {
      assert list == [list[0]];
    }
  }

  lemma {:induction false} StatementsCons(x: string, r: seq<string>)
    ensures Statements([x] + r) == (if Strip(x) == "" then [] else [Strip(x)]) + Statements(r)
  {
    if r == [] {
      assert [x] + r == [x] && [x][..0] == [];
    } else {
      assert ([x] + r)[..|r|] == [x] + r[..|r| - 1];
      StatementsCons(x, r[..|r| - 1]);
    }
  }

  lemma StripLineEnd(g: string)
    requires Stripped(g)
    ensures Strip(g) == g && Strip(g + "\n") == g
  {
    assert (g + "\n")[..|g|] == g;
  }

  lemma {:induction false} TerminatedStatements(list: seq<string>)
    requires forall i | 0 <= i < |list| :: Statement(list[i])
    ensures Statements(Terminated(list)) == list
  {
    if list != [] {
      assert Statement(list[0]);
      StripLineEnd(list[0]);
      if |list| == 1 {
        StatementsCons(list[0], []);
        assert [list[0]] + [] == list;
      } else {
        TerminatedStatements(list[1..]);
        StatementsCons(list[0] + "\n", Terminated(list[1..]));
      }
    }
  }

  // Splitting can be undone: the statements joined by a line end and a semicolon split
  // to the same list, even when one ends in a line comment.
  lemma JoiningSplitsBack(source: string)
    requires Split(source).Some?
    ensures Split(Join(Split(source).value, "\n;")) == Split(source)
  {
    SplitGivesStatements(source);
    var list := Split(source).value;
    if list == [] {
      assert [""][..0] == [];
      assert Statements([""]) == Statements([]) + [];
    } else {
      JoinedSegments(list);
      TerminatedStatements(list);
    }
  }
}
