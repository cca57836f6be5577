// The lexical structure of a PostgreSQL script as a recursive specification: regions
// (quotes, comments, dollar blocks), top-level semicolons and plain characters.
module SqlLexer {
  import opened Options
  import opened Texts

  /******* Characters *******/

  // What str.strip removes.
  predicate IsSpace(c: char) {
    var n := c as int;
    || 9 <= n <= 13 || 28 <= n <= 32 || n == 0x85 || n == 0xA0 || n == 0x1680
    || 0x2000 <= n <= 0x200A || n == 0x2028 || n == 0x2029 || n == 0x202F || n == 0x205F || n == 0x3000
  }

  predicate IsNameStart(c: char) { 'A' <= c <= 'Z' || 'a' <= c <= 'z' || c == '_' }

  predicate IsNamePart(c: char) { IsNameStart(c) || '0' <= c <= '9' }

  /******* How far a region reaches *******/

  // From inside a quote to just after its end; a doubled quote stands for itself.
  function QuoteLength(s: string, quote: char): Option<nat> {
    if s == "" then None
    else if s[0] != quote then Plus(1, QuoteLength(s[1..], quote))
    else if |s| > 1 && s[1] == quote then Plus(2, QuoteLength(s[2..], quote))
    else Some(1)
  }

  // From inside a line comment to just after its line end, or to the end.
  function LineLength(s: string): nat {
    if s == "" then 0 else if s[0] == '\n' then 1 else 1 + LineLength(s[1..])
  }

  // From inside a block comment of some depth to just after the outermost end.
  function BlockLength(s: string, depth: nat): Option<nat>
    decreases |s|
  {
    if s == "" || depth == 0 then None
    else if StartsWith(s, "/*") then Plus(2, BlockLength(s[2..], depth + 1))
    else if StartsWith(s, "*/") then if depth == 1 then Some(2) else Plus(2, BlockLength(s[2..], depth - 1))
    else Plus(1, BlockLength(s[1..], depth))
  }

  // From inside a dollar block to just after its closing tag.
  function DollarLength(s: string, tag: string): Option<nat> {
    if StartsWith(s, tag) then Some(|tag|)
    else if s == "" then None
    else Plus(1, DollarLength(s[1..], tag))
  }

  function NameLength(s: string): (n: nat)
    ensures n <= |s|
  {
    if s == "" || !IsNamePart(s[0]) then 0 else 1 + NameLength(s[1..])
  }

  // The match of \$(?:[A-Za-z_][A-Za-z0-9_]*)?\$ at the start.
  function TagLength(s: string): (n: Option<nat>)
    ensures n.Some? ==> 2 <= n.value <= |s|
  {
    if |s| < 2 || s[0] != '$' then None
    else if s[1] == '$' then Some(2)
    else if !IsNameStart(s[1]) then None
    else
      var end := 1 + NameLength(s[1..]);
      if end < |s| && s[end] == '$' then Some(end + 1) else None
  }

  /******* Tokens *******/

  datatype Kind = Plain | Semicolon | Line | Block | Quote | Dollar

  datatype Token = Token(kind: Kind, text: string)

  function KindAt(s: string): Kind
    requires s != ""
  {
    if StartsWith(s, "--") then Line
    else if StartsWith(s, "/*") then Block
    else if s[0] == '\'' || s[0] == '"' then Quote
    else if TagLength(s).Some? then Dollar
    else if s[0] == ';' then Semicolon
    else Plain
  }

  // The length of the token at the start; none when a region has no end.
  function TokenLength(s: string): (n: Option<nat>)
    requires s != ""
  {
    match KindAt(s)
    case Line => Some(2 + LineLength(s[2..]))
    case Block => Plus(2, BlockLength(s[2..], 1))
    case Quote => Plus(1, QuoteLength(s[1..], s[0]))
    case Dollar =>
      var n := TagLength(s).value;
      Plus(n, DollarLength(s[n..], s[..n]))
    case _ => Some(1)
  }

  lemma {:induction false} QuoteFits(s: string, quote: char)
    ensures QuoteLength(s, quote).Some? ==>
            1 <= QuoteLength(s, quote).value <= |s| && s[QuoteLength(s, quote).value - 1] == quote
  {
    if s == "" {
    } else if s[0] != quote {
      QuoteFits(s[1..], quote);
    } else if |s| > 1 && s[1] == quote {
      QuoteFits(s[2..], quote);
    }
  }

  lemma {:induction false} LineFits(s: string)
    ensures LineLength(s) <= |s|
  {
    if s != "" { LineFits(s[1..]); }
  }

  lemma {:induction false} BlockFits(s: string, depth: nat)
    ensures BlockLength(s, depth).Some? ==>
            2 <= BlockLength(s, depth).value <= |s| && s[BlockLength(s, depth).value - 1] == '/'
    decreases |s|
  {
    if s == "" || depth == 0 {
    } else if StartsWith(s, "/*") {
      BlockFits(s[2..], depth + 1);
    } else if StartsWith(s, "*/") {
      assert s[..2][1] == s[1];
      if depth > 1 { BlockFits(s[2..], depth - 1); }
    } else {
      BlockFits(s[1..], depth);
    }
  }

  lemma {:induction false} DollarFits(s: string, tag: string)
    requires tag != "" && tag[|tag| - 1] == '$'
    ensures DollarLength(s, tag).Some? ==>
            1 <= DollarLength(s, tag).value <= |s| && s[DollarLength(s, tag).value - 1] == '$'
  {
    if StartsWith(s, tag) {
      assert s[..|tag|][|tag| - 1] == s[|tag| - 1];
    } else if s != "" {
      DollarFits(s[1..], tag);
    }
  }

  // A token is non-empty and inside the text; one that is neither a single character
  // nor a line comment ends with a character of its closing mark.
  lemma TokenFits(s: string)
    requires s != "" && TokenLength(s).Some?
    ensures 1 <= TokenLength(s).value <= |s|
    ensures KindAt(s) in {Block, Quote, Dollar} ==> s[TokenLength(s).value - 1] in {'/', '\'', '"', '$'}
  {
    match KindAt(s)
    case Line => LineFits(s[2..]);
    case Block => BlockFits(s[2..], 1);
    case Quote => QuoteFits(s[1..], s[0]);
    case Dollar =>
      var n := TagLength(s).value;
      assert s[..n][n - 1] == s[n - 1] == '$';
      DollarFits(s[n..], s[..n]);
    case _ =>
  }

  // The tokens of a text; none when it ends inside a region.
  function Lex(s: string): Option<seq<Token>>
    decreases |s|
  {
    if s == "" then Some([])
    else if TokenLength(s).None? then None
    else
      TokenFits(s);
      var n := TokenLength(s).value;
      var rest := Lex(s[n..]);
      if rest.None? then None else Some([Token(KindAt(s), s[..n])] + rest.value)
  }

  /******* Segments and statements *******/

  function Concat(tokens: seq<Token>): string {
    if tokens == [] then "" else tokens[0].text + Concat(tokens[1..])
  }

  // The raw texts between top-level semicolons.
  function Segments(tokens: seq<Token>): (r: seq<string>)
    ensures r != []
  {
    if tokens == [] then [""]
    else
      var rest := Segments(tokens[1..]);
      if tokens[0].kind == Semicolon then [""] + rest
      else [tokens[0].text + rest[0]] + rest[1..]
  }

  function Join(segments: seq<string>, separator: string): string
  {
    if segments == [] then ""
    else if |segments| == 1 then segments[0]
    else segments[0] + separator + Join(segments[1..], separator)
  }

  function StripLeft(s: string): string {
    if s != "" && IsSpace(s[0]) then StripLeft(s[1..]) else s
  }

  function StripRight(s: string): string {
    if s != "" && IsSpace(s[|s| - 1]) then StripRight(s[..|s| - 1]) else s
  }

  function Strip(s: string): string {
    StripRight(StripLeft(s))
  }

  function Statements(segments: seq<string>): seq<string> {
    if segments == [] then []
    else
      var last := Strip(segments[|segments| - 1]);
      Statements(segments[..|segments| - 1]) + if last == "" then [] else [last]
  }

  // The specification of the splitter; none when it raises.
  function Split(s: string): Option<seq<string>> {
    if Lex(s).None? then None else Some(Statements(Segments(Lex(s).value)))
  }

  function Prepend(text: string, segments: Option<seq<string>>): Option<seq<string>>
    requires segments.Some? ==> segments.value != []
  {
    if segments.None? then None else Some([text + segments.value[0]] + segments.value[1..])
  }

  function Raw(s: string): (r: Option<seq<string>>)
    ensures r.Some? ==> r.value != []
  {
    if Lex(s).None? then None else Some(Segments(Lex(s).value))
  }

  lemma PrependTwice(a: string, b: string, r: Option<seq<string>>)
    requires r.Some? ==> r.value != []
    ensures Prepend(a + b, r) == Prepend(a, Prepend(b, r))
    ensures Prepend("", r) == r
  {
    if r.Some? {
      assert (a + b) + r.value[0] == a + (b + r.value[0]);
      assert "" + r.value[0] == r.value[0];
      assert [r.value[0]] + r.value[1..] == r.value;
    }
  }

  lemma RawStep(s: string)
    requires s != ""
    ensures TokenLength(s).None? ==> Raw(s).None?
    ensures TokenLength(s).Some? ==>
            && TokenLength(s).value <= |s|
            && var n := TokenLength(s).value;
               Raw(s) == if KindAt(s) != Semicolon then Prepend(s[..n], Raw(s[n..]))
                         else if Raw(s[n..]).None? then None
                         else Some([""] + Raw(s[n..]).value)
  {
    if TokenLength(s).Some? {
      TokenFits(s);
      if Lex(s).Some? {
        assert Lex(s).value[1..] == Lex(s[TokenLength(s).value..]).value;
      }
    }
  }
}
