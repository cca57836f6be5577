// The splitter of the migration runner: one loop over the script with quote and comment
// flags, proved against the recursive lexer.
module SqlSplitter {
  import opened Options
  import opened SqlLexer
  import opened Texts

  // What the flags of the loop stand for.
  datatype Mode = Top | InQuote(quote: char) | InLine | InBlock(depth: Depth) | InDollar(tag: Tag)

  type Depth = n: nat | n > 0 witness 1

  // What a match of the dollar tag looks like.
  type Tag = s: string | |s| > 1 && s[|s| - 1] == '$' witness "$$"

  function RegionRest(mode: Mode, s: string): Option<nat> {
    match mode
    case Top => Some(0)
    case InQuote(quote) => QuoteLength(s, quote)
    case InLine => Some(LineLength(s))
    case InBlock(depth) => BlockLength(s, depth)
    case InDollar(tag) => DollarLength(s, tag)
  }

  lemma RestFits(mode: Mode, s: string)
    ensures RegionRest(mode, s).Some? ==> RegionRest(mode, s).value <= |s|
  {
    match mode
    case Top =>
    case InQuote(quote) => QuoteFits(s, quote);
    case InLine => LineFits(s);
    case InBlock(depth) => BlockFits(s, depth);
    case InDollar(tag) => DollarFits(s, tag);
  }

  // The raw segments of what is left when the loop stands in some mode.
  function Remaining(mode: Mode, s: string): (r: Option<seq<string>>)
    ensures r.Some? ==> r.value != []
  {
    if RegionRest(mode, s).None? then None
    else
      RestFits(mode, s);
      Prepend(s[..RegionRest(mode, s).value], Raw(s[RegionRest(mode, s).value..]))
  }

  // Segments found, the text of the current one, and those still to come.
  function Whole(done: seq<string>, current: string, rest: Option<seq<string>>): Option<seq<string>>
    requires rest.Some? ==> rest.value != []
  {
    if rest.None? then None else Some(done + Prepend(current, rest).value)
  }

  lemma CutTwice(s: string, k: nat, m: nat)
    requires k <= k + m <= |s|
    ensures s[k..][m..] == s[k + m..] && s[..k + m] == s[..k] + s[k..][..m]
  {
  }

  // Consuming k characters inside a region that goes on, or just ended.
  lemma Consumes(mode: Mode, s: string, k: nat, next: Mode)
    requires k <= |s|
    requires RegionRest(mode, s) == Plus(k, RegionRest(next, s[k..]))
    ensures Remaining(mode, s) == Prepend(s[..k], Remaining(next, s[k..]))
  {
    RestFits(next, s[k..]);
    if RegionRest(next, s[k..]).Some? {
      RestFound(mode, s, k + RegionRest(next, s[k..]).value);
      RestFound(next, s[k..], RegionRest(next, s[k..]).value);
      CutTwice(s, k, RegionRest(next, s[k..]).value);
      PrependTwice(s[..k], s[k..][..RegionRest(next, s[k..]).value], Raw(s[k + RegionRest(next, s[k..]).value..]));
    }
  }

  lemma RestFound(mode: Mode, s: string, m: nat)
    requires RegionRest(mode, s) == Some(m) && m <= |s|
    ensures Remaining(mode, s) == Prepend(s[..m], Raw(s[m..]))
  {
  }

  lemma TopIsRaw(s: string)
    ensures Remaining(Top, s) == Raw(s)
  {
    assert s[0..] == s;
    PrependTwice("", "", Raw(s));
  }

  // At the top level a region is opened by its mark, and another character is its own token.
  lemma Opens(s: string, k: nat, next: Mode)
    requires s != "" && k <= |s| && KindAt(s) != Semicolon
    requires TokenLength(s) == Plus(k, RegionRest(next, s[k..]))
    ensures Remaining(Top, s) == Prepend(s[..k], Remaining(next, s[k..]))
  {
    TopIsRaw(s);
    if TokenLength(s).None? {
      RawStep(s);
    } else {
      OneToken(s, TokenLength(s).value);
      OpensWhole(s, k, next, RegionRest(next, s[k..]).value);
    }
  }

  lemma OneToken(s: string, m: nat)
    requires s != "" && KindAt(s) != Semicolon && TokenLength(s) == Some(m)
    ensures m <= |s| && Raw(s) == Prepend(s[..m], Raw(s[m..]))
  {
    RawStep(s);
  }

  lemma OpensWhole(s: string, k: nat, next: Mode, m: nat)
    requires s != "" && k + m <= |s| && RegionRest(next, s[k..]) == Some(m)
    ensures Prepend(s[..k + m], Raw(s[k + m..])) == Prepend(s[..k], Remaining(next, s[k..]))
  {
    RestFound(next, s[k..], m);
    CutTwice(s, k, m);
    PrependTwice(s[..k], s[k..][..m], Raw(s[k + m..]));
  }

  lemma SeparatorStep(s: string)
    requires s != "" && KindAt(s) == Semicolon
    ensures var rest := Remaining(Top, s[1..]);
            Remaining(Top, s) == if rest.None? then None else Some([""] + rest.value)
  {
    RawStep(s);
    TopIsRaw(s);
    TopIsRaw(s[1..]);
  }

  // What one turn of the loop consumes, and the mode it leaves.
  function Next(mode: Mode, s: string): (int, Mode)
    requires s != ""
  {
    match mode
    case InLine => (1, if s[0] == '\n' then Top else InLine)
    case InBlock(depth) =>
      if StartsWith(s, "/*") then (2, InBlock(depth + 1))
      else if StartsWith(s, "*/") then (2, if depth == 1 then Top else InBlock(depth - 1))
      else (1, mode)
    case InDollar(tag) => if StartsWith(s, tag) then (|tag|, Top) else (1, mode)
    case InQuote(quote) =>
      if s[0] != quote then (1, mode) else if |s| > 1 && s[1] == quote then (2, mode) else (1, Top)
    case Top =>
      match KindAt(s)
      case Line => (2, InLine)
      case Block => (2, InBlock(1))
      case Quote => (1, InQuote(s[0]))
      case Dollar => (TagLength(s).value, InDollar(s[..TagLength(s).value]))
      case _ => (1, Top)
  }

  lemma Stepped(mode: Mode, s: string, k: nat, next: Mode)
    requires s != "" && Next(mode, s) == (k, next)
    requires mode == Top ==> KindAt(s) != Semicolon
    ensures k <= |s|
    ensures Remaining(mode, s) == Prepend(s[..k], Remaining(next, s[k..]))
  {
    if mode == Top {
      if KindAt(s) == Dollar {
        assert s[..k][k - 1] == s[k - 1];
      }
      Opens(s, k, next);
    } else {
      Consumes(mode, s, k, next);
    }
  }

  /******* The loop *******/

  lemma Appends(done: seq<string>, current: string, text: string, rest: Option<seq<string>>)
    requires rest.Some? ==> rest.value != []
    ensures Whole(done, current, Prepend(text, rest)) == Whole(done, current + text, rest)
  {
    PrependTwice(current, text, rest);
  }

  lemma Closes(done: seq<string>, current: string, rest: Option<seq<string>>)
    requires rest.Some? ==> rest.value != []
    ensures Whole(done, current, if rest.None? then None else Some([""] + rest.value))
         == Whole(done + [current], "", rest)
  {
    PrependTwice("", "", rest);
    if rest.Some? {
      var closed := [""] + rest.value;
      assert closed[0] == "" && closed[1..] == rest.value && current + "" == current;
      assert Prepend(current, Some(closed)).value == [current] + rest.value;
      assert done + ([current] + rest.value) == (done + [current]) + rest.value;
    }
  }

  // The list with one more text, if that is not blank.
  function Kept(statements: seq<string>, statement: string): seq<string> {
    if statement == "" then statements else statements + [statement]
  }

  lemma {:induction false} StatementsSnoc(done: seq<string>, current: string)
    ensures Statements(done + [current]) == Kept(Statements(done), Strip(current))
  {
    assert (done + [current])[..|done|] == done;
  }

  // The flags of the loop; at most one is set.
  datatype AllFlags = Flags(
    singleQuote: bool, doubleQuote: bool, lineComment: bool, depth: nat, dollarTag: Option<Tag>)

  type Flags = f: AllFlags | f == FlagsOf(ModeOf(f)) witness OUTSIDE

  const OUTSIDE := Flags(false, false, false, 0, None)

  function FlagsOf(mode: Mode): AllFlags {
    match mode
    case Top => OUTSIDE
    case InQuote(quote) => OUTSIDE.(singleQuote := quote == '\'', doubleQuote := quote == '"')
    case InLine => OUTSIDE.(lineComment := true)
    case InBlock(depth) => OUTSIDE.(depth := depth)
    case InDollar(tag) => OUTSIDE.(dollarTag := Some(tag))
  }

  function ModeOf(flags: AllFlags): Mode {
    if flags.lineComment then InLine
    else if flags.depth > 0 then InBlock(flags.depth)
    else if flags.dollarTag.Some? then InDollar(flags.dollarTag.value)
    else if flags.singleQuote then InQuote('\'')
    else if flags.doubleQuote then InQuote('"')
    else Top
  }

  // The segments of the whole script, seen from the loop at an index: those done, the
  // text of the current one, and those that remain.
  function Seen(source: string, done: seq<string>, current: string, mode: Mode, index: nat): Option<seq<string>>
    requires index <= |source|
  {
    Whole(done, current, Remaining(mode, source[index..]))
  }

  lemma Starts(source: string)
    ensures Seen(source, [], "", Top, 0) == Raw(source)
  {
    assert source[0..] == source && source[..0] == "";
    PrependTwice("", "", Raw(source));
    if Raw(source).Some? {
      assert [] + Raw(source).value == Raw(source).value;
    }
  }

  lemma Turn(source: string, done: seq<string>, current: string, mode: Mode, index: nat, text: string, next: Mode)
    requires index < |source|
    requires mode == Top ==> KindAt(source[index..]) != Semicolon
    requires Next(mode, source[index..]) == (|text|, next)
    requires StartsWith(source[index..], text)
    ensures Seen(source, done, current + text, next, index + |text|) == Seen(source, done, current, mode, index)
  {
    var rest := source[index..];
    Stepped(mode, rest, |text|, next);
    assert source[index + |text|..] == rest[|text|..];
    assert Remaining(mode, rest) == Prepend(text, Remaining(next, rest[|text|..]));
    Appends(done, current, text, Remaining(next, rest[|text|..]));
  }

  lemma {:induction false} Separator(source: string, done: seq<string>, current: string, index: nat)
    requires index < |source| && KindAt(source[index..]) == Semicolon
    ensures Seen(source, done + [current], "", Top, index + 1) == Seen(source, done, current, Top, index)
    ensures Statements(done + [current]) == Kept(Statements(done), Strip(current))
  {
    StatementsSnoc(done, current);
    var rest := source[index..];
    SeparatorStep(rest);
    Closes(done, current, Remaining(Top, rest[1..]));
    assert source[index + 1..] == rest[1..];
  }

  // At the end of the script an open region is an error; else the last segment is whole.
  lemma Ends(source: string, done: seq<string>, current: string, mode: Mode)
    ensures Seen(source, done, current, mode, |source|)
         == if mode == Top || mode == InLine then Some(done + [current]) else None
  {
    assert source[|source|..] == "";
    if mode == Top || mode == InLine {
      assert Raw("") == Some([""]) && ""[..0] == "" && ""[0..] == "";
      PrependTwice("", "", Raw(""));
      assert current + "" == current && [""][1..] == [] && [current] + [] == [current];
      assert Remaining(mode, "") == Raw("");
      assert Whole(done, current, Raw("")).value == done + [current];
    }
  }

  // A turn of the loop inside a region: the text consumed, and the flags after it.
  method InRegion(source: string, index: nat, flags: Flags) returns (text: string, flags': Flags)
    requires index < |source| && flags != OUTSIDE
    ensures text != "" && StartsWith(source[index..], text)
    ensures Next(ModeOf(flags), source[index..]) == (|text|, ModeOf(flags'))
  {
    text, flags' := [source[index]], flags;
    if flags.lineComment {
      if source[index] == '\n' {
        flags' := OUTSIDE;
      }
    } else if flags.depth > 0 {
      if StartsWith(source[index..], "/*") {
        text, flags' := "/*", flags.(depth := flags.depth + 1);
      } else if StartsWith(source[index..], "*/") {
        text, flags' := "*/", flags.(depth := flags.depth - 1);
      }
    } else if flags.dollarTag.Some? {
      if StartsWith(source[index..], flags.dollarTag.value) {
        text, flags' := flags.dollarTag.value, OUTSIDE;
      }
    } else {
      var quote := if flags.singleQuote then '\'' else '"';
      if source[index] == quote {
        if index + 1 < |source| && source[index + 1] == quote {
          text := text + [quote];
        } else {
          flags' := OUTSIDE;
        }
      }
    }
  }

  // A turn of the loop outside the regions, at anything but a semicolon.
  method OutsideRegions(source: string, index: nat) returns (text: string, flags: Flags)
    requires index < |source| && KindAt(source[index..]) != Semicolon
    ensures text != "" && StartsWith(source[index..], text)
    ensures Next(Top, source[index..]) == (|text|, ModeOf(flags))
  {
    text, flags := [source[index]], OUTSIDE;
    if StartsWith(source[index..], "--") {
      text, flags := "--", flags.(lineComment := true);
    } else if StartsWith(source[index..], "/*") {
      text, flags := "/*", flags.(depth := 1);
    } else if source[index] == '\'' {
      flags := flags.(singleQuote := true);
    } else if source[index] == '"' {
      flags := flags.(doubleQuote := true);
    } else {
      var tagLength := TagLength(source[index..]);
      if tagLength.Some? {
        text := source[index..][..tagLength.value];
        assert text[|text| - 1] == source[index..][tagLength.value - 1] == '$';
        flags := flags.(dollarTag := Some(text));
      }
    }
  }

  // A semicolon outside every region.
  predicate Separates(rest: string, flags: Flags) {
    flags == OUTSIDE && rest != "" && KindAt(rest) == Semicolon
  }

  // A turn at anything but a semicolon between statements keeps the segments seen.
  method Consume(source: string, index: nat, flags: Flags, ghost done: seq<string>, ghost current: string)
    returns (text: string, flags': Flags)
    requires index < |source| && !Separates(source[index..], flags)
    ensures text != "" && index + |text| <= |source|
    ensures Seen(source, done, current + text, ModeOf(flags'), index + |text|)
         == Seen(source, done, current, ModeOf(flags), index)
  {
    if flags != OUTSIDE {
      text, flags' := InRegion(source, index, flags);
    } else {
      text, flags' := OutsideRegions(source, index);
    }
    Turn(source, done, current, ModeOf(flags), index, text, ModeOf(flags'));
  }

  // A turn at such a semicolon closes the segment, and keeps it when it is not blank.
  method Close(source: string, statements: seq<string>, current: string, index: nat, ghost done: seq<string>)
    returns (statements': seq<string>)
    requires index < |source| && Separates(source[index..], OUTSIDE) && statements == Statements(done)
    ensures statements' == Statements(done + [current])
    ensures Seen(source, done + [current], "", Top, index + 1) == Seen(source, done, current, Top, index)
  {
    StatementsSnoc(done, current);
    Separator(source, done, current, index);
    statements' := Kept(statements, Strip(current));
  }

  // One turn of the loop.
  method OneTurn(source: string, statements: seq<string>, current: string, index: nat, flags: Flags,
                 ghost done: seq<string>)
    returns (statements': seq<string>, current': string, index': nat, flags': Flags, ghost done': seq<string>)
    requires index < |source| && statements == Statements(done)
    ensures index < index' <= |source| && statements' == Statements(done')
    ensures Seen(source, done', current', ModeOf(flags'), index') == Seen(source, done, current, ModeOf(flags), index)
  {
    if Separates(source[index..], flags) {
      statements' := Close(source, statements, current, index, done);
      current', index', flags', done' := "", index + 1, flags, done + [current];
    } else {
      var text;
      text, flags' := Consume(source, index, flags, done, current);
      statements', current', index', done' := statements, current + text, index + |text|, done;
    }
  }

  // The end of the script: an open region is an error.
  method Finish(source: string, statements: seq<string>, current: string, flags: Flags, ghost done: seq<string>)
    returns (result: Option<seq<string>>)
    requires statements == Statements(done)
    requires Seen(source, done, current, ModeOf(flags), |source|) == Raw(source)
    ensures result == Split(source)
  {
    Ends(source, done, current, ModeOf(flags));
    StatementsSnoc(done, current);
    if flags.singleQuote || flags.doubleQuote || flags.depth > 0 || flags.dollarTag.Some? {
      return None;
    }
    result := Some(Kept(statements, Strip(current)));
  }

  // split_postgresql_script; none stands for the raised error.
  method SplitScript(source: string) returns (result: Option<seq<string>>)
    ensures result == Split(source)
  {
    var statements: seq<string> := [];
    var current, index, flags: Flags := "", 0, OUTSIDE;
    ghost var done := [];
    Starts(source);
    while index < |source|
      invariant index <= |source|
      invariant statements == Statements(done)
      invariant Seen(source, done, current, ModeOf(flags), index) == Raw(source)
      decreases |source| - index
    {
      statements, current, index, flags, done := OneTurn(source, statements, current, index, flags, done);
    }
    result := Finish(source, statements, current, flags, done);
  }
}
