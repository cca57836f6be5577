// What the mask blanks out, stated on whole texts: strings, comments and nothing else; and
// the order in which edits apply.
module PatchRegions {
  import opened Options
  import opened PairOrder
  import opened Texts
  import opened Patching

  /******* Strings *******/

  // The inside of a string: characters, and escapes of anything but a line end.
  datatype Unit = Plain(c: char) | Escaped(c: char)

  predicate Writable(units: seq<Unit>) {
    forall u | u in units :: if u.Plain? then u.c != '"' && u.c != '\\' else u.c != '\n'
  }

  function Spelled(units: seq<Unit>): string {
    if units == [] then ""
    else (if units[0].Plain? then [units[0].c] else ['\\', units[0].c]) + Spelled(units[1..])
  }

  lemma {:induction false} StringEnds(units: seq<Unit>, rest: string)
    requires Writable(units)
    ensures StringLength(Spelled(units) + "\"" + rest) == Some(|Spelled(units)| + 1)
  {
    var s := Spelled(units) + "\"" + rest;
    if units != [] {
      StringEnds(units[1..], rest);
      assert units[0] in units && forall u | u in units[1..] :: u in units;
      var step := if units[0].Plain? then 1 else 2;
      assert s[step..] == Spelled(units[1..]) + "\"" + rest;
    }
  }

  lemma {:induction false} UnitJoins(first: Unit, units: seq<Unit>, text: string, rest: string)
    requires text == if first.Plain? then [first.c] else ['\\', first.c]
    ensures Spelled([first] + units) + "\"" + rest == text + (Spelled(units) + "\"" + rest)
  {
    assert ([first] + units)[1..] == units;
  }

  lemma {:induction false} StringRead(s: string) returns (units: seq<Unit>, rest: string)
    requires StringLength(s).Some?
    ensures Writable(units) && s == Spelled(units) + "\"" + rest
    decreases |s|
  {
    if s[0] == '"' {
      units, rest := [], s[1..];
      assert s == "" + "\"" + s[1..];
    } else {
      var step := if s[0] == '\\' then 2 else 1;
      units, rest := StringRead(s[step..]);
      var first := if s[0] == '\\' then Escaped(s[1]) else Plain(s[0]);
      assert s == s[..step] + s[step..];
      UnitJoins(first, units, s[..step], rest);
      units := [first] + units;
    }
  }

  lemma {:induction false} BlankedStart(s: string, n: nat)
    requires Hidden(s) == Some(n)
    ensures n <= |s| && Mask(s) == Blanks(n) + Mask(s[n..])
  {
    HiddenFits(s);
  }

  lemma {:induction false} StringLaw(units: seq<Unit>, rest: string)
    requires Writable(units)
    ensures Mask("\"" + Spelled(units) + "\"" + rest) == Blanks(|Spelled(units)| + 2) + Mask(rest)
  {
    var s, n := "\"" + Spelled(units) + "\"" + rest, |Spelled(units)| + 2;
    assert s[1..] == Spelled(units) + "\"" + rest && s[n..] == rest;
    StringEnds(units, rest);
    BlankedStart(s, n);
  }

  // A quote that no string starts with stays.
  lemma {:induction false} OpenQuoteLaw(s: string)
    requires forall units, rest | Writable(units) :: s != Spelled(units) + "\"" + rest
    ensures Mask("\"" + s) == "\"" + Mask(s)
  {
    if StringLength(s).Some? {
      var units, rest := StringRead(s);
      assert false;
    }
    assert ("\"" + s)[1..] == s;
  }

  /******* Comments *******/

  lemma {:induction false} LineReaches(body: string, rest: string)
    requires '\n' !in body && (rest == "" || rest[0] == '\n')
    ensures ToLineEnd(body + rest) == |body|
  {
    if body == "" {
      assert body + rest == rest;
    } else {
      assert (body + rest)[1..] == body[1..] + rest;
      LineReaches(body[1..], rest);
    }
  }

  // A line comment reaches up to its line end.
  lemma {:induction false} LineLaw(mark: string, body: string, rest: string)
    requires mark == "#" || mark == "//"
    requires '\n' !in body && (rest == "" || rest[0] == '\n')
    ensures Mask(mark + body + rest) == Blanks(|mark| + |body|) + Mask(rest)
  {
    var s := mark + body + rest;
    assert s == mark + (body + rest);
    assert s[|mark|..] == body + rest;
    assert s[|mark| + |body|..] == rest;
    LineReaches(body, rest);
    BlankedStart(s, |mark| + |body|);
  }

  lemma {:induction false} CommentReaches(body: string, rest: string)
    requires forall i | 0 <= i < |body| :: !("*/" <= (body + "*/")[i..])
    ensures CommentLength(body + "*/" + rest) == Some(|body| + 2)
  {
    var s := body + "*/" + rest;
    if body != "" {
      assert s[1..] == body[1..] + "*/" + rest;
      forall i | 0 <= i < |body| - 1 ensures !("*/" <= (body[1..] + "*/")[i..]) {
        assert (body + "*/")[i + 1..] == (body[1..] + "*/")[i..];
      }
      CommentReaches(body[1..], rest);
      assert (body + "*/")[0..] == body + "*/" && s[..2] == (body + "*/")[..2];
    }
  }

  // A block comment reaches to the first closing mark, whatever it holds.
  lemma {:induction false} CommentLaw(body: string, rest: string)
    requires forall i | 0 <= i < |body| :: !("*/" <= (body + "*/")[i..])
    ensures Mask("/*" + body + "*/" + rest) == Blanks(|body| + 4) + Mask(rest)
  {
    var s := "/*" + body + "*/" + rest;
    assert s[2..] == body + "*/" + rest && s[|body| + 4..] == rest;
    CommentReaches(body, rest);
    BlankedStart(s, |body| + 4);
  }

  lemma {:induction false} CommentStaysOpen(body: string)
    requires forall i | 0 <= i <= |body| :: !("*/" <= body[i..])
    ensures CommentLength(body) == None
  {
    assert body[0..] == body;
    if |body| >= 2 {
      assert body[..2] == [body[0], body[1]];
      forall i | 0 <= i <= |body| - 1 ensures !("*/" <= body[1..][i..]) {
        assert body[1..][i..] == body[i + 1..];
      }
      CommentStaysOpen(body[1..]);
    }
  }

  lemma {:induction false} OpenCommentLaw(body: string)
    requires forall i | 0 <= i <= |body| :: !("*/" <= body[i..])
    ensures Mask("/*" + body) == "/" + Mask("*" + body)
  {
    var s := "/*" + body;
    assert s[2..] == body && s[1..] == "*" + body;
    CommentStaysOpen(body);
  }

  /******* The rest *******/

  lemma {:induction false} PlainLaw(s: string)
    requires s != "" && s[0] != '"' && s[0] != '#' && !("//" <= s) && !("/*" <= s)
    ensures Mask(s) == [s[0]] + Mask(s[1..])
    ensures Mask("") == ""
  {
    if |s| > 1 {
      assert s[..2] == [s[0], s[1]];
    }
  }

  // What is blanked out is blank.
  lemma BlanksAre(n: nat)
    ensures |Blanks(n)| == n && forall i | 0 <= i < n :: Blanks(n)[i] == ' '
  {
  }

  /******* The order of edits *******/

  // Edits at different places that do not overlap ascend as they stand in the text, so
  // sorted and reversed they apply from the last to the first.
  lemma ApartAscends(edits: seq<Edit>, count: nat)
    requires Apart(edits, count)
    requires forall i, j | 0 <= i < j < |edits| :: edits[i].start < edits[j].start
    ensures Ascending(edits)
  {
  }
}
