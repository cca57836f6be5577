// Patches by position: line edits applied from the last to the first, and a fragment
// inserted before the closing brace of a block.
module Patching {
  import opened Options
  import opened PairOrder
  import opened Texts

  /******* Line edits *******/

  // Lines start up to end become one replacement; an empty range inserts.
  datatype Edit = Edit(start: nat, end: nat, replacement: string)

  // The order of tuples.
  predicate Before(a: Edit, b: Edit) {
    || a.start < b.start
    || (a.start == b.start && a.end < b.end)
    || (a.start == b.start && a.end == b.end && TextLess(a.replacement, b.replacement))
  }

  lemma BeforeTotal(a: Edit, b: Edit)
    ensures a == b || Before(a, b) || Before(b, a)
  {
    TextLessTotal(a.replacement, b.replacement);
  }

  lemma BeforeTransitive(a: Edit, b: Edit, c: Edit)
    requires Before(a, b) && Before(b, c)
    ensures Before(a, c)
  {
    if a.start == c.start && a.end == c.end {
      TextLessTransitive(a.replacement, b.replacement, c.replacement);
    }
  }

  lemma BeforeNotBack(a: Edit, b: Edit)
    requires Before(a, b)
    ensures !Before(b, a)
  {
    TextLessTotal(a.replacement, b.replacement);
  }

  predicate Ascending(edits: seq<Edit>) {
    forall i, j | 0 <= i < j < |edits| :: edits[i] == edits[j] || Before(edits[i], edits[j])
  }

  // Inside the text, and none reaching into another.
  predicate Apart(edits: seq<Edit>, count: nat) {
    && (forall i | 0 <= i < |edits| :: edits[i].start <= edits[i].end <= count)
    && (forall i, j | 0 <= i < j < |edits| :: edits[i].end <= edits[j].start)
  }

  // All edits at once on the original lines, from some line on.
  function Together(lines: seq<string>, edits: seq<Edit>, from: nat): seq<string>
    requires from <= |lines| && Apart(edits, |lines|)
    requires forall i | 0 <= i < |edits| :: from <= edits[i].start
  {
    if edits == [] then lines[from..]
    else lines[from..edits[0].start] + ([edits[0].replacement] + Together(lines, edits[1..], edits[0].end))
  }

  function Replaced(lines: seq<string>, e: Edit): seq<string>
    requires e.start <= e.end <= |lines|
  {
    lines[..e.start] + ([e.replacement] + lines[e.end..])
  }

  // Only the lines from the first edit on differ.
  lemma {:induction false} TogetherFrom(lines: seq<string>, edits: seq<Edit>, from: nat)
    requires from <= |lines| && Apart(edits, |lines|)
    requires forall i | 0 <= i < |edits| :: from <= edits[i].start
    ensures Together(lines, edits, 0) == lines[..from] + Together(lines, edits, from)
  {
    if edits == [] {
      assert lines[0..] == lines[..from] + lines[from..];
    } else {
      SplitFront(lines, from, edits[0].start, [edits[0].replacement] + Together(lines, edits[1..], edits[0].end));
    }
  }

  lemma SplitFront(lines: seq<string>, from: nat, to: nat, tail: seq<string>)
    requires from <= to <= |lines|
    ensures lines[0..to] + tail == lines[..from] + (lines[from..to] + tail)
  {
  }

  // The first edit, applied after all later ones, is as good as together with them.
  lemma {:induction false} FirstLast(lines: seq<string>, edits: seq<Edit>)
    requires edits != [] && Apart(edits, |lines|)
    ensures Apart(edits[1..], |lines|)
    ensures var rest := Together(lines, edits[1..], 0);
            edits[0].end <= |rest| && Replaced(rest, edits[0]) == Together(lines, edits, 0)
  {
    var e, later := edits[0], edits[1..];
    TogetherFrom(lines, later, e.end);
    var rest := Together(lines, later, 0);
    assert rest[..e.start] == lines[0..e.start];
    assert rest[e.end..] == Together(lines, later, e.end);
  }

  // Where an edit goes in an ascending list.
  method Insert(sorted: seq<Edit>, e: Edit) returns (r: seq<Edit>)
    requires Ascending(sorted)
    ensures Ascending(r) && multiset(r) == multiset(sorted) + multiset{e}
  {
    var k := 0;
    while k < |sorted| && (sorted[k] == e || Before(sorted[k], e))
      invariant k <= |sorted|
      invariant forall i | 0 <= i < k :: sorted[i] == e || Before(sorted[i], e)
    {
      k := k + 1;
    }
    r := sorted[..k] + [e] + sorted[k..];
    assert sorted == sorted[..k] + sorted[k..];
    InsertedAscending(sorted, e, k);
  }

  // The place of an edit: behind those not after it.
  lemma InsertedAscending(sorted: seq<Edit>, e: Edit, k: nat)
    requires Ascending(sorted) && k <= |sorted|
    requires forall i | 0 <= i < k :: sorted[i] == e || Before(sorted[i], e)
    requires k < |sorted| ==> sorted[k] != e && !Before(sorted[k], e)
    ensures Ascending(sorted[..k] + [e] + sorted[k..])
  {
    forall i | k <= i < |sorted| ensures Before(e, sorted[i]) {
      BeforeTotal(e, sorted[k]);
      if i > k && sorted[k] != sorted[i] {
        BeforeTransitive(e, sorted[k], sorted[i]);
      }
    }
    var r := sorted[..k] + [e] + sorted[k..];
    forall i, j | 0 <= i < j < |r| ensures r[i] == r[j] || Before(r[i], r[j]) {
      var a, b := if i < k then i else i - 1, if j < k then j else j - 1;
      assert i != k ==> r[i] == sorted[a];
      assert j != k ==> r[j] == sorted[b];
    }
  }

  // sorted(edits), by insertion.
  method SortEdits(edits: seq<Edit>) returns (sorted: seq<Edit>)
    ensures Ascending(sorted) && multiset(sorted) == multiset(edits)
  {
    sorted := [];
    for i := 0 to |edits|
      invariant Ascending(sorted) && multiset(sorted) == multiset(edits[..i])
    {
      assert edits[..i + 1] == edits[..i] + [edits[i]];
      sorted := Insert(sorted, edits[i]);
    }
    assert edits[..|edits|] == edits;
  }

  lemma HeadLeast(a: seq<Edit>, e: Edit)
    requires Ascending(a) && e in multiset(a)
    ensures e == a[0] || Before(a[0], e)
  {
    var i :| 0 <= i < |a| && a[i] == e;
  }

  lemma SameTails(a: seq<Edit>, b: seq<Edit>)
    requires a != [] && b != [] && a[0] == b[0] && multiset(a) == multiset(b)
    ensures multiset(a[1..]) == multiset(b[1..])
  {
    assert a == [a[0]] + a[1..] && b == [b[0]] + b[1..];
    assert multiset(a[1..]) == multiset(a) - multiset{a[0]};
  }

  // An ascending list is determined by its elements.
  lemma {:induction false} AscendingUnique(a: seq<Edit>, b: seq<Edit>)
    requires Ascending(a) && Ascending(b) && multiset(a) == multiset(b)
    ensures a == b
  {
    if a == [] {
      assert |multiset(b)| == 0;
    } else {
      assert a[0] in multiset(b) && b[0] in multiset(a);
      assert a[0] == b[0] by {
        HeadLeast(a, b[0]);
        HeadLeast(b, a[0]);
        BeforeTotal(a[0], b[0]);
        if Before(a[0], b[0]) {
          BeforeNotBack(a[0], b[0]);
        }
      }
      SameTails(a, b);
      AscendingUnique(a[1..], b[1..]);
      assert a == [a[0]] + a[1..] && b == [b[0]] + b[1..];
    }
  }

  lemma AppliedNext(lines: seq<string>, sorted: seq<Edit>, i: nat)
    requires i < |sorted| && Apart(sorted, |lines|)
    ensures Apart(sorted[i..], |lines|) && Apart(sorted[i + 1..], |lines|)
    ensures var later := Together(lines, sorted[i + 1..], 0);
            sorted[i].end <= |later| && Replaced(later, sorted[i]) == Together(lines, sorted[i..], 0)
  {
    assert sorted[i..][0] == sorted[i] && sorted[i..][1..] == sorted[i + 1..];
    FirstLast(lines, sorted[i..]);
  }

  // edit(): the edits in reverse order, each a slice assignment. For edits that do not
  // overlap this is all of them at once, in whatever order they were listed.
  method ApplyEdits(source: seq<string>, edits: seq<Edit>, ghost ordered: seq<Edit>) returns (lines: seq<string>)
    requires Ascending(ordered) && multiset(ordered) == multiset(edits) && Apart(ordered, |source|)
    ensures lines == Together(source, ordered, 0)
  {
    var sorted := SortEdits(edits);
    AscendingUnique(sorted, ordered);
    lines := source;
    var i := |sorted|;
    assert sorted[i..] == [];
    while i > 0
      invariant i <= |sorted| && Apart(sorted, |source|)
      invariant Apart(sorted[i..], |source|) && lines == Together(source, sorted[i..], 0)
    {
      i := i - 1;
      var e := sorted[i];
      AppliedNext(source, sorted, i);
      lines := lines[..e.start] + ([e.replacement] + lines[e.end..]);
    }
    assert sorted[0..] == sorted;
  }

  /******* Masking strings and comments *******/

  // The match of "(?:\\.|[^"\\])*" after its opening quote.
  function StringLength(s: string): Option<nat> {
    if s == "" then None
    else if s[0] == '"' then Some(1)
    else if s[0] == '\\' then
      if |s| > 1 && s[1] != '\n' then Plus(2, StringLength(s[2..])) else None
    else Plus(1, StringLength(s[1..]))
  }

  function ToLineEnd(s: string): nat {
    if s == "" || s[0] == '\n' then 0 else 1 + ToLineEnd(s[1..])
  }

  function CommentLength(s: string): Option<nat> {
    if |s| < 2 then None
    else if s[0] == '*' && s[1] == '/' then Some(2)
    else Plus(1, CommentLength(s[1..]))
  }

  // The string or comment that starts a text.
  function Hidden(s: string): Option<nat> {
    if s == "" then None
    else if s[0] == '"' then Plus(1, StringLength(s[1..]))
    else if s[0] == '#' then Some(1 + ToLineEnd(s[1..]))
    else if s[0] == '/' && |s| > 1 && s[1] == '/' then Some(2 + ToLineEnd(s[2..]))
    else if s[0] == '/' && |s| > 1 && s[1] == '*' then Plus(2, CommentLength(s[2..]))
    else None
  }

  lemma {:induction false} StringFits(s: string)
    ensures StringLength(s).Some? ==> 1 <= StringLength(s).value <= |s|
    decreases |s|
  {
    if s != "" && s[0] == '\\' {
      if |s| > 1 { StringFits(s[2..]); }
    } else if s != "" {
      StringFits(s[1..]);
    }
  }

  lemma {:induction false} LineFits(s: string)
    ensures ToLineEnd(s) <= |s|
  {
    if s != "" && s[0] != '\n' { LineFits(s[1..]); }
  }

  lemma {:induction false} CommentFits(s: string)
    ensures CommentLength(s).Some? ==> 2 <= CommentLength(s).value <= |s|
  {
    if |s| >= 2 { CommentFits(s[1..]); }
  }

  lemma HiddenFits(s: string)
    ensures Hidden(s).Some? ==> 1 <= Hidden(s).value <= |s|
  {
    if s != "" {
      StringFits(s[1..]);
      LineFits(s[1..]);
      if |s| > 1 {
        LineFits(s[2..]);
        CommentFits(s[2..]);
      }
    }
  }

  function Blanks(n: nat): string {
    seq(n, i => ' ')
  }

  // The text with strings and comments blanked out, position by position.
  function Mask(s: string): (r: string)
    ensures |r| == |s|
    decreases |s|
  {
    HiddenFits(s);
    if s == "" then ""
    else if Hidden(s).Some? then Blanks(Hidden(s).value) + Mask(s[Hidden(s).value..])
    else [s[0]] + Mask(s[1..])
  }

  /******* Braces *******/

  function Weight(c: char): int {
    if c == '{' then 1 else if c == '}' then -1 else 0
  }

  function Depth(s: string): int {
    if s == "" then 0 else Depth(s[..|s| - 1]) + Weight(s[|s| - 1])
  }

  lemma {:induction false} DepthConcat(a: string, b: string)
    ensures Depth(a + b) == Depth(a) + Depth(b)
  {
    if b == "" {
      assert a + b == a;
    } else {
      assert (a + b)[..|a + b| - 1] == a + b[..|b| - 1];
      DepthConcat(a, b[..|b| - 1]);
    }
  }

  // The depth counts the opening braces less the closing ones.
  lemma {:induction false} DepthCounts(s: string)
    ensures var opening, closing: int := multiset(s)['{'], multiset(s)['}'];
            Depth(s) == opening - closing
  {
    if s != "" {
      var front, last := s[..|s| - 1], s[|s| - 1];
      DepthCounts(front);
      assert s == front + [last];
      assert multiset(s) == multiset(front) + multiset{last};
    }
  }

  function DepthThrough(s: string, start: nat, p: nat): int
    requires start <= p < |s|
  {
    Depth(s[start..p + 1])
  }

  lemma DepthNext(s: string, start: nat, p: nat)
    requires start <= p < |s|
    ensures DepthThrough(s, start, p) == Depth(s[start..p]) + Weight(s[p])
  {
    assert s[start..p + 1] == s[start..p] + [s[p]];
    assert s[start..p + 1][..p - start] == s[start..p];
  }

  // The first position from a start where the braces balance.
  predicate Closes(masked: string, start: nat, end: nat) {
    && start <= end < |masked|
    && DepthThrough(masked, start, end) == 0
    && forall p | start <= p < end :: DepthThrough(masked, start, p) != 0
  }

  // The loop of block() over the masked text; none stands for the unbalanced error.
  method FindClose(masked: string, start: nat) returns (end: Option<nat>)
    requires start < |masked|
    ensures end.Some? ==> Closes(masked, start, end.value)
    ensures end.None? ==> forall e :: !Closes(masked, start, e)
  {
    var depth := 0;
    for pos := start to |masked|
      invariant depth == Depth(masked[start..pos])
      invariant forall p | start <= p < pos :: DepthThrough(masked, start, p) != 0
    {
      DepthNext(masked, start, pos);
      depth := depth + (if masked[pos] == '{' then 1 else 0) - (if masked[pos] == '}' then 1 else 0);
      if depth == 0 {
        return Some(pos);
      }
    }
    return None;
  }

  // From an opening brace the depth stays positive until the close, which is a brace.
  lemma {:induction false} InsideIsDeep(masked: string, start: nat, end: nat, p: nat)
    requires Closes(masked, start, end) && masked[start] == '{' && start <= p < end
    ensures DepthThrough(masked, start, p) >= 1
  {
    DepthNext(masked, start, p);
    if p > start {
      InsideIsDeep(masked, start, end, p - 1);
    } else {
      assert masked[start..p] == "";
    }
  }

  lemma CloseIsBrace(masked: string, start: nat, end: nat)
    requires Closes(masked, start, end) && masked[start] == '{'
    ensures start < end && masked[end] == '}' && Depth(masked[start..end]) == 1
  {
    assert masked[start..start] == "";
    DepthNext(masked, start, end);
    if start < end {
      InsideIsDeep(masked, start, end, end - 1);
    }
  }

  /******* Inserting a fragment *******/

  predicate Balanced(s: string) {
    Depth(s) == 0 && forall n | 0 <= n <= |s| :: Depth(s[..n]) >= 0
  }

  lemma BeforeInsertion(a: string, b: string, fragment: string, start: nat, p: nat)
    requires start <= p < |a| && b != ""
    ensures DepthThrough(a + fragment + b, start, p) == DepthThrough(a + b, start, p)
  {
    assert (a + fragment + b)[start..p + 1] == a[start..p + 1] == (a + b)[start..p + 1];
  }

  lemma InsideInsertion(a: string, b: string, fragment: string, start: nat, n: nat)
    requires start <= |a| && n < |fragment|
    ensures DepthThrough(a + fragment + b, start, |a| + n) == Depth(a[start..]) + Depth(fragment[..n + 1])
  {
    assert (a + fragment + b)[start..|a| + n + 1] == a[start..] + fragment[..n + 1];
    DepthConcat(a[start..], fragment[..n + 1]);
  }

  lemma InsertedSlice(a: string, b: string, fragment: string, start: nat)
    requires start <= |a| && b != ""
    ensures (a + fragment + b)[start..|a| + |fragment| + 1] == a[start..] + fragment + [b[0]]
  {
  }

  lemma {:induction false} AtInsertedClose(a: string, b: string, fragment: string, start: nat)
    requires start <= |a| && b != "" && b[0] == '}'
    ensures DepthThrough(a + fragment + b, start, |a| + |fragment|) == Depth(a[start..]) + Depth(fragment) - 1
  {
    InsertedSlice(a, b, fragment, start);
    DepthConcat(a[start..] + fragment, [b[0]]);
    DepthConcat(a[start..], fragment);
    assert [b[0]][..0] == "";
  }

  // A balanced fragment before the closing brace moves that brace and nothing else.
  lemma InsertedMasked(a: string, b: string, start: nat, fragment: string)
    requires Closes(a + b, start, |a|) && (a + b)[start] == '{' && Balanced(fragment)
    ensures Closes(a + fragment + b, start, |a| + |fragment|)
  {
    CloseIsBrace(a + b, start, |a|);
    assert (a + b)[start..|a|] == a[start..] && (a + b)[|a|] == b[0];
    forall p | start <= p < |a| + |fragment| ensures DepthThrough(a + fragment + b, start, p) != 0 {
      if p < |a| {
        BeforeInsertion(a, b, fragment, start, p);
      } else {
        InsideInsertion(a, b, fragment, start, p - |a|);
      }
    }
    AtInsertedClose(a, b, fragment, start);
    assert fragment[..|fragment|] == fragment;
  }

  // What starts a text is not changed by what follows it: a string or block comment has
  // its end, a line comment its line end, and a slash its next character.
  predicate HeadSettled(s: string)
    requires s != ""
  {
    match s[0]
    case '"' => StringLength(s[1..]).Some?
    case '#' => ToLineEnd(s[1..]) < |s| - 1
    case '/' =>
      |s| > 1
      && (s[1] == '/' ==> ToLineEnd(s[2..]) < |s| - 2)
      && (s[1] == '*' ==> CommentLength(s[2..]).Some?)
    case _ => true
  }

  // How far the mask gets at once.
  function Reach(s: string): (n: nat)
    requires s != ""
    ensures 1 <= n <= |s|
  {
    HiddenFits(s);
    if Hidden(s).Some? then Hidden(s).value else 1
  }

  // A text whose strings and comments are all finished, so that what follows it is read
  // as if it stood alone.
  predicate Settled(s: string)
    decreases |s|
  {
    s == "" || (HeadSettled(s) && Settled(s[Reach(s)..]))
  }

  lemma {:induction false} StringStays(s: string, u: string)
    requires StringLength(s).Some?
    ensures StringLength(s + u) == StringLength(s)
    decreases |s|
  {
    if s[0] == '"' {
    } else if s[0] == '\\' {
      assert (s + u)[2..] == s[2..] + u;
      StringStays(s[2..], u);
    } else {
      assert (s + u)[1..] == s[1..] + u;
      StringStays(s[1..], u);
    }
  }

  lemma {:induction false} LineStays(s: string, u: string)
    requires ToLineEnd(s) < |s|
    ensures ToLineEnd(s + u) == ToLineEnd(s)
  {
    if s[0] != '\n' {
      assert (s + u)[1..] == s[1..] + u;
      LineStays(s[1..], u);
    }
  }

  lemma {:induction false} CommentStays(s: string, u: string)
    requires CommentLength(s).Some?
    ensures CommentLength(s + u) == CommentLength(s)
  {
    if !(s[0] == '*' && s[1] == '/') {
      assert (s + u)[1..] == s[1..] + u;
      CommentStays(s[1..], u);
    }
  }

  lemma HiddenStays(s: string, u: string)
    requires s != "" && HeadSettled(s)
    ensures Hidden(s + u) == Hidden(s)
  {
    assert (s + u)[0] == s[0] && (s + u)[1..] == s[1..] + u;
    if s[0] == '"' {
      StringStays(s[1..], u);
    } else if s[0] == '#' {
      LineStays(s[1..], u);
    } else if s[0] == '/' {
      assert (s + u)[1] == s[1] && (s + u)[2..] == s[2..] + u;
      if s[1] == '/' {
        LineStays(s[2..], u);
      } else if s[1] == '*' {
        CommentStays(s[2..], u);
      }
    }
  }

  // One step of the mask.
  function Head(s: string): (r: string)
    requires s != ""
    ensures |r| == Reach(s)
  {
    if Hidden(s).Some? then Blanks(Reach(s)) else [s[0]]
  }

  lemma {:induction false} MaskStep(s: string)
    requires s != ""
    ensures Mask(s) == Head(s) + Mask(s[Reach(s)..])
  {
  }

  lemma HeadStays(s: string, u: string)
    requires s != "" && HeadSettled(s)
    ensures Reach(s + u) == Reach(s) && Head(s + u) == Head(s)
    ensures (s + u)[Reach(s)..] == s[Reach(s)..] + u
  {
    HiddenStays(s, u);
  }

  lemma Regroup(a: string, b: string, c: string)
    ensures a + (b + c) == (a + b) + c
  {
  }

  // Masking a settled text and what follows it can be done one after the other.
  lemma {:induction false} MaskConcat(s: string, u: string)
    requires Settled(s)
    ensures Mask(s + u) == Mask(s) + Mask(u)
    decreases |s|
  {
    if s == "" {
      assert s + u == u;
    } else {
      var rest := s[Reach(s)..];
      HeadStays(s, u);
      MaskConcat(rest, u);
      MaskStep(s);
      MaskStep(s + u);
      Regroup(Head(s), Mask(rest), Mask(u));
    }
  }

  lemma {:induction false} MaskInserted(front: string, fragment: string, tail: string)
    requires Settled(front) && Settled(fragment)
    ensures Mask(front + tail) == Mask(front) + Mask(tail)
    ensures Mask(front + fragment + tail) == Mask(front) + Mask(fragment) + Mask(tail)
  {
    MaskConcat(front, tail);
    MaskConcat(fragment, tail);
    MaskConcat(front, fragment + tail);
    Regroup(front, fragment, tail);
    Regroup(Mask(front), Mask(fragment), Mask(tail));
  }

  // patch_module: a balanced, settled fragment put before the closing brace of a block
  // of a text that is settled up to there. The block closes at the moved position, and
  // the text around the fragment is as it was.
  lemma {:induction false} InsertedFragment(source: string, start: nat, end: nat, fragment: string)
    requires Closes(Mask(source), start, end) && Mask(source)[start] == '{'
    requires Settled(source[..end]) && Settled(fragment) && Balanced(Mask(fragment))
    ensures var patched := source[..end] + fragment + source[end..];
            && Closes(Mask(patched), start, end + |fragment|)
            && patched[..end] == source[..end] && patched[end + |fragment|..] == source[end..]
  {
    CutAround(source, end, fragment);
    InsertedBetween(source[..end], source[end..], start, fragment);
  }

  lemma CutAround(source: string, end: nat, fragment: string)
    requires end <= |source|
    ensures source == source[..end] + source[end..] && |source[..end]| == end
    ensures var patched := source[..end] + fragment + source[end..];
            patched[..end] == source[..end] && patched[end + |fragment|..] == source[end..]
  {
  }

  lemma {:induction false} InsertedBetween(front: string, tail: string, start: nat, fragment: string)
    requires Closes(Mask(front + tail), start, |front|) && Mask(front + tail)[start] == '{'
    requires Settled(front) && Settled(fragment) && Balanced(Mask(fragment))
    ensures Closes(Mask(front + fragment + tail), start, |front| + |fragment|)
  {
    MaskInserted(front, fragment, tail);
    CloseMoves(Mask(front + tail), Mask(front + fragment + tail), Mask(front), Mask(fragment), Mask(tail), start);
  }

  lemma CloseMoves(masked: string, patched: string, front: string, fragment: string, tail: string, start: nat)
    requires masked == front + tail && patched == front + fragment + tail
    requires Closes(masked, start, |front|) && masked[start] == '{' && Balanced(fragment)
    ensures Closes(patched, start, |front| + |fragment|)
  {
    InsertedMasked(front, tail, start, fragment);
  }
}
