// Pairs of texts in the order Python sorts them, sets of pairs as sorted lists, and
// the list of the first few.
module PairOrder {
  type Pair = (string, string)

  predicate TextLess(a: string, b: string) {
    if b == "" then false
    else if a == "" then true
    else a[0] < b[0] || (a[0] == b[0] && TextLess(a[1..], b[1..]))
  }

  predicate Less(a: Pair, b: Pair) {
    TextLess(a.0, b.0) || (a.0 == b.0 && TextLess(a.1, b.1))
  }

  lemma {:induction false} TextLessTotal(a: string, b: string)
    ensures TextLess(a, b) || TextLess(b, a) || a == b
    ensures !(TextLess(a, b) && TextLess(b, a))
    ensures !TextLess(a, a)
  {
    if a != "" {
      if b != "" && a[0] == b[0] {
        TextLessTotal(a[1..], b[1..]);
        assert a == [a[0]] + a[1..] && b == [b[0]] + b[1..];
      }
      TextLessTotal(a[1..], a[1..]);
    }
  }

  // It is the order of the first characters that differ; a text comes before its extensions.
  lemma {:induction false} TextLessIff(a: string, b: string)
    ensures TextLess(a, b) <==>
            exists k | 0 <= k <= |a| && k < |b| :: a[..k] == b[..k] && (k == |a| || a[k] < b[k])
  {
    if a != "" && b != "" && a[0] == b[0] {
      TextLessIff(a[1..], b[1..]);
      if k :| 0 <= k <= |a| - 1 && k < |b| - 1 && a[1..][..k] == b[1..][..k]
              && (k == |a| - 1 || a[1..][k] < b[1..][k])
      {
        assert a[..k + 1] == [a[0]] + a[1..][..k] && b[..k + 1] == [b[0]] + b[1..][..k];
      }
      if k :| 0 <= k <= |a| && k < |b| && a[..k] == b[..k] && (k == |a| || a[k] < b[k]) {
        assert k > 0 && a[1..][..k - 1] == a[..k][1..] && b[1..][..k - 1] == b[..k][1..];
      }
    } else {
      assert a[..0] == b[..0];
      if k :| 0 < k <= |a| && k < |b| && a[..k] == b[..k] {
        assert a[..k][0] == b[..k][0];
      }
    }
  }

  lemma {:induction false} TextLessTransitive(a: string, b: string, c: string)
    requires TextLess(a, b) && TextLess(b, c)
    ensures TextLess(a, c)
  {
    if a != "" && a[0] == b[0] && b[0] == c[0] {
      TextLessTransitive(a[1..], b[1..], c[1..]);
    }
  }

  lemma LessTotal(a: Pair, b: Pair)
    ensures Less(a, b) || Less(b, a) || a == b
    ensures !(Less(a, b) && Less(b, a))
    ensures !Less(a, a)
  {
    TextLessTotal(a.0, b.0);
    TextLessTotal(a.1, b.1);
    TextLessTotal(a.0, a.0);
    TextLessTotal(a.1, a.1);
  }

  lemma LessTransitive(a: Pair, b: Pair, c: Pair)
    requires Less(a, b) && Less(b, c)
    ensures Less(a, c)
  {
    if TextLess(a.0, b.0) && TextLess(b.0, c.0) {
      TextLessTransitive(a.0, b.0, c.0);
    } else if a.0 == b.0 == c.0 {
      TextLessTransitive(a.1, b.1, c.1);
    }
  }

  predicate IsLeast(x: Pair, s: set<Pair>) {
    x in s && forall y | y in s && y != x :: Less(x, y)
  }

  lemma {:induction false} LeastExists(s: set<Pair>)
    requires s != {}
    ensures exists x :: IsLeast(x, s)
  {
    var x :| x in s;
    var rest := s - {x};
    if rest == {} {
      assert s == rest + {x};
      assert IsLeast(x, s);
    } else {
      LeastExists(rest);
      var y :| IsLeast(y, rest);
      LessTotal(x, y);
      if Less(x, y) {
        forall z | z in s && z != x ensures Less(x, z) {
          assert z in rest;
          if z != y { LessTransitive(x, y, z); }
        }
        assert IsLeast(x, s);
      } else {
        assert IsLeast(y, s);
      }
    }
  }

  lemma LeastUnique(s: set<Pair>)
    ensures forall x, y | x in s && y in s && IsLeast(x, s) && IsLeast(y, s) :: x == y
  {
    forall x, y | x in s && y in s && IsLeast(x, s) && IsLeast(y, s) ensures x == y {
      LessTotal(x, y);
    }
  }

  // sorted(s)
  function Sorted(s: set<Pair>): (r: seq<Pair>)
    ensures |r| == |s|
    ensures forall x :: x in r <==> x in s
    ensures Increasing(r)
  {
    if s == {} then []
    else
      LeastExists(s);
      LeastUnique(s);
      var x :| x in s && IsLeast(x, s);
      [x] + Sorted(s - {x})
  }

  predicate Increasing(r: seq<Pair>) {
    forall i, j | 0 <= i < j < |r| :: Less(r[i], r[j])
  }

  // A strictly increasing list is the sorted list of its elements.
  lemma {:induction false} SortedUnique(r: seq<Pair>, s: set<Pair>)
    requires Increasing(r) && forall x :: x in r <==> x in s
    ensures Sorted(s) == r
  {
    if r == [] {
      assert s == {};
    } else {
      assert r[0] in s && s != {};
      forall y | y in s && y != r[0] ensures Less(r[0], y) {
        var i :| 0 <= i < |r| && r[i] == y;
      }
      assert IsLeast(r[0], s);
      LeastUnique(s);
      forall i | 0 < i < |r| ensures r[i] != r[0] { LessTotal(r[0], r[i]); }
      forall x ensures x in r[1..] <==> x in s - {r[0]} {
        if x in s - {r[0]} {
          var i :| 0 <= i < |r| && r[i] == x;
          assert r[1..][i - 1] == x;
        }
      }
      SortedUnique(r[1..], s - {r[0]});
    }
  }
}
