/**
 * Python's `sorted(list(set(xs)))` on strings: the distinct elements of a list in
 * ascending code-point order. The analysis report builds every list it returns
 * this way, so the report does not depend on the order in which sets were walked.
 */
module SortedSets {

  /** Python's `<` on `str`: the first differing code point decides, and a proper prefix comes first. */
  predicate Below(a: string, b: string)
    decreases |a|
  {
    if a == [] then b != []
    else if b == [] then false
    else a[0] < b[0] || (a[0] == b[0] && Below(a[1..], b[1..]))
  }

  lemma {:induction false} BelowIrreflexive(a: string)
    ensures !Below(a, a)
    decreases |a|
  {
    if a != [] {
      BelowIrreflexive(a[1..]);
    }
  }

  lemma {:induction false} BelowTransitive(a: string, b: string, c: string)
    requires Below(a, b) && Below(b, c)
    ensures Below(a, c)
    decreases |a|
  {
    if a != [] && a[0] == b[0] && b[0] == c[0] {
      BelowTransitive(a[1..], b[1..], c[1..]);
    }
  }

  /** Any two different strings are ordered one way or the other, and never both. */
  lemma {:induction false} BelowTotal(a: string, b: string)
    ensures a == b || Below(a, b) || Below(b, a)
    ensures !(Below(a, b) && Below(b, a))
    decreases |a|
  {
    if a != [] && b != [] && a[0] == b[0] {
      BelowTotal(a[1..], b[1..]);
      assert a == [a[0]] + a[1..] && b == [b[0]] + b[1..];
    }
  }

  function Elems(s: seq<string>): set<string> {
    set x | x in s
  }

  lemma ElemsAppend(s: seq<string>, x: string)
    ensures Elems(s + [x]) == Elems(s) + {x}
  {
  }

  lemma HeadInElems(s: seq<string>)
    ensures s != [] ==> s[0] in Elems(s)
  {
  }

  /** Strictly ascending, hence without duplicates. */
  predicate Increasing(s: seq<string>) {
    forall i, j :: 0 <= i < j < |s| ==> Below(s[i], s[j])
  }

  lemma IncreasingDistinct(s: seq<string>, i: nat, j: nat)
    requires Increasing(s) && i < j < |s|
    ensures s[i] != s[j]
  {
    BelowIrreflexive(s[i]);
  }

  /** Inserts one string into an ascending list, unless it is already there. */
  function InsertSorted(x: string, s: seq<string>): (r: seq<string>)
    requires Increasing(s)
    ensures Increasing(r)
    ensures Elems(r) == Elems(s) + {x}
  {
    if s == [] then [x]
    else if x == s[0] then
      HeadInElems(s);
      s
    else if Below(x, s[0]) then
      PrependBelow(x, s);
      [x] + s
    else
      BelowTotal(x, s[0]);
      var rest := InsertSorted(x, s[1..]);
      PrependAbove(x, s, rest);
      [s[0]] + rest
  }

  /** A string below every element of an ascending list may go in front of it. */
  lemma ConsIncreasing(h: string, rest: seq<string>)
    requires Increasing(rest)
    requires forall y :: y in rest ==> Below(h, y)
    ensures Increasing([h] + rest)
  {
    var r := [h] + rest;
    forall i, j | 0 <= i < j < |r| ensures Below(r[i], r[j]) {
      assert r[j] == rest[j - 1] && rest[j - 1] in rest;
      if i > 0 {
        assert r[i] == rest[i - 1];
      }
    }
  }

  /** A string below the head of an ascending list may go in front of it. */
  lemma PrependBelow(x: string, s: seq<string>)
    requires Increasing(s) && s != [] && Below(x, s[0])
    ensures Increasing([x] + s)
    ensures Elems([x] + s) == Elems(s) + {x}
  {
    forall y | y in s ensures Below(x, y) {
      var j :| 0 <= j < |s| && s[j] == y;
      if j > 0 {
        BelowTransitive(x, s[0], s[j]);
      }
    }
    ConsIncreasing(x, s);
  }

  /** Every element of the insertion into the tail lies above the head. */
  lemma HeadBelowRest(x: string, s: seq<string>, rest: seq<string>)
    requires Increasing(s) && s != [] && Below(s[0], x)
    requires Elems(rest) == Elems(s[1..]) + {x}
    ensures forall y :: y in rest ==> Below(s[0], y)
  {
    forall y | y in rest ensures Below(s[0], y) {
      assert y in Elems(rest);
      if y != x {
        var j :| 0 <= j < |s[1..]| && s[1..][j] == y;
        assert s[j + 1] == y;
      }
    }
  }

  /** The head of an ascending list may go in front of the insertion into its tail of a string above it. */
  lemma PrependAbove(x: string, s: seq<string>, rest: seq<string>)
    requires Increasing(s) && s != [] && Below(s[0], x)
    requires Increasing(rest) && Elems(rest) == Elems(s[1..]) + {x}
    ensures Increasing([s[0]] + rest)
    ensures Elems([s[0]] + rest) == Elems(s) + {x}
  {
    HeadBelowRest(x, s, rest);
    ConsIncreasing(s[0], rest);
    assert Elems(s) == {s[0]} + Elems(s[1..]) by {
      assert s == [s[0]] + s[1..];
    }
    assert Elems([s[0]] + rest) == {s[0]} + Elems(rest);
  }

  /** `sorted(list(set(xs)))`. */
  function SortedUnique(xs: seq<string>): (r: seq<string>)
    ensures Increasing(r)
    ensures Elems(r) == Elems(xs)
  {
    if xs == [] then []
    else
      assert Elems(xs) == Elems(xs[..|xs| - 1]) + {xs[|xs| - 1]} by {
        assert xs == xs[..|xs| - 1] + [xs[|xs| - 1]];
      }
      InsertSorted(xs[|xs| - 1], SortedUnique(xs[..|xs| - 1]))
  }

  /** Two ascending lists with the same elements are the same list. */
  lemma {:induction false} IncreasingUnique(a: seq<string>, b: seq<string>)
    requires Increasing(a) && Increasing(b) && Elems(a) == Elems(b)
    ensures a == b
    decreases |a|
  {
    if a != [] {
      assert a[0] in Elems(b);
      assert b != [];
      assert b[0] in Elems(a);
      var k :| 0 <= k < |b| && b[k] == a[0];
      var m :| 0 <= m < |a| && a[m] == b[0];
      assert k == 0 || Below(b[0], a[0]);
      assert m == 0 || Below(a[0], b[0]);
      BelowTotal(a[0], b[0]);
      assert a[0] == b[0];
      assert Elems(a[1..]) == Elems(b[1..]) by {
        forall x | x in Elems(a[1..]) ensures x in Elems(b[1..]) {
          var i :| 0 <= i < |a[1..]| && a[1..][i] == x;
          IncreasingDistinct(a, 0, i + 1);
          assert x in Elems(a) && x in Elems(b);
          var j :| 0 <= j < |b| && b[j] == x;
          assert j != 0;
          assert b[1..][j - 1] == x;
        }
        forall x | x in Elems(b[1..]) ensures x in Elems(a[1..]) {
          var i :| 0 <= i < |b[1..]| && b[1..][i] == x;
          IncreasingDistinct(b, 0, i + 1);
          assert x in Elems(b) && x in Elems(a);
          var j :| 0 <= j < |a| && a[j] == x;
          assert j != 0;
          assert a[1..][j - 1] == x;
        }
      }
      IncreasingUnique(a[1..], b[1..]);
      assert a == [a[0]] + a[1..] && b == [b[0]] + b[1..];
    } else {
      HeadInElems(b);
    }
  }

  /** The sorted distinct list depends only on which elements occur, not on their order or repetition. */
  lemma SortedUniqueIgnoresOrder(xs: seq<string>, ys: seq<string>)
    requires Elems(xs) == Elems(ys)
    ensures SortedUnique(xs) == SortedUnique(ys)
  {
    IncreasingUnique(SortedUnique(xs), SortedUnique(ys));
  }

  /** Sorting an already sorted distinct list changes nothing. */
  lemma SortedUniqueOfIncreasing(xs: seq<string>)
    requires Increasing(xs)
    ensures SortedUnique(xs) == xs
  {
    IncreasingUnique(SortedUnique(xs), xs);
  }
}
