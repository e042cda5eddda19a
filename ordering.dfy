/**
 * The order in which Python's `sorted` puts strings (code point by code point, a proper
 * prefix first), strictly ascending lists, and the sorted list of distinct values that
 * the makes and types endpoints return.
 */
module Ordering {

  /** Python's `<` on strings: lexicographic on code points, a proper prefix first. */
  predicate StrLess(a: string, b: string)
    ensures StrLess(a, b) ==> a != b
  {
    if a == [] then b != []
    else if b == [] then false
    else if a[0] != b[0] then a[0] < b[0]
    else StrLess(a[1..], b[1..])
  }

  lemma {:induction false} StrLessIrreflexive(a: string)
    ensures !StrLess(a, a)
  {
    if a != [] {
      StrLessIrreflexive(a[1..]);
    }
  }

  lemma {:induction false} StrLessTransitive(a: string, b: string, c: string)
    requires StrLess(a, b) && StrLess(b, c)
    ensures StrLess(a, c)
  {
    if a != [] && a[0] == b[0] && b[0] == c[0] {
      StrLessTransitive(a[1..], b[1..], c[1..]);
    }
  }

  lemma {:induction false} StrLessTotal(a: string, b: string)
    requires a != b
    ensures StrLess(a, b) || StrLess(b, a)
  {
    if a != [] && b != [] && a[0] == b[0] {
      assert a == [a[0]] + a[1..] && b == [b[0]] + b[1..];
      StrLessTotal(a[1..], b[1..]);
    }
  }

  /** Sorted ascending with no value twice. */
  predicate StrictlyAscending(s: seq<string>) {
    forall i, j :: 0 <= i < j < |s| ==> StrLess(s[i], s[j])
  }

  /** The values a list holds. */
  function Elems(s: seq<string>): set<string> {
    set x | x in s
  }

  lemma ElemsEmpty(s: seq<string>)
    ensures Elems(s) == {} <==> s == []
  {
    if s != [] {
      assert s[0] in Elems(s);
    }
  }

  lemma ElemsCons(x: string, s: seq<string>)
    ensures Elems([x] + s) == {x} + Elems(s)
  {
    assert forall y :: y in [x] + s <==> y == x || y in s;
  }

  /** `x` placed into a strictly ascending list, unless it is there already. */
  function Insert(x: string, s: seq<string>): (r: seq<string>)
    requires StrictlyAscending(s)
    ensures StrictlyAscending(r)
    ensures Elems(r) == Elems(s) + {x}
  {
    if s == [] then [x]
    else if x == s[0] then s
    else if StrLess(x, s[0]) then
      assert forall j :: 0 < j < |s| ==> StrLess(x, s[j]) by {
        forall j | 0 < j < |s| { StrLessTransitive(x, s[0], s[j]); }
      }
      assert forall j :: 0 < j < |[x] + s| ==> ([x] + s)[j] == s[j - 1];
      assert Elems([x] + s) == Elems(s) + {x};
      [x] + s
    else
      StrLessTotal(x, s[0]);
      assert s == [s[0]] + s[1..];
      var rest := Insert(x, s[1..]);
      var r := [s[0]] + rest;
      ElemsCons(s[0], rest);
      ElemsCons(s[0], s[1..]);
      forall y | y in rest
        ensures StrLess(s[0], y)
      {
        assert y in Elems(rest);
        if y != x {
          var j :| 0 <= j < |s[1..]| && s[1..][j] == y;
          assert s[j + 1] == y;
        }
      }
      assert Elems(r) == Elems(s) + {x};
      r
  }

  /** The distinct values of a list, sorted: Python's `sorted` applied to the store's `distinct`. */
  function SortedDistinct(values: seq<string>): (r: seq<string>)
    ensures StrictlyAscending(r)
    ensures Elems(r) == Elems(values)
  {
    if values == [] then []
    else
      assert values == [values[0]] + values[1..];
      Insert(values[0], SortedDistinct(values[1..]))
  }

  /**
   * A strictly ascending list is determined by the values it holds, so the sorted
   * distinct values do not depend on the order in which the store hands them over.
   */
  lemma {:induction false} AscendingUnique(a: seq<string>, b: seq<string>)
    requires StrictlyAscending(a) && StrictlyAscending(b)
    requires Elems(a) == Elems(b)
    ensures a == b
  {
    ElemsEmpty(a);
    ElemsEmpty(b);
    if a != [] {
      assert a[0] in Elems(b);
      assert b[0] in Elems(a);
      if a[0] != b[0] {
        var i :| 0 <= i < |a| && a[i] == b[0];
        var j :| 0 <= j < |b| && b[j] == a[0];
        assert StrLess(a[0], b[0]);
        assert StrLess(b[0], a[0]);
        StrLessTransitive(a[0], b[0], a[0]);
        StrLessIrreflexive(a[0]);
      }
      assert a == [a[0]] + a[1..] && b == [b[0]] + b[1..];
      assert a[0] !in Elems(a[1..]) by {
        if a[0] in Elems(a[1..]) {
          StrLessIrreflexive(a[0]);
        }
      }
      assert b[0] !in Elems(b[1..]) by {
        if b[0] in Elems(b[1..]) {
          StrLessIrreflexive(b[0]);
        }
      }
      assert Elems(a[1..]) == Elems(a) - {a[0]};
      assert Elems(b[1..]) == Elems(b) - {b[0]};
      AscendingUnique(a[1..], b[1..]);
    }
  }
}
