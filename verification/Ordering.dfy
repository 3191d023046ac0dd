/**
 Byte-wise string order (strings.Compare) and the sorted, duplicate-free listing of a
 string set (sets.List), which is the canonical form every list in the operator takes
 before it is written to the API server.
 */
module Ordering {
  predicate LessEq(a: string, b: string) {
    a == "" || (b != "" && (a[0] < b[0] || (a[0] == b[0] && LessEq(a[1..], b[1..]))))
  }

  /** At the first place where the strings differ, the first has the smaller character. */
  ghost predicate SmallerAt(a: string, b: string, i: int) {
    0 <= i < |a| && i < |b| && a[..i] == b[..i] && a[i] < b[i]
  }

  /** The order is the lexicographic one: a prefix, or smaller at the first difference. */
  lemma {:induction false} LessEqIffLexicographic(a: string, b: string)
    ensures LessEq(a, b) <==> a <= b || exists i :: SmallerAt(a, b, i)
    decreases |a|
  {
    if a != "" && b != "" {
      if a[0] == b[0] {
        LessEqIffLexicographic(a[1..], b[1..]);
        assert a == [a[0]] + a[1..] && b == [b[0]] + b[1..];
        SmallerInTail(a, b);
      } else if a[0] < b[0] {
        assert SmallerAt(a, b, 0);
      }
    }
  }

  lemma SmallerInTail(a: string, b: string)
    requires a != "" && b != "" && a[0] == b[0]
    ensures (exists i :: SmallerAt(a, b, i)) <==> exists i :: SmallerAt(a[1..], b[1..], i)
  {
    if i :| SmallerAt(a, b, i) {
      assert a[1..][..i - 1] == a[..i][1..] && b[1..][..i - 1] == b[..i][1..];
      assert SmallerAt(a[1..], b[1..], i - 1);
    }
    if i :| SmallerAt(a[1..], b[1..], i) {
      assert a[..i + 1] == [a[0]] + a[1..][..i] && b[..i + 1] == [b[0]] + b[1..][..i];
      assert SmallerAt(a, b, i + 1);
    }
  }

  lemma {:induction false} Reflexive(a: string)
    ensures LessEq(a, a)
    decreases |a|
  {
    if a != "" {
      Reflexive(a[1..]);
    }
  }

  lemma {:induction false} Antisymmetric(a: string, b: string)
    requires LessEq(a, b) && LessEq(b, a)
    ensures a == b
    decreases |a|
  {
    if a != "" {
      Antisymmetric(a[1..], b[1..]);
      assert a == [a[0]] + a[1..] && b == [b[0]] + b[1..];
    }
  }

  lemma {:induction false} Transitive(a: string, b: string, c: string)
    requires LessEq(a, b) && LessEq(b, c)
    ensures LessEq(a, c)
    decreases |a|
  {
    if a != "" && a[0] == b[0] == c[0] {
      Transitive(a[1..], b[1..], c[1..]);
    }
  }

  lemma {:induction false} Total(a: string, b: string)
    ensures LessEq(a, b) || LessEq(b, a)
    decreases |a|
  {
    if a != "" && b != "" && a[0] == b[0] {
      Total(a[1..], b[1..]);
    }
  }

  function Elements<T>(s: seq<T>): (r: set<T>) {
    set x | x in s
  }

  ghost predicate Distinct<T>(s: seq<T>) {
    forall i, j | 0 <= i < j < |s| :: s[i] != s[j]
  }

  ghost predicate Sorted(s: seq<string>) {
    forall i, j | 0 <= i < j < |s| :: LessEq(s[i], s[j])
  }

  predicate IsLeast(m: string, s: set<string>) {
    m in s && forall y | y in s :: LessEq(m, y)
  }

  lemma {:induction false} LeastExists(s: set<string>)
    requires s != {}
    ensures exists m :: IsLeast(m, s)
    decreases s
  {
    var x :| x in s;
    Reflexive(x);
    if s == {x} {
      assert IsLeast(x, s);
    } else {
      assert s == {x} + (s - {x});
      LeastExists(s - {x});
      var n :| IsLeast(n, s - {x});
      Total(x, n);
      if LessEq(x, n) {
        forall y | y in s - {x} {
          Transitive(x, n, y);
        }
        assert IsLeast(x, s);
      } else {
        assert IsLeast(n, s);
      }
    }
  }

  lemma LeastUnique(s: set<string>, x: string, y: string)
    requires IsLeast(x, s) && IsLeast(y, s)
    ensures x == y
  {
    Antisymmetric(x, y);
  }

  function Least(s: set<string>): (m: string)
    requires s != {}
    ensures IsLeast(m, s)
  {
    LeastExists(s);
    assert forall x, y | IsLeast(x, s) && IsLeast(y, s) :: x == y by {
      forall x, y | IsLeast(x, s) && IsLeast(y, s) {
        LeastUnique(s, x, y);
      }
    }
    var m :| m in s && IsLeast(m, s);
    m
  }

  lemma ConsSorted(m: string, s: set<string>, rest: seq<string>)
    requires IsLeast(m, s)
    requires Elements(rest) == s - {m} && Distinct(rest) && Sorted(rest)
    ensures Elements([m] + rest) == s && Distinct([m] + rest) && Sorted([m] + rest)
  {
    var r := [m] + rest;
    forall x | x in s
      ensures x in Elements(r)
    {
      if x != m {
        assert x in Elements(rest);
        var i :| 0 <= i < |rest| && rest[i] == x;
        assert r[i + 1] == x;
      } else {
        assert r[0] == x;
      }
    }
    forall i | 0 <= i < |rest|
      ensures rest[i] in s - {m}
    {
      assert rest[i] in Elements(rest);
    }
  }

  /** sets.List: every element once, in order. */
  function SortedList(s: set<string>): (r: seq<string>)
    ensures Elements(r) == s
    ensures Distinct(r) && Sorted(r)
    ensures |r| == |s|
    decreases s
  {
    if s == {} then []
    else
      var m := Least(s);
      var rest := SortedList(s - {m});
      ConsSorted(m, s, rest);
      [m] + rest
  }

  /** Sorted and duplicate-free lists are determined by their element sets. */
  lemma {:induction false} SortedListUnique(r: seq<string>)
    requires Distinct(r) && Sorted(r)
    ensures r == SortedList(Elements(r))
    decreases |r|
  {
    var s := Elements(r);
    if r != [] {
      assert r[0] in s;
      var m := Least(s);
      var i :| 0 <= i < |r| && r[i] == m;
      if i != 0 {
        assert LessEq(r[0], r[i]);
        Antisymmetric(r[0], m);
      }
      assert i == 0;
      assert r == [r[0]] + r[1..];
      assert Elements(r[1..]) == s - {m};
      SortedListUnique(r[1..]);
    } else {
      assert s == {};
    }
  }
}
