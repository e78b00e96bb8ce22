/** Iterating a finite set in order, as ordered sets and maps do. */
module Ordered {

  ghost predicate TotalOrder<T(!new)>(leq: (T, T) -> bool) {
    && (forall x, y :: leq(x, y) || leq(y, x))
    && (forall x, y :: leq(x, y) && leq(y, x) ==> x == y)
    && (forall x, y, z :: leq(x, y) && leq(y, z) ==> leq(x, z))
  }

  ghost predicate IsLeast<T(!new)>(s: set<T>, leq: (T, T) -> bool, m: T) {
    m in s && forall x :: x in s ==> leq(m, x)
  }

  lemma {:induction false} LeastExists<T(!new)>(s: set<T>, leq: (T, T) -> bool) returns (m: T)
    requires TotalOrder(leq) && s != {}
    ensures IsLeast(s, leq, m)
    decreases |s|
  {
    var x :| x in s;
    var rest := s - {x};
    if rest == {} {
      assert s == {x};
      m := x;
    } else {
      var n := LeastExists(rest, leq);
      m := if leq(x, n) then x else n;
    }
  }

  /** Strictly ascending: in order, and no element twice. */
  ghost predicate Ascending<T(!new)>(xs: seq<T>, leq: (T, T) -> bool) {
    forall i, j :: 0 <= i < j < |xs| ==> leq(xs[i], xs[j]) && xs[i] != xs[j]
  }

  /** The elements of `s`, each once, in ascending order. */
  method InOrder<T(!new, ==)>(s: set<T>, leq: (T, T) -> bool) returns (xs: seq<T>)
    requires TotalOrder(leq)
    ensures Ascending(xs, leq) && forall x :: x in xs <==> x in s
  {
    xs := [];
    var left := s;
    while left != {}
      invariant left <= s && forall x :: x in xs <==> x in s - left
      invariant Ascending(xs, leq)
      invariant forall x, y :: x in xs && y in left ==> leq(x, y)
      decreases |left|
    {
      ghost var _ := LeastExists(left, leq);
      var m :| m in left && forall x :: x in left ==> leq(m, x);
      xs, left := xs + [m], left - {m};
    }
  }

  /** An ascending list is determined by its elements. */
  lemma {:induction false} AscendingIsUnique<T(!new)>(xs: seq<T>, ys: seq<T>, leq: (T, T) -> bool)
    requires TotalOrder(leq) && Ascending(xs, leq) && Ascending(ys, leq)
    requires forall x :: x in xs <==> x in ys
    ensures xs == ys
    decreases |xs|
  {
    assert (ys != [] ==> ys[0] in ys) && (xs != [] ==> xs[0] in xs);
    if xs != [] {
      var i :| 0 <= i < |ys| && ys[i] == xs[0];
      var j :| 0 <= j < |xs| && xs[j] == ys[0];
      assert leq(ys[0], ys[i]) || i == 0;
      assert leq(xs[0], xs[j]) || j == 0;
      assert xs[0] == ys[0];
      forall x
        ensures x in xs[1..] <==> x in ys[1..]
      {
        assert x in xs[1..] <==> x in xs && x != xs[0] by {
          TailElements(xs, leq, x);
        }
        assert x in ys[1..] <==> x in ys && x != ys[0] by {
          TailElements(ys, leq, x);
        }
      }
      AscendingIsUnique(xs[1..], ys[1..], leq);
    }
  }

  lemma TailElements<T(!new)>(xs: seq<T>, leq: (T, T) -> bool, x: T)
    requires Ascending(xs, leq) && xs != []
    ensures x in xs[1..] <==> x in xs && x != xs[0]
  {
    if x in xs && x != xs[0] {
      var i :| 0 <= i < |xs| && xs[i] == x;
      assert xs[1..][i - 1] == x;
    }
    if x in xs[1..] {
      var i :| 0 <= i < |xs| - 1 && xs[1..][i] == x;
      assert xs[i + 1] == x && leq(xs[0], xs[i + 1]);
    }
  }

  predicate NatLeq(a: nat, b: nat) {
    a <= b
  }

  lemma NatOrder()
    ensures TotalOrder(NatLeq)
  {
  }

  /** The order of strings: character by character, a prefix first. */
  predicate StringLeq(a: string, b: string) {
    a == [] || (b != [] && (a[0] < b[0] || (a[0] == b[0] && StringLeq(a[1..], b[1..]))))
  }

  /** At the first place where they differ the smaller has the smaller character, or it has ended. */
  lemma {:induction false} StringLeqIs(a: string, b: string)
    ensures StringLeq(a, b) <==> a <= b || exists i :: FirstLess(a, b, i)
  {
    if a != [] && b != [] {
      if a[0] == b[0] {
        StringLeqIs(a[1..], b[1..]);
        FirstLessBehind(a, b);
        assert a <= b <==> a[1..] <= b[1..] by {
          assert a == [a[0]] + a[1..] && b == [b[0]] + b[1..];
        }
        hide FirstLess;
      } else if a[0] < b[0] {
        assert FirstLess(a, b, 0);
      } else {
        assert forall i :: !FirstLess(a, b, i);
      }
    } else {
      assert forall i :: !FirstLess(a, b, i);
    }
  }

  lemma FirstLessBehind(a: string, b: string)
    requires a != [] && b != [] && a[0] == b[0]
    ensures (exists i :: FirstLess(a, b, i)) <==> exists i :: FirstLess(a[1..], b[1..], i)
  {
    forall i
      ensures FirstLess(a[1..], b[1..], i) ==> FirstLess(a, b, i + 1)
      ensures FirstLess(a, b, i) ==> i > 0 && FirstLess(a[1..], b[1..], i - 1)
    {
      FirstLessShifts(a, b, i);
    }
    hide FirstLess;
    if i :| FirstLess(a[1..], b[1..], i) {
      assert FirstLess(a, b, i + 1);
    }
    if i :| FirstLess(a, b, i) {
      assert FirstLess(a[1..], b[1..], i - 1);
    }
  }

  predicate FirstLess(a: string, b: string, i: int) {
    0 <= i < |a| && i < |b| && a[i] < b[i] && forall j :: 0 <= j < i ==> a[j] == b[j]
  }

  lemma FirstLessShifts(a: string, b: string, i: int)
    requires a != [] && b != [] && a[0] == b[0]
    ensures FirstLess(a[1..], b[1..], i) ==> FirstLess(a, b, i + 1)
    ensures FirstLess(a, b, i) ==> i > 0 && FirstLess(a[1..], b[1..], i - 1)
  {
    var (x, y) := (a[1..], b[1..]);
    assert forall j :: 0 <= j < |x| ==> x[j] == a[j + 1];
    assert forall j :: 0 <= j < |y| ==> y[j] == b[j + 1];
    if FirstLess(x, y, i) {
      forall j | 0 <= j < i + 1
        ensures a[j] == b[j]
      {
        if j > 0 {
          assert x[j - 1] == y[j - 1];
        }
      }
    }
  }

  lemma {:induction false} StringTotal(a: string, b: string)
    ensures StringLeq(a, b) || StringLeq(b, a)
    ensures StringLeq(a, b) && StringLeq(b, a) ==> a == b
  {
    if a != [] && b != [] {
      StringTotal(a[1..], b[1..]);
      assert a == [a[0]] + a[1..] && b == [b[0]] + b[1..];
    }
  }

  lemma {:induction false} StringTransitive(a: string, b: string, c: string)
    requires StringLeq(a, b) && StringLeq(b, c)
    ensures StringLeq(a, c)
  {
    if a != [] && a[0] == b[0] == c[0] {
      StringTransitive(a[1..], b[1..], c[1..]);
    }
  }

  lemma StringOrder()
    ensures TotalOrder(StringLeq)
  {
    forall a, b
      ensures StringLeq(a, b) || StringLeq(b, a)
      ensures StringLeq(a, b) && StringLeq(b, a) ==> a == b
    {
      StringTotal(a, b);
    }
    forall a, b, c | StringLeq(a, b) && StringLeq(b, c)
      ensures StringLeq(a, c)
    {
      StringTransitive(a, b, c);
    }
  }
}
