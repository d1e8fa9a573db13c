/** Comparison of strings, code point by code point, as Python compares them. */
module Ordering {

  predicate Le(a: string, b: string)
    decreases |a|
  {
    a == "" || (b != "" && (a[0] < b[0] || (a[0] == b[0] && Le(a[1..], b[1..]))))
  }

  lemma {:induction false} LeTotal(a: string, b: string)
    ensures Le(a, b) || Le(b, a)
    decreases |a|
  {
    if a != "" && b != "" && a[0] == b[0] {
      LeTotal(a[1..], b[1..]);
    }
  }

  lemma {:induction false} LeAntisymmetric(a: string, b: string)
    requires Le(a, b) && Le(b, a)
    ensures a == b
    decreases |a|
  {
    if a != "" && b != "" {
      LeAntisymmetric(a[1..], b[1..]);
      assert a == [a[0]] + a[1..] && b == [b[0]] + b[1..];
    }
  }

  lemma {:induction false} LeTransitive(a: string, b: string, c: string)
    requires Le(a, b) && Le(b, c)
    ensures Le(a, c)
    decreases |a|
  {
    if a != "" && b != "" && c != "" && a[0] == b[0] == c[0] {
      LeTransitive(a[1..], b[1..], c[1..]);
    }
  }

  /** At k the strings differ for the first time, and a has the smaller code point. */
  predicate DropsAt(a: string, b: string, k: nat) { k < |a| && k < |b| && a[..k] == b[..k] && a[k] < b[k] }

  /** Dictionary order: a is a prefix of b or has the smaller code point where they first differ. */
  lemma {:induction false} LeMeaning(a: string, b: string)
    ensures Le(a, b) <==> a <= b || exists k :: DropsAt(a, b, k)
    decreases |a|
  {
    if a != "" && b != "" {
      LeMeaning(a[1..], b[1..]);
      assert a == [a[0]] + a[1..] && b == [b[0]] + b[1..];
      if a[0] == b[0] {
        forall k: nat ensures DropsAt(a, b, k + 1) <==> DropsAt(a[1..], b[1..], k) {
          assert k < |a[1..]| ==> a[..k + 1] == [a[0]] + a[1..][..k];
          assert k < |b[1..]| ==> b[..k + 1] == [b[0]] + b[1..][..k];
        }
        if k: nat :| DropsAt(a[1..], b[1..], k) {
          assert DropsAt(a, b, k + 1);
        }
        if k: nat :| DropsAt(a, b, k) {
          assert k > 0;
          assert DropsAt(a[1..], b[1..], k - 1);
        }
      } else {
        assert a[0] < b[0] ==> DropsAt(a, b, 0);
        forall k: nat | k > 0 ensures !DropsAt(a, b, k) {
          if k < |a| && k < |b| {
            assert a[..k][0] != b[..k][0];
          }
        }
      }
    }
  }

  lemma LeReflexive(a: string)
    ensures Le(a, a)
  {
    LeTotal(a, a);
  }

  ghost predicate IsLeast(s: set<string>, m: string) { m in s && forall x :: x in s ==> Le(m, x) }

  lemma {:induction false} LeastExists(s: set<string>) returns (m: string)
    requires s != {}
    ensures IsLeast(s, m)
    decreases |s|
  {
    var x :| x in s;
    LeReflexive(x);
    var rest := s - {x};
    if rest == {} {
      m := x;
      assert forall y :: y in s ==> y == x || y in rest;
    } else {
      var n := LeastExists(rest);
      LeTotal(x, n);
      m := if Le(x, n) then x else n;
      forall y | y in s ensures Le(m, y) {
        if y != x {
          LeTransitive(m, n, y);
        }
      }
    }
  }
}
