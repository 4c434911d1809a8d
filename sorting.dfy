/**
 * Python's `sorted(xs, key=...)` and `sorted(strings)`, as an insertion
 * sort over sequences. Elements that compare equal keep their input order.
 */
module Sorting {

  ghost predicate TotalPreorder<T(!new)>(leq: (T, T) -> bool)
  {
    (forall a, b :: leq(a, b) || leq(b, a)) &&
    (forall a, b, c :: leq(a, b) && leq(b, c) ==> leq(a, c))
  }

  predicate SortedBy<T>(s: seq<T>, leq: (T, T) -> bool)
  {
    forall i, j :: 0 <= i < j < |s| ==> leq(s[i], s[j])
  }

  /** Places `x` in front of the first element it does not come after. */
  function Insert<T(!new)>(x: T, s: seq<T>, leq: (T, T) -> bool): (r: seq<T>)
    requires TotalPreorder(leq) && SortedBy(s, leq)
    ensures multiset(r) == multiset(s) + multiset{x}
    ensures SortedBy(r, leq)
  {
    if |s| == 0 then [x]
    else if leq(x, s[0]) then
      ConsSorted(x, s, leq);
      [x] + s
    else
      var rest := Insert(x, s[1..], leq);
      assert s == [s[0]] + s[1..];
      HeadBelowAll(s[0], s[1..], x, rest, leq);
      ConsSorted(s[0], rest, leq);
      [s[0]] + rest
  }

  /** An element below the head of a sorted sequence may lead it. */
  lemma ConsSorted<T(!new)>(h: T, t: seq<T>, leq: (T, T) -> bool)
    requires TotalPreorder(leq) && SortedBy(t, leq)
    requires |t| == 0 || leq(h, t[0])
    ensures SortedBy([h] + t, leq)
  {
    var r := [h] + t;
    forall i, j | 0 <= i < j < |r| ensures leq(r[i], r[j]) {
      if i == 0 && j > 1 {
        assert leq(h, t[0]) && leq(t[0], t[j - 1]);
      }
    }
  }

  /** `h` stays below everything in `t` with `x` inserted, given it is below
      `t` and below `x`. */
  lemma HeadBelowAll<T(!new)>(h: T, t: seq<T>, x: T, r: seq<T>, leq: (T, T) -> bool)
    requires TotalPreorder(leq) && SortedBy([h] + t, leq) && !leq(x, h)
    requires multiset(r) == multiset(t) + multiset{x}
    ensures |r| == 0 || leq(h, r[0])
  {
    if |r| > 0 {
      assert r[0] in multiset(r);
      if r[0] != x {
        assert r[0] in t;
        var k :| 0 <= k < |t| && t[k] == r[0];
        assert ([h] + t)[k + 1] == t[k];
        assert leq(([h] + t)[0], ([h] + t)[k + 1]);
      } else {
        assert leq(x, h) || leq(h, x);
      }
    }
  }

  function Sort<T(!new)>(s: seq<T>, leq: (T, T) -> bool): (r: seq<T>)
    requires TotalPreorder(leq)
    ensures multiset(r) == multiset(s)
    ensures SortedBy(r, leq)
  {
    if |s| == 0 then []
    else
      assert s == [s[0]] + s[1..];
      Insert(s[0], Sort(s[1..], leq), leq)
  }

  /** Sorting a sequence whose elements all compare equal leaves it as it
      is: the sort is stable. */
  lemma {:induction false} SortAllTied<T(!new)>(s: seq<T>, leq: (T, T) -> bool)
    requires TotalPreorder(leq)
    requires forall i, j :: 0 <= i < |s| && 0 <= j < |s| ==> leq(s[i], s[j])
    ensures Sort(s, leq) == s
  {
    if |s| > 0 {
      var t := s[1..];
      assert forall i, j :: 0 <= i < |t| && 0 <= j < |t| ==> leq(t[i], t[j]) by {
        forall i, j | 0 <= i < |t| && 0 <= j < |t| ensures leq(t[i], t[j]) {
          assert t[i] == s[i + 1] && t[j] == s[j + 1];
        }
      }
      SortAllTied(t, leq);
      assert s == [s[0]] + t;
      if |t| > 0 {
        assert leq(s[0], s[1]);
      }
    }
  }

  /** Python's ordering of `str` values: lexicographic on code points. */
  predicate StringLeq(a: string, b: string)
  {
    |a| == 0 || (|b| > 0 && (a[0] < b[0] || (a[0] == b[0] && StringLeq(a[1..], b[1..]))))
  }

  lemma {:induction false} StringLeqTotal(a: string, b: string)
    ensures StringLeq(a, b) || StringLeq(b, a)
  {
    if |a| > 0 && |b| > 0 && a[0] == b[0] {
      StringLeqTotal(a[1..], b[1..]);
    }
  }

  lemma {:induction false} StringLeqTransitive(a: string, b: string, c: string)
    requires StringLeq(a, b) && StringLeq(b, c)
    ensures StringLeq(a, c)
  {
    if |a| > 0 && a[0] == b[0] && b[0] == c[0] {
      StringLeqTransitive(a[1..], b[1..], c[1..]);
    }
  }

  lemma StringOrderIsTotalPreorder()
    ensures TotalPreorder(StringLeq)
  {
    forall a, b ensures StringLeq(a, b) || StringLeq(b, a) {
      StringLeqTotal(a, b);
    }
    forall a, b, c | StringLeq(a, b) && StringLeq(b, c) ensures StringLeq(a, c) {
      StringLeqTransitive(a, b, c);
    }
  }
}
