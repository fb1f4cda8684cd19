/**
 * Python's string ordering and `sorted`, used where the backend sorts calendar events and
 * forecast dates. Strings compare code point by code point, a proper prefix first.
 */
module Sorting {

  /** `a <= b` on Python strings. */
  predicate StrLe(a: string, b: string) {
    a == [] || (b != [] && (a[0] < b[0] || (a[0] == b[0] && StrLe(a[1..], b[1..]))))
  }

  lemma {:induction false} StrLeTotal(a: string, b: string)
    ensures StrLe(a, b) || StrLe(b, a)
  {
    if a != [] && b != [] && a[0] == b[0] {
      StrLeTotal(a[1..], b[1..]);
    }
  }

  lemma {:induction false} StrLeTrans(a: string, b: string, c: string)
    requires StrLe(a, b) && StrLe(b, c)
    ensures StrLe(a, c)
  {
    if a != [] && a[0] == b[0] && b[0] == c[0] {
      StrLeTrans(a[1..], b[1..], c[1..]);
    }
  }

  lemma {:induction false} StrLeAntisym(a: string, b: string)
    requires StrLe(a, b) && StrLe(b, a)
    ensures a == b
  {
    if a != [] {
      StrLeAntisym(a[1..], b[1..]);
      assert a == [a[0]] + a[1..] && b == [b[0]] + b[1..];
    }
  }

  /** `le` orders its arguments totally, with ties allowed. */
  ghost predicate TotalPreorder<T(!new)>(le: (T, T) -> bool) {
    (forall a, b :: le(a, b) || le(b, a)) &&
    (forall a, b, c :: le(a, b) && le(b, c) ==> le(a, c))
  }

  ghost predicate SortedBy<T>(s: seq<T>, le: (T, T) -> bool) {
    forall i, j | 0 <= i < j < |s| :: le(s[i], s[j])
  }

  /** Inserts `x` after every element not above it, so equal elements keep their order. */
  function Insert<T(!new)>(x: T, s: seq<T>, le: (T, T) -> bool): (r: seq<T>)
    requires TotalPreorder(le) && SortedBy(s, le)
    ensures SortedBy(r, le)
    ensures multiset(r) == multiset(s) + multiset{x}
  {
    if s == [] then [x]
    else if le(s[0], x) then
      var rest := Insert(x, s[1..], le);
      assert s == [s[0]] + s[1..];
      assert forall k | 0 <= k < |rest| :: le(s[0], rest[k]) by {
        forall k | 0 <= k < |rest|
          ensures le(s[0], rest[k])
        {
          assert rest[k] in multiset(rest);
          assert rest[k] == x || rest[k] in multiset(s[1..]);
          if rest[k] != x {
            var m :| 0 <= m < |s[1..]| && s[1..][m] == rest[k];
            assert s[1..][m] == s[m + 1];
          }
        }
      }
      [s[0]] + rest
    else
      assert forall k | 0 <= k < |s| :: le(x, s[k]) by {
        forall k | 0 <= k < |s|
          ensures le(x, s[k])
        {
          assert le(x, s[0]);
          if k > 0 {
            assert le(s[0], s[k]);
          }
        }
      }
      [x] + s
  }

  /** `sorted(s, key=...)`: a stable insertion sort. */
  function SortBy<T(!new)>(s: seq<T>, le: (T, T) -> bool): (r: seq<T>)
    requires TotalPreorder(le)
    ensures SortedBy(r, le)
    ensures multiset(r) == multiset(s)
    ensures |r| == |s|
  {
    if s == [] then []
    else
      var r := Insert(s[|s| - 1], SortBy(s[..|s| - 1], le), le);
      assert s == s[..|s| - 1] + [s[|s| - 1]];
      assert |r| == |multiset(r)| == |multiset(s)| == |s|;
      r
  }

  /** The elements of `s` that `le` ranks level with `x`, in their order in `s`. */
  function Ties<T>(s: seq<T>, x: T, le: (T, T) -> bool): (r: seq<T>)
    ensures |r| <= |s|
    ensures forall e | e in r :: e in s && le(e, x) && le(x, e)
  {
    if s == [] then []
    else (if le(s[0], x) && le(x, s[0]) then [s[0]] else []) + Ties(s[1..], x, le)
  }

  lemma {:induction false} TiesConcat<T>(a: seq<T>, b: seq<T>, x: T, le: (T, T) -> bool)
    ensures Ties(a + b, x, le) == Ties(a, x, le) + Ties(b, x, le)
  {
    if a == [] {
      assert a + b == b;
    } else {
      assert (a + b)[0] == a[0] && (a + b)[1..] == a[1..] + b;
      TiesConcat(a[1..], b, x, le);
    }
  }

  /** Inserting `x` puts it after every element of its rank already there. */
  lemma {:induction false} InsertTies<T(!new)>(x: T, s: seq<T>, y: T, le: (T, T) -> bool)
    requires TotalPreorder(le) && SortedBy(s, le)
    ensures Ties(Insert(x, s, le), y, le) == Ties(s, y, le) + Ties([x], y, le)
  {
    if s == [] {
    } else if le(s[0], x) {
      assert SortedBy(s[1..], le);
      InsertTies(x, s[1..], y, le);
      InsertPastHead(x, s, le);
      TiesKeepHead(s, Insert(x, s[1..], le), [x], y, le);
    } else {
      InsertTiesAtFront(x, s, y, le);
    }
  }

  /** Past an element not above `x`, insertion keeps that element in front. */
  lemma InsertPastHead<T(!new)>(x: T, s: seq<T>, le: (T, T) -> bool)
    requires TotalPreorder(le) && SortedBy(s, le) && s != [] && le(s[0], x)
    ensures SortedBy(s[1..], le) && Insert(x, s, le) == [s[0]] + Insert(x, s[1..], le)
  {
  }

  /** Putting the same head in front of both sides keeps an equation between rank lists. */
  lemma TiesKeepHead<T>(s: seq<T>, rest: seq<T>, tail: seq<T>, y: T, le: (T, T) -> bool)
    requires s != []
    requires Ties(rest, y, le) == Ties(s[1..], y, le) + Ties(tail, y, le)
    ensures Ties([s[0]] + rest, y, le) == Ties(s, y, le) + Ties(tail, y, le)
  {
    var head := if le(s[0], y) && le(y, s[0]) then [s[0]] else [];
    assert ([s[0]] + rest)[0] == s[0] && ([s[0]] + rest)[1..] == rest;
    assert Ties([s[0]] + rest, y, le) == head + Ties(rest, y, le);
    assert Ties(s, y, le) == head + Ties(s[1..], y, le);
    SeqAssoc(head, Ties(s[1..], y, le), Ties(tail, y, le));
  }

  lemma SeqAssoc<T>(a: seq<T>, b: seq<T>, c: seq<T>)
    ensures a + (b + c) == (a + b) + c
  {
  }

  /** An element placed before the whole list has no element of its rank after it. */
  lemma InsertTiesAtFront<T(!new)>(x: T, s: seq<T>, y: T, le: (T, T) -> bool)
    requires TotalPreorder(le) && SortedBy(s, le) && s != [] && !le(s[0], x)
    ensures Ties(Insert(x, s, le), y, le) == Ties(s, y, le) + Ties([x], y, le)
  {
    assert Insert(x, s, le) == [x] + s;
    TiesConcat([x], s, y, le);
    if le(x, y) && le(y, x) {
      forall e | e in s
        ensures !(le(e, y) && le(y, e))
      {
        var k :| 0 <= k < |s| && s[k] == e;
        assert k == 0 || le(s[0], s[k]);
      }
      TiesNone(s, y, le);
    }
  }

  lemma {:induction false} TiesNone<T>(s: seq<T>, x: T, le: (T, T) -> bool)
    requires forall e | e in s :: !(le(e, x) && le(x, e))
    ensures Ties(s, x, le) == []
  {
    if s != [] {
      assert s[0] in s;
      TiesNone(s[1..], x, le);
    }
  }

  /**
   * `sorted` is stable: for every rank, the elements of that rank come out in the order they
   * went in.
   */
  lemma {:induction false} SortByStable<T(!new)>(s: seq<T>, y: T, le: (T, T) -> bool)
    requires TotalPreorder(le)
    ensures Ties(SortBy(s, le), y, le) == Ties(s, y, le)
  {
    if s != [] {
      var front, last := s[..|s| - 1], s[|s| - 1];
      assert s == front + [last];
      SortByStable(front, y, le);
      InsertTies(last, SortBy(front, le), y, le);
      TiesConcat(front, [last], y, le);
    }
  }

  /** The order `sorted` gives plain strings. */
  function StrOrder(): ((string, string) -> bool) {
    (a: string, b: string) => StrLe(a, b)
  }

  lemma StrOrderIsTotal()
    ensures TotalPreorder(StrOrder())
  {
    forall a: string, b: string
      ensures StrOrder()(a, b) || StrOrder()(b, a)
    {
      StrLeTotal(a, b);
    }
    forall a: string, b: string, c: string | StrOrder()(a, b) && StrOrder()(b, c)
      ensures StrOrder()(a, c)
    {
      StrLeTrans(a, b, c);
    }
  }
}
