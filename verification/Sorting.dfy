/** Byte-wise string order and sorting, as the library sorts names. */
module Sorting {

  /** Strict lexicographic order. */
  predicate Less(a: string, b: string) {
    b != "" && (a == "" || a[0] < b[0] || (a[0] == b[0] && Less(a[1..], b[1..])))
  }

  lemma {:induction false} LessTotal(a: string, b: string)
    ensures Less(a, b) || a == b || Less(b, a)
    ensures !(Less(a, b) && Less(b, a)) && !Less(a, a)
    decreases |a|
  {
    if a != "" {
      LessTotal(a[1..], a[1..]);
      if b != "" && a[0] == b[0] {
        LessTotal(a[1..], b[1..]);
        assert a == [a[0]] + a[1..] && b == [b[0]] + b[1..];
      }
    }
  }

  lemma {:induction false} LessTransitive(a: string, b: string, c: string)
    requires Less(a, b) && Less(b, c)
    ensures Less(a, c)
    decreases |a|
  {
    if a != "" && a[0] == b[0] && b[0] == c[0] {
      LessTransitive(a[1..], b[1..], c[1..]);
    }
  }

  predicate Ascending(xs: seq<string>) {
    forall i, j :: 0 <= i < j < |xs| ==> Less(xs[i], xs[j])
  }

  predicate Distinct(xs: seq<string>) {
    forall i, j :: 0 <= i < j < |xs| ==> xs[i] != xs[j]
  }

  function Insert(x: string, xs: seq<string>): seq<string> {
    if xs == [] || !Less(xs[0], x) then [x] + xs else [xs[0]] + Insert(x, xs[1..])
  }

  function Sort(xs: seq<string>): seq<string> {
    if xs == [] then [] else Insert(xs[0], Sort(xs[1..]))
  }

  lemma {:induction false} InsertMeans(x: string, xs: seq<string>)
    requires Ascending(xs) && x !in xs
    ensures Ascending(Insert(x, xs))
    ensures forall y :: y in Insert(x, xs) <==> y == x || y in xs
  {
    if xs != [] {
      assert xs == [xs[0]] + xs[1..];
      LessTotal(x, xs[0]);
      if Less(xs[0], x) {
        InsertMeans(x, xs[1..]);
        forall y | y in Insert(x, xs[1..]) ensures Less(xs[0], y) {
          if y != x {
            var i :| 0 <= i < |xs[1..]| && xs[1..][i] == y;
            assert Less(xs[0], xs[i + 1]);
          }
        }
      } else {
        forall i | 0 <= i < |xs| ensures Less(x, xs[i]) {
          if i > 0 {
            LessTransitive(x, xs[0], xs[i]);
          }
        }
      }
    }
  }

  /** Sorting distinct strings puts the same ones in ascending order. */
  lemma {:induction false} SortMeans(xs: seq<string>)
    requires Distinct(xs)
    ensures Ascending(Sort(xs))
    ensures forall y :: y in Sort(xs) <==> y in xs
  {
    if xs != [] {
      SortMeans(xs[1..]);
      InsertMeans(xs[0], Sort(xs[1..]));
      assert xs == [xs[0]] + xs[1..];
    }
  }

  /** None comes before an earlier one. */
  predicate Ordered(xs: seq<string>) {
    forall i, j :: 0 <= i < j < |xs| ==> !Less(xs[j], xs[i])
  }

  lemma {:induction false} InsertOrders(x: string, xs: seq<string>)
    requires Ordered(xs)
    ensures Ordered(Insert(x, xs)) && multiset(Insert(x, xs)) == multiset(xs) + multiset{x}
  {
    if xs != [] {
      assert xs == [xs[0]] + xs[1..];
      LessTotal(x, xs[0]);
      if Less(xs[0], x) {
        InsertOrders(x, xs[1..]);
        NoneBefore(xs[0], x, xs[1..]);
      } else {
        forall i | 0 <= i < |xs| ensures !Less(xs[i], x) {
          if Less(xs[i], x) && i > 0 && x != xs[0] {
            LessTransitive(xs[i], x, xs[0]);
          }
        }
      }
    }
  }

  lemma NoneBefore(y: string, x: string, rest: seq<string>)
    requires Less(y, x) && forall i :: 0 <= i < |rest| ==> !Less(rest[i], y)
    ensures forall i :: 0 <= i < |Insert(x, rest)| ==> !Less(Insert(x, rest)[i], y)
  {
    LessTotal(y, x);
    forall i | 0 <= i < |Insert(x, rest)| ensures !Less(Insert(x, rest)[i], y) {
      InsertKeeps(x, rest, Insert(x, rest)[i]);
    }
  }

  /** Sorting any strings puts the same ones, as often as they come, in order. */
  lemma {:induction false} SortOrders(xs: seq<string>)
    ensures Ordered(Sort(xs)) && multiset(Sort(xs)) == multiset(xs)
  {
    if xs != [] {
      SortOrders(xs[1..]);
      InsertOrders(xs[0], Sort(xs[1..]));
      assert xs == [xs[0]] + xs[1..];
    }
  }

  lemma HasFirst(ys: seq<string>)
    ensures ys == [] || ys[0] in ys
  {
  }

  /** There is only one ascending list of given strings. */
  lemma {:induction false} AscendingUnique(xs: seq<string>, ys: seq<string>)
    requires Ascending(xs) && Ascending(ys)
    requires forall s :: s in xs <==> s in ys
    ensures xs == ys
  {
    HasFirst(ys);
    if xs != [] {
      assert xs[0] in ys;
      assert ys[0] in xs;
      LessTotal(xs[0], ys[0]);
      assert xs[0] == ys[0];
      forall s ensures s in xs[1..] <==> s in ys[1..] {
        LessTotal(xs[0], xs[0]);
        if s in xs[1..] {
          var i :| 0 <= i < |xs[1..]| && xs[1..][i] == s;
          assert Less(xs[0], xs[i + 1]) && s in xs;
        }
        if s in ys[1..] {
          var i :| 0 <= i < |ys[1..]| && ys[1..][i] == s;
          assert Less(ys[0], ys[i + 1]) && s in ys;
        }
      }
      AscendingUnique(xs[1..], ys[1..]);
    }
  }

  /** Inserting two strings gives the same list in either order. */
  lemma {:induction false} InsertCommutes(a: string, b: string, xs: seq<string>)
    ensures Insert(a, Insert(b, xs)) == Insert(b, Insert(a, xs))
  {
    LessTotal(a, b);
    if xs != [] {
      LessTotal(a, xs[0]);
      LessTotal(b, xs[0]);
      if Less(xs[0], a) && Less(xs[0], b) {
        InsertCommutes(a, b, xs[1..]);
      } else if Less(xs[0], a) && b != xs[0] {
        LessTransitive(b, xs[0], a);
      } else if Less(xs[0], b) && a != xs[0] {
        LessTransitive(a, xs[0], b);
      }
    }
  }

  /** Where a string stands makes no difference to the sorted list. */
  lemma {:induction false} SortMiddle(a: seq<string>, x: string, b: seq<string>)
    ensures Sort(a + [x] + b) == Insert(x, Sort(a + b))
  {
    if a == [] {
      assert (a + [x] + b)[1..] == b && a + b == b;
    } else {
      assert (a + [x] + b)[1..] == a[1..] + [x] + b;
      assert (a + b)[1..] == a[1..] + b;
      SortMiddle(a[1..], x, b);
      InsertCommutes(a[0], x, Sort(a[1..] + b));
    }
  }

  /** `order` lists each key once: one of the orders a map can be gone through in. */
  ghost predicate Enumerates(order: seq<string>, keys: set<string>) {
    Distinct(order) && forall s :: s in order <==> s in keys
  }

  /** Sorting adds no strings and loses none. */
  lemma {:induction false} SortKeeps(xs: seq<string>, s: string)
    ensures s in Sort(xs) <==> s in xs
  {
    if xs != [] {
      SortKeeps(xs[1..], s);
      InsertKeeps(xs[0], Sort(xs[1..]), s);
    }
  }

  lemma {:induction false} InsertKeeps(x: string, xs: seq<string>, s: string)
    ensures s in Insert(x, xs) <==> s == x || s in xs
  {
    if xs != [] {
      InsertKeeps(x, xs[1..], s);
    }
  }

  lemma Without(order: seq<string>, p: nat, keys: set<string>)
    requires p < |order| && Enumerates(order, keys)
    ensures Enumerates(order[..p] + order[p + 1..], keys - {order[p]})
  {
    var less := order[..p] + order[p + 1..];
    assert forall i :: 0 <= i < |less| ==> less[i] == order[if i < p then i else i + 1];
    forall s ensures s in less <==> s in keys - {order[p]} {
      if s in keys && s != order[p] {
        var i :| 0 <= i < |order| && order[i] == s;
        assert less[if i < p then i else i - 1] == s;
      }
    }
  }
}
