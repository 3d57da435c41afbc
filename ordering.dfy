/** Ordered reads: the rows a query returns under `orderBy: { field: "desc" }`,
    `take: n`, and the stable descending sort of JavaScript's `Array.prototype.sort`
    with a `b - a` comparator followed by `slice(0, limit)`. */
module Ordering {

  predicate DescendingBy<T>(s: seq<T>, key: T -> int) {
    forall i, j | 0 <= i < j < |s| :: key(s[i]) >= key(s[j])
  }

  predicate Distinct<T(==)>(s: seq<T>) {
    forall i, j | 0 <= i < j < |s| :: s[i] != s[j]
  }

  lemma DistinctTail<T>(s: seq<T>)
    requires Distinct(s) && s != []
    ensures Distinct(s[1..])
  {
    forall i, j | 0 <= i < j < |s[1..]| ensures s[1..][i] != s[1..][j] {
      assert s[1..][i] == s[i + 1] && s[1..][j] == s[j + 1];
    }
  }

  lemma DistinctAppend<T>(s: seq<T>, x: T)
    requires Distinct(s) && x !in s
    ensures Distinct(s + [x])
  {
    forall i, j | 0 <= i < j < |s + [x]| ensures (s + [x])[i] != (s + [x])[j] {
      assert (s + [x])[i] == s[i];
      if j < |s| {
        assert (s + [x])[j] == s[j];
      }
    }
  }

  /** `r` lists every element of `rows` exactly once, in no particular order. */
  ghost predicate Enumerates<T(!new)>(r: seq<T>, rows: set<T>) {
    Distinct(r) && forall x :: x in r <==> x in rows
  }

  /** `r` lists every element of `rows` exactly once, largest key first. */
  ghost predicate ListingOf<T(!new)>(r: seq<T>, rows: set<T>, key: T -> int) {
    Enumerates(r, rows) && DescendingBy(r, key)
  }

  /** A sequence that lists a set once per element is as long as the set is large. */
  lemma {:induction false} EnumerationSize<T(!new)>(r: seq<T>, rows: set<T>)
    requires Enumerates(r, rows)
    ensures |r| == |rows|
  {
    if r != [] {
      var rest := r[1..];
      assert r == [r[0]] + rest;
      forall x ensures x in rest <==> x in rows - {r[0]} {
        if x in rest {
          var k :| 0 <= k < |rest| && rest[k] == x;
          assert r[k + 1] == x;
        }
      }
      assert Distinct(rest) by {
        forall i, j | 0 <= i < j < |rest| ensures rest[i] != rest[j] {
          assert rest[i] == r[i + 1] && rest[j] == r[j + 1];
        }
      }
      EnumerationSize(rest, rows - {r[0]});
    } else {
      assert forall x :: x !in rows;
    }
  }

  lemma {:induction false} MaxExists<T>(rows: set<T>, key: T -> int)
    requires rows != {}
    ensures exists x :: x in rows && forall y | y in rows :: key(y) <= key(x)
    decreases rows
  {
    var x :| x in rows;
    if rows != {x} {
      var rest := rows - {x};
      MaxExists(rest, key);
      var m :| m in rest && forall y | y in rest :: key(y) <= key(m);
      if key(m) < key(x) {
        assert forall y | y in rows :: key(y) <= key(x);
      } else {
        assert forall y | y in rows :: key(y) <= key(m);
      }
    }
  }

  /** The rows of a set in descending key order; among equal keys the order is
      left unspecified, as the database leaves it. */
  ghost function Listing<T(!new)>(rows: set<T>, key: T -> int): (r: seq<T>)
    ensures ListingOf(r, rows, key)
    ensures |r| == |rows|
    decreases rows
  {
    if rows == {} then []
    else
      MaxExists(rows, key);
      var x :| x in rows && forall y | y in rows :: key(y) <= key(x);
      var rest := Listing(rows - {x}, key);
      assert forall j | 0 <= j < |rest| :: rest[j] in rows - {x};
      [x] + rest
  }

  /** `take: n` on an ordered query. */
  function Take<T>(s: seq<T>, n: nat): seq<T> {
    if n < |s| then s[..n] else s
  }

  /** Taking the first `n` rows of a listing keeps the ones with the largest keys
      and still lists them once each in descending order: every row left out has a
      key no larger than any row kept. */
  lemma TakeOfListing<T(!new)>(r: seq<T>, rows: set<T>, key: T -> int, n: nat)
    requires ListingOf(r, rows, key) && |r| == |rows|
    ensures |Take(r, n)| == if n < |rows| then n else |rows|
    ensures Distinct(Take(r, n)) && DescendingBy(Take(r, n), key)
    ensures forall x | x in Take(r, n) :: x in rows
    ensures forall x, y | x in Take(r, n) && y in rows && y !in Take(r, n) :: key(x) >= key(y)
  {
    var t := Take(r, n);
    assert forall i | 0 <= i < |t| :: t[i] == r[i];
    forall x, y | x in t && y in rows && y !in t ensures key(x) >= key(y) {
      var i :| 0 <= i < |t| && t[i] == x;
      assert y in r;
      var j :| 0 <= j < |r| && r[j] == y;
      assert j >= |t|;
    }
  }

  /** JavaScript's `slice(0, end)`: a negative `end` counts back from the end. */
  function SliceTo<T>(s: seq<T>, end: int): (r: seq<T>)
    ensures 0 <= end ==> |r| == (if end < |s| then end else |s|)
    ensures end < 0 ==> |r| == (if |s| + end > 0 then |s| + end else 0)
    ensures r == s[..|r|]
  {
    if end >= 0 then (if end < |s| then s[..end] else s)
    else if |s| + end > 0 then s[..|s| + end]
    else []
  }

  /** Places `x` before the first element whose key is not larger, so that among
      equal keys the earlier original element stays first. */
  function Insert<T>(x: T, s: seq<T>, key: T -> int): (r: seq<T>)
    ensures multiset(r) == multiset(s) + multiset{x}
    ensures DescendingBy(s, key) ==> DescendingBy(r, key)
  {
    if s == [] || key(s[0]) <= key(x) then
      assert DescendingBy(s, key) ==> DescendingBy([x] + s, key) by {
        if DescendingBy(s, key) {
          if s != [] {
            HeadIsLargest(s, key);
          }
          PrependSorted(x, s, key);
        }
      }
      [x] + s
    else
      var rest := Insert(x, s[1..], key);
      assert s == [s[0]] + s[1..];
      assert DescendingBy(s, key) ==> DescendingBy([s[0]] + rest, key) by {
        if DescendingBy(s, key) {
          InsertBound(x, s, rest, key);
          PrependSorted(s[0], rest, key);
        }
      }
      [s[0]] + rest
  }

  lemma HeadIsLargest<T>(s: seq<T>, key: T -> int)
    requires s != [] && DescendingBy(s, key)
    ensures forall y | y in s :: key(y) <= key(s[0])
  {
    forall y | y in s ensures key(y) <= key(s[0]) {
      var k :| 0 <= k < |s| && s[k] == y;
    }
  }

  /** An element no smaller than everything in a descending sequence may go first. */
  lemma PrependSorted<T>(x: T, s: seq<T>, key: T -> int)
    requires DescendingBy(s, key)
    requires forall y | y in s :: key(y) <= key(x)
    ensures DescendingBy([x] + s, key)
  {
    forall i, j | 0 <= i < j < |[x] + s| ensures key(([x] + s)[i]) >= key(([x] + s)[j]) {
      assert ([x] + s)[j] == s[j - 1];
      if i > 0 {
        assert ([x] + s)[i] == s[i - 1];
      }
    }
  }

  lemma InsertBound<T>(x: T, s: seq<T>, rest: seq<T>, key: T -> int)
    requires s != [] && DescendingBy(s, key) && key(x) < key(s[0])
    requires multiset(rest) == multiset(s[1..]) + multiset{x}
    ensures forall y | y in rest :: key(y) <= key(s[0])
  {
    forall y | y in rest ensures key(y) <= key(s[0]) {
      assert y in multiset(rest);
      if y != x {
        assert y in multiset(s[1..]);
        var k :| 0 <= k < |s[1..]| && s[1..][k] == y;
        assert s[k + 1] == y;
      }
    }
  }

  /** A prefix of a sequence keeps its order and takes no element twice over; a
      prefix of a descending sequence keeps the elements with the largest keys. */
  lemma PrefixOf<T>(s: seq<T>, r: seq<T>, key: T -> int)
    requires |r| <= |s| && r == s[..|r|]
    ensures multiset(r) <= multiset(s)
    ensures DescendingBy(s, key) ==> DescendingBy(r, key)
    ensures DescendingBy(s, key) ==>
              forall x, y | x in r && y in multiset(s) - multiset(r) :: key(x) >= key(y)
  {
    var tail := s[|r|..];
    assert s == r + tail;
    assert multiset(s) == multiset(r) + multiset(tail);
    assert multiset(s) - multiset(r) == multiset(tail);
    if DescendingBy(s, key) {
      forall x, y | x in r && y in multiset(s) - multiset(r) ensures key(x) >= key(y) {
        var i :| 0 <= i < |r| && r[i] == x;
        assert y in tail;
        var j :| 0 <= j < |tail| && tail[j] == y;
        assert s[i] == x && s[|r| + j] == y;
      }
    }
  }

  /** The stable descending sort of a sequence by `key`. */
  function SortDesc<T>(s: seq<T>, key: T -> int): (r: seq<T>)
    ensures multiset(r) == multiset(s)
    ensures |r| == |s|
    ensures DescendingBy(r, key)
  {
    if s == [] then []
    else
      assert s == [s[0]] + s[1..];
      Insert(s[0], SortDesc(s[1..], key), key)
  }
}
