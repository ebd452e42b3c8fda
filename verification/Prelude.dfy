/** Types shared by several models. */
module Prelude {
  datatype Option<+T> = None | Some(value: T)

  function GetOr<T>(option: Option<T>, other: T): T {
    if option.Some? then option.value else other
  }

  /** `Number.MAX_SAFE_INTEGER`. */
  const MAX_SAFE_INTEGER: nat := 9007199254740991

  /** `Math.round`: halves go up. */
  function Round(x: real): int {
    (x + 0.5).Floor
  }

  /** `slice(0, count)`. */
  function Take<T>(s: seq<T>, count: nat): seq<T> {
    if |s| <= count then s else s[..count]
  }

  /** The prices `digitalPrice` accepts (lib/digital/domain.ts). */
  predicate DigitalPrice(cents: int) {
    1 <= cents <= 100_000
  }

  ghost predicate Distinct<T>(s: seq<T>) {
    forall i, j :: 0 <= i < j < |s| ==> s[i] != s[j]
  }

  /** The elements of a JavaScript Set filled from left to right. */
  function Unique<T(==,!new)>(s: seq<T>): (u: seq<T>)
    ensures forall x :: x in u <==> x in s
    ensures |u| <= |s|
  {
    if s == [] then []
    else
      var front, last := s[..|s| - 1], s[|s| - 1];
      assert s == front + [last];
      if last in Unique(front) then Unique(front) else Unique(front) + [last]
  }

  /** Position of the first occurrence. */
  function First<T(==,!new)>(s: seq<T>, x: T): (i: nat)
    requires x in s
    ensures i < |s| && s[i] == x && x !in s[..i]
  {
    var front := s[..|s| - 1];
    if x in front then
      assert First(front, x) < |front| && front[..First(front, x)] == s[..First(front, x)];
      First(front, x)
    else |s| - 1
  }

  /** No element is kept twice, and they stay in the order in which they first occur. */
  lemma {:induction false} UniqueKeepsFirstOccurrences<T(!new)>(s: seq<T>)
    ensures Distinct(Unique(s))
    ensures forall i, j :: 0 <= i < j < |Unique(s)| ==> First(s, Unique(s)[i]) < First(s, Unique(s)[j])
  {
    if s != [] {
      var front := s[..|s| - 1];
      UniqueKeepsFirstOccurrences(front);
      assert forall x :: x in front ==> First(s, x) == First(front, x);
    }
  }

  lemma {:induction false} UniqueOfDistinct<T(!new)>(s: seq<T>)
    requires Distinct(s)
    ensures Unique(s) == s
  {
    if s != [] {
      var front := s[..|s| - 1];
      UniqueOfDistinct(front);
      assert s == front + [s[|s| - 1]];
    }
  }

  lemma {:induction false} DistinctFits<T>(s: seq<T>, bound: set<T>)
    requires Distinct(s) && forall x :: x in s ==> x in bound
    ensures |s| <= |bound|
  {
    if s != [] {
      var last := s[|s| - 1];
      assert last in s && forall x :: x in s[..|s| - 1] ==> x in s;
      DistinctFits(s[..|s| - 1], bound - {last});
    }
  }

  /** The same elements, each as often, in whatever order. */
  predicate Rearranges<T(==)>(a: seq<T>, b: seq<T>) {
    multiset(a) == multiset(b)
  }

  lemma {:induction false} DistinctByCount<T>(s: seq<T>)
    ensures Distinct(s) <==> forall x :: multiset(s)[x] <= 1
  {
    if s != [] {
      var front, last := s[..|s| - 1], s[|s| - 1];
      DistinctByCount(front);
      assert s == front + [last];
      assert forall i :: 0 <= i < |front| ==> s[i] == front[i];
      if Distinct(s) {
        assert last !in front;
        forall x ensures multiset(s)[x] <= 1 {
          assert multiset(s)[x] == multiset(front)[x] + multiset([last])[x];
        }
      } else if Distinct(front) {
        assert last in multiset(front);
        assert multiset(s)[last] >= 2;
      } else {
        var x :| multiset(front)[x] > 1;
        assert multiset(s)[x] > 1;
      }
    }
  }

  lemma RearrangedIsDistinct<T>(a: seq<T>, b: seq<T>)
    requires Rearranges(a, b) && Distinct(b)
    ensures Distinct(a) && |a| == |b| && forall x :: x in a <==> x in b
  {
    DistinctByCount(a);
    DistinctByCount(b);
    assert |multiset(a)| == |multiset(b)|;
    forall x ensures x in a <==> x in b {
      assert x in a <==> x in multiset(a);
      assert x in b <==> x in multiset(b);
    }
  }

  /** Where an element of a rearranged sequence is, and what remains of it without that element. */
  lemma RearrangedWithoutFirst<T>(a: seq<T>, b: seq<T>) returns (i: nat)
    requires a != [] && Rearranges(a, b)
    ensures i < |b| && b[i] == a[0] && b == b[..i] + [a[0]] + b[i + 1..] && Rearranges(a[1..], b[..i] + b[i + 1..])
  {
    assert a[0] in multiset(b);
    i :| 0 <= i < |b| && b[i] == a[0];
    var first, x, y := a[0], b[..i], b[i + 1..];
    assert a == [first] + a[1..] && b == x + [first] + y;
    assert multiset(a) == multiset{first} + multiset(a[1..]);
    assert multiset(b) == multiset(x) + multiset{first} + multiset(y);
    assert multiset(x + y) == multiset(x) + multiset(y);
    assert multiset(a) - multiset{first} == multiset(a[1..]);
    assert multiset(b) - multiset{first} == multiset(x + y);
  }

  lemma InsertedRearranges<T>(first: seq<T>, rest: seq<T>, x: seq<T>, y: seq<T>)
    requires Rearranges(rest, x + y)
    ensures Rearranges(first + rest, x + first + y)
  {
  }
}
