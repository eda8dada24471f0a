/**
 The order in which waiting pull requests are processed.

 Times are nanoseconds on an unbounded axis.  Go saturates a difference of
 times at about 292 years, which is beyond every bound it is compared with
 here, so the comparisons are the same.
 */
module PullRequestOrder {

  const SECOND: int := 1_000_000_000
  const MINUTE: int := 60 * SECOND
  const HOUR: int := 60 * MINUTE

  /** Since when a pull request is active; the zero time when it is not. */
  datatype Since = ZeroTime | At(t: int)

  datatype PR = PR(number: int, priority: int, suspendCount: nat, since: Since, enqueuedAt: int)

  function Compare(a: int, b: int): int {
    if a < b then -1 else if a > b then 1 else 0
  }

  function Abs(a: int): int {
    if a < 0 then -a else a
  }

  /** Active for less than four hours at time now. */
  predicate Young(x: PR, now: int)
    requires x.since.At?
  {
    now - x.since.t < 4 * HOUR
  }

  /** The part of the decision that looks at the time in the queue and the number of suspensions; 0 when undecided. */
  function CompareActivity(x: PR, y: PR, now: int): int {
    if x.since.ZeroTime? || y.since.ZeroTime? then 0
    else
      var bySuspends :=
        if Young(x, now) && Young(y, now) then Compare(x.suspendCount, y.suspendCount)
        else if Young(x, now) && x.suspendCount > 1 then 1
        else if Young(y, now) && y.suspendCount > 1 then -1
        else 0;
      if bySuspends != 0 then bySuspends
      else if Abs(x.since.t - y.since.t) > MINUTE then Compare(x.since.t, y.since.t)
      else 0
  }

  /** -1 when x is to be processed before y, 1 when after it, 0 when neither. */
  function OrderBefore(x: PR, y: PR, now: int): int {
    if y.priority != x.priority then Compare(y.priority, x.priority)
    else if CompareActivity(x, y, now) != 0 then CompareActivity(x, y, now)
    else if x.enqueuedAt != y.enqueuedAt then Compare(x.enqueuedAt, y.enqueuedAt)
    else Compare(x.number, y.number)
  }

  function OrderAt(now: int): (PR, PR) -> int {
    (x: PR, y: PR) => OrderBefore(x, y, now)
  }

  /** At one instant the order is antisymmetric and decides every pair of different pull requests. */
  lemma Decisive(x: PR, y: PR, now: int)
    ensures OrderBefore(x, y, now) == -OrderBefore(y, x, now)
    ensures OrderBefore(x, y, now) in {-1, 0, 1}
    ensures x.number != y.number ==> OrderBefore(x, y, now) != 0
  {
  }

  // ---------------------------------------------------------------------
  // Where it is a lexicographic order
  // ---------------------------------------------------------------------

  /** Lexicographic comparison of integer tuples of equal length. */
  predicate LexLess(a: seq<int>, b: seq<int>)
    requires |a| == |b|
  {
    a != [] && (a[0] < b[0] || (a[0] == b[0] && LexLess(a[1..], b[1..])))
  }

  lemma {:induction false} LexTransitive(a: seq<int>, b: seq<int>, c: seq<int>)
    requires |a| == |b| == |c| && LexLess(a, b) && LexLess(b, c)
    ensures LexLess(a, c)
  {
    if a[0] == b[0] == c[0] {
      LexTransitive(a[1..], b[1..], c[1..]);
    }
  }

  lemma {:induction false} LexTotal(a: seq<int>, b: seq<int>)
    requires |a| == |b|
    ensures a == b || LexLess(a, b) || LexLess(b, a)
    ensures !(LexLess(a, b) && LexLess(b, a)) && !LexLess(a, a)
  {
    if a != [] {
      LexTotal(a[1..], b[1..]);
      LexTotal(a[1..], a[1..]);
      assert a == [a[0]] + a[1..] && b == [b[0]] + b[1..];
    }
  }

  /** All active, and every two became active more than a minute apart. */
  ghost predicate Spread(S: set<PR>) {
    && (forall x :: x in S ==> x.since.At?)
    && (forall x, y :: x in S && y in S && x != y ==> Abs(x.since.t - y.since.t) > MINUTE)
  }

  /** All active for less than four hours, and every two became active within a minute of each other. */
  ghost predicate Batch(S: set<PR>, now: int) {
    && (forall x :: x in S ==> x.since.At? && Young(x, now))
    && (forall x, y :: x in S && y in S ==> Abs(x.since.t - y.since.t) <= MINUTE)
    && (forall x, y :: x in S && y in S && x != y ==> x.number != y.number)
  }

  /** Priority, then the old before the young, the young by suspensions, then the time in the queue. */
  function SpreadKey(x: PR, now: int): seq<int>
    requires x.since.At?
  {
    [-x.priority, if Young(x, now) then 1 else 0, if Young(x, now) then x.suspendCount else 0, x.since.t]
  }

  /** Priority, suspensions, time of enqueueing, number. */
  function BatchKey(x: PR): seq<int> {
    [-x.priority, x.suspendCount, x.enqueuedAt, x.number]
  }

  lemma LexUnfold4(a: seq<int>, b: seq<int>)
    requires |a| == |b| == 4
    ensures LexLess(a, b) <==>
      a[0] < b[0] || (a[0] == b[0] && (a[1] < b[1] || (a[1] == b[1] && (a[2] < b[2] || (a[2] == b[2] && a[3] < b[3])))))
  {
    assert a[1..][1..] == a[2..] && b[1..][1..] == b[2..];
    assert a[2..][1..] == a[3..] && b[2..][1..] == b[3..];
    assert LexLess(a[3..], b[3..]) <==> a[3] < b[3];
    assert LexLess(a[2..], b[2..]) <==> a[2] < b[2] || (a[2] == b[2] && LexLess(a[3..], b[3..]));
    assert LexLess(a[1..], b[1..]) <==> a[1] < b[1] || (a[1] == b[1] && LexLess(a[2..], b[2..]));
  }

  lemma SpreadIsLexicographic(S: set<PR>, x: PR, y: PR, now: int)
    requires Spread(S) && x in S && y in S && x != y
    ensures OrderBefore(x, y, now) < 0 <==> LexLess(SpreadKey(x, now), SpreadKey(y, now))
  {
    LexUnfold4(SpreadKey(x, now), SpreadKey(y, now));
  }

  lemma BatchIsLexicographic(S: set<PR>, x: PR, y: PR, now: int)
    requires Batch(S, now) && x in S && y in S && x != y
    ensures OrderBefore(x, y, now) < 0 <==> LexLess(BatchKey(x), BatchKey(y))
  {
    LexUnfold4(BatchKey(x), BatchKey(y));
  }

  /** The order decides every pair of S one way and is transitive on S. */
  ghost predicate StrictTotalOn(S: set<PR>, now: int) {
    && (forall x, y :: x in S && y in S && x != y ==> OrderBefore(x, y, now) < 0 || OrderBefore(y, x, now) < 0)
    && (forall x, y :: x in S && y in S && x != y ==> !(OrderBefore(x, y, now) < 0 && OrderBefore(y, x, now) < 0))
    && (forall x, y, z ::
          x in S && y in S && z in S && x != y && y != z && x != z
          && OrderBefore(x, y, now) < 0 && OrderBefore(y, z, now) < 0
          ==> OrderBefore(x, z, now) < 0)
  }

  lemma SpreadIsTotal(S: set<PR>, now: int)
    requires Spread(S)
    ensures StrictTotalOn(S, now)
  {
    forall x, y | x in S && y in S && x != y
      ensures OrderBefore(x, y, now) < 0 || OrderBefore(y, x, now) < 0
      ensures !(OrderBefore(x, y, now) < 0 && OrderBefore(y, x, now) < 0)
    {
      SpreadIsLexicographic(S, x, y, now);
      SpreadIsLexicographic(S, y, x, now);
      assert SpreadKey(x, now)[3] != SpreadKey(y, now)[3];
      LexTotal(SpreadKey(x, now), SpreadKey(y, now));
    }
    forall x, y, z | x in S && y in S && z in S && x != y && y != z && x != z &&
        OrderBefore(x, y, now) < 0 && OrderBefore(y, z, now) < 0
      ensures OrderBefore(x, z, now) < 0
    {
      SpreadIsLexicographic(S, x, y, now);
      SpreadIsLexicographic(S, y, z, now);
      SpreadIsLexicographic(S, x, z, now);
      LexTransitive(SpreadKey(x, now), SpreadKey(y, now), SpreadKey(z, now));
    }
  }

  lemma BatchIsTotal(S: set<PR>, now: int)
    requires Batch(S, now)
    ensures StrictTotalOn(S, now)
  {
    forall x, y | x in S && y in S && x != y
      ensures OrderBefore(x, y, now) < 0 || OrderBefore(y, x, now) < 0
      ensures !(OrderBefore(x, y, now) < 0 && OrderBefore(y, x, now) < 0)
    {
      BatchIsLexicographic(S, x, y, now);
      BatchIsLexicographic(S, y, x, now);
      assert BatchKey(x)[3] != BatchKey(y)[3];
      LexTotal(BatchKey(x), BatchKey(y));
    }
    forall x, y, z | x in S && y in S && z in S && x != y && y != z && x != z &&
        OrderBefore(x, y, now) < 0 && OrderBefore(y, z, now) < 0
      ensures OrderBefore(x, z, now) < 0
    {
      BatchIsLexicographic(S, x, y, now);
      BatchIsLexicographic(S, y, z, now);
      BatchIsLexicographic(S, x, z, now);
      LexTransitive(BatchKey(x), BatchKey(y), BatchKey(z));
    }
  }

  // ---------------------------------------------------------------------
  // Starvation, and where transitivity fails
  // ---------------------------------------------------------------------

  /**
   After four hours nothing of the same priority that came more than a
   minute later overtakes, however old it is itself.
   */
  lemma NoStarvation(x: PR, y: PR, now: int)
    requires x.priority == y.priority && x.since.At? && y.since.At?
    requires now - x.since.t >= 4 * HOUR && y.since.t - x.since.t > MINUTE
    ensures OrderBefore(x, y, now) < 0
  {
  }

  /** x comes before y by the time of enqueueing, then the number. */
  predicate EnqueuedBefore(x: PR, y: PR) {
    x.enqueuedAt < y.enqueuedAt || (x.enqueuedAt == y.enqueuedAt && x.number < y.number)
  }

  /** The order goes round in a circle: a before b before c before a. */
  predicate Circle(a: PR, b: PR, c: PR, now: int) {
    OrderBefore(a, b, now) < 0 && OrderBefore(b, c, now) < 0 && OrderBefore(c, a, now) < 0
  }

  /** The numbers of suspensions do not decide between x and y. */
  predicate SameClass(x: PR, y: PR, now: int)
    requires x.since.At? && y.since.At?
  {
    if Young(x, now) && Young(y, now) then x.suspendCount == y.suspendCount
    else (Young(x, now) ==> x.suspendCount <= 1) && (Young(y, now) ==> y.suspendCount <= 1)
  }

  /**
   What closes a circle among those that suspensions do not decide: b is within
   the tolerance of both others and all go by the time of enqueueing, but c is
   active for so much longer than a that this pair goes by the time in the queue.
   */
  predicate ToleranceGap(a: PR, b: PR, c: PR, now: int) {
    && a.since.At? && b.since.At? && c.since.At?
    && SameClass(a, b, now) && SameClass(b, c, now) && SameClass(c, a, now)
    && EnqueuedBefore(a, b) && EnqueuedBefore(b, c)
    && Abs(a.since.t - b.since.t) <= MINUTE && Abs(b.since.t - c.since.t) <= MINUTE
    && a.since.t - c.since.t > MINUTE
  }

  /**
   What closes a circle at the boundary of four hours: a single suspension decides
   between the young y0 and y1, but not between y1 and the old o.
   */
  predicate BoundaryGap(o: PR, y0: PR, y1: PR, now: int) {
    && o.since.At? && y0.since.At? && y1.since.At?
    && !Young(o, now) && Young(y0, now) && Young(y1, now) && y0.suspendCount == 0 && y1.suspendCount == 1
    && (y0.since.t - o.since.t > MINUTE || EnqueuedBefore(o, y0))
    && y1.since.t - o.since.t <= MINUTE && EnqueuedBefore(y1, o)
  }

  /**
   What closes a circle around a pull request that is not active yet: it goes by
   the time of enqueueing, and the other two by their time in the queue.
   */
  predicate InactiveGap(a: PR, b: PR, c: PR, now: int) {
    && b.since.ZeroTime? && EnqueuedBefore(a, b) && EnqueuedBefore(b, c)
    && CompareActivity(c, a, now) < 0
  }

  predicate Gap(a: PR, b: PR, c: PR, now: int) {
    ToleranceGap(a, b, c, now) || BoundaryGap(a, b, c, now) || InactiveGap(a, b, c, now)
  }

  /**
   Exactly when three pull requests go round in a circle: when their priorities are
   equal and one of the three gaps is found, wherever the circle is entered.
   */
  lemma CircleExactly(a: PR, b: PR, c: PR, now: int)
    ensures Circle(a, b, c, now) <==>
            a.priority == b.priority == c.priority && (Gap(a, b, c, now) || Gap(b, c, a, now) || Gap(c, a, b, now))
  {
  }

  /**
   The order is not transitive, for each of the three reasons: three pull requests
   40 seconds apart, enqueued in the opposite order; an old one between two young
   ones of which one was suspended once; and one that is not active.
   */
  lemma NotTransitive()
    ensures exists a: PR, b: PR, c: PR, now: int :: Circle(a, b, c, now) && ToleranceGap(a, b, c, now)
    ensures exists a: PR, b: PR, c: PR, now: int :: Circle(a, b, c, now) && BoundaryGap(a, b, c, now)
    ensures exists a: PR, b: PR, c: PR, now: int :: Circle(a, b, c, now) && InactiveGap(a, b, c, now)
  {
    var a, b, c := PR(1, 0, 0, At(80 * SECOND), 1), PR(2, 0, 0, At(40 * SECOND), 2), PR(3, 0, 0, At(0), 3);
    assert Circle(a, b, c, HOUR) && ToleranceGap(a, b, c, HOUR);
    var o, y0, y1 := PR(1, 0, 0, At(HOUR - SECOND), 10), PR(2, 0, 0, At(2 * HOUR), 20),
                     PR(3, 0, 1, At(HOUR + SECOND), 5);
    assert Circle(o, y0, y1, 5 * HOUR) && BoundaryGap(o, y0, y1, 5 * HOUR);
    var late, waiting, early := PR(1, 0, 0, At(80 * SECOND), 1), PR(2, 0, 0, ZeroTime, 2), PR(3, 0, 0, At(0), 3);
    assert Circle(late, waiting, early, HOUR) && InactiveGap(late, waiting, early, HOUR);
  }

  ghost predicate NumbersDiffer(S: set<PR>) {
    forall x, y :: x in S && y in S && x != y ==> x.number != y.number
  }

  ghost predicate NoCircle(S: set<PR>, now: int) {
    forall a, b, c :: a in S && b in S && c in S ==> !Circle(a, b, c, now)
  }

  /** Circles are all that can go wrong: without one the order is strict and total, and only then. */
  lemma TotalExactly(S: set<PR>, now: int)
    requires NumbersDiffer(S)
    ensures StrictTotalOn(S, now) <==> NoCircle(S, now)
  {
    forall x, y
      ensures OrderBefore(x, y, now) == -OrderBefore(y, x, now)
      ensures x.number != y.number ==> OrderBefore(x, y, now) != 0
    {
      Decisive(x, y, now);
    }
    hide OrderBefore;
  }
}

/** Re-sorting the active queue: the first pull request is pinned, the others go by OrderBefore. */
module ActiveQueueOrder {
  import opened LinkedList
  import opened OrderedMap
  import opened PullRequestOrder

  /** The comparison of queue.SortActiveQueue, on pull request numbers. */
  function SortCompare(prs: map<int, PR>, first: int, now: int): (int, int) -> int {
    (a: int, b: int) =>
      if a == first then -1
      else if b == first then 1
      else if a in prs && b in prs then OrderBefore(prs[a], prs[b], now)
      else 0
  }

  /** Every pull request is filed under its number. */
  predicate Filed(prs: map<int, PR>) {
    forall n :: n in prs ==> prs[n].number == n
  }

  function Others(prs: map<int, PR>, first: int): set<PR> {
    set n | n in prs && n != first :: prs[n]
  }

  /** Those behind the first are in an order that goes round in no circle. */
  ghost predicate Orderly(prs: map<int, PR>, first: int, now: int) {
    NoCircle(Others(prs, first), now)
  }

  /**
   Sorting permutes the active pull requests and keeps the first one first, however
   many there are and whatever circles the order has.  No two neighbours behind the
   first are left in the wrong order when there are few, or no circles.
   */
  lemma SortKeepsFirst(prs: map<int, PR>, first: int, now: int, sorted: seq<int>)
    requires Filed(prs) && first in prs && SortedAsBy(sorted, prs.Keys, SortCompare(prs, first, now))
    ensures sorted != [] && sorted[0] == first
    ensures forall i :: 0 <= i < |sorted| ==> sorted[i] in prs
    ensures |sorted| <= MAX_INSERTION || Orderly(prs, first, now) ==>
            forall i :: 1 <= i < |sorted| - 1 ==> OrderBefore(prs[sorted[i]], prs[sorted[i + 1]], now) < 0
  {
    var cmp := SortCompare(prs, first, now);
    CompareLeads(prs, first, now);
    assert forall i :: 0 <= i < |sorted| ==> sorted[i] in prs.Keys;
    if Orderly(prs, first, now) {
      CompareIsTotal(prs, first, now);
    }
    forall i | 1 <= i < |sorted| - 1 && (|sorted| <= MAX_INSERTION || Orderly(prs, first, now))
      ensures OrderBefore(prs[sorted[i]], prs[sorted[i + 1]], now) < 0
    {
      var x, y := sorted[i], sorted[i + 1];
      assert x != first && y != first && x != y && (cmp(y, x) >= 0 || cmp(x, y) < 0);
      Decisive(prs[x], prs[y], now);
    }
  }

  lemma CompareLeads(prs: map<int, PR>, first: int, now: int)
    requires Filed(prs) && first in prs
    ensures Leads(first, prs.Keys, SortCompare(prs, first, now))
    ensures Consistent(prs.Keys, SortCompare(prs, first, now))
  {
    var cmp := SortCompare(prs, first, now);
    forall a, b | a in prs.Keys && b in prs.Keys && a != b && cmp(a, b) < 0
      ensures cmp(b, a) >= 0
    {
      Decisive(prs[a], prs[b], now);
    }
  }

  lemma CompareIsTotal(prs: map<int, PR>, first: int, now: int)
    requires Filed(prs) && first in prs && Orderly(prs, first, now)
    ensures TotalOn(prs.Keys, SortCompare(prs, first, now))
  {
    var cmp := SortCompare(prs, first, now);
    TotalExactly(Others(prs, first), now);
    assert forall a :: a in prs && a != first ==> prs[a] in Others(prs, first);
    forall a, b | a in prs && b in prs && a != b
      ensures cmp(a, b) < 0 || cmp(b, a) < 0
      ensures !(cmp(a, b) < 0 && cmp(b, a) < 0)
    {
      if a != first && b != first {
        Decisive(prs[a], prs[b], now);
      }
    }
    hide OrderBefore;
    hide NoCircle;
    forall a, b, c |
        a in prs && b in prs && c in prs && a != b && b != c && a != c
        && cmp(a, b) < 0 && cmp(b, c) < 0
      ensures cmp(a, c) < 0
    {
      if a != first {
        assert b != first && c != first;
        assert OrderBefore(prs[a], prs[b], now) < 0 && OrderBefore(prs[b], prs[c], now) < 0;
      }
    }
    hide SortCompare;
    hide StrictTotalOn;
  }

  /** A listing in which every two are in order leaves no room for a circle. */
  lemma SortedHasNoCircle(prs: map<int, PR>, first: int, now: int, t: seq<int>)
    requires Filed(prs) && first in prs && Lists(t, prs.Keys) && SortedBy(t, SortCompare(prs, first, now))
    ensures Orderly(prs, first, now)
  {
    var cmp := SortCompare(prs, first, now);
    forall x, y | x in prs && y in prs && x != first && y != first && OrderBefore(prs[x], prs[y], now) < 0
      ensures Index(t, x) < Index(t, y)
    {
      Decisive(prs[x], prs[y], now);
      assert t[Index(t, x)] == x && t[Index(t, y)] == y;
    }
    hide OrderBefore;
    forall a, b, c | a in Others(prs, first) && b in Others(prs, first) && c in Others(prs, first)
      ensures !Circle(a, b, c, now)
    {
      assert prs[a.number] == a && prs[b.number] == b && prs[c.number] == c;
    }
  }

  /**
   Exactly when a listing is in order throughout: when the order has no circles
   behind the first, and the listing is the one the library returns.  So without
   circles the result does not depend on how the hash map lists its keys or on
   the sorting algorithm, and with one no listing is in order.
   */
  lemma SortIsDetermined(prs: map<int, PR>, first: int, now: int, sorted: seq<int>, other: seq<int>)
    requires Filed(prs) && first in prs && Lists(other, prs.Keys)
    requires SortedAsBy(sorted, prs.Keys, SortCompare(prs, first, now))
    ensures SortedBy(other, SortCompare(prs, first, now)) <==> Orderly(prs, first, now) && other == sorted
  {
    var cmp := SortCompare(prs, first, now);
    if SortedBy(other, cmp) {
      SortedHasNoCircle(prs, first, now, other);
    }
    if Orderly(prs, first, now) {
      CompareIsTotal(prs, first, now);
      if SortedBy(other, cmp) {
        SortedUnique(other, sorted, prs.Keys, cmp);
      }
    }
  }

  /** Spread and batched pull requests, for which the order is lexicographic, go round in no circle. */
  lemma WhereOrderly(prs: map<int, PR>, first: int, now: int)
    requires Filed(prs) && first in prs
    requires Spread(Others(prs, first)) || Batch(Others(prs, first), now)
    ensures Orderly(prs, first, now)
  {
    if Spread(Others(prs, first)) {
      SpreadIsTotal(Others(prs, first), now);
    } else {
      BatchIsTotal(Others(prs, first), now);
    }
    TotalExactly(Others(prs, first), now);
  }

  /**
   Removing a pull request does not keep neighbours in order: behind a head, taking
   the middle one out of three that go round in a circle leaves the other two the
   wrong way round.
   */
  lemma RemoveBreaksSteps()
    ensures exists s: seq<PR>, now: int ::
              && |s| == 4 && (forall x :: x in s ==> x.since.At?)
              && TailStepsOrdered(s, OrderAt(now)) && !TailStepsOrdered(RemoveAt(s, 2), OrderAt(now))
  {
    var now := HOUR;
    var cmp := OrderAt(now);
    var s := [PR(9, 9, 0, At(0), 0), PR(1, 0, 0, At(80 * SECOND), 1), PR(2, 0, 0, At(40 * SECOND), 2),
              PR(3, 0, 0, At(0), 3)];
    assert Circle(s[1], s[2], s[3], now);
    Decisive(s[3], s[1], now);
    assert TailStepsOrdered(s, cmp);
    var r := RemoveAt(s, 2);
    assert r == [s[0], s[1], s[3]] && cmp(r[1], r[2]) > 0;
  }
}
