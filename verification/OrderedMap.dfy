/**
 A map whose values are kept in an order: a hash index into a linked list.

 The first element is pinned: insertion never moves it.  The others are placed
 by a comparison function.
 */
module OrderedMap {
  import opened LinkedList

  /** The place of v behind the pinned head: before the first entry at or after i that v precedes. */
  function PlaceFrom<V>(s: seq<V>, v: V, cmp: (V, V) -> int, i: nat): (p: nat)
    requires i <= |s|
    ensures i <= p <= |s|
    decreases |s| - i
  {
    if i == |s| || cmp(v, s[i]) < 0 then i else PlaceFrom(s, v, cmp, i + 1)
  }

  function Place<V>(s: seq<V>, v: V, cmp: (V, V) -> int): (p: nat)
    ensures p <= |s|
    ensures s != [] ==> p > 0
  {
    if |s| < 2 then |s| else PlaceFrom(s, v, cmp, 1)
  }

  lemma {:induction false} PlaceFromMeaning<V>(s: seq<V>, v: V, cmp: (V, V) -> int, i: nat)
    requires i <= |s|
    ensures var p := PlaceFrom(s, v, cmp, i);
            && (forall j :: i <= j < p ==> cmp(v, s[j]) >= 0)
            && (p < |s| ==> cmp(v, s[p]) < 0)
    decreases |s| - i
  {
    if i < |s| && cmp(v, s[i]) >= 0 {
      PlaceFromMeaning(s, v, cmp, i + 1);
    }
  }

  ghost predicate Antisymmetric<V(!new)>(cmp: (V, V) -> int) {
    forall a, b :: cmp(a, b) < 0 <==> cmp(b, a) > 0
  }

  /** A comparison for which "neither precedes the other" is an equivalence. */
  ghost predicate StrictWeakOrder<V(!new)>(cmp: (V, V) -> int) {
    && Antisymmetric(cmp)
    && (forall a, b, c :: cmp(a, b) <= 0 && cmp(b, c) <= 0 ==> cmp(a, c) <= 0)
  }

  /** No neighbours behind the pinned head are in the wrong order. */
  ghost predicate TailStepsOrdered<V>(s: seq<V>, cmp: (V, V) -> int) {
    forall i :: 1 <= i < |s| - 1 ==> cmp(s[i], s[i + 1]) <= 0
  }

  /** No two entries behind the pinned head are in the wrong order. */
  ghost predicate TailSorted<V>(s: seq<V>, cmp: (V, V) -> int) {
    forall i, j :: 1 <= i < j < |s| ==> cmp(s[i], s[j]) <= 0
  }

  /** Insertion keeps the head where it is, for every comparison. */
  lemma InsertKeepsHead<V>(s: seq<V>, v: V, cmp: (V, V) -> int)
    ensures InsertAt(s, Place(s, v, cmp), v)[0] == if s == [] then v else s[0]
  {
  }

  /** For a comparison that is only antisymmetric, neighbours stay in order. */
  lemma InsertKeepsSteps<V(!new)>(s: seq<V>, v: V, cmp: (V, V) -> int)
    requires Antisymmetric(cmp) && TailStepsOrdered(s, cmp)
    ensures TailStepsOrdered(InsertAt(s, Place(s, v, cmp), v), cmp)
  {
    if |s| >= 2 {
      PlaceFromMeaning(s, v, cmp, 1);
    }
  }

  /** For a strict weak order the whole tail stays sorted. */
  lemma InsertKeepsSorted<V(!new)>(s: seq<V>, v: V, cmp: (V, V) -> int)
    requires StrictWeakOrder(cmp) && TailSorted(s, cmp)
    ensures TailSorted(InsertAt(s, Place(s, v, cmp), v), cmp)
  {
    if |s| >= 2 {
      PlaceFromMeaning(s, v, cmp, 1);
      var p := PlaceFrom(s, v, cmp, 1);
      forall j | p <= j < |s|
        ensures cmp(v, s[j]) <= 0
      {
        assert cmp(v, s[p]) <= 0 && (p < j ==> cmp(s[p], s[j]) <= 0);
      }
      assert forall j :: 1 <= j < p ==> cmp(s[j], v) <= 0;
      hide StrictWeakOrder;
      hide PlaceFrom;
    }
  }

  /** Removing an entry keeps a sorted tail sorted, also when the head goes and another is pinned. */
  lemma RemoveKeepsSorted<V>(s: seq<V>, k: nat, cmp: (V, V) -> int)
    requires k < |s| && TailSorted(s, cmp)
    ensures TailSorted(RemoveAt(s, k), cmp)
  {
    var r := RemoveAt(s, k);
    forall i, j | 1 <= i < j < |r|
      ensures cmp(r[i], r[j]) <= 0
    {
      var i', j' := if i < k then i else i + 1, if j < k then j else j + 1;
      assert r[i] == s[i'] && r[j] == s[j'];
    }
  }

  /** Exactly when removal keeps the neighbours in order: when the two that become neighbours already were. */
  lemma RemoveKeepsStepsIff<V>(s: seq<V>, k: nat, cmp: (V, V) -> int)
    requires k < |s| && TailStepsOrdered(s, cmp)
    ensures TailStepsOrdered(RemoveAt(s, k), cmp) <==>
            (2 <= k < |s| - 1 ==> cmp(s[k - 1], s[k + 1]) <= 0)
  {
    var r := RemoveAt(s, k);
    forall i | 1 <= i < |r| - 1 && i != k - 1
      ensures cmp(r[i], r[i + 1]) <= 0
    {
      var i' := if i < k then i else i + 1;
      assert r[i] == s[i'] && r[i + 1] == s[i' + 1];
    }
    if 2 <= k < |s| - 1 {
      assert r[k - 1] == s[k - 1] && r[k - 1 + 1] == s[k + 1];
    }
  }

  // ---------------------------------------------------------------------
  // Sorting keys
  // ---------------------------------------------------------------------

  /** Puts x into s by moving it left past every entry it precedes. */
  function InsertFromRight<K>(s: seq<K>, x: K, cmp: (K, K) -> int): seq<K> {
    if s == [] || cmp(x, s[|s| - 1]) >= 0 then s + [x]
    else InsertFromRight(s[..|s| - 1], x, cmp) + [s[|s| - 1]]
  }

  /** Insertion sort, entry by entry from the left. */
  function InsertionSort<K>(s: seq<K>, cmp: (K, K) -> int): seq<K> {
    if s == [] then []
    else InsertFromRight(InsertionSort(s[..|s| - 1], cmp), s[|s| - 1], cmp)
  }

  /** s lists every member of S exactly once. */
  ghost predicate Lists<K(!new)>(s: seq<K>, S: set<K>) {
    Distinct(s) && (forall k :: k in s <==> k in S)
  }

  /** cmp decides every pair of different members of S, consistently and transitively. */
  ghost predicate TotalOn<K>(S: set<K>, cmp: (K, K) -> int) {
    && (forall a, b :: a in S && b in S && a != b ==> cmp(a, b) < 0 || cmp(b, a) < 0)
    && (forall a, b :: a in S && b in S && a != b ==> !(cmp(a, b) < 0 && cmp(b, a) < 0))
    && (forall a, b, c ::
          a in S && b in S && c in S && a != b && b != c && a != c && cmp(a, b) < 0 && cmp(b, c) < 0 ==> cmp(a, c) < 0)
  }

  ghost predicate SortedBy<K>(s: seq<K>, cmp: (K, K) -> int) {
    forall i, j :: 0 <= i < j < |s| ==> cmp(s[i], s[j]) < 0
  }

  /** Every entry is in order with its right neighbour. */
  ghost predicate StepsOrdered<K>(s: seq<K>, cmp: (K, K) -> int) {
    forall i :: 0 <= i < |s| - 1 ==> cmp(s[i + 1], s[i]) >= 0
  }

  /** first precedes every other member of S, and none precedes it. */
  ghost predicate Leads<K>(first: K, S: set<K>, cmp: (K, K) -> int) {
    first in S && forall a :: a in S && a != first ==> cmp(first, a) < 0 && cmp(a, first) >= 0
  }

  lemma DropLast<K(!new)>(s: seq<K>, S: set<K>)
    requires s != [] && Lists(s, S)
    ensures s[|s| - 1] in S && Lists(s[..|s| - 1], S - {s[|s| - 1]})
  {
    var last := s[|s| - 1];
    assert s == s[..|s| - 1] + [last];
  }

  lemma AddLast<K(!new)>(s: seq<K>, S: set<K>, x: K)
    requires Lists(s, S) && x !in S
    ensures Lists(s + [x], S + {x})
  {
  }

  lemma {:induction false} InsertFromRightLists<K(!new)>(s: seq<K>, S: set<K>, x: K, cmp: (K, K) -> int)
    requires Lists(s, S) && x !in S
    ensures Lists(InsertFromRight(s, x, cmp), S + {x})
  {
    if s == [] || cmp(x, s[|s| - 1]) >= 0 {
      AddLast(s, S, x);
    } else {
      var last := s[|s| - 1];
      DropLast(s, S);
      InsertFromRightLists(s[..|s| - 1], S - {last}, x, cmp);
      AddLast(InsertFromRight(s[..|s| - 1], x, cmp), S - {last} + {x}, last);
      assert S - {last} + {x} + {last} == S + {x};
    }
  }

  /** Sorting rearranges: no key is lost, none appears twice. */
  lemma {:induction false} SortLists<K(!new)>(s: seq<K>, S: set<K>, cmp: (K, K) -> int)
    requires Lists(s, S)
    ensures Lists(InsertionSort(s, cmp), S)
  {
    if s != [] {
      var last := s[|s| - 1];
      DropLast(s, S);
      SortLists(s[..|s| - 1], S - {last}, cmp);
      InsertFromRightLists(InsertionSort(s[..|s| - 1], cmp), S - {last}, last, cmp);
      assert S - {last} + {last} == S;
    }
  }

  lemma SortedAppend<K(!new)>(s: seq<K>, S: set<K>, x: K, cmp: (K, K) -> int)
    requires Lists(s, S) && SortedBy(s, cmp) && (forall a :: a in S ==> cmp(a, x) < 0)
    ensures SortedBy(s + [x], cmp)
  {
    assert forall i :: 0 <= i < |s| ==> s[i] in S;
  }

  /** In a sorted listing nothing but the last entry follows an entry before it. */
  lemma BeforeLast<K(!new)>(s: seq<K>, S: set<K>, cmp: (K, K) -> int)
    requires Lists(s, S) && SortedBy(s, cmp) && s != []
    ensures forall a :: a in S && a != s[|s| - 1] ==> cmp(a, s[|s| - 1]) < 0
  {
    forall a | a in S && a != s[|s| - 1]
      ensures cmp(a, s[|s| - 1]) < 0
    {
      var i := Index(s, a);
    }
  }

  /** What follows the last key follows all of them. */
  lemma FollowsAll<K(!new)>(S: set<K>, last: K, x: K, cmp: (K, K) -> int)
    requires TotalOn(S + {x}, cmp) && last in S && x !in S && cmp(x, last) >= 0
    requires forall a :: a in S && a != last ==> cmp(a, last) < 0
    ensures forall a :: a in S ==> cmp(a, x) < 0
  {
    forall a | a in S
      ensures cmp(a, x) < 0
    {
      assert last in S + {x} && a in S + {x} && x in S + {x};
    }
  }

  lemma {:induction false} InsertFromRightSorts<K(!new)>(s: seq<K>, S: set<K>, x: K, cmp: (K, K) -> int)
    requires TotalOn(S + {x}, cmp) && Lists(s, S) && SortedBy(s, cmp) && x !in S
    ensures SortedBy(InsertFromRight(s, x, cmp), cmp)
  {
    if s == [] {
    } else {
      var last, init := s[|s| - 1], s[..|s| - 1];
      assert last in S;
      hide TotalOn;
      BeforeLast(s, S, cmp);
      if cmp(x, last) >= 0 {
        FollowsAll(S, last, x, cmp);
        SortedAppend(s, S, x, cmp);
      } else {
        DropLast(s, S);
        TotalOnSubset(S - {last} + {x}, S + {x}, cmp);
        InsertFromRightSorts(init, S - {last}, x, cmp);
        InsertFromRightLists(init, S - {last}, x, cmp);
        SortedAppend(InsertFromRight(init, x, cmp), S - {last} + {x}, last, cmp);
      }
    }
  }

  /** Where the comparison is a strict total order of the keys, the result is sorted. */
  lemma {:induction false} SortSorts<K(!new)>(s: seq<K>, S: set<K>, cmp: (K, K) -> int)
    requires TotalOn(S, cmp) && Lists(s, S)
    ensures SortedBy(InsertionSort(s, cmp), cmp)
  {
    if s != [] {
      var last := s[|s| - 1];
      DropLast(s, S);
      TotalOnSubset(S - {last}, S, cmp);
      SortSorts(s[..|s| - 1], S - {last}, cmp);
      SortLists(s[..|s| - 1], S - {last}, cmp);
      assert S - {last} + {last} == S;
      InsertFromRightSorts(InsertionSort(s[..|s| - 1], cmp), S - {last}, last, cmp);
    }
  }

  lemma SameHead<K(!new)>(s: seq<K>, t: seq<K>, S: set<K>, cmp: (K, K) -> int)
    requires TotalOn(S, cmp) && Lists(s, S) && Lists(t, S)
    requires SortedBy(s, cmp) && SortedBy(t, cmp) && S != {}
    ensures s != [] && t != [] && s[0] == t[0] && s[0] in S
  {
    var k :| k in S;
    assert k in s && k in t;
    var x, y := s[0], t[0];
    assert x in S && y in S;
    var i, j := Index(s, y), Index(t, x);
    assert i > 0 && j > 0 ==> cmp(x, y) < 0 && cmp(y, x) < 0;
  }

  lemma TotalOnSubset<K(!new)>(R: set<K>, S: set<K>, cmp: (K, K) -> int)
    requires TotalOn(S, cmp) && R <= S
    ensures TotalOn(R, cmp)
  {
  }

  lemma {:induction false} ListsSize<K(!new)>(s: seq<K>, S: set<K>)
    requires Lists(s, S)
    ensures |s| == |S|
  {
    if s == [] {
      assert forall k :: k !in S;
    } else {
      DropLast(s, S);
      ListsSize(s[..|s| - 1], S - {s[|s| - 1]});
    }
  }

  lemma DropHead<K(!new)>(s: seq<K>, S: set<K>)
    requires s != [] && Lists(s, S)
    ensures Lists(s[1..], S - {s[0]})
  {
    assert s == [s[0]] + s[1..];
  }

  /** ... and it is the only sorted arrangement, so every correct sorting algorithm returns it. */
  lemma {:induction false} SortedUnique<K(!new)>(s: seq<K>, t: seq<K>, S: set<K>, cmp: (K, K) -> int)
    requires TotalOn(S, cmp) && Lists(s, S) && Lists(t, S)
    requires SortedBy(s, cmp) && SortedBy(t, cmp)
    ensures s == t
  {
    if S == {} {
      ListsSize(s, S);
      ListsSize(t, S);
    } else {
      assert s != [] && t != [] && s[0] == t[0] by {
        SameHead(s, t, S, cmp);
      }
      assert s[1..] == t[1..] by {
        DropHead(s, S);
        DropHead(t, S);
        TotalOnSubset(S - {s[0]}, S, cmp);
        SortedUnique(s[1..], t[1..], S - {s[0]}, cmp);
      }
      assert s == [s[0]] + s[1..];
      assert t == [t[0]] + t[1..];
    }
  }

  lemma {:induction false} InsertFromRightSteps<K(!new)>(s: seq<K>, S: set<K>, x: K, cmp: (K, K) -> int)
    requires Lists(s, S) && x !in S && StepsOrdered(s, cmp)
    requires forall a :: a in S && cmp(x, a) < 0 ==> cmp(a, x) >= 0
    ensures var r := InsertFromRight(s, x, cmp);
            StepsOrdered(r, cmp) && |r| == |s| + 1
            && r[|s|] == if s == [] || cmp(x, s[|s| - 1]) >= 0 then x else s[|s| - 1]
  {
    if !(s == [] || cmp(x, s[|s| - 1]) >= 0) {
      assert s[|s| - 1] in S;
      DropLast(s, S);
      InsertFromRightSteps(s[..|s| - 1], S - {s[|s| - 1]}, x, cmp);
    }
  }

  /** For any comparison under which no two keys precede each other, the result has no step in the wrong order. */
  lemma {:induction false} SortSteps<K(!new)>(s: seq<K>, S: set<K>, cmp: (K, K) -> int)
    requires Lists(s, S)
    requires forall a, b :: a in S && b in S && a != b && cmp(a, b) < 0 ==> cmp(b, a) >= 0
    ensures StepsOrdered(InsertionSort(s, cmp), cmp)
  {
    if s != [] {
      var last := s[|s| - 1];
      DropLast(s, S);
      SortSteps(s[..|s| - 1], S - {last}, cmp);
      SortLists(s[..|s| - 1], S - {last}, cmp);
      InsertFromRightSteps(InsertionSort(s[..|s| - 1], cmp), S - {last}, last, cmp);
    }
  }

  lemma {:induction false} InsertFromRightLeader<K(!new)>(s: seq<K>, S: set<K>, x: K, first: K, cmp: (K, K) -> int)
    requires Lists(s, S) && x !in S && Leads(first, S + {x}, cmp)
    requires first != x ==> s != [] && s[0] == first
    ensures InsertFromRight(s, x, cmp)[0] == first
  {
    assert s != [] ==> s[|s| - 1] in S;
    if !(s == [] || cmp(x, s[|s| - 1]) >= 0) {
      DropLast(s, S);
      InsertFromRightLeader(s[..|s| - 1], S - {s[|s| - 1]}, x, first, cmp);
    }
  }

  /** The leader ends up in front, whatever the comparison does to the others. */
  lemma {:induction false} SortLeader<K(!new)>(s: seq<K>, S: set<K>, first: K, cmp: (K, K) -> int)
    requires Lists(s, S) && Leads(first, S, cmp)
    ensures InsertionSort(s, cmp) != [] && InsertionSort(s, cmp)[0] == first
  {
    assert first in s;
    var last := s[|s| - 1];
    DropLast(s, S);
    SortLists(s[..|s| - 1], S - {last}, cmp);
    SortLists(s, S, cmp);
    if last != first {
      SortLeader(s[..|s| - 1], S - {last}, first, cmp);
    }
    assert S - {last} + {last} == S;
    InsertFromRightLeader(InsertionSort(s[..|s| - 1], cmp), S - {last}, last, first, cmp);
  }

  /** The length up to which the library sorts by insertion. */
  const MAX_INSERTION := 12

  /** No two members of S precede each other. */
  ghost predicate Consistent<K>(S: set<K>, cmp: (K, K) -> int) {
    forall a, b :: a in S && b in S && a != b && cmp(a, b) < 0 ==> cmp(b, a) >= 0
  }

  /**
   What slices.SortedFunc makes of the members of S.  They are rearranged, and one
   that precedes all others comes first.  Where the comparison decides strictly
   and transitively the result is sorted; where it does not, only the insertion
   sort used for short inputs leaves no neighbours in the wrong order.
   */
  ghost predicate SortedAsBy<K(!new)>(s: seq<K>, S: set<K>, cmp: (K, K) -> int) {
    && Lists(s, S)
    && (forall first :: Leads(first, S, cmp) ==> s != [] && s[0] == first)
    && (TotalOn(S, cmp) ==> SortedBy(s, cmp))
    && (|s| <= MAX_INSERTION && Consistent(S, cmp) ==> StepsOrdered(s, cmp))
  }

  lemma InsertionSorts<K(!new)>(listing: seq<K>, S: set<K>, cmp: (K, K) -> int)
    requires Lists(listing, S)
    ensures SortedAsBy(InsertionSort(listing, cmp), S, cmp)
  {
    SortLists(listing, S, cmp);
    forall first | Leads(first, S, cmp)
      ensures InsertionSort(listing, cmp) != [] && InsertionSort(listing, cmp)[0] == first
    {
      SortLeader(listing, S, first, cmp);
    }
    if TotalOn(S, cmp) {
      SortSorts(listing, S, cmp);
    }
    if Consistent(S, cmp) {
      SortSteps(listing, S, cmp);
    }
  }

  /**
   slices.SortedFunc.  Insertion sort is one sort that does what the library
   promises; nothing below relies on more than that.
   */
  method SortedFunc<K(!new,==)>(S: set<K>, cmp: (K, K) -> int) returns (sorted: seq<K>)
    ensures SortedAsBy(sorted, S, cmp)
  {
    var listing := ListKeys(S);
    sorted := InsertionSort(listing, cmp);
    InsertionSorts(listing, S, cmp);
  }

  // ---------------------------------------------------------------------
  // The map
  // ---------------------------------------------------------------------

  class Map<K(!new,==), V(0)> {
    const order: List<V>
    var m: map<K, Element<V>>
    const cmp: (V, V) -> int
    const zero: V
    /** The keys in list order. */
    ghost var keys: seq<K>

    /** The values in list order. */
    ghost function Contents(): seq<V>
      reads this, order
    {
      order.contents
    }

    /** Index and list are in bijection. */
    ghost predicate Valid()
      reads this, order, order.root, order.nodes
    {
      && order.Valid()
      && |keys| == |order.nodes|
      && Lists(keys, m.Keys)
      && (forall i {:trigger keys[i]} :: 0 <= i < |keys| ==> keys[i] in m && m[keys[i]] == order.nodes[i])
    }

    constructor (cmp: (V, V) -> int)
      ensures Valid() && fresh(order) && fresh(order.root)
      ensures keys == [] && Contents() == [] && m == map[] && this.cmp == cmp
    {
      var z: V := *;
      order := new List();
      m := map[];
      this.cmp := cmp;
      zero := z;
      keys := [];
    }

    method Get(key: K) returns (v: V)
      requires Valid()
      ensures v == if key in m then Contents()[Index(keys, key)] else zero
    {
      if key !in m {
        return zero;
      }
      assert m[keys[Index(keys, key)]] == order.nodes[Index(keys, key)];
      v := m[key].value;
    }

    method First() returns (v: V)
      requires Valid()
      ensures v == if Contents() == [] then zero else Contents()[0]
    {
      var e := order.Front();
      if e != null {
        return e.value;
      }
      v := zero;
    }

    method Len() returns (n: int)
      requires Valid()
      ensures n == |Contents()| == |m.Keys|
    {
      ListsSize(keys, m.Keys);
      n := order.len;
    }

    /** Walks from the second element to the first one that val precedes; null at the end. */
    method FindSuccessor(val: V) returns (e: Element?<V>)
      requires order.Valid() && |order.nodes| >= 2
      ensures var p := Place(Contents(), val, cmp);
              e == if p < |order.nodes| then order.nodes[p] else null
    {
      var front := order.Front();
      assert front == order.nodes[0] && front.list == order && Index(order.nodes, front) == 0;
      e := front.Next();
      ghost var i := 1;
      while e != null
        invariant 1 <= i <= |order.nodes|
        invariant e == if i < |order.nodes| then order.nodes[i] else null
        invariant PlaceFrom(Contents(), val, cmp, 1) == PlaceFrom(Contents(), val, cmp, i)
        decreases |order.nodes| - i
      {
        assert e.value == Contents()[i];
        if cmp(val, e.value) < 0 {
          return;
        }
        assert e == order.nodes[i] && e.list == order && Index(order.nodes, e) == i;
        e := e.Next();
        i := i + 1;
      }
    }

    /** Links val in behind the pinned head, at the place the comparison gives it. */
    method InsertList(val: V) returns (e: Element<V>)
      requires order.Valid()
      modifies order, order.root`next, order.root`prev, order.nodes`next, order.nodes`prev
      ensures order.Valid() && fresh(e)
      ensures var p := Place(old(Contents()), val, cmp);
              && order.nodes == InsertAt(old(order.nodes), p, e)
              && Contents() == InsertAt(old(Contents()), p, val)
    {
      if order.len < 2 {
        e := order.PushBack(val);
        return;
      }
      var c := FindSuccessor(val);
      if c != null {
        assert Index(order.nodes, c) == Place(Contents(), val, cmp);
        e := order.InsertBefore(val, c);
        return;
      }
      e := order.PushBack(val);
    }

    /** Adds val under key unless the key exists; never in front of the first element. */
    method InsertIfNotExist(key: K, val: V) returns (isFirst: bool, added: bool)
      requires Valid()
      modifies this, order, order.root`next, order.root`prev, order.nodes`next, order.nodes`prev
      ensures Valid()
      ensures added == (key !in old(keys))
      ensures isFirst == (old(keys) == [])
      ensures !added ==> keys == old(keys) && Contents() == old(Contents()) && m == old(m)
      ensures added ==>
        var p := Place(old(Contents()), val, cmp);
        && keys == InsertAt(old(keys), p, key)
        && Contents() == InsertAt(old(Contents()), p, val)
        && m.Keys == old(m.Keys) + {key}
        && (forall k :: k in old(m) ==> m[k] == old(m)[k])
    {
      if key in m {
        return false, false;
      }
      ghost var p := Place(Contents(), val, cmp);
      var elem := InsertList(val);
      m := m[key := elem];
      DistinctInsert(keys, p, key);
      keys := InsertAt(keys, p, key);
      return order.len == 1, true;
    }

    /** Removes the entry of key and returns its value, or the zero value when there is none. */
    method Dequeue(key: K) returns (v: V)
      requires Valid()
      modifies this, order, order.root`next, order.root`prev
      modifies order.nodes`next, order.nodes`prev, order.nodes`list
      ensures Valid()
      ensures key !in old(keys) ==> v == zero && keys == old(keys) && Contents() == old(Contents()) && m == old(m)
      ensures key in old(keys) ==>
        var i := Index(old(keys), key);
        && v == old(Contents())[i]
        && keys == RemoveAt(old(keys), i)
        && Contents() == RemoveAt(old(Contents()), i)
        && m == old(m) - {key}
        && old(m)[key].list == null
    {
      if key !in m {
        return zero;
      }
      v := TakeOut(key);
    }

    /** Removes an entry from index and list. */
    method TakeOut(key: K) returns (v: V)
      requires Valid() && key in m
      modifies this, order, order.root`next, order.root`prev
      modifies order.nodes`next, order.nodes`prev, order.nodes`list
      ensures Valid()
      ensures
        var i := Index(old(keys), key);
        && v == old(Contents())[i]
        && keys == RemoveAt(old(keys), i)
        && Contents() == RemoveAt(old(Contents()), i)
        && m == old(m) - {key}
        && old(m)[key].list == null
    {
      ghost var i := Index(keys, key);
      var e := m[key];
      Entry(key);
      hide Index;
      hide RemoveAt;
      hide Lists;
      hide LinkedList.List.Valid;
      m := m - {key};
      keys := RemoveAt(keys, i);
      v := order.Remove(e);
    }

    /** Where the entry of key is, and what is left without it. */
    lemma Entry(key: K)
      requires Valid() && key in m
      ensures
        var i, e := Index(keys, key), m[key];
        && e in order.nodes && Index(order.nodes, e) == i && e.list == order && e.value == Contents()[i]
        && var r, q, rest := RemoveAt(keys, i), RemoveAt(order.nodes, i), m - {key};
          Lists(r, rest.Keys) && forall j {:trigger r[j]} :: 0 <= j < |r| ==> r[j] in rest && rest[r[j]] == q[j]
    {
      var i := Index(keys, key);
      assert m[key] == order.nodes[i];
      RemovedBijection(keys, order.nodes, m, i);
    }

    /** The values in order. */
    method AsSlice() returns (s: seq<V>)
      requires Valid()
      ensures s == Contents()
    {
      s := [];
      var e := order.Front();
      while e != null
        invariant |s| <= |order.nodes| && s == Contents()[..|s|]
        invariant e == if |s| < |order.nodes| then order.nodes[|s|] else null
        decreases |order.nodes| - |s|
      {
        ghost var i := |s|;
        assert e == order.nodes[i] && e.list == order && Index(order.nodes, e) == i && e.value == Contents()[i];
        s := s + [e.value];
        e := e.Next();
      }
    }

    /**
     Walks the list and dequeues the entry it stands on, as a caller does that
     removes from inside the iteration.  A removed element has no successor, so
     the walk ends after one step: only the first entry goes.
     */
    method DequeueWhileWalking(keyOf: V -> K)
      requires Valid()
      requires forall i :: 0 <= i < |keys| ==> keyOf(Contents()[i]) == keys[i]
      modifies this, order, order.root`next, order.root`prev
      modifies order.nodes`next, order.nodes`prev, order.nodes`list
      ensures Valid()
      ensures keys == if old(keys) == [] then [] else old(keys)[1..]
      ensures Contents() == if old(keys) == [] then [] else old(Contents())[1..]
    {
      var e := order.Front();
      ghost var walked := false;
      while e != null
        invariant Valid()
        invariant !walked ==> keys == old(keys) && Contents() == old(Contents()) && order.nodes == old(order.nodes)
        invariant !walked ==> e == if keys == [] then null else order.nodes[0]
        invariant walked ==>
                    e == null && old(keys) != [] && keys == old(keys)[1..] && Contents() == old(Contents())[1..]
        decreases e != null
      {
        assert RemoveAt(keys, 0) == keys[1..] && RemoveAt(Contents(), 0) == Contents()[1..];
        e := DequeueHere(e, keyOf);
        walked := true;
      }
    }

    /** Dequeues the first entry and takes its next element. */
    method DequeueHere(e: Element<V>, keyOf: V -> K) returns (next: Element?<V>)
      requires Valid() && keys != [] && e == order.nodes[0] && keyOf(Contents()[0]) == keys[0]
      modifies this, order, order.root`next, order.root`prev
      modifies order.nodes`next, order.nodes`prev, order.nodes`list
      ensures Valid() && next == null
      ensures keys == RemoveAt(old(keys), 0) && Contents() == RemoveAt(old(Contents()), 0)
    {
      ghost var key := keys[0];
      assert e.value == Contents()[0] && m[key] == e && Index(keys, key) == 0;
      var _ := Dequeue(keyOf(e.value));
      next := e.Next();
    }

    /** Moves the element of key to the back; the index does not change. */
    method MoveKeyToBack(key: K)
      requires Valid() && key in m
      modifies this`keys, order, order.root`next, order.root`prev, order.nodes`next, order.nodes`prev
      ensures Valid()
      ensures keys == RemoveAt(old(keys), Index(old(keys), key)) + [key]
      ensures forall k {:trigger order.nodes[k]} :: 0 <= k < |order.nodes| ==> order.nodes[k] in old(order.nodes)
    {
      var elem := m[key];
      ghost var moved, nodes := MovedEntry(key);
      hide Index;
      hide RemoveAt;
      hide Lists;
      hide LinkedList.List.Valid;
      keys := moved;
      order.MoveToBack(elem);
      assert order.nodes == nodes;
    }

    /** Where the entry of key is, and what index and list are with it at the back. */
    lemma MovedEntry(key: K) returns (r: seq<K>, q: seq<Element<V>>)
      requires Valid() && key in m
      ensures
        var i, e := Index(keys, key), m[key];
        && r == RemoveAt(keys, i) + [key] && q == RemoveAt(order.nodes, i) + [e]
        && e in order.nodes && Index(order.nodes, e) == i && e.list == order
        && |r| == |q| && Lists(r, m.Keys)
        && (forall j {:trigger q[j]} :: 0 <= j < |q| ==> q[j] in order.nodes)
        && forall j {:trigger r[j]} :: 0 <= j < |r| ==> r[j] in m && m[r[j]] == q[j]
    {
      var i := Index(keys, key);
      assert m[key] == order.nodes[i];
      r, q := RemoveAt(keys, i) + [key], RemoveAt(order.nodes, i) + [m[key]];
      MovedLists(keys, m.Keys, i);
      MovedMembers(order.nodes, i);
      MovedBijection(keys, order.nodes, m, i);
    }

    /**
     Re-sorts the list by its keys: the keys are sorted, and the element of each in
     turn is moved to the back.  Afterwards the list is in exactly the order of the
     sorted keys; the index has not changed.
     */
    method SortByKey(byKey: (K, K) -> int)
      requires Valid()
      modifies this`keys, order, order.root`next, order.root`prev, order.nodes`next, order.nodes`prev
      ensures Valid() && m == old(m) && SortedAsBy(keys, m.Keys, byKey)
    {
      var n := Len();
      ListsSize(keys, m.Keys);
      if n == 0 {
        InsertionSorts([], m.Keys, byKey);
        return;
      }
      var sorted := SortedFunc(m.Keys, byKey);
      ListsSize(sorted, m.Keys);
      MoveAllToBack(sorted);
    }

    /** The loop of SortByKey: untouched elements in their old order, then the moved ones. */
    method MoveAllToBack(sorted: seq<K>)
      requires Valid() && Lists(sorted, m.Keys) && |sorted| == |keys|
      modifies this`keys, order, order.root`next, order.root`prev, order.nodes`next, order.nodes`prev
      ensures Valid() && keys == sorted
    {
      ghost var rest := keys;
      var i := 0;
      while i < |sorted|
        invariant 0 <= i <= |sorted| == |keys|
        invariant Valid()
        invariant forall k {:trigger order.nodes[k]} :: 0 <= k < |order.nodes| ==> order.nodes[k] in old(order.nodes)
        invariant keys == rest + sorted[..i]
      {
        ghost var at := Index(keys, sorted[i]);
        assert sorted[i] in sorted;
        MoveStep(keys, rest, sorted, i);
        MoveKeyToBack(sorted[i]);
        rest := RemoveAt(rest, at);
        i := i + 1;
      }
      assert rest == [] && sorted[..|sorted|] == sorted;
    }
  }

  /** Some listing of a set: a hash map is iterated in no particular order. */
  method ListKeys<K(!new,==)>(S: set<K>) returns (s: seq<K>)
    ensures Lists(s, S)
  {
    s := [];
    var left := S;
    while left != {}
      invariant left <= S && Lists(s, S - left)
      decreases left
    {
      var k :| k in left;
      AddLast(s, S - left, k);
      left := left - {k};
      s := s + [k];
    }
  }

  /** Moving the next sorted key to the back takes it out of the part not moved yet. */
  lemma MoveStep<K(!new)>(keys: seq<K>, rest: seq<K>, sorted: seq<K>, i: nat)
    requires i < |sorted| && Distinct(sorted)
    requires keys == rest + sorted[..i] && sorted[i] in keys
    ensures var at := Index(keys, sorted[i]);
            at < |rest| && RemoveAt(keys, at) + [sorted[i]] == RemoveAt(rest, at) + sorted[..i + 1]
  {
    var at := Index(keys, sorted[i]);
    assert sorted[i] !in sorted[..i];
  }

  lemma MovedMembers<X>(s: seq<X>, i: nat)
    requires i < |s|
    ensures var r := RemoveAt(s, i) + [s[i]];
            forall j {:trigger r[j]} :: 0 <= j < |r| ==> r[j] in s
  {
  }

  lemma MovedBijection<K(!new), X>(keys: seq<K>, nodes: seq<X>, m: map<K, X>, i: nat)
    requires |keys| == |nodes| && i < |keys|
    requires forall j :: 0 <= j < |keys| ==> keys[j] in m && m[keys[j]] == nodes[j]
    ensures var r, q := RemoveAt(keys, i) + [keys[i]], RemoveAt(nodes, i) + [nodes[i]];
            forall j {:trigger r[j]} :: 0 <= j < |r| ==> r[j] in m && m[r[j]] == q[j]
  {
  }

  lemma RemovedBijection<K(!new), X>(keys: seq<K>, nodes: seq<X>, m: map<K, X>, i: nat)
    requires |keys| == |nodes| && i < |keys| && Lists(keys, m.Keys)
    requires forall j :: 0 <= j < |keys| ==> keys[j] in m && m[keys[j]] == nodes[j]
    ensures var r, q, rest := RemoveAt(keys, i), RemoveAt(nodes, i), m - {keys[i]};
            Lists(r, rest.Keys) && forall j {:trigger r[j]} :: 0 <= j < |r| ==> r[j] in rest && rest[r[j]] == q[j]
  {
    var r := RemoveAt(keys, i);
    DistinctRemove(keys, i);
    forall k
      ensures k in r <==> k in m.Keys && k != keys[i]
    {
      if k in m.Keys && k != keys[i] {
        var j := Index(keys, k);
        assert r[if j < i then j else j - 1] == k;
      }
    }
  }

  lemma MovedLists<K(!new)>(s: seq<K>, S: set<K>, i: nat)
    requires i < |s| && Lists(s, S)
    ensures Lists(RemoveAt(s, i) + [s[i]], S)
  {
    var r := RemoveAt(s, i);
    DistinctRemove(s, i);
    forall k
      ensures k in r + [s[i]] <==> k in S
    {
      if k in S && k != s[i] {
        var j := Index(s, k);
        assert r[if j < i then j else j - 1] == k;
      }
    }
  }
}
