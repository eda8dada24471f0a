/**
 A doubly linked list kept as a ring around a sentinel.

 The heap structure is real: elements carry `next`, `prev` and `list` pointers
 and every operation rewires them in place.  The ghost sequence `nodes` is the
 abstract value; `Valid` ties the pointers to it.
 */
module LinkedList {

  class Element<T(0)> {
    var next: Element?<T>
    var prev: Element?<T>
    var list: List?<T>
    var value: T
    /** The list whose sentinel this element is; null for an ordinary element. */
    ghost var sentinelOf: List?<T>

    constructor (v: T)
      ensures next == null && prev == null && list == null && value == v && sentinelOf == null
    {
      next, prev, list, value, sentinelOf := null, null, null, v, null;
    }

    /** The following element, or null at the end of the list. */
    method Next() returns (r: Element?<T>)
      requires list != null ==> list.Valid() && this in list.nodes
      ensures list == null ==> r == null
      ensures list != null ==>
        var i := Index(list.nodes, this);
        r == if i + 1 < |list.nodes| then list.nodes[i + 1] else null
    {
      r := null;
      if list != null && next != list.root {
        r := next;
      }
    }

    /** The preceding element, or null at the front of the list. */
    method Prev() returns (r: Element?<T>)
      requires list != null ==> list.Valid() && this in list.nodes
      ensures list == null ==> r == null
      ensures list != null ==>
        var i := Index(list.nodes, this);
        r == if i > 0 then list.nodes[i - 1] else null
    {
      r := null;
      if list != null && prev != list.root {
        r := prev;
      }
    }
  }

  /** s with x inserted so that it gets index k. */
  function InsertAt<X>(s: seq<X>, k: nat, x: X): (r: seq<X>)
    requires k <= |s|
    ensures |r| == |s| + 1
    ensures forall i {:trigger r[i]} :: 0 <= i < |r| ==> r[i] == if i < k then s[i] else if i == k then x else s[i - 1]
  {
    s[..k] + [x] + s[k..]
  }

  /** s without its k-th entry. */
  function RemoveAt<X>(s: seq<X>, k: nat): (r: seq<X>)
    requires k < |s|
    ensures |r| == |s| - 1
    ensures forall i {:trigger r[i]} :: 0 <= i < |r| ==> r[i] == s[if i < k then i else i + 1]
  {
    s[..k] + s[k + 1..]
  }

  ghost predicate Distinct<X>(s: seq<X>) {
    forall i, j :: 0 <= i < j < |s| ==> s[i] != s[j]
  }

  lemma Regroup<X>(a: seq<X>, b: seq<X>, c: seq<X>)
    ensures (a + b) + c == a + (b + c)
  {
  }

  /** Where x stands in s. */
  ghost function Index<X>(s: seq<X>, x: X): (k: nat)
    requires x in s
    ensures k < |s| && s[k] == x
  {
    var k :| 0 <= k < |s| && s[k] == x; k
  }

  lemma DistinctInsert<X>(s: seq<X>, k: nat, x: X)
    requires k <= |s| && Distinct(s) && x !in s
    ensures Distinct(InsertAt(s, k, x))
  {
  }

  lemma DistinctRemove<X>(s: seq<X>, k: nat)
    requires k < |s| && Distinct(s)
    ensures Distinct(RemoveAt(s, k)) && s[k] !in RemoveAt(s, k)
  {
  }

  /** Where another element is once the k-th is removed. */
  lemma IndexAfterRemove<X>(s: seq<X>, k: nat, a: nat)
    requires k < |s| && a < |s| && a != k && Distinct(s)
    ensures Distinct(RemoveAt(s, k)) && s[a] in RemoveAt(s, k)
    ensures Index(RemoveAt(s, k), s[a]) == if a < k then a else a - 1
    ensures a == k + 1 ==> InsertAt(RemoveAt(s, k), k, s[k]) == s
  {
    DistinctRemove(s, k);
    assert RemoveAt(s, k)[if a < k then a else a - 1] == s[a];
  }

  class List<T(0)> {
    const root: Element<T>
    var len: int
    /** The elements in order, and their values. */
    ghost var nodes: seq<Element<T>>
    ghost var contents: seq<T>

    /** The k-th stop of the ring: the sentinel, the elements in order, the sentinel again. */
    ghost function Stop(k: nat): Element<T>
      requires k <= |nodes| + 1
      reads this
    {
      StopOf(nodes, k)
    }

    ghost function StopOf(s: seq<Element<T>>, k: nat): Element<T>
      requires k <= |s| + 1
    {
      if k == 0 || k == |s| + 1 then root else s[k - 1]
    }

    /** The ring of s is closed: neighbouring stops point at each other. */
    ghost predicate Linked(s: seq<Element<T>>)
      reads root, s
    {
      && root.next == StopOf(s, 1)
      && root.prev == StopOf(s, |s|)
      && (forall i {:trigger s[i].next} :: 0 <= i < |s| ==> s[i].next == StopOf(s, i + 2))
      && (forall i {:trigger s[i].prev} :: 0 <= i < |s| ==> s[i].prev == StopOf(s, i))
    }

    ghost predicate Valid()
      reads this, root, nodes
    {
      len == |nodes| && Ring()
    }

    /** Everything `Valid` says except that `len` is up to date. */
    ghost predicate Ring()
      reads this, root, nodes
    {
      && root.sentinelOf == this
      && (forall i {:trigger nodes[i].list} {:trigger nodes[i].sentinelOf} :: 0 <= i < |nodes| ==>
          nodes[i].list == this && nodes[i].sentinelOf == null)
      && Distinct(nodes)
      && |contents| == |nodes|
      && (forall i {:trigger contents[i]} {:trigger nodes[i].value} ::
          0 <= i < |nodes| ==> nodes[i].value == contents[i])
      && if root.next == null then nodes == [] && root.prev == null else Linked(nodes)
    }

    /** The zero value of the type: an empty list whose ring is not set up yet. */
    constructor Zero()
      ensures Valid() && nodes == [] && fresh(root) && root.next == null
    {
      var zero: T := *;
      root := new Element(zero);
      len, nodes, contents := 0, [], [];
      new;
      root.sentinelOf := this;
    }

    /** An initialised list. */
    constructor ()
      ensures Valid() && nodes == [] && fresh(root) && root.next != null
    {
      var zero: T := *;
      root := new Element(zero);
      len, nodes, contents := 0, [], [];
      new;
      root.sentinelOf := this;
      root.next := root;
      root.prev := root;
    }

    /** Clears the list.  The elements it held are not touched. */
    method Init()
      requires Valid()
      modifies this, root`next, root`prev
      ensures Valid() && nodes == [] && root.next != null
    {
      root.next := root;
      root.prev := root;
      len := 0;
      nodes, contents := [], [];
    }

    method LazyInit()
      requires Valid()
      modifies this, root`next, root`prev
      ensures Valid() && nodes == old(nodes) && contents == old(contents) && root.next != null
      ensures old(root.next) != null ==> unchanged(this, root)
    {
      if root.next == null {
        Init();
      }
    }

    method Front() returns (r: Element?<T>)
      requires Valid()
      ensures r == if nodes == [] then null else nodes[0]
    {
      if len == 0 {
        return null;
      }
      r := root.next;
    }

    method Back() returns (r: Element?<T>)
      requires Valid()
      ensures r == if nodes == [] then null else nodes[|nodes| - 1]
    {
      if len == 0 {
        return null;
      }
      r := root.prev;
    }

    /** The k-th stop and the one behind it point at e, which points at them. */
    ghost predicate Between(e: Element<T>, k: nat)
      requires k <= |nodes|
      reads this, root, nodes, e
    {
      && e.prev == Stop(k) && e.next == Stop(k + 1)
      && root.next == (if k == 0 then e else Stop(1))
      && root.prev == (if k == |nodes| then e else Stop(|nodes|))
      && (forall i {:trigger nodes[i].next} ::
          0 <= i < |nodes| ==> nodes[i].next == if i + 1 == k then e else Stop(i + 2))
      && (forall i {:trigger nodes[i].prev} :: 0 <= i < |nodes| ==> nodes[i].prev == if i == k then e else Stop(i))
    }

    /** Rewires the four pointers that put e between `at`, the k-th stop, and its successor. */
    method Splice(e: Element<T>, at: Element<T>, ghost k: nat)
      requires Ring() && root.next != null
      requires k <= |nodes| && at == Stop(k)
      requires e !in nodes && e != root
      modifies e`next, e`prev, root`next, root`prev, nodes`next, nodes`prev
      ensures Between(e, k)
    {
      assert at.next == Stop(k + 1);
      e.prev := at;
      e.next := at.next;
      e.prev.next := e;
      e.next.prev := e;
    }

    lemma LinkedWith(e: Element<T>, k: nat)
      requires k <= |nodes| && e !in nodes && Between(e, k)
      ensures Linked(InsertAt(nodes, k, e)) && root.next != null
    {
    }

    /** Puts e into the ring behind `at`, the k-th stop. */
    method Attach(e: Element<T>, at: Element<T>, ghost k: nat)
      requires Ring() && root.next != null
      requires k <= |nodes| && at == Stop(k)
      requires e !in nodes && e.sentinelOf == null && e.list == this
      modifies this, e`next, e`prev, root`next, root`prev, nodes`next, nodes`prev
      ensures Ring() && root.next != null
      ensures nodes == InsertAt(old(nodes), k, e) && contents == InsertAt(old(contents), k, e.value)
      ensures len == old(len)
    {
      hide Between;
      hide Linked;
      DistinctInsert(nodes, k, e);
      hide Distinct;
      Splice(e, at, k);
      LinkedWith(e, k);
      hide InsertAt;
      nodes, contents := InsertAt(nodes, k, e), InsertAt(contents, k, e.value);
    }

    /** The neighbours of the k-th element point past it. */
    ghost predicate Bypassed(k: nat)
      requires k < |nodes|
      reads this, root, nodes
    {
      && root.next == (if k == 0 then Stop(2) else Stop(1))
      && root.prev == (if k + 1 == |nodes| then Stop(k) else Stop(|nodes|))
      && (forall i {:trigger nodes[i].next} ::
          0 <= i < |nodes| && i != k ==> nodes[i].next == if i + 1 == k then Stop(k + 2) else Stop(i + 2))
      && (forall i {:trigger nodes[i].prev} ::
          0 <= i < |nodes| && i != k ==> nodes[i].prev == if i == k + 1 then Stop(k) else Stop(i))
    }

    /** Lets the neighbours of e, the k-th element, point past it.  The pointers of e stay. */
    method Unsplice(e: Element<T>, ghost k: nat)
      requires Ring() && k < |nodes| && nodes[k] == e
      modifies root`next, root`prev, nodes`next, nodes`prev
      ensures Bypassed(k)
    {
      assert e.prev == Stop(k) && e.next == Stop(k + 2);
      e.prev.next := e.next;
      e.next.prev := e.prev;
    }

    lemma LinkedWithout(k: nat)
      requires k < |nodes| && Bypassed(k)
      ensures Linked(RemoveAt(nodes, k)) && root.next != null
    {
    }

    /** Takes e, the k-th element, out of the ring. */
    method Detach(e: Element<T>, ghost k: nat)
      requires Ring() && k < |nodes| && nodes[k] == e
      modifies this, root`next, root`prev, nodes`next, nodes`prev
      ensures Ring() && root.next != null
      ensures nodes == RemoveAt(old(nodes), k) && contents == RemoveAt(old(contents), k)
      ensures len == old(len)
    {
      hide Bypassed;
      hide Linked;
      DistinctRemove(nodes, k);
      hide Distinct;
      Unsplice(e, k);
      LinkedWithout(k);
      assert root.next != null;
      hide RemoveAt;
      nodes, contents := RemoveAt(nodes, k), RemoveAt(contents, k);
    }

    /** Links e in behind `at`, the k-th stop, and takes it into the list. */
    method Insert(e: Element<T>, at: Element<T>, ghost k: nat)
      requires Valid() && root.next != null
      requires k <= |nodes| && at == Stop(k)
      requires e !in nodes && e.sentinelOf == null
      modifies this, e`next, e`prev, e`list
      modifies root`next, root`prev, nodes`next, nodes`prev
      ensures Valid() && root.next != null
      ensures nodes == InsertAt(old(nodes), k, e) && contents == InsertAt(old(contents), k, e.value) && e.list == this
    {
      e.list := this;
      Attach(e, at, k);
      len := len + 1;
    }

    /** Inserts a new element with value v behind `at`, the k-th stop. */
    method InsertValue(v: T, at: Element<T>, ghost k: nat) returns (e: Element<T>)
      requires Valid() && root.next != null
      requires k <= |nodes| && at == Stop(k)
      modifies this, root`next, root`prev, nodes`next, nodes`prev
      ensures Valid() && root.next != null
      ensures fresh(e) && e.value == v
      ensures nodes == InsertAt(old(nodes), k, e)
      ensures contents == InsertAt(old(contents), k, v)
    {
      e := new Element(v);
      Insert(e, at, k);
    }

    /** Unlinks e, the k-th element, and clears its pointers. */
    method Unlink(e: Element<T>, ghost k: nat)
      requires Valid() && k < |nodes| && nodes[k] == e
      modifies this, e`list
      modifies root`next, root`prev, nodes`next, nodes`prev
      ensures Valid() && root.next != null
      ensures nodes == RemoveAt(old(nodes), k)
      ensures e.next == null && e.prev == null && e.list == null
      ensures contents == RemoveAt(old(contents), k)
    {
      DistinctRemove(nodes, k);
      Detach(e, k);
      assert e !in nodes;
      e.next := null;
      e.prev := null;
      e.list := null;
      len := len - 1;
    }

    /** Moves e, the k-th element, behind `at`, the a-th stop. */
    method Move(e: Element<T>, at: Element<T>, ghost k: nat, ghost a: nat)
      requires Valid() && k < |nodes| && nodes[k] == e
      requires a <= |nodes| && at == Stop(a)
      modifies this, root`next, root`prev, nodes`next, nodes`prev
      ensures Valid() && root.next != null
      ensures a == k + 1 ==> nodes == old(nodes)
      ensures a != k + 1 ==>
        nodes == InsertAt(RemoveAt(old(nodes), k), if a <= k then a else a - 1, e)
    {
      if e == at {
        return;
      }
      Detach(e, k);
      Attach(e, at, if a <= k then a else a - 1);
    }

    /** An element that claims to be in this list is in it. */
    ghost predicate Honest(e: Element<T>)
      reads this, e
    {
      e.list == this ==> e in nodes
    }

    /** Removes e if it is an element of this list; returns its value in any case. */
    method Remove(e: Element<T>) returns (v: T)
      requires Valid() && Honest(e)
      modifies this, e`list, e`next, e`prev
      modifies root`next, root`prev, nodes`next, nodes`prev
      ensures v == e.value
      ensures Valid() && e !in nodes && e.list != this
      ensures e !in old(nodes) ==> unchanged(this) && unchanged(e)
      ensures e in old(nodes) ==>
        && e.next == null && e.prev == null && e.list == null
        && nodes == RemoveAt(old(nodes), Index(old(nodes), e))
        && contents == RemoveAt(old(contents), Index(old(nodes), e))
    {
      if e.list == this {
        ghost var k := Index(nodes, e);
        DistinctRemove(nodes, k);
        Unlink(e, k);
      }
      v := e.value;
    }

    method PushFront(v: T) returns (e: Element<T>)
      requires Valid()
      modifies this, root`next, root`prev, nodes`next, nodes`prev
      ensures Valid() && fresh(e) && e.value == v
      ensures nodes == [e] + old(nodes) && contents == [v] + old(contents)
    {
      LazyInit();
      e := InsertValue(v, root, 0);
    }

    method PushBack(v: T) returns (e: Element<T>)
      requires Valid()
      modifies this, root`next, root`prev, nodes`next, nodes`prev
      ensures Valid() && fresh(e) && e.value == v
      ensures nodes == old(nodes) + [e] && contents == old(contents) + [v]
    {
      LazyInit();
      e := InsertValue(v, root.prev, |nodes|);
    }

    /** Inserts v just before mark; does nothing when mark is not in this list. */
    method InsertBefore(v: T, mark: Element<T>) returns (e: Element?<T>)
      requires Valid() && Honest(mark)
      modifies this, root`next, root`prev, nodes`next, nodes`prev
      ensures Valid()
      ensures mark !in old(nodes) ==> e == null && unchanged(this)
      ensures mark in old(nodes) ==>
        && e != null && fresh(e) && e.value == v
        && nodes == InsertAt(old(nodes), Index(old(nodes), mark), e)
        && contents == InsertAt(old(contents), Index(old(nodes), mark), v)
    {
      if mark.list != this {
        return null;
      }
      ghost var k := Index(nodes, mark);
      e := InsertValue(v, mark.prev, k);
    }

    /** Inserts v just behind mark; does nothing when mark is not in this list. */
    method InsertAfter(v: T, mark: Element<T>) returns (e: Element?<T>)
      requires Valid() && Honest(mark)
      modifies this, root`next, root`prev, nodes`next, nodes`prev
      ensures Valid()
      ensures mark !in old(nodes) ==> e == null && unchanged(this)
      ensures mark in old(nodes) ==>
        && e != null && fresh(e) && e.value == v
        && nodes == InsertAt(old(nodes), Index(old(nodes), mark) + 1, e)
        && contents == InsertAt(old(contents), Index(old(nodes), mark) + 1, v)
    {
      if mark.list != this {
        return null;
      }
      e := InsertValue(v, mark, Index(nodes, mark) + 1);
    }

    method MoveToFront(e: Element<T>)
      requires Valid() && Honest(e)
      modifies this, root`next, root`prev, nodes`next, nodes`prev
      ensures Valid()
      ensures e !in old(nodes) ==> nodes == old(nodes)
      ensures e in old(nodes) ==> nodes == [e] + RemoveAt(old(nodes), Index(old(nodes), e))
    {
      if e.list != this || root.next == e {
        return;
      }
      Move(e, root, Index(nodes, e), 0);
    }

    method MoveToBack(e: Element<T>)
      requires Valid() && Honest(e)
      modifies this, root`next, root`prev, nodes`next, nodes`prev
      ensures Valid()
      ensures e !in old(nodes) ==> nodes == old(nodes)
      ensures e in old(nodes) ==> nodes == RemoveAt(old(nodes), Index(old(nodes), e)) + [e]
    {
      if e.list != this || root.prev == e {
        return;
      }
      Move(e, root.prev, Index(nodes, e), |nodes|);
    }

    method MoveBefore(e: Element<T>, mark: Element<T>)
      requires Valid() && Honest(e) && Honest(mark)
      modifies this, root`next, root`prev, nodes`next, nodes`prev
      ensures Valid()
      ensures e == mark || e !in old(nodes) || mark !in old(nodes) ==> nodes == old(nodes)
      ensures e != mark && e in old(nodes) && mark in old(nodes) ==>
        var rest := RemoveAt(old(nodes), Index(old(nodes), e));
        mark in rest && nodes == InsertAt(rest, Index(rest, mark), e)
    {
      if e.list != this || e == mark || mark.list != this {
        return;
      }
      ghost var k, a := Index(nodes, e), Index(nodes, mark);
      IndexAfterRemove(nodes, k, a);
      assert mark.prev == Stop(a);
      hide Index;
      hide InsertAt;
      hide RemoveAt;
      hide Linked;
      hide Distinct;
      Move(e, mark.prev, k, a);
    }

    method MoveAfter(e: Element<T>, mark: Element<T>)
      requires Valid() && Honest(e) && Honest(mark)
      modifies this, root`next, root`prev, nodes`next, nodes`prev
      ensures Valid()
      ensures e == mark || e !in old(nodes) || mark !in old(nodes) ==> nodes == old(nodes)
      ensures e != mark && e in old(nodes) && mark in old(nodes) ==>
        var rest := RemoveAt(old(nodes), Index(old(nodes), e));
        mark in rest && nodes == InsertAt(rest, Index(rest, mark) + 1, e)
    {
      if e.list != this || e == mark || mark.list != this {
        return;
      }
      ghost var k, a := Index(nodes, e), Index(nodes, mark);
      DistinctRemove(nodes, k);
      assert RemoveAt(nodes, k)[if a < k then a else a - 1] == mark;
      Move(e, mark, k, a + 1);
    }

    /** The other list holds `values` in `elements`, or it is this list and they are some of its own. */
    ghost predicate Offers(other: List<T>, elements: seq<Element<T>>, values: seq<T>, shift: nat)
      reads this, root, nodes, other, other.root, other.nodes
    {
      && Valid() && root.next != null && other.Valid()
      && |elements| == |values|
      && (if other == this then
            && shift + |elements| <= |nodes|
            && forall i {:trigger elements[i]} :: 0 <= i < |elements| ==> nodes[shift + i] == elements[i]
          else
            other.nodes == elements)
      && (forall i {:trigger values[i]} {:trigger elements[i].value} ::
          0 <= i < |elements| ==> elements[i].value == values[i])
    }

    /** Different lists share no elements and no sentinel. */
    lemma Apart(other: List<T>)
      requires Valid() && other.Valid() && other != this
      ensures other.root != root && other.root !in nodes && root !in other.nodes
      ensures forall i {:trigger other.nodes[i]} :: 0 <= i < |other.nodes| ==> other.nodes[i] !in nodes
    {
      forall i | 0 <= i < |other.nodes|
        ensures other.nodes[i] !in nodes
      {
        assert other.nodes[i].list == other;
      }
    }

    /** Copies a value to the back; what `other` offers stays on offer. */
    method OfferedPushBack(v: T, other: List<T>, ghost elements: seq<Element<T>>, ghost values: seq<T>)
        returns (copy: Element<T>)
      requires Offers(other, elements, values, 0)
      modifies this, root`next, root`prev, nodes`next, nodes`prev
      ensures Offers(other, elements, values, 0)
      ensures fresh(copy) && nodes == old(nodes) + [copy] && contents == old(contents) + [v]
    {
      if other != this {
        Apart(other);
      }
      copy := InsertValue(v, root.prev, |nodes|);
    }

    /** Copies a value to the front; what `other` offers stays on offer, shifted when it is this list. */
    method OfferedPushFront(v: T, other: List<T>, ghost elements: seq<Element<T>>, ghost values: seq<T>,
                            ghost shift: nat)
        returns (copy: Element<T>)
      requires Offers(other, elements, values, shift)
      modifies this, root`next, root`prev, nodes`next, nodes`prev
      ensures Offers(other, elements, values, shift + 1)
      ensures fresh(copy) && nodes == [copy] + old(nodes) && contents == [v] + old(contents)
    {
      if other != this {
        Apart(other);
      }
      copy := InsertValue(v, root, 0);
    }

    /** Steps back from the last of the first i elements on offer. */
    method OfferedPrev(other: List<T>, e: Element<T>, ghost i: nat, ghost elements: seq<Element<T>>,
                       ghost values: seq<T>, ghost shift: nat)
      returns (prev: Element?<T>)
      requires Offers(other, elements, values, shift)
      requires 0 < i <= |elements| && e == elements[i - 1]
      ensures i > 1 ==> prev == elements[i - 2]
    {
      ghost var at := if other == this then shift + i - 1 else i - 1;
      assert e == other.nodes[at] && e.list == other && Index(other.nodes, e) == at;
      prev := e.Prev();
    }

    /** One step of PushBackList: copies e, the k-th element offered, and steps on. */
    method CopyToBack(other: List<T>, e: Element<T>, ghost k: nat, ghost elements: seq<Element<T>>,
                      ghost values: seq<T>, ghost was: seq<T>)
      returns (copy: Element<T>, next: Element?<T>)
      requires Offers(other, elements, values, 0)
      requires k < |elements| && e == elements[k]
      requires contents == was + values[..k]
      modifies this, root`next, root`prev, nodes`next, nodes`prev
      ensures Offers(other, elements, values, 0)
      ensures forall k {:trigger nodes[k]} :: 0 <= k < |nodes| ==> nodes[k] in old(nodes) || fresh(nodes[k])
      ensures contents == was + values[..k + 1]
      ensures k + 1 < |elements| ==> next == elements[k + 1]
    {
      assert values[..k + 1] == values[..k] + [values[k]];
      Regroup(was, values[..k], [values[k]]);
      copy := OfferedPushBack(e.value, other, elements, values);
      assert e == other.nodes[k] && e.list == other && Index(other.nodes, e) == k;
      next := e.Next();
    }

    /** The values from the i-th on are ahead of what was there. */
    ghost predicate Ahead(values: seq<T>, i: nat, was: seq<T>)
      reads this
    {
      i <= |values| && contents == values[i..] + was
    }

    lemma AllAhead(values: seq<T>, was: seq<T>)
      ensures Ahead(values, |values|, was) <==> contents == was
      ensures Ahead(values, 0, was) <==> contents == values + was
    {
      assert values[|values|..] + was == was && values[0..] == values;
    }

    /** One step of PushFrontList: copies e, the last of the i elements still offered, and steps back. */
    method CopyToFront(other: List<T>, e: Element<T>, ghost i: nat, ghost elements: seq<Element<T>>,
                       ghost values: seq<T>, ghost shift: nat, ghost was: seq<T>)
      returns (copy: Element<T>, next: Element?<T>)
      requires Offers(other, elements, values, shift)
      requires 0 < i <= |elements| && e == elements[i - 1]
      requires Ahead(values, i, was)
      modifies this, root`next, root`prev, nodes`next, nodes`prev
      ensures Offers(other, elements, values, shift + 1)
      ensures forall k {:trigger nodes[k]} :: 0 <= k < |nodes| ==> nodes[k] in old(nodes) || fresh(nodes[k])
      ensures Ahead(values, i - 1, was)
      ensures i > 1 ==> next == elements[i - 2]
    {
      assert values[i - 1..] == [values[i - 1]] + values[i..];
      Regroup([values[i - 1]], values[i..], was);
      hide Offers;
      copy := OfferedPushFront(e.value, other, elements, values, shift);
      next := OfferedPrev(other, e, i, elements, values, shift + 1);
    }

    /**
     Appends a copy of `other`.  When `other` is this very list it grows while it
     is being walked; the number of steps was fixed before, so the walk still ends
     and covers exactly the elements that were there at the start.
     */
    method PushBackList(other: List<T>)
      requires Valid() && other.Valid()
      modifies this, root`next, root`prev, nodes`next, nodes`prev
      ensures Valid()
      ensures contents == old(contents) + old(other.contents)
      ensures other != this ==> other.Valid() && other.nodes == old(other.nodes)
    {
      LazyInit();
      var i := other.len;
      var e := other.Front();
      CopyAllToBack(other, i, e, other.nodes, other.contents);
    }

    /** The loop of PushBackList. */
    method CopyAllToBack(other: List<T>, count: int, first: Element?<T>, ghost elements: seq<Element<T>>,
                         ghost values: seq<T>)
      requires Offers(other, elements, values, 0)
      requires count == |elements| && (count > 0 ==> first == elements[0])
      modifies this, root`next, root`prev, nodes`next, nodes`prev
      ensures Offers(other, elements, values, 0)
      ensures contents == old(contents) + values
    {
      var i, e := count, first;
      ghost var was := contents;
      assert |values| == |elements| && values[..0] == [];
      hide Offers;
      while i > 0
        invariant 0 <= i <= |elements|
        invariant Offers(other, elements, values, 0)
        invariant |values| == |elements| && contents == was + values[..|values| - i]
        invariant forall k {:trigger nodes[k]} :: 0 <= k < |nodes| ==> nodes[k] in old(nodes) || fresh(nodes[k])
        invariant i > 0 ==> e == elements[|elements| - i]
      {
        var copy;
        copy, e := CopyToBack(other, e, |elements| - i, elements, values, was);
        i := i - 1;
      }
      assert values[..|values|] == values;
    }

    /** Prepends a copy of `other`; `other` may be this list, see PushBackList. */
    method PushFrontList(other: List<T>)
      requires Valid() && other.Valid()
      modifies this, root`next, root`prev, nodes`next, nodes`prev
      ensures Valid()
      ensures contents == old(other.contents) + old(contents)
      ensures other != this ==> other.Valid() && other.nodes == old(other.nodes)
    {
      LazyInit();
      var i := other.len;
      var e := other.Back();
      CopyAllToFront(other, i, e, other.nodes, other.contents);
    }

    /** The loop of PushFrontList. */
    method CopyAllToFront(other: List<T>, count: int, last: Element?<T>, ghost elements: seq<Element<T>>,
                          ghost values: seq<T>)
      requires Offers(other, elements, values, 0)
      requires count == |elements| && (count > 0 ==> last == elements[count - 1])
      modifies this, root`next, root`prev, nodes`next, nodes`prev
      ensures Offers(other, elements, values, |elements|)
      ensures contents == values + old(contents)
    {
      var i, e := count, last;
      ghost var shift := 0;
      ghost var was := contents;
      assert |values| == |elements|;
      AllAhead(values, was);
      hide Offers;
      hide Ahead;
      while i > 0
        invariant 0 <= i <= |elements| && shift == |elements| - i
        invariant Offers(other, elements, values, shift)
        invariant Ahead(values, i, was)
        invariant forall k {:trigger nodes[k]} :: 0 <= k < |nodes| ==> nodes[k] in old(nodes) || fresh(nodes[k])
        invariant i > 0 ==> e == elements[i - 1]
      {
        var copy;
        copy, e := CopyToFront(other, e, i, elements, values, shift, was);
        i, shift := i - 1, shift + 1;
      }
      AllAhead(values, was);
    }
  }
}
