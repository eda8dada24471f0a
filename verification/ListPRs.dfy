/**
 The paginating iterator over the open pull requests of a repository, pulled
 element by element through the retry loop.
 */
module ListPRs {

  datatype PR = PR(number: int, baseBranch: string)

  /** What a query can come to. */
  datatype Fault = NoFault | Retryable | Fatal

  /**
   What GitHub holds: a list of pages, which does not change, and the faults of
   the queries in the order in which they are made; later queries succeed.
   */
  datatype Server = Server(pages: seq<seq<PR>>, faults: seq<Fault>) {
    predicate Valid() {
      pages != []
    }

    function FaultOf(query: nat): Fault {
      if query < |faults| then faults[query] else NoFault
    }
  }

  /** The cursor of a query: nothing for the first page, otherwise the page it follows. */
  datatype Cursor = FromStart | AfterPage(page: nat)

  function PageAt(c: Cursor): nat {
    match c
    case FromStart => 0
    case AfterPage(p) => p + 1
  }

  datatype Item = Element(pr: PR) | Error(fault: Fault) | End

  predicate SortedByNumber(s: seq<PR>) {
    forall i, j :: 0 <= i < j < |s| ==> s[i].number <= s[j].number
  }

  function Concat(chunks: seq<seq<PR>>): seq<PR> {
    if chunks == [] then [] else Concat(chunks[..|chunks| - 1]) + chunks[|chunks| - 1]
  }

  /** chunks are the first pages, each with its pull requests sorted by number. */
  ghost predicate SortedPages(chunks: seq<seq<PR>>, pages: seq<seq<PR>>) {
    && |chunks| <= |pages|
    && (forall i :: 0 <= i < |chunks| ==> SortedPage(chunks[i], pages[i]))
  }

  /** chunk is the page, sorted by number. */
  ghost predicate SortedPage(chunk: seq<PR>, page: seq<PR>) {
    SortedByNumber(chunk) && multiset(chunk) == multiset(page)
  }

  lemma AnotherPage(chunks: seq<seq<PR>>, pages: seq<seq<PR>>, chunk: seq<PR>)
    requires SortedPages(chunks, pages) && |chunks| < |pages|
    requires SortedPage(chunk, pages[|chunks|])
    ensures SortedPages(chunks + [chunk], pages) && Concat(chunks + [chunk]) == Concat(chunks) + chunk
  {
    hide SortedPage;
    assert (chunks + [chunk])[..|chunks|] == chunks;
  }

  function InsertByNumber(s: seq<PR>, x: PR): seq<PR> {
    if s == [] || s[|s| - 1].number <= x.number then s + [x]
    else InsertByNumber(s[..|s| - 1], x) + [s[|s| - 1]]
  }

  lemma {:induction false} InsertByNumberSorts(s: seq<PR>, x: PR)
    requires SortedByNumber(s)
    ensures var r := InsertByNumber(s, x);
            SortedByNumber(r) && |r| == |s| + 1 && (r[|s|] == x || (s != [] && r[|s|] == s[|s| - 1]))
  {
    if !(s == [] || s[|s| - 1].number <= x.number) {
      var init, last := s[..|s| - 1], s[|s| - 1];
      InsertByNumberSorts(init, x);
      var r := InsertByNumber(init, x);
      assert forall i :: 0 <= i < |r| ==> r[i].number <= last.number by {
        assert r[|r| - 1].number <= last.number;
      }
    }
  }

  lemma {:induction false} InsertByNumberKeeps(s: seq<PR>, x: PR)
    ensures multiset(InsertByNumber(s, x)) == multiset(s) + multiset{x}
  {
    if !(s == [] || s[|s| - 1].number <= x.number) {
      InsertByNumberKeeps(s[..|s| - 1], x);
      assert s == s[..|s| - 1] + [s[|s| - 1]];
    }
  }

  /** The sorting of a page. */
  method SortPage(page: seq<PR>) returns (r: seq<PR>)
    ensures SortedByNumber(r) && multiset(r) == multiset(page)
  {
    r := [];
    for i := 0 to |page|
      invariant SortedByNumber(r) && multiset(r) == multiset(page[..i])
    {
      InsertByNumberSorts(r, page[i]);
      InsertByNumberKeeps(r, page[i]);
      assert page[..i + 1] == page[..i] + [page[i]];
      r := InsertByNumber(r, page[i]);
    }
    assert page[..|page|] == page;
  }

  /** Where the iterator function stands: what it yielded last. */
  datatype Yielded = Nothing | YieldedElement | YieldedError | ReturnedEnd

  class Iterator {
    const server: Server
    var prs: seq<PR>
    var hasNext: bool
    var cursor: Cursor
    var queries: nat
    var yielded: Yielded
    /** The pages fetched so far, sorted, and what has been handed out. */
    ghost var chunks: seq<seq<PR>>
    ghost var delivered: seq<PR>

    ghost predicate Valid()
      reads this
    {
      && server.Valid()
      && SortedPages(chunks, server.pages)
      && |chunks| == PageAt(cursor)
      && (hasNext <==> |chunks| < |server.pages|)
      && (yielded == YieldedElement ==> prs != [])
      && (yielded == ReturnedEnd ==> prs == [] && !hasNext)
      && Concat(chunks) == delivered + (if yielded == YieldedElement then prs[1..] else prs)
    }

    constructor (server: Server)
      requires server.Valid()
      ensures Valid() && this.server == server && delivered == [] && queries == 0 && yielded == Nothing
    {
      this.server := server;
      prs, hasNext, cursor, queries, yielded := [], true, FromStart, 0, Nothing;
      chunks, delivered := [], [];
    }

    /** Fetches the next page; false when the query failed. */
    method Query() returns (fault: Fault)
      requires Valid() && hasNext && prs == [] && yielded != YieldedElement && yielded != ReturnedEnd
      modifies this
      ensures Valid() && delivered == old(delivered) && queries == old(queries) + 1 && yielded == old(yielded)
      ensures fault == server.FaultOf(old(queries))
      ensures fault != NoFault ==> prs == [] && hasNext && chunks == old(chunks)
      ensures fault == NoFault ==> |chunks| == |old(chunks)| + 1
    {
      fault := server.FaultOf(queries);
      queries := queries + 1;
      if fault != NoFault {
        return;
      }
      TakePage();
    }

    /** The answer to a query: the page behind the cursor. */
    method TakePage()
      requires Valid() && hasNext && prs == [] && yielded != YieldedElement && yielded != ReturnedEnd
      modifies this
      ensures Valid() && delivered == old(delivered) && queries == old(queries) && yielded == old(yielded)
      ensures |chunks| == |old(chunks)| + 1
    {
      var page := PageAt(cursor);
      hasNext := page + 1 < |server.pages|;
      cursor := AfterPage(page);
      var sorted := SortPage(server.pages[page]);
      ghost var grown := chunks + [sorted];
      assert SortedPages(grown, server.pages) && Concat(grown) == Concat(chunks) + sorted by {
        assert SortedPage(sorted, server.pages[page]);
        AnotherPage(chunks, server.pages, sorted);
      }
      prs, chunks := sorted, grown;
    }

    /** Continues behind the last yield. */
    method Resume()
      requires Valid() && yielded != ReturnedEnd
      modifies this
      ensures Valid() && yielded == Nothing
      ensures delivered == old(delivered) && queries == old(queries) && chunks == old(chunks)
    {
      if yielded == YieldedElement {
        prs := prs[1..];
      }
      yielded := Nothing;
    }

    /** Yields the first pull request of the page. */
    method YieldElement() returns (pr: PR)
      requires Valid() && yielded == Nothing && prs != []
      modifies this
      ensures Valid() && delivered == old(delivered) + [pr]
      ensures queries == old(queries) && chunks == old(chunks) && yielded == YieldedElement
    {
      hide Concat;
      hide SortedPages;
      pr := prs[0];
      assert delivered + prs == delivered + [pr] + prs[1..];
      delivered := delivered + [pr];
      yielded := YieldedElement;
    }

    /** Yields an error, or returns. */
    method Leave(how: Yielded)
      requires Valid() && yielded == Nothing
      requires how == YieldedError || (how == ReturnedEnd && prs == [] && !hasNext)
      modifies this`yielded
      ensures Valid() && yielded == how
    {
      yielded := how;
    }

    /** The loop of the iterator function, up to its next yield or its end. */
    method RunToYield() returns (item: Item)
      requires Valid() && yielded == Nothing
      modifies this
      ensures Valid() && queries >= old(queries)
      ensures delivered == if item.Element? then old(delivered) + [item.pr] else old(delivered)
      ensures item.Error? ==> queries > old(queries) && item.fault == server.FaultOf(queries - 1) != NoFault
      ensures item.End? <==> yielded == ReturnedEnd
    {
      while true
        invariant Valid() && yielded == Nothing && delivered == old(delivered) && queries >= old(queries)
        decreases |server.pages| - |chunks|
      {
        if |prs| > 0 {
          var pr := YieldElement();
          return Element(pr);
        }
        if !hasNext {
          Leave(ReturnedEnd);
          return End;
        }
        var fault := Query();
        if fault != NoFault {
          Leave(YieldedError);
          return Error(fault);
        }
      }
    }

    /** Resumes the iterator function where it yielded last; an ended one stays ended. */
    method Next() returns (item: Item)
      requires Valid()
      modifies this
      ensures Valid() && queries >= old(queries)
      ensures delivered == if item.Element? then old(delivered) + [item.pr] else old(delivered)
      ensures item.Error? ==> queries > old(queries) && item.fault == server.FaultOf(queries - 1) != NoFault
      ensures item.End? <==> yielded == ReturnedEnd
      ensures item.End? ==> |chunks| == |server.pages|
      ensures old(yielded) == ReturnedEnd ==> item == End
    {
      if yielded == ReturnedEnd {
        return End;
      }
      Resume();
      item := RunToYield();
    }

    /**
     Pulls one element through the retry loop: retryable errors are retried, at
     most until the context ends, which it does after `patience` tries.
     */
    method Pull(patience: nat) returns (item: Item, inTime: bool)
      requires Valid()
      modifies this
      ensures Valid() && queries >= old(queries)
      ensures delivered == if inTime && item.Element? then old(delivered) + [item.pr] else old(delivered)
      ensures inTime ==> item != Error(Retryable) && item != Error(NoFault)
      ensures inTime && item.Error? ==> Fatal in server.faults
      ensures inTime && item.End? ==> yielded == ReturnedEnd
      ensures patience > |server.faults| ==> inTime
    {
      var tries := 0;
      item := End;
      while tries < patience
        invariant 0 <= tries <= patience && tries <= queries - old(queries)
        invariant Valid() && delivered == old(delivered) && queries >= old(queries)
        invariant tries > 0 ==> queries <= |server.faults|
      {
        item := Next();
        if item.Error? && item.fault == Retryable {
          assert server.faults[queries - 1] == Retryable;
          tries := tries + 1;
        } else {
          if item.Error? {
            assert server.faults[queries - 1] == Fatal;
          }
          return item, true;
        }
      }
      inTime := false;
    }
  }

  /** How the listing of a repository ends. */
  datatype Outcome = Complete | QueryFailed | ContextEnded

  lemma SortedPrefix(chunks: seq<seq<PR>>, pages: seq<seq<PR>>)
    requires SortedPages(chunks, pages) && |chunks| == |pages| && chunks != []
    ensures var n := |chunks| - 1;
            SortedPages(chunks[..n], pages[..n]) && multiset(chunks[n]) == multiset(pages[n])
  {
    assert SortedPage(chunks[|chunks| - 1], pages[|chunks| - 1]);
    hide SortedPage;
  }

  lemma {:induction false} ConcatMultiset(chunks: seq<seq<PR>>, pages: seq<seq<PR>>)
    requires SortedPages(chunks, pages) && |chunks| == |pages|
    ensures multiset(Concat(chunks)) == multiset(Concat(pages))
  {
    if chunks != [] {
      SortedPrefix(chunks, pages);
      hide SortedPages;
      ConcatMultiset(chunks[..|chunks| - 1], pages[..|pages| - 1]);
    }
  }

  lemma {:induction false} ConcatPrefix(pages: seq<seq<PR>>, k: nat)
    requires k <= |pages|
    ensures |Concat(pages[..k])| <= |Concat(pages)|
  {
    if k < |pages| {
      assert pages[..|pages| - 1][..k] == pages[..k];
      ConcatPrefix(pages[..|pages| - 1], k);
    } else {
      assert pages[..k] == pages;
    }
  }

  lemma ConcatBound(chunks: seq<seq<PR>>, pages: seq<seq<PR>>)
    requires SortedPages(chunks, pages)
    ensures |Concat(chunks)| <= |Concat(pages)|
  {
    ConcatMultiset(chunks, pages[..|chunks|]);
    assert |multiset(Concat(chunks))| == |multiset(Concat(pages[..|chunks|]))|;
    ConcatPrefix(pages, |chunks|);
  }

  /**
   The listing loop of sync.  Whatever retryable failures the queries meet, it
   delivers the concatenation of the pages, each sorted by number: every pull
   request exactly once, and then it ends.  A failed listing delivered a prefix.
   */
  method ListAll(server: Server, patience: nat) returns (all: seq<PR>, outcome: Outcome, ghost chunks: seq<seq<PR>>)
    requires server.Valid()
    ensures SortedPages(chunks, server.pages)
    ensures all <= Concat(chunks)
    ensures outcome == Complete ==>
            |chunks| == |server.pages| && all == Concat(chunks) && multiset(all) == multiset(Concat(server.pages))
    ensures patience > |server.faults| && Fatal !in server.faults ==> outcome == Complete
  {
    var it := new Iterator(server);
    all := [];
    chunks := it.chunks;
    outcome := Complete;
    while true
      invariant it.Valid() && it.server == server && all == it.delivered && chunks == it.chunks
      decreases |Concat(server.pages)| - |all|
    {
      var item, inTime := it.Pull(patience);
      chunks := it.chunks;
      ConcatBound(chunks, server.pages);
      if !inTime {
        return all, ContextEnded, chunks;
      }
      match item
      case Error(_) => return all, QueryFailed, chunks;
      case End =>
        ConcatMultiset(chunks, server.pages);
        return all, Complete, chunks;
      case Element(pr) => all := all + [pr];
    }
  }
}
