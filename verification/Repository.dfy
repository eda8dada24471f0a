/** A repository's merge queues from start-up on: the synchronisation, and then events without end. */
module Repository {
  import opened MergeQueue
  import opened PullRequests
  import opened Coordinator
  import Sync
  import P = ProcessPR

  datatype Event =
    | Arrive(base: Branch, number: int, branch: string, now: int)
    | Leave(base: Branch, number: int, setPending: bool, pendingOk: bool, labelOk: bool)
    | Move(from: Branch, to: Branch, number: int, labelOk: bool, now: int)
    | Turn(base: Branch, event: MergeQueue.Event)
    | Tick(base: Branch)

  /** The pull requests in all queues. */
  ghost function Queued(c: map<Branch, Content>): set<PullRequest> {
    set b, p | b in c && p in c[b].Members() :: p
  }

  lemma QueuedAre(c: map<Branch, Content>)
    ensures forall p :: p in Queued(c) <==> !Outside(c, p)
  {
    forall p
      ensures p in Queued(c) <==> !Outside(c, p)
    {
      if p in Queued(c) {
        var b :| b in c && p in c[b].Members();
        assert p in Members(c, b);
      }
      if !Outside(c, p) {
        var b :| p in Members(c, b);
        assert b in c && p in c[b].Members();
      }
    }
  }

  lemma LineIsQueued(c: map<Branch, Content>, base: Branch)
    ensures forall p :: p in Line(c, base) ==> p in Queued(c)
  {
    forall p | p in Line(c, base)
      ensures p in Queued(c)
    {
      assert base in c && p in c[base].Members();
    }
  }

  lemma MembersAreQueued(c: map<Branch, Content>, base: Branch)
    ensures Members(c, base) <= Queued(c)
  {
    QueuedAre(c);
  }

  lemma NoneComes(before: map<Branch, Content>, after: map<Branch, Content>)
    requires forall p :: Outside(before, p) ==> Outside(after, p)
    ensures Queued(after) <= Queued(before)
  {
    QueuedAre(before);
    QueuedAre(after);
    hide Outside;
  }

  lemma OneArrives(before: map<Branch, Content>, after: map<Branch, Content>, base: Branch, pr: PullRequest)
    requires base in after && after == before[base := after[base]]
    requires if pr.number in Tracked(before, base) then after == before else Gains(At(before, base), after[base], pr)
    ensures Queued(after) <= Queued(before) + {pr}
    ensures forall b :: Tracked(after, b) == Tracked(before, b) + if b == base then {pr.number} else {}
  {
    AfterInsertion(before, after, base, pr);
    QueuedAre(before);
    QueuedAre(after);
    hide Gains;
    hide Outside;
    hide Queued;
  }

  lemma RemovalShrinks(before: map<Branch, Content>, after: map<Branch, Content>, base: Branch, n: int)
    requires At(before, base).Sound() && SameBut(after, before, base) && At(after, base) == At(before, base).Without(n)
    ensures Queued(after) <= Queued(before)
    ensures forall b :: Tracked(after, b) == if b == base then Tracked(before, b) - {n} else Tracked(before, b)
  {
    AfterRemoval(before, after, base, n);
    NoneComes(before, after);
  }

  lemma QueuedShrinks(before: map<Branch, Content>, after: map<Branch, Content>)
    requires forall b :: Members(after, b) <= Members(before, b)
    ensures Queued(after) <= Queued(before)
  {
    QueuedAre(before);
    QueuedAre(after);
    hide Members;
  }

  /** What an event makes of the numbers that are queued for each branch. */
  ghost predicate Happened(e: Event, before: map<Branch, Content>, after: map<Branch, Content>) {
    match e
    case Arrive(base, n, _, _) =>
      forall b :: Tracked(after, b) == Tracked(before, b) + if b == base then {n} else {}
    case Leave(base, n, _, _, _) =>
      forall b :: Tracked(after, b) == if b == base then Tracked(before, b) - {n} else Tracked(before, b)
    case Move(from, to, n, _, _) =>
      forall b :: Tracked(after, b) ==
        if n in Tracked(before, from) then Moved(Tracked(before, b), b == from, b == to, n) else Tracked(before, b)
    case Turn(base, _) => SameBut(after, before, base)
    case Tick(base) => forall b :: At(after, b) == At(before, b)
  }

  /** How a change of the base branch ends. */
  function MoveEnd(before: map<Branch, Content>, from: Branch, to: Branch, n: int): Error {
    if n !in Tracked(before, from) then NotFound
    else if from != to && n in Tracked(before, to) then AlreadyExists
    else NoError
  }

  /** The tasks of each queue, after n has moved: for whoever became first behind it, and for n if it found nobody. */
  twostate predicate MoveSchedules(c: Coordinator, from: Branch, to: Branch, n: int)
    reads c, c.queues.Values
  {
    forall b ::
      c.Tasks(b) == MovedTasks(old(c.Tasks(b)), At(old(c.contents), b), At(Left(old(c.contents), from, n), b),
                               b == from, b == to, MoveEnd(old(c.contents), from, to, n), n)
  }

  /** One event of a repository.  Of the calls it makes, those that report the pending status succeed. */
  method Handle(c: Coordinator, e: Event)
    requires c.Valid() && OneWinnerEach(c.contents)
    modifies c, c.queues.Values, Queued(c.contents)
    ensures c.Valid() && OneWinnerEach(c.contents)
    ensures forall q :: q in c.queues.Values ==> q in old(c.queues.Values) || fresh(q)
    ensures forall p :: p in Queued(c.contents) ==> p in old(Queued(c.contents)) || fresh(p)
    ensures Happened(e, old(c.contents), c.contents)
    ensures !e.Move? ==> forall b :: b != e.base ==> c.Tasks(b) == old(c.Tasks(b))
    ensures e.Arrive? && e.number !in Tracked(old(c.contents), e.base) ==>
      c.Tasks(e.base) == old(c.Tasks(e.base)) + ForNewcomer(Line(old(c.contents), e.base), NoError, e.number)
    ensures e.Arrive? && e.number in Tracked(old(c.contents), e.base) ==> c.Tasks(e.base) == old(c.Tasks(e.base))
    ensures e.Leave? && e.base in c.queues ==>
      c.Tasks(e.base) == old(c.Tasks(e.base))
      + ForSuccessor(At(old(c.contents), e.base), At(c.contents, e.base), e.number)
    ensures e.Move? ==> MoveSchedules(c, e.from, e.to, e.number)
    ensures e.Turn? && e.base in old(c.queues) ==>
      && e.base in c.queues && At(c.contents, e.base) == View(c.queues[e.base])
      && Stepped(e.event, old(c.queues[e.base].Holding()), c.queues[e.base].Holding())
    ensures e.Tick? && Line(c.contents, e.base) != [] ==>
      c.Tasks(e.base) == old(c.Tasks(e.base)) + [QueuedTask(Line(c.contents, e.base)[0].number, P.TaskNone)]
  {
    hide Queued;
    match e
    case Arrive(base, number, branch, now) => Admit(c, base, number, branch, now);
    case Leave(base, n, setPending, pendingOk, labelOk) => Release(c, base, n, setPending, pendingOk, labelOk);
    case Move(from, to, n, labelOk, now) => Transfer(c, from, to, n, labelOk, now);
    case Turn(base, event) => Take(c, base, event);
    case Tick(base) => Trigger(c, base);
  }

  /** A pull request that was not queued before is enqueued. */
  method Admit(c: Coordinator, base: Branch, number: int, branch: string, now: int)
    requires c.Valid() && OneWinnerEach(c.contents)
    modifies c, c.queues.Values
    ensures c.Valid() && OneWinnerEach(c.contents)
    ensures forall q :: q in c.queues.Values ==> q in old(c.queues.Values) || fresh(q)
    ensures forall p :: p in Queued(c.contents) ==> p in old(Queued(c.contents)) || fresh(p)
    ensures Happened(Arrive(base, number, branch, now), old(c.contents), c.contents)
    ensures forall b :: b != base ==> c.Tasks(b) == old(c.Tasks(b))
    ensures number !in Tracked(old(c.contents), base) ==>
      c.Tasks(base) == old(c.Tasks(base)) + ForNewcomer(Line(old(c.contents), base), NoError, number)
    ensures number in Tracked(old(c.contents), base) ==> c.Tasks(base) == old(c.Tasks(base))
  {
    hide Holds;
    hide OneWinnerEach;
    hide Queued;
    ghost var before := c.contents;
    var pr := new PullRequest(number, branch, now);
    forall b | b in before
      ensures FlagsStay(before[b])
    {
    }
    AllWinnersStay(before);
    hide FlagsStay;
    assert Outside(before, pr);
    hide Outside;
    Join(c, base, pr, now);
  }

  /** It joins the queue of its base branch. */
  method Join(c: Coordinator, base: Branch, pr: PullRequest, now: int)
    requires c.Valid() && OneWinnerEach(c.contents) && Outside(c.contents, pr) && !pr.Winner()
    modifies c, c.queues.Values, pr`activeSince
    ensures c.Valid() && OneWinnerEach(c.contents)
    ensures forall q :: q in c.queues.Values ==> q in old(c.queues.Values) || fresh(q)
    ensures Queued(c.contents) <= old(Queued(c.contents)) + {pr}
    ensures forall b :: Tracked(c.contents, b) ==
                        Tracked(old(c.contents), b) + if b == base then {pr.number} else {}
    ensures forall b :: b != base ==> c.Tasks(b) == old(c.Tasks(b))
    ensures pr.number !in Tracked(old(c.contents), base) ==>
      c.Tasks(base) == old(c.Tasks(base)) + ForNewcomer(Line(old(c.contents), base), NoError, pr.number)
    ensures pr.number in Tracked(old(c.contents), base) ==> c.Tasks(base) == old(c.Tasks(base))
  {
    hide Holds;
    hide OneWinnerEach;
    hide Gains;
    hide Outside;
    hide Queued;
    hide Content.Known;
    ghost var before := c.contents;
    var err := c.Enqueue(base, pr, now);
    OneArrives(before, c.contents, base, pr);
  }

  /** Dequeue, whatever becomes of its calls. */
  method Release(c: Coordinator, base: Branch, n: int, setPending: bool, pendingOk: bool, labelOk: bool)
    requires c.Valid() && OneWinnerEach(c.contents)
    modifies c, c.queues.Values, Queued(c.contents)
    ensures c.Valid() && OneWinnerEach(c.contents)
    ensures forall q :: q in c.queues.Values ==> q in old(c.queues.Values)
    ensures forall p :: p in Queued(c.contents) ==> p in old(Queued(c.contents))
    ensures Happened(Leave(base, n, setPending, pendingOk, labelOk), old(c.contents), c.contents)
    ensures forall b :: b != base ==> c.Tasks(b) == old(c.Tasks(b))
    ensures base in c.queues ==>
      c.Tasks(base) == old(c.Tasks(base)) + ForSuccessor(At(old(c.contents), base), At(c.contents, base), n)
  {
    hide Holds;
    hide OneWinnerEach;
    ghost var before := c.contents;
    c.SoundAt(base);
    LineIsQueued(before, base);
    hide Content.Sound;
    hide Content.Known;
    hide Content.With;
    hide Content.Without;
    hide OneWinner;
    hide Queued;
    var _, _ := c.Dequeue(base, n, setPending, pendingOk, labelOk);
    RemovalShrinks(before, c.contents, base, n);
  }

  /** A pull request gets another base branch. */
  method Transfer(c: Coordinator, from: Branch, to: Branch, n: int, labelOk: bool, now: int)
    requires c.Valid() && OneWinnerEach(c.contents)
    modifies c, c.queues.Values, Queued(c.contents)
    ensures c.Valid() && OneWinnerEach(c.contents)
    ensures forall q :: q in c.queues.Values ==> q in old(c.queues.Values) || fresh(q)
    ensures forall p :: p in Queued(c.contents) ==> p in old(Queued(c.contents))
    ensures Happened(Move(from, to, n, labelOk, now), old(c.contents), c.contents)
    ensures MoveSchedules(c, from, to, n)
  {
    hide Holds;
    hide OneWinnerEach;
    hide Outside;
    hide MovedTasks;
    ghost var before := c.contents;
    MembersAreQueued(before, from);
    hide Queued;
    var _ := c.ChangeBaseBranch(from, to, n, true, labelOk, now);
    NoneComes(before, c.contents);
  }

  /** A queue or its worker takes a step. */
  method Take(c: Coordinator, base: Branch, e: MergeQueue.Event)
    requires c.Valid() && OneWinnerEach(c.contents)
    modifies c, c.queues.Values, Queued(c.contents)
    ensures c.Valid() && OneWinnerEach(c.contents)
    ensures c.queues == old(c.queues)
    ensures forall p :: p in Queued(c.contents) ==> p in old(Queued(c.contents))
    ensures Happened(Event.Turn(base, e), old(c.contents), c.contents)
    ensures forall b :: b != base ==> c.Tasks(b) == old(c.Tasks(b))
    ensures base in c.queues ==>
      && At(c.contents, base) == View(c.queues[base])
      && Stepped(e, old(c.queues[base].Holding()), c.queues[base].Holding())
  {
    hide Holds;
    hide OneWinnerEach;
    ghost var before := c.contents;
    QueuedAre(before);
    if base in c.queues {
      c.Turn(base, e);
      QueuedShrinks(before, c.contents);
    }
  }

  /** The periodic trigger. */
  method Trigger(c: Coordinator, base: Branch)
    requires c.Valid() && OneWinnerEach(c.contents)
    modifies c, c.queues.Values
    ensures c.Valid() && OneWinnerEach(c.contents)
    ensures forall q :: q in c.queues.Values ==> q in old(c.queues.Values)
    ensures forall p :: p in Queued(c.contents) ==> p in old(Queued(c.contents))
    ensures Happened(Tick(base), old(c.contents), c.contents)
    ensures forall b :: b != base ==> c.Tasks(b) == old(c.Tasks(b))
    ensures Line(c.contents, base) != [] ==>
      c.Tasks(base) == old(c.Tasks(base)) + [QueuedTask(Line(c.contents, base)[0].number, P.TaskNone)]
  {
    hide Holds;
    if base in c.queues {
      ghost var before := c.contents;
      c.PeriodicTrigger(base);
      QueuedShrinks(before, c.contents);
      hide OneWinner;
    }
  }

  /** What the invariants say of a queue, field by field. */
  lemma QueueMeaning(q: Queue, c: Content)
    requires Holds(q, c) && OneWinner(c)
    ensures q.activeGauge == |q.active| && q.suspendedGauge == |q.suspended|
    ensures forall i, j :: 0 <= i < j < |q.active| ==> q.active[i].number != q.active[j].number
    ensures forall i :: 0 <= i < |q.active| ==> q.active[i].number !in q.suspended
    ensures forall i :: 1 <= i < |q.active| ==>
              !q.active[i].hasHeadLabel && !q.active[i].lastReported.SuccessFor?
    ensures forall n :: n in q.suspended ==>
              !q.suspended[n].hasHeadLabel && !q.suspended[n].lastReported.SuccessFor?
  {
    forall i, j | 0 <= i < j < |q.active|
      ensures q.active[i].number != q.active[j].number
    {
      assert Numbers(q.active)[i] != Numbers(q.active)[j];
    }
    assert forall i :: 1 <= i < |q.active| ==> !c.active[i].Winner();
  }

  /**
   From start-up on: whatever GitHub lists and whatever happens afterwards, every
   queue has at most one pull request that GitHub may merge, its first active one.
   */
  method Run(cfg: Sync.Config, listing: seq<Sync.GithubPR>, clock: nat -> int, statusOk: int -> bool,
             events: seq<Event>)
    returns (c: Coordinator)
    ensures c.Valid() && OneWinnerEach(c.contents)
    ensures forall b :: b in c.queues ==>
      var q := c.queues[b];
      && q.activeGauge == |q.active| && q.suspendedGauge == |q.suspended|
      && (forall i, j :: 0 <= i < j < |q.active| ==> q.active[i].number != q.active[j].number)
      && (forall i :: 0 <= i < |q.active| ==> q.active[i].number !in q.suspended)
      && (forall i :: 1 <= i < |q.active| ==> !q.active[i].hasHeadLabel && !q.active[i].lastReported.SuccessFor?)
      && (forall n :: n in q.suspended ==>
            !q.suspended[n].hasHeadLabel && !q.suspended[n].lastReported.SuccessFor?)
  {
    c := After(cfg, listing, clock, statusOk, events);
    forall b | b in c.queues
      ensures Holds(c.queues[b], c.contents[b]) && OneWinner(c.contents[b])
    {
      assert b in c.contents;
    }
    hide OneWinnerEach;
    hide Holds;
    hide OneWinner;
    forall b | b in c.queues {
      QueueMeaning(c.queues[b], c.contents[b]);
    }
  }

  /** The start-up and the events after it. */
  method After(cfg: Sync.Config, listing: seq<Sync.GithubPR>, clock: nat -> int, statusOk: int -> bool,
               events: seq<Event>)
    returns (c: Coordinator)
    ensures c.Valid() && OneWinnerEach(c.contents)
  {
    hide Holds;
    hide OneWinnerEach;
    c := new Coordinator();
    var _, _, _ := Sync.Synchronise(c, cfg, listing, clock, statusOk);
    QueuedAre(c.contents);
    hide Queued;
    for i := 0 to |events|
      invariant fresh(c) && c.Valid() && OneWinnerEach(c.contents)
      invariant forall q :: q in c.queues.Values ==> fresh(q)
      invariant forall p :: p in Queued(c.contents) ==> fresh(p)
    {
      Handle(c, events[i]);
    }
  }
}
