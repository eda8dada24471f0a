/**
 The merge queue of one base branch, with every method taken as one step.

 What happens between the steps of a method is the subject of QueueProtocol.
 The active queue is the sequence that module OrderedMap shows its map to be.
 */
module MergeQueue {
  import opened LinkedList
  import opened PullRequests
  import OrderedMap
  import ActiveQueueOrder
  import Order = PullRequestOrder
  import P = ProcessPR

  datatype QueuedTask = QueuedTask(number: int, task: P.Task)

  /** What can happen to a queue, but for its Enqueue and Dequeue: each method or task is one step. */
  datatype Event =
    | Resume(number: int, now: int)
    | ResumeAll(now: int)
    | Sort(now: int)
    | Prioritize(number: int, priority: int)
    | Pause
    | Unpause
    | Schedule(task: P.Task)
    | Work(world: P.World, callsOk: nat -> bool)    // the outcome of every call of the run

  /** What GitHub has been told about a pull request. */
  datatype Seen = Seen(hasHeadLabel: bool, lastReported: Reported)

  function SeenOf(pr: PullRequest): Seen
    reads pr
  {
    Seen(pr.hasHeadLabel, pr.lastReported)
  }

  /** What an effect of a run, whose call succeeds or not, makes of that. */
  function AfterEffect(v: Seen, e: P.Effect, callOk: bool): Seen {
    match e
    case HeadLabelAdded => v.(hasHeadLabel := v.hasHeadLabel || callOk)
    case SuccessReported(commit) => if callOk then v.(lastReported := SuccessFor(commit)) else v
    case SuspendTried(_) => Seen(false, PendingFor(""))
    case DequeueTried(_) => v.(hasHeadLabel := false)
    case _ => v
  }

  /** The same for the first n effects of a run. */
  function AfterEffects(v: Seen, effects: seq<P.Effect>, n: nat, callsOk: nat -> bool): Seen
    requires n <= |effects|
  {
    if n == 0 then v else AfterEffect(AfterEffects(v, effects, n - 1, callsOk), effects[n - 1], callsOk(n - 1))
  }

  /** processPR is queued for whoever is first. */
  function ForNewFirst(active: seq<PullRequest>, task: P.Task): seq<QueuedTask> {
    if active == [] then [] else [QueuedTask(active[0].number, task)]
  }

  /** The first n effects of a run end with a suspend. */
  predicate EndsSuspended(effects: seq<P.Effect>, n: nat)
    requires n <= |effects|
  {
    n > 0 && effects[n - 1].SuspendTried?
  }

  function NewFirst(active: seq<PullRequest>): PullRequest? {
    if active == [] then null else active[0]
  }

  /** Of the others in line at most one is changed, and that only in its head label. */
  twostate predicate OthersStay(line: seq<PullRequest>, n: int, relabelled: PullRequest?)
    reads line
  {
    forall p :: p in line && p.number != n ==>
      && p.lastReported == old(p.lastReported) && p.suspendCount == old(p.suspendCount)
      && p.ciTriggeredCommit == old(p.ciTriggeredCommit) && p.lastStartedCIBuilds == old(p.lastStartedCIBuilds)
      && (p == relabelled || p.hasHeadLabel == old(p.hasHeadLabel))
  }

  function Numbers(s: seq<PullRequest>): (r: seq<int>)
    ensures |r| == |s| && forall i :: 0 <= i < |s| ==> r[i] == s[i].number
  {
    seq(|s|, i requires 0 <= i < |s| => s[i].number)
  }

  function Snapshots(s: seq<PullRequest>): (r: seq<Order.PR>)
    reads s
    ensures |r| == |s| && forall i :: 0 <= i < |s| ==> r[i] == s[i].Snapshot()
  {
    seq(|s|, i requires 0 <= i < |s| reads s => s[i].Snapshot())
  }

  class Queue {
    var active: seq<PullRequest>
    var suspended: map<int, PullRequest>
    var activeGauge: int
    var suspendedGauge: int
    var paused: bool
    var tasks: seq<QueuedTask>

    ghost predicate Valid()
      reads this
    {
      && Distinct(Numbers(active))
      && (forall n :: n in suspended ==> suspended[n].number == n)
      && (forall i :: 0 <= i < |active| ==> active[i].number !in suspended)
    }

    ghost function Members(): set<PullRequest>
      reads this
    {
      (set p | p in active) + suspended.Values
    }

    /** IsEmpty. */
    predicate Empty()
      reads this
    {
      |active| == 0 && |suspended| == 0
    }

    ghost predicate GaugesRight()
      reads this
    {
      activeGauge == |active| && suspendedGauge == |suspended|
    }

    /** The queue has a pull request with the number. */
    ghost predicate Knows(n: int)
      reads this
    {
      n in suspended || n in Numbers(active)
    }

    /** The numbers the queue has. */
    ghost function Known(): (known: set<int>)
      reads this
      ensures forall n :: n in known <==> Knows(n)
    {
      suspended.Keys + set i | 0 <= i < |active| :: active[i].number
    }

    /** At most one pull request may be merged by GitHub, and it is the first active one. */
    ghost predicate OneWinner()
      reads this, active, suspended.Values
    {
      && !WinnerBehind(active)
      && (forall n :: n in suspended ==> !suspended[n].Winner())
    }

    constructor ()
      ensures Valid() && GaugesRight() && OneWinner()
      ensures active == [] && suspended == map[] && tasks == [] && !paused
    {
      active, suspended := [], map[];
      activeGauge, suspendedGauge := 0, 0;
      paused, tasks := false, [];
    }

    /** The index of the pull request with the number, or the length of the active queue. */
    method Find(n: int) returns (i: nat)
      ensures i <= |active|
      ensures i < |active| ==> active[i].number == n
      ensures i == |active| ==> n !in Numbers(active)
    {
      i := 0;
      while i < |active|
        invariant i <= |active|
        invariant forall j :: 0 <= j < i ==> active[j].number != n
      {
        if active[i].number == n {
          return;
        }
        i := i + 1;
      }
    }

    method ScheduleProcessPR(pr: PullRequest, task: P.Task)
      modifies this`tasks
      ensures tasks == old(tasks) + [QueuedTask(pr.number, task)]
    {
      tasks := tasks + [QueuedTask(pr.number, task)];
    }

    /** _enqueueActive. */
    method EnqueueActive(pr: PullRequest, now: int) returns (added: bool)
      requires Valid() && pr.number !in suspended
      modifies this`active, this`activeGauge, this`tasks, pr`activeSince
      ensures Valid() && pr.activeSince == Order.At(now)
      ensures added <==> pr.number !in Numbers(old(active))
      ensures !added ==> active == old(active) && activeGauge == old(activeGauge) && tasks == old(tasks)
      ensures added ==>
        && active ==
           InsertAt(old(active), OrderedMap.Place(old(Snapshots(active)), pr.Snapshot(), Order.OrderAt(now)), pr)
        && activeGauge == old(activeGauge) + 1
        && tasks == old(tasks) + if old(active) == [] then [QueuedTask(pr.number, P.TaskTriggerCI)] else []
    {
      ghost var before := Snapshots(active);
      pr.activeSince := Order.At(now);
      var i := Find(pr.number);
      if i < |active| {
        assert Numbers(active)[i] == pr.number;
        return false;
      }
      assert Snapshots(active) == before;
      var p := OrderedMap.Place(Snapshots(active), pr.Snapshot(), Order.OrderAt(now));
      ghost var numbers := Numbers(active);
      DistinctInsert(numbers, p, pr.number);
      active := InsertAt(active, p, pr);
      assert Numbers(active) == InsertAt(numbers, p, pr.number);
      activeGauge := activeGauge + 1;
      if |active| == 1 {
        ScheduleProcessPR(pr, P.TaskTriggerCI);
      }
      added := true;
    }

    /** Enqueue: fails when the queue already has the number. */
    method Enqueue(pr: PullRequest, now: int) returns (ok: bool)
      requires Valid()
      modifies this`active, this`activeGauge, this`tasks, pr`activeSince
      ensures Valid() && (old(GaugesRight()) ==> GaugesRight())
      ensures ok <==> !old(Knows(pr.number))
      ensures !ok ==> active == old(active) && tasks == old(tasks)
      ensures ok ==>
        && active ==
           InsertAt(old(active), OrderedMap.Place(old(Snapshots(active)), pr.Snapshot(), Order.OrderAt(now)), pr)
        && tasks == old(tasks) + if old(active) == [] then [QueuedTask(pr.number, P.TaskTriggerCI)] else []
      ensures pr.activeSince == if pr.number in old(suspended) then old(pr.activeSince) else Order.At(now)
      ensures forall n :: Knows(n) <==> old(Knows(n)) || n == pr.number
      ensures old(OneWinner()) && (ok && old(active) != [] ==> !pr.Winner()) ==> OneWinner()
    {
      if pr.number in suspended {
        return false;
      }
      ok := EnqueueActive(pr, now);
      assert ok ==> forall n :: n in Numbers(active) <==> n in Numbers(old(active)) || n == pr.number by {
        if ok {
          NumbersInsert(old(active), OrderedMap.Place(old(Snapshots(active)), pr.Snapshot(), Order.OrderAt(now)), pr);
        }
      }
    }

    /** _dequeueSuspended. */
    method DequeueSuspended(n: int) returns (pr: PullRequest?)
      requires Valid()
      modifies this`suspended, this`suspendedGauge
      ensures Valid() && suspended == old(suspended) - {n}
      ensures pr == if n in old(suspended) then old(suspended)[n] else null
      ensures old(GaugesRight()) ==> GaugesRight()
    {
      if n !in suspended {
        assert suspended - {n} == suspended;
        return null;
      }
      pr := suspended[n];
      suspended := suspended - {n};
      suspendedGauge := suspendedGauge - 1;
      assert suspended.Keys == old(suspended).Keys - {n};
    }

    /** _dequeueActive: also tells which pull request became first by this. */
    method DequeueActive(n: int) returns (removed: PullRequest?, newFirst: PullRequest?)
      requires Valid()
      modifies this`active, this`activeGauge
      ensures Valid()
      ensures n !in Numbers(old(active)) ==>
        active == old(active) && activeGauge == old(activeGauge) && removed == null && newFirst == null
      ensures n in Numbers(old(active)) ==>
        var i := Index(Numbers(old(active)), n);
        && removed == old(active)[i]
        && active == RemoveAt(old(active), i)
        && activeGauge == old(activeGauge) - 1
        && newFirst == (if i == 0 && active != [] then active[0] else null)
    {
      var i := Find(n);
      if i == |active| {
        return null, null;
      }
      ghost var numbers := Numbers(active);
      assert Index(numbers, n) == i;
      DistinctRemove(numbers, i);
      removed := active[i];
      active := RemoveAt(active, i);
      assert Numbers(active) == RemoveAt(numbers, i);
      activeGauge := activeGauge - 1;
      newFirst := if i == 0 && active != [] then active[0] else null;
    }

    /**
     Dequeue.  The label of the removed pull request goes; its pending status is
     reported on request; a new first one is labeled and scheduled.
     */
    method Dequeue(n: int, setPending: bool, pendingOk: bool, labelOk: bool) returns (removed: PullRequest?)
      requires Valid()
      modifies this`active, this`suspended, this`activeGauge, this`suspendedGauge, this`tasks
      modifies active`hasHeadLabel, active`lastReported
      ensures Valid() && (old(GaugesRight()) ==> GaugesRight())
      ensures removed != null <==> old(Knows(n))
      ensures removed != null ==> removed.number == n
      ensures forall p :: p in old(active) && p.number != n ==>
        && ((active != [] && p == active[0] != old(active)[0]) || p.hasHeadLabel == old(p.hasHeadLabel))
        && p.lastReported == old(p.lastReported)
      ensures forall m :: Knows(m) <==> old(Knows(m)) && m != n
      ensures n in old(suspended) ==> removed == old(suspended)[n]
      ensures suspended == old(suspended) - {n}
      ensures n !in Numbers(old(active)) ==> active == old(active) && tasks == old(tasks)
      ensures n in Numbers(old(active)) ==>
        var i := Index(Numbers(old(active)), n);
        && removed == old(active)[i] && active == RemoveAt(old(active), i)
        && !removed.hasHeadLabel
        && removed.lastReported == (if setPending && pendingOk then PendingFor("") else old(active[i].lastReported))
        && (i == 0 && active != [] ==> active[0].hasHeadLabel == (old(active[1].hasHeadLabel) || labelOk))
        && tasks == old(tasks) + if i == 0 && active != [] then [QueuedTask(active[0].number, P.TaskNone)] else []
      ensures old(OneWinner()) ==> OneWinner()
    {
      removed := DequeueSuspended(n);
      if removed != null {
        assert n !in Numbers(active);
        return;
      }
      removed := DequeueFromActive(n, setPending, pendingOk, labelOk);
    }

    /** Dequeue, of a number that is not suspended. */
    method DequeueFromActive(n: int, setPending: bool, pendingOk: bool, labelOk: bool) returns (removed: PullRequest?)
      requires Valid() && n !in suspended
      modifies this`active, this`activeGauge, this`tasks
      modifies active`hasHeadLabel, active`lastReported
      ensures Valid() && (old(GaugesRight()) ==> GaugesRight())
      ensures n !in Numbers(old(active)) ==> removed == null && active == old(active) && tasks == old(tasks)
      ensures n in Numbers(old(active)) ==>
        var i := Index(Numbers(old(active)), n);
        && removed == old(active)[i] && active == RemoveAt(old(active), i)
        && !removed.hasHeadLabel
        && removed.lastReported == (if setPending && pendingOk then PendingFor("") else old(active[i].lastReported))
        && (i == 0 && active != [] ==> active[0].hasHeadLabel == (old(active[1].hasHeadLabel) || labelOk))
        && tasks == old(tasks) + if i == 0 && active != [] then [QueuedTask(active[0].number, P.TaskNone)] else []
      ensures forall p :: p in old(active) && p.number != n ==>
        && ((active != [] && p == active[0] != old(active)[0]) || p.hasHeadLabel == old(p.hasHeadLabel))
        && p.lastReported == old(p.lastReported)
      ensures forall m :: m in Numbers(active) <==> m in Numbers(old(active)) && m != n
      ensures old(OneWinner()) ==> OneWinner()
    {
      ghost var i := if n in Numbers(active) then Index(Numbers(active), n) else 0;
      var newFirst: PullRequest?;
      removed, newFirst := DequeueActive(n);
      if removed == null {
        return;
      }
      KnowsAfterRemove(old(active), i);
      assert old(OneWinner()) ==> OneWinner();
      HandOver(removed, newFirst, setPending, pendingOk, labelOk);
    }

    /** What Dequeue does after its critical section. */
    method HandOver(removed: PullRequest, newFirst: PullRequest?, setPending: bool, pendingOk: bool, labelOk: bool)
      requires removed != newFirst
      modifies this`tasks, removed`hasHeadLabel, removed`lastReported
      modifies if newFirst == null then {} else {newFirst}`hasHeadLabel
      ensures !removed.hasHeadLabel
      ensures removed.lastReported == if setPending && pendingOk then PendingFor("") else old(removed.lastReported)
      ensures newFirst != null ==> newFirst.hasHeadLabel == (old(newFirst.hasHeadLabel) || labelOk)
      ensures tasks == old(tasks) + if newFirst == null then [] else [QueuedTask(newFirst.number, P.TaskNone)]
    {
      removed.RemoveHeadLabel();
      if setPending {
        var _ := removed.Report(PendingFor(""), pendingOk);
      }
      if newFirst != null {
        var _ := newFirst.AddHeadLabel(labelOk);
        ScheduleProcessPR(newFirst, P.TaskNone);
      }
    }

    /**
     suspend: an active pull request becomes a suspended one.  Its label goes, its
     pending status is reported, a new first one is scheduled with CI.
     */
    method Suspend(n: int, pendingOk: bool) returns (found: bool)
      requires Valid()
      modifies this`active, this`suspended, this`activeGauge, this`suspendedGauge, this`tasks
      modifies active`hasHeadLabel, active`lastReported, active`suspendCount, active`ciTriggeredCommit
      ensures Valid() && (old(GaugesRight()) ==> GaugesRight())
      ensures found <==> n in Numbers(old(active))
      ensures !found ==> active == old(active) && suspended == old(suspended) && tasks == old(tasks)
      ensures found ==>
        var i := Index(Numbers(old(active)), n);
        var pr := old(active)[i];
        && active == RemoveAt(old(active), i) && suspended == old(suspended)[n := pr]
        && pr.suspendCount == old(pr.suspendCount) + 1 && pr.ciTriggeredCommit == "" && !pr.hasHeadLabel
        && pr.lastReported == (if pendingOk then PendingFor("") else old(pr.lastReported))
        && tasks == old(tasks) + if i == 0 && active != [] then [QueuedTask(active[0].number, P.TaskTriggerCI)] else []
      ensures forall p :: p in old(active) && p.number != n ==> unchanged(p)
      ensures forall m :: Knows(m) <==> old(Knows(m))
      ensures old(OneWinner()) ==>
        (OneWinner() <==>
          found && !pendingOk ==> !old(active[Index(Numbers(active), n)].lastReported.SuccessFor?))
    {
      var i := Find(n);
      if i == |active| {
        return false;
      }
      assert Numbers(active)[i] == n && Index(Numbers(active), n) == i;
      SuspendAt(i, pendingOk);
      found := true;
    }

    /** suspend, of the i-th active pull request. */
    method SuspendAt(i: nat, pendingOk: bool)
      requires Valid() && i < |active|
      modifies this`active, this`suspended, this`activeGauge, this`suspendedGauge, this`tasks
      modifies {active[i]}`hasHeadLabel, {active[i]}`lastReported, {active[i]}`suspendCount,
               {active[i]}`ciTriggeredCommit
      ensures Valid() && (old(GaugesRight()) ==> GaugesRight())
      ensures
        var pr := old(active)[i];
        && active == RemoveAt(old(active), i) && suspended == old(suspended)[pr.number := pr]
        && pr.suspendCount == old(pr.suspendCount) + 1 && pr.ciTriggeredCommit == "" && !pr.hasHeadLabel
        && pr.lastReported == (if pendingOk then PendingFor("") else old(pr.lastReported))
        && tasks == old(tasks) + if i == 0 && active != [] then [QueuedTask(active[0].number, P.TaskTriggerCI)] else []
      ensures forall p :: p in old(active) && p.number != old(active)[i].number ==> unchanged(p)
      ensures forall m :: Knows(m) <==> old(Knows(m))
      ensures old(OneWinner()) ==>
        (OneWinner() <==> pendingOk || !old(active[i].lastReported.SuccessFor?))
    {
      var pr, newFirst := MoveToSuspended(i);
      assert suspended[pr.number] == pr;
      hide RemoveAt;
      hide Distinct;
      MarkSuspended(pr, pendingOk);
      if newFirst != null {
        ScheduleProcessPR(newFirst, P.TaskTriggerCI);
      }
    }

    /** The i-th active pull request becomes a suspended one. */
    method MoveToSuspended(i: nat) returns (pr: PullRequest, newFirst: PullRequest?)
      requires Valid() && i < |active|
      modifies this`active, this`suspended, this`activeGauge, this`suspendedGauge
      ensures Valid() && (old(GaugesRight()) ==> GaugesRight())
      ensures pr == old(active)[i] && active == RemoveAt(old(active), i) && suspended == old(suspended)[pr.number := pr]
      ensures newFirst == (if i == 0 && active != [] then active[0] else null)
      ensures forall m :: Knows(m) <==> old(Knows(m))
      ensures pr !in active && forall m :: m in suspended && m != pr.number ==> suspended[m] != pr
      ensures old(OneWinner()) ==>
        && !WinnerBehind(active) && (i > 0 ==> !pr.Winner())
        && forall m :: m in suspended && m != pr.number ==> !suspended[m].Winner()
    {
      var n := active[i].number;
      assert Numbers(active)[i] == n && Index(Numbers(active), n) == i;
      pr, newFirst := DequeueActive(n);
      KnowsAfterRemove(old(active), i);
      WinnersAfterRemove(old(active), i);
      hide RemoveAt;
      hide Index;
      hide WinnerBehind;
      hide Distinct;
      suspended := suspended[n := pr];
      suspendedGauge := suspendedGauge + 1;
      assert suspended.Keys == old(suspended).Keys + {n};
    }

    /** The fields of a pull request that suspend updates. */
    method MarkSuspended(pr: PullRequest, pendingOk: bool)
      modifies pr`suspendCount, pr`ciTriggeredCommit, pr`hasHeadLabel, pr`lastReported
      ensures pr.suspendCount == old(pr.suspendCount) + 1 && pr.ciTriggeredCommit == "" && !pr.hasHeadLabel
      ensures pr.lastReported == if pendingOk then PendingFor("") else old(pr.lastReported)
    {
      pr.suspendCount := pr.suspendCount + 1;
      pr.ciTriggeredCommit := "";
      pr.RemoveHeadLabel();
      var _ := pr.Report(PendingFor(""), pendingOk);
    }

    /** ResumePR: a suspended pull request becomes an active one again. */
    method ResumePR(n: int, now: int) returns (found: bool)
      requires Valid()
      modifies this`active, this`suspended, this`activeGauge, this`suspendedGauge, this`tasks
      modifies suspended.Values`activeSince
      ensures Valid() && (old(GaugesRight()) ==> GaugesRight())
      ensures found <==> n in old(suspended)
      ensures suspended == old(suspended) - {n}
      ensures !found ==> active == old(active) && tasks == old(tasks)
      ensures found ==>
        var pr := old(suspended)[n];
        && active ==
           InsertAt(old(active), OrderedMap.Place(old(Snapshots(active)), pr.Snapshot(), Order.OrderAt(now)), pr)
        && pr.activeSince == Order.At(now)
        && tasks == old(tasks) + if old(active) == [] then [QueuedTask(n, P.TaskTriggerCI)] else []
      ensures forall m :: m in suspended ==> unchanged(suspended[m])
      ensures forall m :: Knows(m) <==> old(Knows(m))
      ensures old(OneWinner()) ==> OneWinner()
    {
      found := n in suspended;
      if found {
        Reactivate(n, now);
      } else {
        assert suspended - {n} == suspended;
      }
    }

    /** A suspended pull request goes back to the active ones. */
    method Reactivate(n: int, now: int)
      requires Valid() && n in suspended
      modifies this`active, this`suspended, this`activeGauge, this`suspendedGauge, this`tasks
      modifies {suspended[n]}`activeSince
      ensures Valid() && (old(GaugesRight()) ==> GaugesRight())
      ensures suspended == old(suspended) - {n}
      ensures
        var pr := old(suspended)[n];
        && active ==
           InsertAt(old(active), OrderedMap.Place(old(Snapshots(active)), pr.Snapshot(), Order.OrderAt(now)), pr)
        && pr.activeSince == Order.At(now)
        && tasks == old(tasks) + if old(active) == [] then [QueuedTask(n, P.TaskTriggerCI)] else []
      ensures forall m :: Knows(m) <==> old(Knows(m))
      ensures old(OneWinner()) ==> OneWinner()
    {
      ghost var before := Snapshots(active);
      var pr := DequeueSuspended(n);
      assert n !in Numbers(active) && Snapshots(active) == before;
      assert old(OneWinner()) ==> OneWinner() && !pr.Winner();
      var _ := Enqueue(pr, now);
    }

    /** The same, in the terms in which it is repeated. */
    method ReactivateSome(n: int, now: int)
      requires Valid() && n in suspended
      modifies this`active, this`suspended, this`activeGauge, this`suspendedGauge, this`tasks
      modifies {suspended[n]}`activeSince
      ensures Valid() && (old(GaugesRight()) ==> GaugesRight())
      ensures suspended == old(suspended) - {n}
      ensures
        var pr, was := old(suspended)[n], old(active);
        && active == InsertAt(was, OrderedMap.Place(Snapshots(was), pr.Snapshot(), Order.OrderAt(now)), pr)
        && pr.activeSince == Order.At(now)
      ensures active != [] && (old(active) != [] ==> active[0] == old(active)[0])
      ensures tasks == old(tasks) + if old(active) == [] then [QueuedTask(active[0].number, P.TaskTriggerCI)] else []
      ensures forall m :: Knows(m) <==> old(Knows(m))
      ensures old(OneWinner()) ==> OneWinner()
    {
      assert suspended[n].number == n;
      hide Valid;
      hide OneWinner;
      hide GaugesRight;
      hide Knows;
      ghost var before := Snapshots(active);
      Reactivate(n, now);
      assert Snapshots(old(active)) == before;
      hide Snapshots;
    }

    /** ResumeAllPRs has resumed come of the pull requests was, behind those of line. */
    ghost predicate Midway(was: map<int, PullRequest>, line: seq<PullRequest>, come: seq<PullRequest>,
                           before: seq<QueuedTask>, now: int)
      reads this, line, come
    {
      && Valid() && Some(suspended, was)
      && (forall n :: n in was ==> was[n].number == n)
      && (forall i, n :: 0 <= i < |line| && n in was ==> line[i] != was[n])
      && Came(come, was, suspended.Keys, now)
      && active == AllPlaced(line, come, now)
      && TriggeredFirst(before, tasks, line, active)
    }

    lemma AtFirst(now: int)
      requires Valid()
      ensures Midway(suspended, active, [], tasks, now)
    {
      NonePlaced(active, now);
      NoneCame(suspended, now);
    }

    /** One of those that ResumeAllPRs resumes. */
    method ResumeNext(n: int, now: int, ghost was: map<int, PullRequest>, ghost line: seq<PullRequest>,
                      ghost come: seq<PullRequest>, ghost before: seq<QueuedTask>)
      requires n in suspended && Midway(was, line, come, before, now)
      modifies this`active, this`suspended, this`activeGauge, this`suspendedGauge, this`tasks
      modifies {suspended[n]}`activeSince
      ensures old(GaugesRight()) ==> GaugesRight()
      ensures suspended == old(suspended) - {n}
      ensures n in was && Midway(was, line, come + [was[n]], before, now)
      ensures forall m :: Knows(m) <==> old(Knows(m))
      ensures old(OneWinner()) ==> OneWinner()
    {
      hide Valid;
      hide OneWinner;
      hide GaugesRight;
      hide Knows;
      PlacedMembers(line, come, now);
      hide AllPlaced;
      ReactivateSome(n, now);
      assert AllPlaced(line, come, now) == old(AllPlaced(line, come, now));
      OnePlaced(line, come, was[n], now);
      OneComes(come, was, old(suspended).Keys, n, now);
    }

    /**
     ResumeAllPRs: afterwards nothing is suspended.  The suspended pull requests come
     one after the other, in some order, each to the place the order gives it then.
     */
    method ResumeAllPRs(now: int) returns (ghost come: seq<PullRequest>)
      requires Valid()
      modifies this`active, this`suspended, this`activeGauge, this`suspendedGauge, this`tasks
      modifies suspended.Values`activeSince
      ensures Valid() && (old(GaugesRight()) ==> GaugesRight())
      ensures suspended == map[]
      ensures OrderedMap.Lists(Numbers(come), old(suspended).Keys)
      ensures forall i :: 0 <= i < |come| ==>
        come[i].number in old(suspended) && come[i] == old(suspended)[come[i].number]
          && come[i].activeSince == Order.At(now)
      ensures active == AllPlaced(old(active), come, now)
      ensures forall m :: Knows(m) <==> old(Knows(m))
      ensures forall i :: 0 <= i < |active| ==> active[i] in old(Members())
      ensures |active| == |old(active)| + |come|
      ensures old(active) != [] ==> active != [] && active[0] == old(active)[0]
      ensures TriggeredFirst(old(tasks), tasks, old(active), active)
      ensures old(OneWinner()) ==> OneWinner()
    {
      ghost var was, line := suspended, active;
      hide Valid;
      hide Knows;
      hide OneWinner;
      hide GaugesRight;
      come := ResumeEach(now);
      AllCame(come, was, now);
      PlacedMembers(line, come, now);
      hide AllPlaced;
      forall i | 0 <= i < |active|
        ensures active[i] in old(Members())
      {
        assert active[i] in line || active[i] in come;
        if active[i] in come {
          var k := Index(come, active[i]);
          assert come[k] == was[come[k].number];
        }
      }
    }

    /** The loop of ResumeAllPRs. */
    method ResumeEach(now: int) returns (ghost come: seq<PullRequest>)
      requires Valid()
      modifies this`active, this`suspended, this`activeGauge, this`suspendedGauge, this`tasks
      modifies suspended.Values`activeSince
      ensures suspended == map[] && (old(GaugesRight()) ==> GaugesRight())
      ensures Midway(old(suspended), old(active), come, old(tasks), now)
      ensures forall m :: Knows(m) <==> old(Knows(m))
      ensures old(OneWinner()) ==> OneWinner()
    {
      hide OneWinner;
      hide GaugesRight;
      hide Knows;
      var left := suspended.Keys;
      come := [];
      AtFirst(now);
      hide Midway;
      while left != {}
        invariant old(GaugesRight()) ==> GaugesRight()
        invariant left == suspended.Keys && Some(suspended, old(suspended))
        invariant Midway(old(suspended), old(active), come, old(tasks), now)
        invariant forall m :: Knows(m) <==> old(Knows(m))
        invariant old(OneWinner()) ==> OneWinner()
        decreases left
      {
        var n := Pick(left);
        OneOfSome(suspended, old(suspended), n);
        ResumeNext(n, now, old(suspended), old(active), come, old(tasks));
        come := come + [old(suspended)[n]];
        left := left - {n};
      }
      assert suspended == map[];
    }

    /**
     SortActiveQueue: the pull requests behind the first one are put in order, as far
     as the library's sort does that for an order with circles.  The first one stays,
     and nothing else about the queue changes.
     */
    method SortActiveQueue(now: int)
      requires Valid()
      modifies this`active
      ensures Valid() && |active| == |old(active)|
      ensures old(active) != [] ==> active[0] == old(active)[0]
      ensures forall p :: p in active <==> p in old(active)
      ensures |active| <= OrderedMap.MAX_INSERTION || old(NoCircleBehind(active, now)) ==>
              NeighboursInOrder(active, now)
      ensures forall m :: Knows(m) <==> old(Knows(m))
      ensures old(OneWinner()) <==> OneWinner()
    {
      if active == [] {
        return;
      }
      var sorted := SortedBehindFirst(active, now);
      SameNumbers(active, sorted);
      SameWinners(active, sorted);
      forall i | 0 <= i < |sorted|
        ensures sorted[i].number !in suspended
      {
        assert sorted[i] in active;
        assert active[Index(active, sorted[i])].number !in suspended;
      }
      hide NoCircleBehind;
      hide NeighboursInOrder;
      hide WinnerBehind;
      active := sorted;
    }

    /** SetPullRequestPriority: of the pull request with the number and no other; the order stays as it is. */
    method SetPriority(n: int, priority: int) returns (found: bool)
      requires Valid()
      modifies active`priority, suspended.Values`priority
      ensures found <==> Knows(n)
      ensures forall i :: 0 <= i < |active| ==>
        active[i].priority == if active[i].number == n then priority else old(active[i].priority)
      ensures forall m :: m in suspended ==>
                suspended[m].priority == if m == n then priority else old(suspended[m].priority)
      ensures old(OneWinner()) <==> OneWinner()
    {
      assert forall i :: 0 <= i < |active| ==> Numbers(active)[i] == active[i].number;
      if n in suspended {
        suspended[n].priority := priority;
        return true;
      }
      var i := Find(n);
      if i == |active| {
        return false;
      }
      assert Numbers(active)[i] == n;
      active[i].priority := priority;
      found := true;
    }

    /** Pause; that it also cancels the running task is the subject of QueueProtocol. */
    method Pause()
      modifies this`paused
      ensures paused
    {
      paused := true;
    }

    /** Resume: the first pull request is processed again, with CI. */
    method Resume()
      modifies this`paused, this`tasks
      ensures !paused
      ensures tasks == old(tasks) + if active == [] then [] else [QueuedTask(active[0].number, P.TaskTriggerCI)]
    {
      paused := false;
      ScheduleFirst(P.TaskTriggerCI);
    }

    /** ScheduleProcessPR, for whoever is first. */
    method ScheduleFirst(task: P.Task)
      modifies this`tasks
      ensures tasks == old(tasks) + if active == [] then [] else [QueuedTask(active[0].number, task)]
    {
      if active != [] {
        ScheduleProcessPR(active[0], task);
      }
    }

    /** What a run that does not cancel itself does to GitHub's view of the first pull request. */
    method ApplyReport(pr: PullRequest, e: P.Effect, callOk: bool)
      modifies pr`hasHeadLabel, pr`lastReported
      ensures pr.hasHeadLabel == (old(pr.hasHeadLabel) || (e.HeadLabelAdded? && callOk))
      ensures pr.lastReported == if e.SuccessReported? && callOk then SuccessFor(e.commit) else old(pr.lastReported)
    {
      match e
      case HeadLabelAdded =>
        var _ := pr.AddHeadLabel(callOk);
      case SuccessReported(commit) =>
        var _ := pr.Report(SuccessFor(commit), callOk);
      case _ =>
    }

    /**
     The effects of a run for the first pull request, in order, on the queue.  A
     suspend or Dequeue comes last if at all, so up to it the pull request is first.
     */
    method ApplyEffects(pr: PullRequest, effects: seq<P.Effect>, callsOk: nat -> bool)
      requires Valid() && active != [] && active[0] == pr
      requires forall i :: 0 <= i < |effects| && P.Cancels(effects[i]) ==> i == |effects| - 1
      modifies this`active, this`suspended, this`activeGauge, this`suspendedGauge, this`tasks
      modifies active`hasHeadLabel, active`lastReported, active`suspendCount, active`ciTriggeredCommit
      ensures Valid() && (old(GaugesRight()) ==> GaugesRight())
      ensures old(OneWinner()) ==> OneWinner()
      ensures effects == [] || !P.Cancels(effects[|effects| - 1]) ==>
        active == old(active) && suspended == old(suspended) && tasks == old(tasks)
      ensures effects != [] && effects[|effects| - 1].SuspendTried? ==>
        && active == RemoveAt(old(active), 0) && suspended == old(suspended)[pr.number := pr]
        && tasks == old(tasks) + ForNewFirst(active, P.TaskTriggerCI)
      ensures effects != [] && effects[|effects| - 1].DequeueTried? ==>
        && active == RemoveAt(old(active), 0) && suspended == old(suspended)
        && tasks == old(tasks) + ForNewFirst(active, P.TaskNone)
      ensures pr.suspendCount == old(pr.suspendCount) + if EndsSuspended(effects, |effects|) then 1 else 0
      ensures pr.ciTriggeredCommit == if EndsSuspended(effects, |effects|) then "" else old(pr.ciTriggeredCommit)
      ensures SeenOf(pr) == AfterEffects(old(SeenOf(pr)), effects, |effects|, callsOk)
      ensures OthersStay(old(active), pr.number,
                         if effects != [] && effects[|effects| - 1].DequeueTried? then NewFirst(active) else null)
    {
      hide AfterEffect;
      hide RemoveAt;
      hide Valid;
      hide GaugesRight;
      hide OneWinner;
      for i := 0 to |effects|
        invariant Valid() && (old(GaugesRight()) ==> GaugesRight())
        invariant old(OneWinner()) ==> OneWinner()
        invariant i == 0 || !P.Cancels(effects[i - 1]) ==>
          active == old(active) && suspended == old(suspended) && tasks == old(tasks)
        invariant i > 0 && P.Cancels(effects[i - 1]) ==> i == |effects| && active == RemoveAt(old(active), 0)
        invariant i > 0 && effects[i - 1].SuspendTried? ==>
          suspended == old(suspended)[pr.number := pr] && tasks == old(tasks) + ForNewFirst(active, P.TaskTriggerCI)
        invariant i > 0 && effects[i - 1].DequeueTried? ==>
          suspended == old(suspended) && tasks == old(tasks) + ForNewFirst(active, P.TaskNone)
        invariant pr.suspendCount == old(pr.suspendCount) + if EndsSuspended(effects, i) then 1 else 0
        invariant pr.ciTriggeredCommit == if EndsSuspended(effects, i) then "" else old(pr.ciTriggeredCommit)
        invariant SeenOf(pr) == AfterEffects(old(SeenOf(pr)), effects, i, callsOk)
        invariant OthersStay(old(active), pr.number,
                             if i > 0 && effects[i - 1].DequeueTried? then NewFirst(active) else null)
      {
        assert i > 0 ==> !P.Cancels(effects[i - 1]);
        ApplyEffect(pr, effects[i], callsOk(i));
      }
    }

    /** One effect of a run on the queue. */
    method ApplyEffect(pr: PullRequest, e: P.Effect, callOk: bool)
      requires Valid() && active != [] && active[0] == pr
      modifies this`active, this`suspended, this`activeGauge, this`suspendedGauge, this`tasks
      modifies active`hasHeadLabel, active`lastReported, active`suspendCount, active`ciTriggeredCommit
      ensures Valid() && (old(GaugesRight()) ==> GaugesRight())
      ensures old(OneWinner()) ==> OneWinner()
      ensures !P.Cancels(e) ==> active == old(active) && suspended == old(suspended) && tasks == old(tasks)
      ensures P.Cancels(e) ==> active == RemoveAt(old(active), 0)
      ensures e.SuspendTried? ==>
        suspended == old(suspended)[pr.number := pr] && tasks == old(tasks) + ForNewFirst(active, P.TaskTriggerCI)
      ensures e.DequeueTried? ==>
        suspended == old(suspended) && tasks == old(tasks) + ForNewFirst(active, P.TaskNone)
      ensures SeenOf(pr) == AfterEffect(old(SeenOf(pr)), e, callOk)
      ensures pr.suspendCount == old(pr.suspendCount) + if e.SuspendTried? then 1 else 0
      ensures pr.ciTriggeredCommit == if e.SuspendTried? then "" else old(pr.ciTriggeredCommit)
      ensures OthersStay(old(active), pr.number, if e.DequeueTried? then NewFirst(active) else null)
    {
      assert forall i :: 1 <= i < |active| ==> Numbers(active)[i] != Numbers(active)[0];
      hide RemoveAt;
      match e
      case SuspendTried(_) => SuspendFirst(pr);
      case DequeueTried(_) => DequeueFirst(pr, callOk);
      case _ => ApplyReport(pr, e, callOk);
    }

    method SuspendFirst(pr: PullRequest)
      requires Valid() && active != [] && active[0] == pr
      modifies this`active, this`suspended, this`activeGauge, this`suspendedGauge, this`tasks
      modifies active`hasHeadLabel, active`lastReported, active`suspendCount, active`ciTriggeredCommit
      ensures Valid() && (old(GaugesRight()) ==> GaugesRight())
      ensures old(OneWinner()) ==> OneWinner()
      ensures active == RemoveAt(old(active), 0) && suspended == old(suspended)[pr.number := pr]
      ensures tasks == old(tasks) + ForNewFirst(active, P.TaskTriggerCI)
      ensures SeenOf(pr) == Seen(false, PendingFor("")) && OthersStay(old(active), pr.number, null)
      ensures pr.suspendCount == old(pr.suspendCount) + 1 && pr.ciTriggeredCommit == ""
    {
      FirstIndex(active);
      hide Index;
      hide OneWinner;
      hide Valid;
      hide RemoveAt;
      hide Knows;
      hide GaugesRight;
      var _ := Suspend(pr.number, true);
    }

    method DequeueFirst(pr: PullRequest, callOk: bool)
      requires Valid() && active != [] && active[0] == pr
      modifies this`active, this`suspended, this`activeGauge, this`suspendedGauge, this`tasks
      modifies active`hasHeadLabel, active`lastReported
      ensures Valid() && (old(GaugesRight()) ==> GaugesRight())
      ensures old(OneWinner()) ==> OneWinner()
      ensures active == RemoveAt(old(active), 0) && suspended == old(suspended)
      ensures tasks == old(tasks) + ForNewFirst(active, P.TaskNone)
      ensures SeenOf(pr) == Seen(false, old(pr.lastReported)) && OthersStay(old(active), pr.number, NewFirst(active))
    {
      FirstIndex(active);
      assert suspended - {pr.number} == suspended;
      hide Index;
      hide OneWinner;
      hide Valid;
      hide RemoveAt;
      hide Knows;
      hide GaugesRight;
      var _ := Dequeue(pr.number, false, true, callOk);
    }

    /**
     The worker takes the next task and runs processPR.  Reports of the pending
     status succeed; of the other calls each may fail or not, as callsOk says.
     */
    method RunTask(w: P.World, callsOk: nat -> bool) returns (ghost ran: seq<P.Effect>)
      requires Valid() && tasks != []
      modifies this`active, this`suspended, this`activeGauge, this`suspendedGauge, this`tasks
      modifies active`hasHeadLabel, active`lastReported, active`suspendCount, active`ciTriggeredCommit,
               active`lastStartedCIBuilds
      ensures Valid() && (old(GaugesRight()) ==> GaugesRight())
      ensures old(OneWinner()) ==> OneWinner()
      ensures old(active) == [] || old(active)[0].number != old(tasks)[0].number ==> ran == []
      ensures old(active) != [] && old(active)[0].number == old(tasks)[0].number ==>
        P.RunResult(ran, P.Remembers(old(active)[0])) ==
        P.RunOf(w.(paused := old(paused), first := true, suspendOk := true, dequeueOk := true),
                old(tasks)[0].task, old(P.Remembers(active[0])))
      ensures ran == [] && old(active) != [] && old(active)[0].number != old(tasks)[0].number ==>
        P.Remembers(old(active)[0]) == old(P.Remembers(active[0]))
      ensures ran == [] || !P.Cancels(ran[|ran| - 1]) ==>
        active == old(active) && suspended == old(suspended) && tasks == old(tasks)[1..]
      ensures ran != [] && P.Cancels(ran[|ran| - 1]) ==> old(active) != [] && active == RemoveAt(old(active), 0)
      ensures ran != [] && ran[|ran| - 1].SuspendTried? ==>
        && suspended == old(suspended)[old(active)[0].number := old(active)[0]]
        && tasks == old(tasks)[1..] + ForNewFirst(active, P.TaskTriggerCI)
      ensures ran != [] && ran[|ran| - 1].DequeueTried? ==>
        suspended == old(suspended) && tasks == old(tasks)[1..] + ForNewFirst(active, P.TaskNone)
      ensures old(active) != [] ==>
        old(active)[0].suspendCount == old(active[0].suspendCount) + if EndsSuspended(ran, |ran|) then 1 else 0
      ensures old(active) != [] ==> SeenOf(old(active)[0]) == AfterEffects(old(SeenOf(active[0])), ran, |ran|, callsOk)
      ensures old(active) != [] ==>
        OthersStay(old(active), old(active)[0].number,
                   if ran != [] && ran[|ran| - 1].DequeueTried? then NewFirst(active) else null)
    {
      hide P.RunOf;
      hide Distinct;
      hide RemoveAt;
      hide AfterEffect;
      ran := [];
      var t := tasks[0];
      tasks := tasks[1..];
      assert Valid() && (old(GaugesRight()) ==> GaugesRight()) && (old(OneWinner()) ==> OneWinner());
      hide Valid;
      hide GaugesRight;
      hide OneWinner;
      if active != [] && active[0].number == t.number {
        ran := RunFirst(w, t.task, callsOk);
      }
    }

    /** processPR, for the first pull request. */
    method RunFirst(w: P.World, task: P.Task, callsOk: nat -> bool) returns (ghost ran: seq<P.Effect>)
      requires Valid() && active != []
      modifies this`active, this`suspended, this`activeGauge, this`suspendedGauge, this`tasks
      modifies active`hasHeadLabel, active`lastReported, active`suspendCount, active`ciTriggeredCommit,
               active`lastStartedCIBuilds
      ensures Valid() && (old(GaugesRight()) ==> GaugesRight())
      ensures old(OneWinner()) ==> OneWinner()
      ensures P.RunResult(ran, P.Remembers(old(active)[0])) ==
        P.RunOf(w.(paused := old(paused), first := true, suspendOk := true, dequeueOk := true),
                task, old(P.Remembers(active[0])))
      ensures ran == [] || !P.Cancels(ran[|ran| - 1]) ==>
        active == old(active) && suspended == old(suspended) && tasks == old(tasks)
      ensures ran != [] && P.Cancels(ran[|ran| - 1]) ==> active == RemoveAt(old(active), 0)
      ensures ran != [] && ran[|ran| - 1].SuspendTried? ==>
        && suspended == old(suspended)[old(active)[0].number := old(active)[0]]
        && tasks == old(tasks) + ForNewFirst(active, P.TaskTriggerCI)
      ensures ran != [] && ran[|ran| - 1].DequeueTried? ==>
        suspended == old(suspended) && tasks == old(tasks) + ForNewFirst(active, P.TaskNone)
      ensures old(active)[0].suspendCount == old(active[0].suspendCount) + if EndsSuspended(ran, |ran|) then 1 else 0
      ensures SeenOf(old(active)[0]) == AfterEffects(old(SeenOf(active[0])), ran, |ran|, callsOk)
      ensures OthersStay(old(active), old(active)[0].number,
                         if ran != [] && ran[|ran| - 1].DequeueTried? then NewFirst(active) else null)
    {
      hide P.RunOf;
      hide Distinct;
      hide RemoveAt;
      hide AfterEffects;
      var pr := active[0];
      var effects := EffectsOf(pr, w.(paused := paused, first := true, suspendOk := true, dequeueOk := true), task);
      ran := effects;
      ApplyEffects(pr, effects, callsOk);
    }

    /** What processPR does for a pull request, a suspend or Dequeue at most at the end. */
    method EffectsOf(pr: PullRequest, w: P.World, task: P.Task) returns (effects: seq<P.Effect>)
      modifies pr`ciTriggeredCommit, pr`lastStartedCIBuilds
      ensures P.RunResult(effects, P.Remembers(pr)) == P.RunOf(w, task, old(P.Remembers(pr)))
      ensures forall i :: 0 <= i < |effects| && P.Cancels(effects[i]) ==> i == |effects| - 1
      ensures w.suspendOk && EndsSuspended(effects, |effects|) ==> pr.ciTriggeredCommit == ""
    {
      hide P.RunOf;
      ghost var memory := P.Remembers(pr);
      effects := P.Process(pr, w, task);
      if w.suspendOk && EndsSuspended(effects, |effects|) {
        SuspendForgets(effects, w, task, memory);
      }
      forall i | 0 <= i < |effects| && P.Cancels(effects[i])
        ensures i == |effects| - 1
      {
        P.NothingAfterCancel(w, task, memory, i);
      }
    }

    lemma SuspendForgets(effects: seq<P.Effect>, w: P.World, task: P.Task, memory: P.Memory)
      requires effects == P.RunOf(w, task, memory).effects && w.suspendOk && EndsSuspended(effects, |effects|)
      ensures P.RunOf(w, task, memory).memory.triggeredCommit == ""
    {
      var e := effects[|effects| - 1];
      assert e in effects;
      P.SuspendExactly(w, task, memory, e.ok);
      P.RunMemory(w, task, memory);
      hide P.RunOf;
      hide P.MustSuspend;
    }

    /** One step of whoever uses the queue. */
    method Step(e: Event)
      requires Valid()
      modifies this, Members()
      ensures Valid() && (old(GaugesRight()) ==> GaugesRight())
      ensures old(OneWinner()) ==> OneWinner()
      ensures forall p :: p in Members() ==> p in old(Members())
      ensures Stepped(e, old(Holding()), Holding())
    {
      match e
      case Work(w, callsOk) => Run(w, callsOk);
      case Resume(n, now) => Return(n, now);
      case ResumeAll(now) => ReturnAll(now);
      case Sort(now) => SortActiveQueue(now);
      case _ => Adjust(e);
    }

    /** What Step may change, but for the pull requests themselves. */
    function Holding(): Held
      reads this
    {
      Held(active, suspended, paused, tasks)
    }

    /** The worker runs its next task, if there is one. */
    method Run(w: P.World, callsOk: nat -> bool)
      requires Valid()
      modifies this`active, this`suspended, this`activeGauge, this`suspendedGauge, this`tasks
      modifies active`hasHeadLabel, active`lastReported, active`suspendCount, active`ciTriggeredCommit,
               active`lastStartedCIBuilds
      ensures Valid() && (old(GaugesRight()) ==> GaugesRight())
      ensures old(OneWinner()) ==> OneWinner()
      ensures forall p :: p in Members() ==> p in old(Members())
      ensures Stepped(Work(w, callsOk), old(Holding()), Holding())
    {
      hide OneWinner;
      hide Valid;
      hide GaugesRight;
      if tasks != [] {
        ghost var ran := RunTask(w, callsOk);
      }
    }

    method Return(n: int, now: int)
      requires Valid()
      modifies this`active, this`suspended, this`activeGauge, this`suspendedGauge, this`tasks
      modifies suspended.Values`activeSince
      ensures Valid() && (old(GaugesRight()) ==> GaugesRight())
      ensures old(OneWinner()) ==> OneWinner()
      ensures forall p :: p in Members() ==> p in old(Members())
      ensures Stepped(Event.Resume(n, now), old(Holding()), Holding())
    {
      var _ := ResumePR(n, now);
      hide OneWinner;
      hide OrderedMap.Place;
    }

    method ReturnAll(now: int)
      requires Valid()
      modifies this`active, this`suspended, this`activeGauge, this`suspendedGauge, this`tasks
      modifies suspended.Values`activeSince
      ensures Valid() && (old(GaugesRight()) ==> GaugesRight())
      ensures old(OneWinner()) ==> OneWinner()
      ensures forall p :: p in Members() ==> p in old(Members())
      ensures Stepped(ResumeAll(now), old(Holding()), Holding())
    {
      hide OneWinner;
      hide Valid;
      hide GaugesRight;
      hide Knows;
      ghost var come := ResumeAllPRs(now);
      hide AllPlaced;
      OrderedMap.ListsSize(Numbers(come), old(suspended).Keys);
      hide OrderedMap.Lists;
    }

    /** The steps that leave everyone in place. */
    method Adjust(e: Event)
      requires Valid() && (e.Prioritize? || e.Pause? || e.Unpause? || e.Schedule?)
      modifies this`paused, this`tasks, active`priority, suspended.Values`priority
      ensures Valid() && (old(GaugesRight()) ==> GaugesRight())
      ensures old(OneWinner()) ==> OneWinner()
      ensures Stepped(e, old(Holding()), Holding())
    {
      hide Distinct;
      match e
      case Prioritize(n, priority) =>
        var _ := SetPriority(n, priority);
      case Pause => Pause();
      case Unpause => Resume();
      case Schedule(task) => ScheduleFirst(task);
    }

    /**
     Stop, as it is written: it replaces the suspended pull requests before it
     loops over them, and it removes active ones while walking the list, which
     ends the walk after the first.  So it empties the queue exactly when at most
     one pull request is active, and it leaves the gauge of the suspended ones
     wrong exactly when there were some.
     */
    method Stop()
      requires Valid() && GaugesRight()
      modifies this`active, this`suspended, this`activeGauge, this`suspendedGauge
      ensures Valid() && suspended == map[]
      ensures active == if old(active) == [] then [] else old(active)[1..]
      ensures active == [] <==> |old(active)| <= 1
      ensures activeGauge == |active|
      ensures suspendedGauge == |suspended| <==> old(suspended) == map[]
    {
      suspended := map[];
      // The loop over the suspended pull requests finds none.
      if active != [] {
        var _, _ := DequeueActive(active[0].number);
      }
      assert old(suspended) != map[] ==> |old(suspended)| > 0;
    }
  }

  /** What a queue holds, but for its gauges. */
  datatype Held = Held(active: seq<PullRequest>, suspended: map<int, PullRequest>, paused: bool, tasks: seq<QueuedTask>)

  /** The new one is inserted somewhere behind the first, or is the first of an empty line. */
  ghost predicate Joined(before: seq<PullRequest>, after: seq<PullRequest>, pr: PullRequest) {
    exists p: nat {:trigger InsertAt(before, p, pr)} ::
      p <= |before| && (p == 0 ==> before == []) && after == InsertAt(before, p, pr)
  }

  /** The run that is next can be that of the first one. */
  predicate FirstIsNext(h: Held) {
    h.tasks != [] && h.active != [] && h.active[0].number == h.tasks[0].number
  }

  /** What each step of a queue makes of what it holds. */
  ghost predicate Stepped(e: Event, h: Held, k: Held) {
    match e
    case Resume(n, _) =>
      if n !in h.suspended then k == h
      else
        && k == h.(active := k.active, suspended := h.suspended - {n}, tasks := k.tasks)
        && Joined(h.active, k.active, h.suspended[n])
        && k.tasks == h.tasks + if h.active == [] then [QueuedTask(n, P.TaskTriggerCI)] else []
    case ResumeAll(_) =>
      && k == h.(active := k.active, suspended := map[], tasks := k.tasks)
      && |k.active| == |h.active| + |h.suspended| && (h.active != [] ==> k.active[0] == h.active[0])
      && TriggeredFirst(h.tasks, k.tasks, h.active, k.active)
    case Sort(_) =>
      && k == h.(active := k.active) && |k.active| == |h.active|
      && (forall p :: p in k.active ==> p in h.active) && (forall p :: p in h.active ==> p in k.active)
      && (h.active != [] ==> k.active[0] == h.active[0])
    case Prioritize(_, _) => k == h
    case Pause => k == h.(paused := true)
    case Unpause => k == h.(paused := false, tasks := h.tasks + ForNewFirst(h.active, P.TaskTriggerCI))
    case Schedule(task) => k == h.(tasks := h.tasks + ForNewFirst(h.active, task))
    case Work(_, _) =>
      if h.tasks == [] then k == h
      else
        || k == h.(tasks := h.tasks[1..])
        || (FirstIsNext(h) && k == h.(active := RemoveAt(h.active, 0), tasks := k.tasks,
                                      suspended := h.suspended[h.active[0].number := h.active[0]])
            && k.tasks == h.tasks[1..] + ForNewFirst(k.active, P.TaskTriggerCI))
        || (FirstIsNext(h) && k == h.(active := RemoveAt(h.active, 0), tasks := k.tasks)
            && k.tasks == h.tasks[1..] + ForNewFirst(k.active, P.TaskNone))
  }

  /** A key under which a map holds the value. */
  lemma KeyOf<K, V>(m: map<K, V>, v: V) returns (k: K)
    requires v in m.Values
    ensures k in m && m[k] == v
  {
    k :| k in m && m[k] == v;
  }

  /** line, with those that come inserted one after the other at the places the order gives them. */
  ghost function AllPlaced(line: seq<PullRequest>, come: seq<PullRequest>, now: int): (r: seq<PullRequest>)
    reads line, come
    ensures forall i :: 0 <= i < |r| ==> r[i] in line || r[i] in come
  {
    if come == [] then line
    else
      var front, pr := AllPlaced(line, come[..|come| - 1], now), come[|come| - 1];
      InsertAt(front, OrderedMap.Place(Snapshots(front), pr.Snapshot(), Order.OrderAt(now)), pr)
  }

  /** processPR was queued for the first one if the queue was empty and is not any more. */
  ghost predicate TriggeredFirst(before: seq<QueuedTask>, after: seq<QueuedTask>, line: seq<PullRequest>,
                                 active: seq<PullRequest>) {
    after == before + if line == [] && active != [] then [QueuedTask(active[0].number, P.TaskTriggerCI)] else []
  }

  /** rest holds some of those of was. */
  ghost predicate Some(rest: map<int, PullRequest>, was: map<int, PullRequest>) {
    forall n :: n in rest ==> n in was && rest[n] == was[n]
  }

  lemma OneOfSome(rest: map<int, PullRequest>, was: map<int, PullRequest>, n: int)
    requires Some(rest, was) && n in rest
    ensures n in was && rest[n] == was[n] && was[n] in was.Values
  {
  }

  /** Those of was that are not left have come, each once and at the time now. */
  ghost predicate Came(come: seq<PullRequest>, was: map<int, PullRequest>, left: set<int>, now: int)
    reads come
  {
    && Distinct(Numbers(come)) && (forall n :: n in Numbers(come) <==> n in was && n !in left)
    && forall i :: 0 <= i < |come| ==>
      come[i].number in was && come[i] == was[come[i].number] && come[i].activeSince == Order.At(now)
  }

  lemma NoneCame(was: map<int, PullRequest>, now: int)
    ensures Came([], was, was.Keys, now)
  {
  }

  lemma OneComes(come: seq<PullRequest>, was: map<int, PullRequest>, left: set<int>, n: int, now: int)
    requires Came(come, was, left, now) && n in was && n in left && was[n].number == n
             && was[n].activeSince == Order.At(now)
    ensures Came(come + [was[n]], was, left - {n}, now)
  {
    NumbersAppend(come, was[n]);
    hide Distinct;
  }

  lemma AllCame(come: seq<PullRequest>, was: map<int, PullRequest>, now: int)
    requires Came(come, was, {}, now)
    ensures OrderedMap.Lists(Numbers(come), was.Keys)
    ensures forall i :: 0 <= i < |come| ==>
      come[i].number in was && come[i] == was[come[i].number] && come[i].activeSince == Order.At(now)
  {
  }

  lemma NonePlaced(line: seq<PullRequest>, now: int)
    ensures AllPlaced(line, [], now) == line
  {
  }

  /** Insertion behind the first one: those of line and those that come are there, the first of line first. */
  lemma {:induction false} PlacedMembers(line: seq<PullRequest>, come: seq<PullRequest>, now: int)
    ensures var r := AllPlaced(line, come, now);
            && |r| == |line| + |come| && (line != [] ==> r[0] == line[0])
            && forall i :: 0 <= i < |r| ==> r[i] in line || r[i] in come
  {
    if come != [] {
      PlacedMembers(line, come[..|come| - 1], now);
    }
  }

  lemma OnePlaced(line: seq<PullRequest>, come: seq<PullRequest>, pr: PullRequest, now: int)
    ensures
      var front := AllPlaced(line, come, now);
      AllPlaced(line, come + [pr], now) ==
        InsertAt(front, OrderedMap.Place(Snapshots(front), pr.Snapshot(), Order.OrderAt(now)), pr)
  {
    assert (come + [pr])[..|come + [pr]| - 1] == come;
  }

  lemma NumbersAppend(s: seq<PullRequest>, pr: PullRequest)
    ensures forall n :: n in Numbers(s + [pr]) <==> n in Numbers(s) || n == pr.number
    ensures Distinct(Numbers(s)) && pr.number !in Numbers(s) ==> Distinct(Numbers(s + [pr]))
  {
    assert Numbers(s + [pr]) == Numbers(s) + [pr.number];
  }

  lemma FirstIndex(s: seq<PullRequest>)
    requires s != [] && Distinct(Numbers(s))
    ensures s[0].number in Numbers(s) && Index(Numbers(s), s[0].number) == 0
  {
    assert Numbers(s)[0] == s[0].number;
  }

  lemma WinnersAfterRemove(s: seq<PullRequest>, i: nat)
    requires i < |s|
    ensures !WinnerBehind(s) ==> !WinnerBehind(RemoveAt(s, i)) && (i > 0 ==> !s[i].Winner())
  {
  }

  lemma KnowsAfterRemove(s: seq<PullRequest>, i: nat)
    requires i < |s| && Distinct(Numbers(s))
    ensures forall m :: m in Numbers(RemoveAt(s, i)) <==> m in Numbers(s) && m != s[i].number
    ensures forall k :: 0 <= k < |RemoveAt(s, i)| ==> RemoveAt(s, i)[k] != s[i]
  {
    var r := RemoveAt(s, i);
    assert Numbers(r) == RemoveAt(Numbers(s), i);
    forall m
      ensures m in Numbers(r) <==> m in Numbers(s) && m != s[i].number
    {
      if m in Numbers(s) && m != s[i].number {
        var k := Index(Numbers(s), m);
        assert Numbers(r)[if k < i then k else k - 1] == m;
      }
    }
  }

  /** The pull requests by their numbers. */
  method FileByNumber(s: seq<PullRequest>) returns (m: map<int, PullRequest>)
    requires Distinct(Numbers(s))
    ensures OrderedMap.Lists(Numbers(s), m.Keys)
    ensures forall i :: 0 <= i < |s| ==> s[i].number in m && m[s[i].number] == s[i]
    ensures forall n :: n in m ==> m[n].number == n && m[n] in s
  {
    m := map[];
    for k := 0 to |s|
      invariant forall n :: n in m <==> n in Numbers(s)[..k]
      invariant forall i :: 0 <= i < k ==> s[i].number in m && m[s[i].number] == s[i]
      invariant forall n :: n in m ==> m[n].number == n && m[n] in s
    {
      assert Numbers(s)[..k + 1] == Numbers(s)[..k] + [s[k].number];
      m := m[s[k].number := s[k]];
    }
    assert Numbers(s)[..|s|] == Numbers(s);
  }

  /** The same pull requests with the first one first and the others in order. */
  method SortedBehindFirst(s: seq<PullRequest>, now: int) returns (r: seq<PullRequest>)
    requires s != [] && Distinct(Numbers(s))
    ensures |r| == |s| && r[0] == s[0] && (forall p :: p in r <==> p in s) && Distinct(Numbers(r))
    ensures |r| <= OrderedMap.MAX_INSERTION || NoCircleBehind(s, now) ==> NeighboursInOrder(r, now)
  {
    var filed := FileByNumber(s);
    var sorted := SortedNumbers(s, filed, now);
    hide NoCircleBehind;
    r := InKeyOrder(s, filed, sorted);
    hide NeighboursInOrder;
    InOrderLikeKeys(r, sorted, filed, now);
    assert filed[s[0].number] == s[0];
    hide Distinct;
    hide OrderedMap.Lists;
  }

  /** The keys are in an order in which no neighbours behind the first are the wrong way round. */
  ghost predicate KeysInOrder(sorted: seq<int>, filed: map<int, PullRequest>, now: int)
    requires forall i :: 0 <= i < |sorted| ==> sorted[i] in filed
    reads filed.Values
  {
    forall i :: 1 <= i < |sorted| - 1 ==>
      Order.OrderBefore(filed[sorted[i]].Snapshot(), filed[sorted[i + 1]].Snapshot(), now) < 0
  }

  method SortedNumbers(s: seq<PullRequest>, filed: map<int, PullRequest>, now: int) returns (sorted: seq<int>)
    requires s != [] && s[0].number in filed
    requires forall n :: n in filed ==> filed[n].number == n && filed[n] in s
    ensures OrderedMap.Lists(sorted, filed.Keys) && sorted != [] && sorted[0] == s[0].number
    ensures forall i :: 0 <= i < |sorted| ==> sorted[i] in filed
    ensures |sorted| <= OrderedMap.MAX_INSERTION || NoCircleBehind(s, now) ==> KeysInOrder(sorted, filed, now)
  {
    var prs := map n | n in filed :: filed[n].Snapshot();
    assert prs.Keys == filed.Keys;
    FiledBehind(s, filed, prs, now);
    hide ActiveQueueOrder.Orderly;
    hide NoCircleBehind;
    sorted := SortedKeys(prs, s[0].number, now);
  }

  /** The pull requests of the keys. */
  method InKeyOrder(s: seq<PullRequest>, filed: map<int, PullRequest>, sorted: seq<int>) returns (r: seq<PullRequest>)
    requires s != [] && Distinct(Numbers(s)) && OrderedMap.Lists(sorted, filed.Keys)
    requires OrderedMap.Lists(Numbers(s), filed.Keys)
    requires forall i :: 0 <= i < |s| ==> s[i].number in filed && filed[s[i].number] == s[i]
    requires forall n :: n in filed ==> filed[n].number == n && filed[n] in s
    ensures |r| == |s| && (forall p :: p in r <==> p in s) && Distinct(Numbers(r))
    ensures |r| == |sorted| && forall i :: 0 <= i < |r| ==> sorted[i] in filed && r[i] == filed[sorted[i]]
  {
    assert forall i :: 0 <= i < |sorted| ==> sorted[i] in filed.Keys;
    r := seq(|sorted|, i requires 0 <= i < |sorted| => filed[sorted[i]]);
    assert Numbers(r) == sorted;
    SortedIsPermutation(s, r, filed, sorted);
  }

  lemma InOrderLikeKeys(r: seq<PullRequest>, sorted: seq<int>, filed: map<int, PullRequest>, now: int)
    requires |r| == |sorted| && forall i :: 0 <= i < |r| ==> sorted[i] in filed && r[i] == filed[sorted[i]]
    ensures KeysInOrder(sorted, filed, now) ==> NeighboursInOrder(r, now)
  {
    hide Order.OrderBefore;
  }

  /** The pull requests behind the first go round in no circle. */
  ghost predicate NoCircleBehind(s: seq<PullRequest>, now: int)
    reads s
  {
    Order.NoCircle(set i | 1 <= i < |s| :: s[i].Snapshot(), now)
  }

  ghost predicate NeighboursInOrder(s: seq<PullRequest>, now: int)
    reads s
  {
    forall i :: 1 <= i < |s| - 1 ==> Order.OrderBefore(s[i].Snapshot(), s[i + 1].Snapshot(), now) < 0
  }

  lemma FiledBehind(s: seq<PullRequest>, filed: map<int, PullRequest>, prs: map<int, Order.PR>, now: int)
    requires s != [] && prs.Keys == filed.Keys && forall n :: n in filed ==> prs[n] == filed[n].Snapshot()
    requires forall n :: n in filed ==> filed[n].number == n && filed[n] in s
    ensures NoCircleBehind(s, now) ==> ActiveQueueOrder.Orderly(prs, s[0].number, now)
  {
    hide Order.OrderBefore;
    forall n | n in prs && n != s[0].number
      ensures prs[n] in set i | 1 <= i < |s| :: s[i].Snapshot()
    {
      var i := Index(s, filed[n]);
      assert s[i].Snapshot() == prs[n];
    }
  }

  /** The keys in the order SortByKey gives them. */
  method SortedKeys(prs: map<int, Order.PR>, first: int, now: int) returns (sorted: seq<int>)
    requires first in prs && forall n :: n in prs ==> prs[n].number == n
    ensures OrderedMap.Lists(sorted, prs.Keys) && sorted != [] && sorted[0] == first
    ensures forall i :: 0 <= i < |sorted| ==> sorted[i] in prs
    ensures |sorted| <= OrderedMap.MAX_INSERTION || ActiveQueueOrder.Orderly(prs, first, now) ==>
      forall i :: 1 <= i < |sorted| - 1 ==> Order.OrderBefore(prs[sorted[i]], prs[sorted[i + 1]], now) < 0
  {
    sorted := OrderedMap.SortedFunc(prs.Keys, ActiveQueueOrder.SortCompare(prs, first, now));
    ActiveQueueOrder.SortKeepsFirst(prs, first, now, sorted);
  }

  lemma SameNumbers(s: seq<PullRequest>, t: seq<PullRequest>)
    requires forall p :: p in s <==> p in t
    ensures forall n :: n in Numbers(s) <==> n in Numbers(t)
  {
    forall n
      ensures n in Numbers(s) ==> n in Numbers(t)
      ensures n in Numbers(t) ==> n in Numbers(s)
    {
      if n in Numbers(s) {
        var i := Index(Numbers(s), n);
        assert s[i] in t;
        var j := Index(t, s[i]);
        assert Numbers(t)[j] == n;
      }
      if n in Numbers(t) {
        var i := Index(Numbers(t), n);
        assert t[i] in s;
        var j := Index(s, t[i]);
        assert Numbers(s)[j] == n;
      }
    }
  }

  /** Some pull request behind the first may be merged. */
  ghost predicate WinnerBehind(s: seq<PullRequest>)
    reads s
  {
    exists i :: 1 <= i < |s| && s[i].Winner()
  }

  lemma SameWinners(s: seq<PullRequest>, t: seq<PullRequest>)
    requires s != [] && t != [] && s[0] == t[0] && Distinct(Numbers(s)) && Distinct(Numbers(t))
    requires forall p :: p in s <==> p in t
    ensures WinnerBehind(s) <==> WinnerBehind(t)
  {
    OthersStayBehind(s, t);
    OthersStayBehind(t, s);
    if i :| 1 <= i < |s| && s[i].Winner() {
      assert t[1..][Index(t[1..], s[i])].Winner();
    }
    if i :| 1 <= i < |t| && t[i].Winner() {
      assert s[1..][Index(s[1..], t[i])].Winner();
    }
  }

  lemma OthersStayBehind(s: seq<PullRequest>, t: seq<PullRequest>)
    requires s != [] && t != [] && s[0] == t[0] && Distinct(Numbers(t)) && forall p :: p in t ==> p in s
    ensures forall i :: 1 <= i < |t| ==> t[i] in s[1..]
  {
    forall i | 1 <= i < |t|
      ensures t[i] in s[1..]
    {
      assert Numbers(t)[i] != Numbers(t)[0];
      assert t[i] in s;
      var j := Index(s, t[i]);
      assert s[1..][j - 1] == t[i];
    }
  }

  lemma SortedIsPermutation(was: seq<PullRequest>, now: seq<PullRequest>, filed: map<int, PullRequest>,
                            sorted: seq<int>)
    requires Distinct(Numbers(was)) && OrderedMap.Lists(sorted, filed.Keys)
    requires OrderedMap.Lists(Numbers(was), filed.Keys)
    requires forall i :: 0 <= i < |was| ==> was[i].number in filed && filed[was[i].number] == was[i]
    requires forall n :: n in filed ==> filed[n] in was
    requires |now| == |sorted| && forall i :: 0 <= i < |now| ==> sorted[i] in filed && now[i] == filed[sorted[i]]
    ensures |now| == |was| && forall p :: p in now <==> p in was
  {
    OrderedMap.ListsSize(sorted, filed.Keys);
    OrderedMap.ListsSize(Numbers(was), filed.Keys);
    forall p | p in was
      ensures p in now
    {
      var i := Index(was, p);
      var k := Index(sorted, was[i].number);
      assert now[k] == p;
    }
  }

  /** Some member of a set: a hash map is iterated in no particular order. */
  method Pick<T>(s: set<T>) returns (n: T)
    requires s != {}
    ensures n in s
  {
    n :| n in s;
  }

  lemma NumbersInsert(s: seq<PullRequest>, k: nat, pr: PullRequest)
    requires k <= |s|
    ensures forall n :: n in Numbers(InsertAt(s, k, pr)) <==> n in Numbers(s) || n == pr.number
  {
    assert Numbers(InsertAt(s, k, pr)) == InsertAt(Numbers(s), k, pr.number);
  }
}
