/**
 The work pool: a scheduler that feeds a buffered work channel from an
 unbounded queue, workers that take from the channel, and a notification
 channel with room for one token.

 Every goroutine has a program counter.  Steps end where another goroutine can
 observe the difference: at channel operations and at the ends of sections
 protected by the mutex.
 */
module Pool {

  type Work = nat

  datatype Scheduler =
    | Receiving              // waits for a notification
    | Locking                // has one, is about to enter its critical section
    | Sending(item: Work)    // blocks until the work channel takes the item
    | Stopped

  datatype Worker =
    | Taking                 // waits for the work channel
    | Notifying(item: Work)  // took an item, still owes the notification
    | Running(item: Work)
    | Exited

  datatype Waiter =
    | NotCalled
    | Announcing             // set `terminate`, still owes the notification
    | Joining                // waits for all goroutines
    | Returned

  datatype State = State(
    wq: seq<Work>,
    terminate: bool,
    appended: bool,          // a caller of Queue holds the mutex: appended, not yet notified
    workChan: seq<Work>,
    workChanClosed: bool,
    token: bool,             // content of the notification channel
    notifyChanClosed: bool,
    scheduler: Scheduler,
    workers: seq<Worker>,
    waiter: Waiter,
    queued: seq<Work>,       // history: everything Queue accepted,
    started: seq<Work>,      // everything a worker took,
    finished: seq<Work>)     // and everything that has run

  function NewPool(routines: nat): State {
    State([], false, false, [], false, false, false, Receiving,
          seq(routines, _ => Taking), NotCalled, [], [], [])
  }

  datatype Action =
    | QueueAppend(work: Work)
    | QueueNotify
    | SchedulerReceive
    | SchedulerPop
    | SchedulerSend
    | WorkerTake(worker: nat)
    | WorkerNotify(worker: nat)
    | WorkerFinish(worker: nat)
    | WaitCall
    | WaitNotify
    | WaitReturn

  predicate Enabled(s: State, a: Action) {
    match a
    case QueueAppend(_) => !s.appended && !s.terminate
    case QueueNotify => s.appended
    case SchedulerReceive => s.scheduler.Receiving? && (s.token || s.notifyChanClosed)
    case SchedulerPop => s.scheduler.Locking? && !s.appended
    case SchedulerSend => s.scheduler.Sending? && |s.workChan| < |s.workers|
    case WorkerTake(i) => i < |s.workers| && s.workers[i].Taking? && (s.workChan != [] || s.workChanClosed)
    case WorkerNotify(i) => i < |s.workers| && s.workers[i].Notifying?
    case WorkerFinish(i) => i < |s.workers| && s.workers[i].Running?
    case WaitCall => s.waiter.NotCalled? && !s.appended
    case WaitNotify => s.waiter.Announcing?
    case WaitReturn =>
      s.waiter.Joining? && s.scheduler.Stopped? && forall i :: 0 <= i < |s.workers| ==> s.workers[i].Exited?
  }

  function Next(s: State, a: Action): State
    requires Enabled(s, a)
  {
    match a
    case QueueAppend(w) => s.(wq := s.wq + [w], appended := true, queued := s.queued + [w])
    case QueueNotify => s.(appended := false, token := true)
    case SchedulerReceive => s.(token := false, scheduler := Locking)
    case SchedulerPop =>
      if s.wq != [] then s.(wq := s.wq[1..], scheduler := Sending(s.wq[0]))
      else if s.terminate then s.(workChanClosed := true, scheduler := Stopped)
      else s.(scheduler := Receiving)
    case SchedulerSend => s.(workChan := s.workChan + [s.scheduler.item], scheduler := Receiving)
    case WorkerTake(i) =>
      if s.workChan != [] then
        s.(workChan := s.workChan[1..], workers := s.workers[i := Notifying(s.workChan[0])],
           started := s.started + [s.workChan[0]])
      else s.(workers := s.workers[i := Exited])
    case WorkerNotify(i) => s.(token := true, workers := s.workers[i := Running(s.workers[i].item)])
    case WorkerFinish(i) => s.(workers := s.workers[i := Taking], finished := s.finished + [s.workers[i].item])
    case WaitCall => s.(terminate := true, waiter := Announcing)
    case WaitNotify => s.(token := true, waiter := Joining)
    case WaitReturn => s.(notifyChanClosed := true, waiter := Returned)
  }

  /** The action sends on a channel, and the channel is closed: the program would panic. */
  predicate SendsOnClosed(s: State, a: Action) {
    match a
    case QueueNotify | WorkerNotify(_) | WaitNotify => s.notifyChanClosed
    case SchedulerSend => s.workChanClosed
    case _ => false
  }

  /** The actions can be taken one after the other from s. */
  predicate IsRun(s: State, run: seq<Action>)
    decreases |run|
  {
    run == [] || (Enabled(s, run[0]) && IsRun(Next(s, run[0]), run[1..]))
  }

  function After(s: State, run: seq<Action>): State
    requires IsRun(s, run)
    decreases |run|
  {
    if run == [] then s else After(Next(s, run[0]), run[1..])
  }

  // ---------------------------------------------------------------------
  // The invariant
  // ---------------------------------------------------------------------

  function Held(c: Scheduler): seq<Work> {
    if c.Sending? then [c.item] else []
  }

  function Carried(w: Worker, item: Work): nat {
    if (w.Notifying? || w.Running?) && w.item == item then 1 else 0
  }

  /** How often workers took the item and have not finished it. */
  function InProgress(workers: seq<Worker>, item: Work): nat {
    if workers == [] then 0
    else InProgress(workers[..|workers| - 1], item) + Carried(workers[|workers| - 1], item)
  }

  function Count(s: seq<Work>, item: Work): nat {
    multiset(s)[item]
  }

  /** The items no worker has taken yet, in the order in which they pass through the pool. */
  function Waiting(s: State): seq<Work> {
    s.workChan + Held(s.scheduler) + s.wq
  }

  /** First in, first out, exactly once: where every accepted item is. */
  ghost predicate Conserved(s: State) {
    && s.queued == s.started + Waiting(s)
    && (forall item :: Count(s.started, item) == Count(s.finished, item) + InProgress(s.workers, item))
  }

  /** How the flags, the channels and the program counters go together. */
  ghost predicate Orderly(s: State) {
    && |s.workChan| <= |s.workers|
    && (s.workChanClosed <==> s.scheduler.Stopped?)
    && (s.workChanClosed ==> s.terminate && s.wq == [])
    && (s.terminate <==> !s.waiter.NotCalled?)
    && (s.appended ==> !s.terminate)
    && (s.notifyChanClosed <==> s.waiter.Returned?)
    && (s.waiter.Returned? ==> s.scheduler.Stopped? && forall i :: 0 <= i < |s.workers| ==> s.workers[i].Exited?)
    && (forall i :: 0 <= i < |s.workers| && s.workers[i].Exited? ==> s.workChanClosed && s.workChan == [])
  }

  /** Somebody will still see to it that the scheduler wakes up, or the scheduler is awake. */
  ghost predicate WakeupPending(s: State) {
    || s.token
    || s.scheduler.Locking? || s.scheduler.Sending?
    || s.workChan != []
    || s.appended
    || s.waiter.Announcing?
    || (exists i :: 0 <= i < |s.workers| && s.workers[i].Notifying?)
  }

  /** No wakeup is lost while there is something to do for the scheduler. */
  ghost predicate NoLostWakeup(s: State) {
    s.wq != [] || (s.terminate && !s.workChanClosed) ==> WakeupPending(s)
  }

  ghost predicate Inv(s: State) {
    Conserved(s) && Orderly(s) && NoLostWakeup(s)
  }

  lemma {:induction false} InProgressUpdate(workers: seq<Worker>, i: nat, w: Worker, item: Work)
    requires i < |workers|
    ensures InProgress(workers[i := w], item) + Carried(workers[i], item) ==
            InProgress(workers, item) + Carried(w, item)
  {
    var n := |workers| - 1;
    if i < n {
      assert workers[i := w][..n] == workers[..n][i := w];
      InProgressUpdate(workers[..n], i, w, item);
    } else {
      assert workers[i := w][..n] == workers[..n];
    }
  }

  lemma {:induction false} InProgressNone(workers: seq<Worker>, item: Work)
    requires forall i :: 0 <= i < |workers| ==> workers[i].Taking? || workers[i].Exited?
    ensures InProgress(workers, item) == 0
  {
    if workers != [] {
      InProgressNone(workers[..|workers| - 1], item);
    }
  }

  lemma AllFinished(s: State)
    requires Conserved(s) && forall i :: 0 <= i < |s.workers| ==> s.workers[i].Taking? || s.workers[i].Exited?
    ensures multiset(s.finished) == multiset(s.started)
  {
    forall item
      ensures Count(s.finished, item) == Count(s.started, item)
    {
      InProgressNone(s.workers, item);
    }
    assert forall item ::
        multiset(s.finished)[item] == Count(s.finished, item) == Count(s.started, item) == multiset(s.started)[item];
  }

  lemma NewPoolInv(routines: nat)
    ensures Inv(NewPool(routines))
  {
    forall item
      ensures InProgress(NewPool(routines).workers, item) == 0
    {
      InProgressNone(NewPool(routines).workers, item);
    }
  }

  lemma PopWaiting(s: State)
    requires Enabled(s, SchedulerPop)
    ensures Waiting(Next(s, SchedulerPop)) == Waiting(s)
  {
    assert s.wq != [] ==> s.wq == [s.wq[0]] + s.wq[1..];
  }

  lemma SendWaiting(s: State)
    requires Enabled(s, SchedulerSend)
    ensures Waiting(Next(s, SchedulerSend)) == Waiting(s)
  {
    assert s.workChan + Held(s.scheduler) + [] == s.workChan + Held(s.scheduler);
  }

  lemma TakeWaiting(s: State, i: nat)
    requires Enabled(s, WorkerTake(i)) && s.workChan != []
    ensures Waiting(s) == [s.workChan[0]] + Waiting(Next(s, WorkerTake(i)))
  {
    var t := Next(s, WorkerTake(i));
    assert s.workChan == [s.workChan[0]] + t.workChan;
    assert Waiting(s) == [s.workChan[0]] + t.workChan + Held(s.scheduler) + s.wq;
  }

  /** Which steps change what is waiting, and how. */
  lemma NextWaiting(s: State, a: Action)
    requires Enabled(s, a)
    ensures var t := Next(s, a);
      if a.QueueAppend? then t.started == s.started && Waiting(t) == Waiting(s) + [a.work]
      else if a.WorkerTake? && s.workChan != [] then
        t.started == s.started + [s.workChan[0]] && Waiting(s) == [s.workChan[0]] + Waiting(t)
      else t.started == s.started && Waiting(t) == Waiting(s)
  {
    match a
    case QueueAppend(w) =>
      assert s.workChan + Held(s.scheduler) + (s.wq + [w]) == s.workChan + Held(s.scheduler) + s.wq + [w];
    case SchedulerPop =>
      PopWaiting(s);
    case SchedulerSend =>
      SendWaiting(s);
    case WorkerTake(i) =>
      if s.workChan != [] {
        TakeWaiting(s, i);
      }
    case _ =>
  }

  lemma NextQueued(s: State, a: Action)
    requires s.queued == s.started + Waiting(s) && Enabled(s, a)
    ensures Next(s, a).queued == Next(s, a).started + Waiting(Next(s, a))
  {
    NextWaiting(s, a);
  }

  lemma NextInProgress(s: State, a: Action, item: Work)
    requires Enabled(s, a) && Count(s.started, item) == Count(s.finished, item) + InProgress(s.workers, item)
    ensures Count(Next(s, a).started, item) == Count(Next(s, a).finished, item) + InProgress(Next(s, a).workers, item)
  {
    hide InProgress;
    if a.WorkerTake? || a.WorkerNotify? || a.WorkerFinish? {
      NextCarried(s, a, item);
    }
  }

  lemma NextCarried(s: State, a: Action, item: Work)
    requires Enabled(s, a) && (a.WorkerTake? || a.WorkerNotify? || a.WorkerFinish?)
    ensures Count(Next(s, a).started, item) + Count(s.finished, item) + InProgress(s.workers, item) ==
            Count(s.started, item) + Count(Next(s, a).finished, item) + InProgress(Next(s, a).workers, item)
  {
    hide InProgress;
    var t := Next(s, a);
    InProgressUpdate(s.workers, a.worker, t.workers[a.worker], item);
    assert t.workers == s.workers[a.worker := t.workers[a.worker]];
  }

  lemma NextConserved(s: State, a: Action)
    requires Conserved(s) && Enabled(s, a)
    ensures Conserved(Next(s, a))
  {
    NextQueued(s, a);
    forall item
      ensures Count(Next(s, a).started, item) == Count(Next(s, a).finished, item) + InProgress(Next(s, a).workers, item)
    {
      NextInProgress(s, a, item);
    }
  }

  lemma NextOrderly(s: State, a: Action)
    requires Orderly(s) && Enabled(s, a)
    ensures Orderly(Next(s, a))
  {
  }

  lemma NextNoLostWakeup(s: State, a: Action)
    requires Orderly(s) && NoLostWakeup(s) && Enabled(s, a)
    ensures NoLostWakeup(Next(s, a))
  {
    var t := Next(s, a);
    match a
    case WorkerTake(i) =>
      if s.workChan != [] {
        assert t.workers[i].Notifying?;
      }
    case WorkerFinish(i) =>
      if exists j :: 0 <= j < |s.workers| && s.workers[j].Notifying? {
        var j :| 0 <= j < |s.workers| && s.workers[j].Notifying?;
        assert t.workers[j].Notifying?;
      }
    case _ =>
  }

  /** The invariant holds in every state a run can reach. */
  lemma {:induction false} RunInv(s: State, run: seq<Action>)
    requires Inv(s) && IsRun(s, run)
    ensures Inv(After(s, run))
    decreases |run|
  {
    if run != [] {
      NextConserved(s, run[0]);
      NextOrderly(s, run[0]);
      NextNoLostWakeup(s, run[0]);
      RunInv(Next(s, run[0]), run[1..]);
    }
  }

  ghost predicate Reachable(s: State) {
    exists routines: nat, run: seq<Action> :: IsRun(NewPool(routines), run) && After(NewPool(routines), run) == s
  }

  lemma ReachableInv(s: State)
    requires Reachable(s)
    ensures Inv(s)
  {
    var routines: nat, run: seq<Action> :| IsRun(NewPool(routines), run) && After(NewPool(routines), run) == s;
    NewPoolInv(routines);
    RunInv(NewPool(routines), run);
  }

  // ---------------------------------------------------------------------
  // What follows for every reachable state
  // ---------------------------------------------------------------------

  /**
   Work starts in queueing order and each item once: what has been started is a
   prefix of what was queued, and the rest is waiting in order.  Nothing is sent
   on a closed channel.
   */
  lemma FifoExactlyOnce(s: State, a: Action)
    requires Reachable(s) && Enabled(s, a)
    ensures s.started <= s.queued
    ensures s.queued[|s.started|..] == Waiting(s)
    ensures forall item :: Count(s.started, item) == Count(s.finished, item) + InProgress(s.workers, item)
    ensures !SendsOnClosed(s, a)
  {
    ReachableInv(s);
  }

  /**
   Queue is accepted before Wait, and never afterwards: in every reachable state in
   which Wait has not been called its critical section can be entered, at once or
   after the caller that is in it has left.  Then the work is the last to wait.  So
   can that of Wait.
   */
  lemma QueueAccepted(s: State, w: Work)
    requires Reachable(s)
    ensures s.waiter.NotCalled? && !s.appended ==>
              && Enabled(s, QueueAppend(w)) && Next(s, QueueAppend(w)).queued == s.queued + [w]
              && Enabled(s, WaitCall) && !Next(s, WaitCall).waiter.NotCalled?
    ensures s.waiter.NotCalled? && s.appended ==>
              Enabled(s, QueueNotify) && !Next(s, QueueNotify).appended && Next(s, QueueNotify).waiter.NotCalled?
    ensures !s.waiter.NotCalled? ==> !Enabled(s, QueueAppend(w))
  {
    ReachableInv(s);
    hide Conserved;
    hide NoLostWakeup;
  }

  /** Somebody outside calls Queue or Wait; everything else the pool does by itself. */
  predicate External(a: Action) {
    a.QueueAppend? || a.WaitCall?
  }

  function WorkerWeight(w: Worker): nat {
    match w
    case Taking => 1
    case Notifying(_) => 5
    case Running(_) => 2
    case Exited => 0
  }

  function WorkersWeight(workers: seq<Worker>): nat {
    if workers == [] then 0
    else WorkersWeight(workers[..|workers| - 1]) + WorkerWeight(workers[|workers| - 1])
  }

  /** An upper bound for the number of steps the pool can take by itself. */
  function Measure(s: State): nat {
    6 * |s.wq| + 5 * |s.workChan| + WorkersWeight(s.workers)
    + (match s.scheduler case Receiving => 1 case Locking => 2 case Sending(_) => 7 case Stopped => 0)
    + (match s.waiter case NotCalled => 0 case Announcing => 4 case Joining => 1 case Returned => 0)
    + (if s.token then 2 else 0) + (if s.appended then 3 else 0)
  }

  lemma {:induction false} WorkersWeightUpdate(workers: seq<Worker>, i: nat, w: Worker)
    requires i < |workers|
    ensures WorkersWeight(workers[i := w]) + WorkerWeight(workers[i]) == WorkersWeight(workers) + WorkerWeight(w)
  {
    var n := |workers| - 1;
    if i < n {
      assert workers[i := w][..n] == workers[..n][i := w];
      WorkersWeightUpdate(workers[..n], i, w);
    } else {
      assert workers[i := w][..n] == workers[..n];
    }
  }

  lemma InternalStepDecreases(s: State, a: Action)
    requires Orderly(s) && Enabled(s, a) && !External(a)
    ensures Measure(Next(s, a)) < Measure(s)
  {
    match a
    case WorkerTake(i) =>
      WorkersWeightUpdate(s.workers, i, Next(s, a).workers[i]);
    case WorkerNotify(i) =>
      WorkersWeightUpdate(s.workers, i, Next(s, a).workers[i]);
    case WorkerFinish(i) =>
      WorkersWeightUpdate(s.workers, i, Next(s, a).workers[i]);
    case _ =>
  }

  /** The pool cannot take another step by itself. */
  ghost predicate Quiescent(s: State) {
    forall a :: Enabled(s, a) ==> External(a)
  }

  /** All that was queued has run, and if Wait was called it has returned. */
  predicate AllDone(s: State) {
    && s.wq == [] && s.workChan == [] && s.started == s.queued
    && multiset(s.finished) == multiset(s.queued)
    && (!s.waiter.NotCalled? ==> s.waiter.Returned?)
  }

  /** With at least one worker the pool never gets stuck before its work is done. */
  lemma NoDeadlock(s: State)
    requires Inv(s) && |s.workers| >= 1 && Quiescent(s)
    ensures AllDone(s)
  {
    assert !Enabled(s, QueueNotify) && !Enabled(s, SchedulerReceive) && !Enabled(s, SchedulerPop);
    assert !Enabled(s, SchedulerSend) && !Enabled(s, WaitNotify) && !Enabled(s, WaitReturn);
    assert !Enabled(s, WorkerTake(0));
    forall i | 0 <= i < |s.workers|
      ensures !s.workers[i].Notifying? && !s.workers[i].Running?
      ensures s.workChanClosed ==> s.workers[i].Exited?
    {
      assert !Enabled(s, WorkerNotify(i)) && !Enabled(s, WorkerFinish(i)) && !Enabled(s, WorkerTake(i));
    }
    AllFinished(s);
  }

  lemma {:induction false} InternalRunShort(s: State, run: seq<Action>)
    requires Inv(s) && IsRun(s, run) && (forall a :: a in run ==> !External(a))
    ensures |run| + Measure(After(s, run)) <= Measure(s)
    decreases |run|
  {
    if run != [] {
      assert run[0] in run;
      assert forall a :: a in run[1..] ==> a in run;
      InternalStepDecreases(s, run[0]);
      NextConserved(s, run[0]);
      NextOrderly(s, run[0]);
      NextNoLostWakeup(s, run[0]);
      InternalRunShort(Next(s, run[0]), run[1..]);
    }
  }

  lemma StepKeepsWorkers(s: State, a: Action)
    requires Enabled(s, a)
    ensures |Next(s, a).workers| == |s.workers| && (!s.waiter.NotCalled? ==> !Next(s, a).waiter.NotCalled?)
  {
    match a
    case WorkerTake(_) =>
    case WorkerNotify(_) =>
    case WorkerFinish(_) =>
    case SchedulerPop =>
    case _ =>
  }

  lemma {:induction false} WorkersConstant(s: State, run: seq<Action>)
    requires IsRun(s, run)
    ensures |After(s, run).workers| == |s.workers|
    ensures !s.waiter.NotCalled? ==> !After(s, run).waiter.NotCalled?
    decreases |run|
  {
    if run != [] {
      StepKeepsWorkers(s, run[0]);
      hide Next;
      hide Enabled;
      WorkersConstant(Next(s, run[0]), run[1..]);
    }
  }

  /**
   Queued work always runs: from any reachable state, whatever order the
   goroutines are scheduled in, the pool stops after a bounded number of steps of
   its own, and then everything queued has run.
   */
  lemma QueuedWorkRuns(s: State, run: seq<Action>)
    requires Reachable(s) && |s.workers| >= 1
    requires IsRun(s, run) && (forall a :: a in run ==> !External(a))
    ensures |run| <= Measure(s)
    ensures Quiescent(After(s, run)) ==> AllDone(After(s, run))
  {
    ReachableInv(s);
    InternalRunShort(s, run);
    RunInv(s, run);
    WorkersConstant(s, run);
    if Quiescent(After(s, run)) {
      NoDeadlock(After(s, run));
    }
  }

  lemma {:induction false} OnlyInternalAfterWait(s: State, run: seq<Action>)
    requires Orderly(s) && !s.waiter.NotCalled? && IsRun(s, run)
    ensures forall a :: a in run ==> !External(a)
    decreases |run|
  {
    if run != [] {
      NextOrderly(s, run[0]);
      OnlyInternalAfterWait(Next(s, run[0]), run[1..]);
    }
  }

  /**
   Wait terminates: once it has been called every run is bounded, a run that
   cannot be continued ends with Wait having returned, and Wait never returns
   before all queued work has run.
   */
  lemma WaitTerminates(s: State, run: seq<Action>)
    requires Reachable(s) && |s.workers| >= 1 && !s.waiter.NotCalled? && IsRun(s, run)
    ensures |run| <= Measure(s)
    ensures (forall a :: !Enabled(After(s, run), a)) ==> After(s, run).waiter.Returned?
    ensures After(s, run).waiter.Returned? ==> AllDone(After(s, run))
  {
    var t := After(s, run);
    ReachableInv(s);
    OnlyInternalAfterWait(s, run);
    QueuedWorkRuns(s, run);
    RunInv(s, run);
    WorkersConstant(s, run);
    if t.waiter.Returned? {
      assert t.workers[0].Exited?;
      AllFinished(t);
    }
  }

  // ---------------------------------------------------------------------
  // With one worker the pool is a queue with one server
  // ---------------------------------------------------------------------

  /** What a user of a pool with one worker sees. */
  datatype Server<T> = Server(pending: seq<T>, busy: seq<T>, done: seq<T>)

  predicate ServerStep<T(==)>(p: Server<T>, q: Server<T>) {
    || q == p
    || (|q.pending| == |p.pending| + 1 && q == p.(pending := p.pending + [q.pending[|p.pending|]]))
    || (p.busy == [] && p.pending != [] && q == p.(pending := p.pending[1..], busy := [p.pending[0]]))
    || (p.busy != [] && q == p.(busy := p.busy[1..], done := p.done + [p.busy[0]]))
  }

  function Busy(w: Worker): seq<Work> {
    if w.Notifying? || w.Running? then [w.item] else []
  }

  function ViewOf(s: State): Server<Work>
    requires |s.workers| == 1
  {
    Server(Waiting(s), Busy(s.workers[0]), s.finished)
  }

  lemma NextBusy(s: State, a: Action)
    requires Enabled(s, a) && |s.workers| == 1 == |Next(s, a).workers|
    ensures var t := Next(s, a); var before, after := Busy(s.workers[0]), Busy(t.workers[0]);
      if a.WorkerTake? && s.workChan != [] then before == [] && after == [s.workChan[0]] && t.finished == s.finished
      else if a.WorkerFinish? then before != [] && after == before[1..] && t.finished == s.finished + [before[0]]
      else after == before && t.finished == s.finished
  {
    match a
    case WorkerTake(_) =>
    case WorkerNotify(_) =>
    case WorkerFinish(_) =>
    case _ =>
  }

  /** Every step of the pool is a step of the one-server queue, or invisible. */
  lemma RefinesServer(s: State, a: Action)
    requires Enabled(s, a) && |s.workers| == 1
    ensures ServerStep(ViewOf(s), ViewOf(Next(s, a)))
  {
    NextWaiting(s, a);
    NextBusy(s, a);
    StepKeepsWorkers(s, a);
    hide Waiting;
    hide Next;
    hide Enabled;
    hide Busy;
  }

  /** With one worker an item starts only when all before it have finished, in order. */
  lemma SerialExecution(s: State)
    requires Reachable(s) && |s.workers| == 1
    ensures s.started == s.finished + Busy(s.workers[0])
  {
    var routines: nat, run: seq<Action> :| IsRun(NewPool(routines), run) && After(NewPool(routines), run) == s;
    WorkersConstant(NewPool(routines), run);
    SerialRun(NewPool(routines), run);
  }

  lemma NextSerial(s: State, a: Action)
    requires Enabled(s, a) && |s.workers| == 1 && s.started == s.finished + Busy(s.workers[0])
    ensures var t := Next(s, a); |t.workers| == 1 && t.started == t.finished + Busy(t.workers[0])
  {
    match a
    case WorkerTake(_) =>
      assert s.started == s.finished;
    case WorkerFinish(_) =>
      assert s.started == Next(s, a).finished;
    case _ =>
  }

  lemma {:induction false} SerialRun(s: State, run: seq<Action>)
    requires IsRun(s, run) && |s.workers| == 1 && s.started == s.finished + Busy(s.workers[0])
    ensures |After(s, run).workers| == 1
    ensures After(s, run).started == After(s, run).finished + Busy(After(s, run).workers[0])
    decreases |run|
  {
    if run != [] {
      NextSerial(s, run[0]);
      SerialRun(Next(s, run[0]), run[1..]);
    }
  }
}
