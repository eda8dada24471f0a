/**
 Several merge queues over the same pull requests.

 A pull request takes its status mutex and its last reported status along when
 its base branch changes, so the queues share them.  Each queue sees the steps of
 the others as what they do to these, as module QueueProtocol has it.
 */
module QueueSystem {
  import opened QueueProtocol
  import opened QueueSafety
  import opened QueueLabels
  import QueueDuties

  /** What one queue has to itself. */
  datatype Queue = Queue(
    q: Entries,
    c: Control,
    lb: Labels,
    tasks: seq<Task>,
    worker: Worker,
    procs: Procs,
    mutexHeld: bool,
    ended: seq<Task>)

  datatype Owner = Owner(queue: nat, agent: Agent)

  /** A queue that does not exist yet is one that nothing has happened to. */
  datatype System = System(
    queues: seq<Queue>,
    holder: map<nat, Owner>,        // who has the status mutex of a pull request
    lastPending: set<nat>)          // pull requests whose last reported status is pending

  datatype Step = Step(queue: nat, action: Action)

  function SeenFrom(holder: map<nat, Owner>, b: nat): map<nat, Holder> {
    map n | n in holder :: if holder[n].queue == b then Local(holder[n].agent) else Foreign
  }

  /** The system as queue b sees it. */
  function View(s: System, b: nat): State
    requires b < |s.queues|
  {
    var own := s.queues[b];
    State(own.q, own.c, Statuses(SeenFrom(s.holder, b), s.lastPending), own.lb, own.tasks, own.worker, own.procs,
          own.mutexHeld, own.ended)
  }

  function Own(t: State): Queue {
    Queue(t.q, t.c, t.lb, t.tasks, t.worker, t.procs, t.mutexHeld, t.ended)
  }

  function Start(count: nat): System {
    System(seq(count, _ => Own(Init())), map[], {})
  }

  /** A removal of n that has not cancelled the run for n yet. */
  predicate Uncancelled(p: Proc, n: nat) {
    p.Removal? && p.pr == n && (p.stage == Unlocked || p.stage.Loaded?)
  }

  /** The queue has n: it knows n, or is about to cancel the run for n. */
  ghost predicate Has(s: State, n: nat) {
    Tracked(s, n) || exists g :: Uncancelled(ProcOf(s.procs, g), n)
  }

  /**
   A step of one queue.  Enqueue gets a pull request that is new, or that Dequeue
   has returned for another queue, so no other queue has it.
   */
  ghost predicate StepEnabled(s: System, x: Step) {
    && x.queue < |s.queues| && !OfForeign(x.action) && Enabled(View(s, x.queue), x.action)
    && (x.action.Enqueue? ==> forall c: nat :: c < |s.queues| && c != x.queue ==> !Has(View(s, c), x.action.pr))
  }

  /** The owners of the status mutexes when queue b has come to see them as given. */
  function OwnersAfter(holder: map<nat, Owner>, b: nat, seen: map<nat, Holder>): map<nat, Owner> {
    map n | n in seen && (seen[n].Local? || n in holder) ::
      if seen[n].Local? then Owner(b, seen[n].agent) else holder[n]
  }

  ghost function StepNext(s: System, x: Step): System
    requires StepEnabled(s, x)
  {
    var t := Next(View(s, x.queue), x.action);
    System(s.queues[x.queue := Own(t)], OwnersAfter(s.holder, x.queue, t.st.holder), t.st.lastPending)
  }

  /** A run of so many queues from the start: the states it passes and the steps between them. */
  ghost predicate IsSystemTrace(tr: seq<System>, steps: seq<Step>, count: nat) {
    && |tr| == |steps| + 1 && tr[0] == Start(count) && (forall i :: 0 <= i < |tr| ==> |tr[i].queues| == count)
    && forall i {:trigger steps[i]} ::
       0 <= i < |steps| ==> StepEnabled(tr[i], steps[i]) && tr[i + 1] == StepNext(tr[i], steps[i])
  }

  // ---------------------------------------------------------------------
  // What the queues see
  // ---------------------------------------------------------------------

  /** What a step of the pending report for n looks like from another queue. */
  function PendingSeen(n: nat, a: Action): Action
    requires OfPending(a)
  {
    match a
    case PendingLock(_) => ForeignLock(n)
    case PendingSkip(_) => ForeignUnlock(n, Some(true))
    case PendingCall(_) => ForeignStep
    case PendingOk(_) => ForeignUnlock(n, Some(true))
    case PendingFail(_) => ForeignStep
    case PendingGiveUp(_) => ForeignUnlock(n, None)
  }

  /** What a step of the success report for n looks like from another queue. */
  function SuccessSeen(n: nat, a: Action): Action
    requires OfSuccess(a)
  {
    match a
    case SuccessWant => ForeignStep
    case SuccessLock => ForeignLock(n)
    case SuccessSkip => ForeignUnlock(n, None)
    case SuccessCall => ForeignStep
    case SuccessOk => ForeignUnlock(n, Some(false))
    case SuccessFail => ForeignStep
    case SuccessGiveUp => ForeignUnlock(n, None)
  }

  ghost function FromOutside(s: State, a: Action): Action
    requires Enabled(s, a)
  {
    if OfPending(a) then PendingSeen(ProcOf(s.procs, a.agent).pr, a)
    else if OfSuccess(a) then SuccessSeen(s.worker.pr, a)
    else ForeignStep
  }

  /** The statuses before and after a step that looks like f from outside. */
  ghost predicate StatusMove(s: Statuses, f: Action, t: Statuses) {
    match f
    case ForeignLock(n) => n !in s.holder && exists g :: t == s.(holder := s.holder[n := Local(g)])
    case ForeignUnlock(n, reported) => n in s.holder && s.holder[n].Local? && t == Release(s, n, reported)
    case _ => f == ForeignStep && t == s
  }

  lemma PendingReleases(s: State, a: Action)
    requires OfPending(a) && PendingEnabled(s, a)
    ensures var n := ProcOf(s.procs, a.agent).pr;
            && (a.PendingSkip? || a.PendingOk? ==> NextPending(s, a).st == Release(s.st, n, Some(true)))
            && (a.PendingGiveUp? ==> NextPending(s, a).st == Release(s.st, n, None))
            && (a.PendingCall? || a.PendingFail? ==> NextPending(s, a).st == s.st)
            && (a.PendingLock? ==> NextPending(s, a).st == s.st.(holder := s.st.holder[n := Local(a.agent)]))
  {
    hide FirstAfter;
  }

  lemma StatusPending(s: State, a: Action)
    requires OfPending(a) && PendingEnabled(s, a) && LockOk(s.st, ProcOf(s.procs, a.agent), a.agent)
    ensures StatusMove(s.st, PendingSeen(ProcOf(s.procs, a.agent).pr, a), NextPending(s, a).st)
  {
    hide NextPending;
    hide Release;
    PendingReleases(s, a);
  }

  lemma StatusSuccess(s: State, a: Action)
    requires OfSuccess(a) && SuccessEnabled(s, a)
    requires StatusPhase(s.worker) ==> s.worker.pr in s.st.holder && s.st.holder[s.worker.pr] == Local(TheWorker)
    ensures StatusMove(s.st, SuccessSeen(s.worker.pr, a), NextSuccess(s, a).st)
  {
  }

  lemma StatusOthers(s: State, a: Action)
    requires Enabled(s, a) && !OfPending(a) && !OfSuccess(a) && !OfForeign(a)
    ensures Next(s, a).st == s.st
  {
    hide NextFiling;
    hide NextControl;
    hide NextRemoval;
    hide NextLabel;
    hide NextHead;
    hide NextWorker;
    hide FilingEnabled;
    hide ControlEnabled;
    hide RemovalEnabled;
    hide LabelEnabled;
    hide HeadEnabled;
    hide WorkerEnabled;
    if OfFiling(a) {
      FilingFrame(s, a);
    } else if OfControl(a) {
      ControlFrame(s, a);
    } else if OfRemoval(a) {
      StatusRemoval(s, a);
    } else if OfLabel(a) {
      LabelFrame(s, a);
    } else if OfHead(a) {
      HeadFrame(s, a);
    } else {
      WorkerFrame(s, a);
    }
  }

  lemma StatusRemoval(s: State, a: Action)
    requires OfRemoval(a) && RemovalEnabled(s, a)
    ensures NextRemoval(s, a).st == s.st
  {
    hide SetActive;
    hide Without;
  }

  lemma NextStatusPending(s: State, a: Action)
    requires Locks(s.st, s.worker, s.procs) && Enabled(s, a) && OfPending(a)
    ensures StatusMove(s.st, FromOutside(s, a), Next(s, a).st)
  {
    hide StatusMove;
    hide PendingSeen;
    hide NextPending;
    hide PendingEnabled;
    assert LockOk(s.st, ProcOf(s.procs, a.agent), a.agent);
    hide Locks;
    hide LockOk;
    StatusPending(s, a);
  }

  lemma NextStatusSuccess(s: State, a: Action)
    requires Locks(s.st, s.worker, s.procs) && Enabled(s, a) && OfSuccess(a)
    ensures StatusMove(s.st, FromOutside(s, a), Next(s, a).st)
  {
    hide StatusMove;
    hide SuccessSeen;
    hide NextSuccess;
    hide SuccessEnabled;
    StatusSuccess(s, a);
    hide Locks;
  }

  lemma NextStatus(s: State, a: Action)
    requires Locks(s.st, s.worker, s.procs) && Enabled(s, a) && !OfForeign(a)
    ensures StatusMove(s.st, FromOutside(s, a), Next(s, a).st)
  {
    hide StatusMove;
    hide Next;
    hide Enabled;
    hide Locks;
    if OfPending(a) {
      NextStatusPending(s, a);
    } else if OfSuccess(a) {
      NextStatusSuccess(s, a);
    } else {
      StatusOthers(s, a);
      StatusStays(s.st);
    }
  }

  lemma StatusStays(st: Statuses)
    ensures StatusMove(st, ForeignStep, st)
  {
  }

  lemma OwnMove(holder: map<nat, Owner>, b: nat, lastPending: set<nat>, f: Action, t: Statuses)
    requires StatusMove(Statuses(SeenFrom(holder, b), lastPending), f, t)
    ensures SeenFrom(OwnersAfter(holder, b, t.holder), b) == t.holder
  {
  }

  /** The step of queue b, as queue b itself sees it. */
  lemma OwnView(s: System, x: Step)
    requires StepEnabled(s, x) && Locks(View(s, x.queue).st, View(s, x.queue).worker, View(s, x.queue).procs)
    ensures View(StepNext(s, x), x.queue) == Next(View(s, x.queue), x.action)
  {
    var b := x.queue;
    hide Enabled;
    hide Next;
    hide Locks;
    hide FromOutside;
    NextStatus(View(s, b), x.action);
    OwnMove(s.holder, b, s.lastPending, FromOutside(View(s, b), x.action), Next(View(s, b), x.action).st);
    hide StatusMove;
    hide SeenFrom;
    hide OwnersAfter;
  }

  /** The step of queue b, as another queue c sees it. */
  lemma OtherView(s: System, x: Step, c: nat)
    requires StepEnabled(s, x) && Locks(View(s, x.queue).st, View(s, x.queue).worker, View(s, x.queue).procs)
    requires c < |s.queues| && c != x.queue
    ensures var f := FromOutside(View(s, x.queue), x.action);
            Enabled(View(s, c), f) && View(StepNext(s, x), c) == Next(View(s, c), f)
  {
    var b := x.queue;
    hide Enabled;
    hide Next;
    hide Locks;
    hide FromOutside;
    hide SeenFrom;
    hide OwnersAfter;
    hide StatusMove;
    hide NextForeign;
    hide ForeignEnabled;
    NextStatus(View(s, b), x.action);
    var f := FromOutside(View(s, b), x.action);
    SharedMove(View(s, c), s.holder, b, c, s.lastPending, f, Next(View(s, b), x.action).st);
    ForeignNext(View(s, c), f);
  }

  lemma ForeignNext(s: State, f: Action)
    requires OfForeign(f) && ForeignEnabled(s, f)
    ensures Enabled(s, f) && Next(s, f) == NextForeign(s, f)
  {
    hide NextForeign;
    hide ForeignEnabled;
  }

  lemma SharedLock(holder: map<nat, Owner>, b: nat, c: nat, n: nat, g: Agent)
    requires b != c && n !in holder
    ensures SeenFrom(OwnersAfter(holder, b, SeenFrom(holder, b)[n := Local(g)]), c) == SeenFrom(holder, c)[n := Foreign]
  {
  }

  lemma SharedRelease(holder: map<nat, Owner>, b: nat, c: nat, n: nat)
    requires b != c
    ensures SeenFrom(OwnersAfter(holder, b, SeenFrom(holder, b) - {n}), c) == SeenFrom(holder, c) - {n}
  {
  }

  lemma SharedSame(holder: map<nat, Owner>, b: nat, c: nat)
    ensures SeenFrom(OwnersAfter(holder, b, SeenFrom(holder, b)), c) == SeenFrom(holder, c)
  {
  }

  lemma SeenMembers(holder: map<nat, Owner>, b: nat, c: nat, n: nat)
    requires b != c
    ensures n in SeenFrom(holder, b) <==> n in holder
    ensures n in SeenFrom(holder, c) <==> n in holder
    ensures n in holder && SeenFrom(holder, b)[n].Local? ==> SeenFrom(holder, c)[n] == Foreign
  {
  }

  lemma SharedMove(s: State, holder: map<nat, Owner>, b: nat, c: nat, lastPending: set<nat>, f: Action, t: Statuses)
    requires b != c && StatusMove(Statuses(SeenFrom(holder, b), lastPending), f, t)
    requires s.st == Statuses(SeenFrom(holder, c), lastPending)
    ensures OfForeign(f) && ForeignEnabled(s, f)
    ensures NextForeign(s, f) == s.(st := Statuses(SeenFrom(OwnersAfter(holder, b, t.holder), c), t.lastPending))
  {
    if f.ForeignLock? {
      var g :| t == Statuses(SeenFrom(holder, b)[f.pr := Local(g)], lastPending);
      SeenMembers(holder, b, c, f.pr);
      SharedLock(holder, b, c, f.pr, g);
    } else if f.ForeignUnlock? {
      SeenMembers(holder, b, c, f.pr);
      SharedRelease(holder, b, c, f.pr);
    } else {
      SharedSame(holder, b, c);
    }
    hide SeenFrom;
    hide OwnersAfter;
  }

  // ---------------------------------------------------------------------
  // Every queue runs by its own protocol
  // ---------------------------------------------------------------------

  ghost predicate ViewInv(s: State) {
    Inv(s) && LabelsInv(s)
  }

  ghost predicate SystemInv(s: System) {
    forall c: nat :: c < |s.queues| ==> ViewInv(View(s, c))
  }

  /** The step of the system as queue c sees it. */
  ghost function Seen(s: System, x: Step, c: nat): Action
    requires StepEnabled(s, x)
  {
    if c == x.queue then x.action else FromOutside(View(s, x.queue), x.action)
  }

  lemma ViewLocks(s: System, b: nat)
    requires SystemInv(s) && b < |s.queues|
    ensures Locks(View(s, b).st, View(s, b).worker, View(s, b).procs)
  {
    assert ViewInv(View(s, b));
    hide Locks;
    hide SystemInv;
  }

  /** A step of the system is a step of the protocol for every queue. */
  lemma ViewStep(s: System, x: Step, c: nat)
    requires SystemInv(s) && StepEnabled(s, x) && c < |s.queues|
    ensures Enabled(View(s, c), Seen(s, x, c)) && View(StepNext(s, x), c) == Next(View(s, c), Seen(s, x, c))
  {
    hide Enabled;
    hide Next;
    hide Locks;
    hide FromOutside;
    ViewLocks(s, x.queue);
    hide SystemInv;
    if c == x.queue {
      OwnView(s, x);
    } else {
      OtherView(s, x, c);
    }
    hide View;
  }

  lemma NextViewInv(s: State, a: Action)
    requires ViewInv(s) && Enabled(s, a)
    ensures ViewInv(Next(s, a))
  {
    hide Enabled;
    hide Next;
    hide Inv;
    hide LabelsInv;
    NextInv(s, a);
    NextLabelsInv(s, a);
  }

  lemma NextSystemInv(s: System, x: Step)
    requires SystemInv(s) && StepEnabled(s, x)
    ensures SystemInv(StepNext(s, x))
  {
    hide Enabled;
    hide Next;
    hide ViewInv;
    hide View;
    hide FromOutside;
    forall c: nat | c < |s.queues|
      ensures ViewInv(View(StepNext(s, x), c))
    {
      ViewStep(s, x, c);
      NextViewInv(View(s, c), Seen(s, x, c));
    }
  }

  lemma StartInv(count: nat)
    ensures SystemInv(Start(count))
  {
    forall c: nat | c < count
      ensures ViewInv(View(Start(count), c))
    {
      StartView(count, c);
      InitInv();
      InitLabelsInv();
    }
  }

  lemma StartView(count: nat, c: nat)
    requires c < count
    ensures View(Start(count), c) == Init()
  {
    assert SeenFrom(map[], c) == map[];
  }

  lemma {:induction false} TraceSystemInv(tr: seq<System>, steps: seq<Step>, count: nat, k: nat)
    requires IsSystemTrace(tr, steps, count) && k <= |steps|
    ensures SystemInv(tr[k])
  {
    hide SystemInv;
    hide StepEnabled;
    hide StepNext;
    if k == 0 {
      StartInv(count);
    } else {
      TraceSystemInv(tr, steps, count, k - 1);
      NextSystemInv(tr[k - 1], steps[k - 1]);
    }
  }

  /**
   What any queue sees of a run of the system is a run of the protocol, so all
   that holds for the runs of one queue holds for every queue among others.
   */
  lemma ViewIsTrace(tr: seq<System>, steps: seq<Step>, count: nat, c: nat) returns (seen: seq<State>, acts: seq<Action>)
    requires IsSystemTrace(tr, steps, count) && c < count
    ensures IsTrace(seen, acts) && |seen| == |tr| && |acts| == |steps|
    ensures forall i {:trigger seen[i]} {:trigger tr[i]} :: 0 <= i < |tr| ==> seen[i] == View(tr[i], c)
    ensures forall i {:trigger acts[i]} {:trigger steps[i]} :: 0 <= i < |steps| ==> acts[i] == Seen(tr[i], steps[i], c)
  {
    hide StepEnabled;
    hide StepNext;
    hide View;
    hide Seen;
    hide Enabled;
    hide Next;
    seen := seq(|tr|, i requires 0 <= i < |tr| => View(tr[i], c));
    acts := seq(|steps|, i requires 0 <= i < |steps| => Seen(tr[i], steps[i], c));
    StartView(count, c);
    forall i | 0 <= i < |acts|
      ensures Enabled(seen[i], acts[i]) && seen[i + 1] == Next(seen[i], acts[i])
    {
      TraceSystemInv(tr, steps, count, i);
      ViewStep(tr[i], steps[i], c);
    }
  }

  // ---------------------------------------------------------------------
  // A pull request is in one queue
  // ---------------------------------------------------------------------

  lemma UncancelledRemoval(s: State, a: Action, g: Agent, n: nat)
    requires OfRemoval(a) && RemovalEnabled(s, a) && a.agent == g && Uncancelled(ProcOf(NextRemoval(s, a).procs, g), n)
    ensures Uncancelled(ProcOf(s.procs, g), n) || n in s.q.active
  {
    hide SetActive;
    hide Without;
  }

  lemma CancelledLabel(s: State, a: Action, n: nat)
    requires OfLabel(a) && LabelEnabled(s, a)
    ensures !Uncancelled(ProcOf(NextLabel(s, a).procs, a.agent), n)
  {
    LabelFrame(s, a);
    hide NextLabel;
    hide LabelEnabled;
  }

  lemma CancelledPending(s: State, a: Action, n: nat)
    requires OfPending(a) && PendingEnabled(s, a)
    ensures !Uncancelled(ProcOf(NextPending(s, a).procs, a.agent), n)
  {
    PendingFrame(s, a);
    hide NextPending;
    hide PendingEnabled;
  }

  lemma UncancelledOfRemoval(s: State, a: Action, n: nat)
    requires Enabled(s, a) && OfRemoval(a) && Uncancelled(ProcOf(Next(s, a).procs, a.agent), n)
    ensures Uncancelled(ProcOf(s.procs, a.agent), n) || n in s.q.active
  {
    UncancelledRemoval(s, a, a.agent, n);
    hide NextRemoval;
    hide RemovalEnabled;
  }

  lemma CancelledOwn(s: State, a: Action, n: nat)
    requires Enabled(s, a) && (OfLabel(a) || OfPending(a))
    ensures !Uncancelled(ProcOf(Next(s, a).procs, a.agent), n)
  {
    hide Uncancelled;
    hide NextLabel;
    hide LabelEnabled;
    hide NextPending;
    hide PendingEnabled;
    if OfLabel(a) {
      CancelledLabel(s, a, n);
    } else {
      CancelledPending(s, a, n);
    }
  }

  /** A removal that has not cancelled yet is of one that was in the active queue. */
  lemma UncancelledCame(s: State, a: Action, g: Agent, n: nat)
    requires Enabled(s, a) && Uncancelled(ProcOf(Next(s, a).procs, g), n)
    ensures Uncancelled(ProcOf(s.procs, g), n) || n in s.q.active
  {
    hide Next;
    hide Enabled;
    if OfRemoval(a) && a.agent == g {
      UncancelledOfRemoval(s, a, n);
    } else if !ProcOf(s.procs, g).Removal? {
      NextMove(s, a);
      hide EntriesMove;
      hide ControlMove;
      assert ProcMove(a, g, ProcOf(s.procs, g), ProcOf(Next(s, a).procs, g));
    } else if OwnStep(a, g) {
      CancelledOwn(s, a, n);
    } else {
      OthersLeaveRemovals(s, a, g);
    }
  }

  /** Only Enqueue gives a queue what it does not have. */
  lemma NextHas(s: State, a: Action, n: nat)
    requires Inv(s) && Enabled(s, a) && Has(Next(s, a), n)
    ensures Has(s, n) || (a.Enqueue? && a.pr == n)
  {
    hide Next;
    hide Enabled;
    hide Inv;
    hide Uncancelled;
    NextTracked(s, a, n);
    if !Tracked(Next(s, a), n) {
      var g :| Uncancelled(ProcOf(Next(s, a).procs, g), n);
      UncancelledCame(s, a, g, n);
    }
  }

  /** No two queues have the same pull request. */
  ghost predicate Exclusive(s: System) {
    forall b: nat, c: nat, n: nat ::
      b < |s.queues| && c < |s.queues| && b != c ==> !(Has(View(s, b), n) && Has(View(s, c), n))
  }

  lemma NextExclusive(s: System, x: Step)
    requires SystemInv(s) && Exclusive(s) && StepEnabled(s, x)
    ensures Exclusive(StepNext(s, x))
  {
    hide Enabled;
    hide Next;
    hide Inv;
    hide LabelsInv;
    hide Has;
    hide View;
    var t := StepNext(s, x);
    forall b: nat, c: nat, n: nat | b < |s.queues| && c < |s.queues| && b != c
      ensures !(Has(View(t, b), n) && Has(View(t, c), n))
    {
      if Has(View(t, b), n) && Has(View(t, c), n) {
        SystemHas(s, x, b, n);
        SystemHas(s, x, c, n);
      }
    }
  }

  lemma SystemHas(s: System, x: Step, c: nat, n: nat)
    requires SystemInv(s) && StepEnabled(s, x) && c < |s.queues| && Has(View(StepNext(s, x), c), n)
    ensures Has(View(s, c), n) || (x.queue == c && x.action.Enqueue? && x.action.pr == n)
  {
    hide Enabled;
    hide Next;
    hide Inv;
    hide LabelsInv;
    hide Has;
    hide View;
    ViewStep(s, x, c);
    assert ViewInv(View(s, c));
    NextHas(View(s, c), Seen(s, x, c), n);
  }

  lemma StartExclusive(count: nat)
    ensures Exclusive(Start(count))
  {
    forall b: nat, n: nat | b < count
      ensures !Has(View(Start(count), b), n)
    {
      StartView(count, b);
    }
  }

  /** In every state of every run a pull request is in at most one queue. */
  lemma {:induction false} TraceExclusive(tr: seq<System>, steps: seq<Step>, count: nat, k: nat)
    requires IsSystemTrace(tr, steps, count) && k <= |steps|
    ensures Exclusive(tr[k])
  {
    hide Exclusive;
    hide StepEnabled;
    hide StepNext;
    if k == 0 {
      StartExclusive(count);
    } else {
      TraceExclusive(tr, steps, count, k - 1);
      TraceSystemInv(tr, steps, count, k - 1);
      NextExclusive(tr[k - 1], steps[k - 1]);
    }
  }

  /** n is in the hands of the Dequeue of g at most. */
  ghost predicate TakenBy(s: State, g: Agent, n: nat) {
    !Tracked(s, n) && forall h :: h != g ==> !Uncancelled(ProcOf(s.procs, h), n)
  }

  lemma RemoveSectionTakes(s: State, g: Agent, n: nat, report: bool)
    requires Inv(s) && Enabled(s, Remove(g, n, report, false)) && forall h :: ProcOf(s.procs, h) != InFlight(n)
    ensures !Tracked(RemoveSection(s, g, n, report, false), n)
  {
    var t := RemoveSection(s, g, n, report, false);
    SettledRemoveSection(s, g, n, report, false, n);
    forall h
      ensures ProcOf(t.procs, h) != InFlight(n)
    {
      assert ProcOf(s.procs, h) != InFlight(n);
    }
    hide Locks;
    hide Gauged;
    hide Owed;
    hide Epochs;
    hide Gone;
    hide Barred;
    hide Quiet;
    hide SetActive;
    hide Without;
  }

  lemma RemoveTakes(s: State, a: Action)
    requires Inv(s) && Enabled(s, a) && a.Remove? && !a.suspending
    requires forall h :: ProcOf(s.procs, h) != InFlight(a.pr)
    requires forall h :: h != a.agent ==> !Uncancelled(ProcOf(s.procs, h), a.pr)
    ensures TakenBy(Next(s, a), a.agent, a.pr)
  {
    RemoveSectionTakes(s, a.agent, a.pr, a.report);
    forall h | h != a.agent
      ensures ProcOf(Next(s, a).procs, h) == ProcOf(s.procs, h)
    {
      RemovesOwn(s, a, h);
    }
    hide Inv;
    hide RemoveSection;
  }

  lemma RemovesOwn(s: State, a: Action, h: Agent)
    requires a.Remove? && h != a.agent
    ensures ProcOf(RemoveSection(s, a.agent, a.pr, a.report, a.suspending).procs, h) == ProcOf(s.procs, h)
  {
    hide SetActive;
    hide Without;
  }

  lemma TakenStays(s: State, a: Action, g: Agent, n: nat)
    requires Inv(s) && Enabled(s, a) && TakenBy(s, g, n) && !(a.Enqueue? && a.pr == n)
    ensures TakenBy(Next(s, a), g, n)
  {
    hide Inv;
    hide Enabled;
    hide Next;
    hide Uncancelled;
    NextTracked(s, a, n);
    forall h | h != g
      ensures !Uncancelled(ProcOf(Next(s, a).procs, h), n)
    {
      if Uncancelled(ProcOf(Next(s, a).procs, h), n) {
        UncancelledCame(s, a, h, n);
      }
    }
    hide Tracked;
  }

  lemma SeenEnqueue(s: System, x: Step, c: nat)
    requires StepEnabled(s, x)
    ensures Seen(s, x, c).Enqueue? ==> x.queue == c && Seen(s, x, c) == x.action
  {
  }

  lemma TakenStaysSeen(s: System, x: Step, b: nat, g: Agent, n: nat)
    requires SystemInv(s) && StepEnabled(s, x) && b < |s.queues| && TakenBy(View(s, b), g, n)
    requires !(x.action.Enqueue? && x.action.pr == n)
    ensures TakenBy(View(StepNext(s, x), b), g, n)
  {
    hide Inv;
    hide LabelsInv;
    hide Enabled;
    hide Next;
    hide TakenBy;
    hide View;
    hide Seen;
    ViewStep(s, x, b);
    SeenEnqueue(s, x, b);
    assert ViewInv(View(s, b));
    TakenStays(View(s, b), Seen(s, x, b), g, n);
  }

  /** No step of the run up to k, from i on, enqueues n anywhere. */
  predicate NoEnqueue(steps: seq<Step>, i: nat, k: nat, n: nat)
    requires k <= |steps|
  {
    forall m :: i <= m < k ==> !(steps[m].action.Enqueue? && steps[m].action.pr == n)
  }

  lemma {:induction false} TakenPersists(tr: seq<System>, steps: seq<Step>, count: nat, i: nat, k: nat,
                                         b: nat, g: Agent, n: nat)
    requires IsSystemTrace(tr, steps, count) && i <= k <= |steps| && b < count && NoEnqueue(steps, i, k, n)
    requires TakenBy(View(tr[i], b), g, n)
    ensures TakenBy(View(tr[k], b), g, n)
  {
    hide StepEnabled;
    hide StepNext;
    hide TakenBy;
    hide View;
    if k > i {
      TakenPersists(tr, steps, count, i, k - 1, b, g, n);
      TraceSystemInv(tr, steps, count, k - 1);
      hide SystemInv;
      TakenStaysSeen(tr[k - 1], steps[k - 1], b, g, n);
    }
  }

  lemma {:induction false} AbsencePersists(tr: seq<System>, steps: seq<Step>, count: nat, i: nat, k: nat, c: nat,
                                           n: nat)
    requires IsSystemTrace(tr, steps, count) && i <= k <= |steps| && c < count && NoEnqueue(steps, i, k, n)
    requires !Has(View(tr[i], c), n)
    ensures !Has(View(tr[k], c), n)
  {
    hide StepEnabled;
    hide StepNext;
    hide Has;
    hide View;
    if k > i {
      AbsencePersists(tr, steps, count, i, k - 1, c, n);
      TraceSystemInv(tr, steps, count, k - 1);
      hide SystemInv;
      if Has(View(tr[k], c), n) {
        SystemHas(tr[k - 1], steps[k - 1], c, n);
      }
    }
  }

  /** Queue b knows n, and nobody but g has it in hands. */
  ghost predicate OnlyKnown(s: State, g: Agent, n: nat) {
    && Tracked(s, n)
    && (forall h :: ProcOf(s.procs, h) != InFlight(n))
    && (forall h :: h != g ==> !Uncancelled(ProcOf(s.procs, h), n))
  }

  lemma RemoveTakesSeen(s: System, x: Step, n: nat)
    requires SystemInv(s) && StepEnabled(s, x)
    requires x.action.Remove? && !x.action.suspending && x.action.pr == n
             && OnlyKnown(View(s, x.queue), x.action.agent, n)
    ensures TakenBy(View(StepNext(s, x), x.queue), x.action.agent, n)
  {
    hide Inv;
    hide LabelsInv;
    hide Enabled;
    hide Next;
    hide TakenBy;
    hide View;
    ViewStep(s, x, x.queue);
    assert ViewInv(View(s, x.queue));
    RemoveTakes(View(s, x.queue), x.action);
  }

  lemma NotTaken(s: State, g: Agent, n: nat)
    requires TakenBy(s, g, n) && ProcOf(s.procs, g) == Free
    ensures !Has(s, n)
  {
    hide Tracked;
  }

  /**
   ChangeBaseBranch can enqueue what it has dequeued: once the Dequeue of n in queue
   b has returned, no queue has n, if nobody enqueued it in the meantime.
   */
  lemma DequeuedIsFree(tr: seq<System>, steps: seq<Step>, count: nat, i: nat, j: nat, b: nat, g: Agent, n: nat, c: nat)
    requires IsSystemTrace(tr, steps, count) && i < j <= |steps| && b < count && c < count
    requires steps[i].queue == b && OnlyKnown(View(tr[i], b), g, n)
    requires var a := steps[i].action; a.Remove? && a.agent == g && a.pr == n && !a.suspending
    requires ProcOf(View(tr[j], b).procs, g) == Free && NoEnqueue(steps, i + 1, j, n)
    ensures !Has(View(tr[j], c), n)
  {
    hide StepEnabled;
    hide StepNext;
    hide View;
    hide TakenBy;
    TraceSystemInv(tr, steps, count, i);
    if c == b {
      RemoveTakesSeen(tr[i], steps[i], n);
      TakenPersists(tr, steps, count, i + 1, j, b, g, n);
      NotTaken(View(tr[j], b), g, n);
    } else {
      TraceExclusive(tr, steps, count, i);
      assert Has(View(tr[i], b), n);
      AbsencePersists(tr, steps, count, i, j, c, n);
    }
    hide Has;
    hide SystemInv;
  }

  // ---------------------------------------------------------------------
  // The cancel handshake across queues
  // ---------------------------------------------------------------------

  /** A queue that does not have n has no run for n under a good context, and n is not its first one. */
  lemma NotHot(s: State, n: nat)
    requires Led(s.q, s.c, s.worker, s.procs) && !Has(s, n)
    ensures !Hot(s.c, s.worker, n) && Head(s.q.active) != Some(n)
  {
    hide InRun;
  }

  lemma ColdMove(s: State, a: Action, n: nat)
    requires Enabled(s, a) && !Hot(s.c, s.worker, n) && Head(s.q.active) != Some(n)
    ensures !Hot(Next(s, a).c, Next(s, a).worker, n)
  {
    hide Enabled;
    hide Next;
    hide InRun;
    NextRunMove(s, a);
  }

  lemma {:induction false} ColdPersists(tr: seq<State>, acts: seq<Action>, i: nat, k: nat, n: nat)
    requires IsTrace(tr, acts) && i <= k <= |acts| && !Hot(tr[i].c, tr[i].worker, n)
    requires Head(tr[i].q.active) != Some(n) && NeverFirst(tr, i, k, n)
    ensures !Hot(tr[k].c, tr[k].worker, n)
  {
    hide Enabled;
    hide Next;
    hide Hot;
    if k > i {
      ColdPersists(tr, acts, i, k - 1, n);
      ColdMove(tr[k - 1], acts[k - 1], n);
    }
  }

  /** A success report goes on, or one starts under the context of the run. */
  predicate ReportMove(s: State, a: Action, t: State) {
    t.worker.Reporting? ==>
      || t.worker == s.worker
      || (a.SuccessCall? && InRun(s.worker)
          && t.worker == Reporting(s.worker.pr, s.worker.ctx, s.worker.ctx in s.c.cancelled))
  }

  lemma ReportSuccess(s: State, a: Action)
    requires OfSuccess(a) && SuccessEnabled(s, a)
    ensures ReportMove(s, a, NextSuccess(s, a))
  {
  }

  lemma ReportHead(s: State, a: Action)
    requires OfHead(a) && HeadEnabled(s, a)
    ensures ReportMove(s, a, NextHead(s, a))
  {
  }

  lemma ReportWorker(s: State, a: Action)
    requires OfWorker(a) && WorkerEnabled(s, a)
    ensures ReportMove(s, a, NextWorker(s, a))
  {
  }

  lemma ReportRemoval(s: State, a: Action)
    requires OfRemoval(a) && RemovalEnabled(s, a)
    ensures NextRemoval(s, a).worker == s.worker
  {
    hide SetActive;
    hide Without;
  }

  lemma NextReport(s: State, a: Action)
    requires Enabled(s, a)
    ensures ReportMove(s, a, Next(s, a))
  {
    hide NextFiling;
    hide NextControl;
    hide NextRemoval;
    hide NextLabel;
    hide NextPending;
    hide NextSuccess;
    hide NextHead;
    hide NextForeign;
    hide NextWorker;
    hide FilingEnabled;
    hide ControlEnabled;
    hide RemovalEnabled;
    hide LabelEnabled;
    hide PendingEnabled;
    hide SuccessEnabled;
    hide HeadEnabled;
    hide ForeignEnabled;
    hide WorkerEnabled;
    if OfFiling(a) {
      FilingFrame(s, a);
    } else if OfControl(a) {
      ControlFrame(s, a);
    } else if OfRemoval(a) {
      ReportRemoval(s, a);
    } else if OfLabel(a) {
      LabelFrame(s, a);
    } else if OfPending(a) {
      PendingFrame(s, a);
    } else if OfSuccess(a) {
      ReportSuccess(s, a);
    } else if OfHead(a) {
      ReportHead(s, a);
    } else if OfForeign(a) {
      ForeignFrame(s, a);
    } else {
      ReportWorker(s, a);
    }
  }

  lemma SilentMove(s: State, a: Action, n: nat)
    requires Enabled(s, a) && !Hot(s.c, s.worker, n) && !SuccessUnderWay(s.worker, n)
    ensures !SuccessUnderWay(Next(s, a).worker, n)
  {
    NextReport(s, a);
    hide Enabled;
    hide Next;
  }

  lemma {:induction false} SilentPersists(tr: seq<State>, acts: seq<Action>, i: nat, j: nat, k: nat, n: nat)
    requires IsTrace(tr, acts) && i <= j <= k <= |acts| && !Hot(tr[i].c, tr[i].worker, n)
    requires Head(tr[i].q.active) != Some(n) && NeverFirst(tr, i, k, n)
    requires !SuccessUnderWay(tr[j].worker, n)
    ensures !SuccessUnderWay(tr[k].worker, n)
  {
    hide Enabled;
    hide Next;
    hide Hot;
    hide SuccessUnderWay;
    if k > j {
      SilentPersists(tr, acts, i, j, k - 1, n);
      ColdPersists(tr, acts, i, k - 1, n);
      SilentMove(tr[k - 1], acts[k - 1], n);
    }
  }

  predicate IsOf(p: Proc, n: nat) {
    p.Removal? ==> p.pr == n
  }

  lemma {:induction false} RemovalStays(tr: seq<State>, acts: seq<Action>, i: nat, k: nat, g: Agent, n: nat)
    requires IsTrace(tr, acts) && RemovesAt(tr, acts, i, g, n) && i < k <= |acts|
    requires forall m :: i < m < k ==> !(acts[m].Remove? && acts[m].agent == g)
    ensures IsOf(ProcOf(tr[k].procs, g), n)
  {
    hide Enabled;
    hide Next;
    hide EntriesMove;
    hide ControlMove;
    if k == i + 1 {
      TraceInv(tr, acts, i);
      RemovalBegins(tr[i], acts[i]);
    } else {
      RemovalStays(tr, acts, i, k - 1, g, n);
      TraceMove(tr, acts, k - 1);
      assert ProcMove(acts[k - 1], g, ProcOf(tr[k - 1].procs, g), ProcOf(tr[k].procs, g));
    }
  }

  /** While a removal in queue b ends its report for n, no other queue reports for n. */
  lemma ReportExcludes(s: System, b: nat, c: nat, g: Agent, n: nat)
    requires SystemInv(s) && b < |s.queues| && c < |s.queues| && b != c
    requires var p := ProcOf(View(s, b).procs, g);
             p.Removal? && p.pr == n && (p.stage == Holding || p.stage == InCall)
    ensures !SuccessUnderWay(View(s, c).worker, n)
  {
    ViewLocks(s, b);
    ViewLocks(s, c);
    hide SystemInv;
    assert LockOk(View(s, b).st, ProcOf(View(s, b).procs, g), g);
    SeenMembers(s.holder, b, c, n);
    hide HolderOk;
  }

  /** Agent g of queue b removes n from its active queue at step i. */
  ghost predicate RemovesFrom(tr: seq<System>, steps: seq<Step>, i: nat, b: nat, g: Agent, n: nat)
    requires |tr| == |steps| + 1
  {
    && i < |steps| && b < |tr[i].queues|
    && steps[i].queue == b && steps[i].action.Remove?
    && steps[i].action.agent == g && steps[i].action.pr == n
    && n in tr[i].queues[b].q.active
  }

  /** Agent g of queue b begins a removal with the step. */
  predicate BeginsRemoval(x: Step, b: nat, g: Agent) {
    x.queue == b && x.action.Remove? && x.action.agent == g
  }

  /**
   The cancel handshake across queues, in every interleaving.  Agent g removes n
   from the active queue of b at step i and the pending report of that removal
   succeeds at step j.  If a success report for n succeeds in any queue c at a later
   step k, then n was first in the active queue of c in between.
   */
  lemma CancelHandshake(tr: seq<System>, steps: seq<Step>, count: nat, i: nat, j: nat, k: nat,
                        b: nat, g: Agent, c: nat, n: nat)
    requires IsSystemTrace(tr, steps, count) && i < j < k < |steps| && b < count && c < count
    requires RemovesFrom(tr, steps, i, b, g, n)
    requires forall m :: i < m < j ==> !BeginsRemoval(steps[m], b, g)
    requires steps[j] == Step(b, PendingOk(g)) || steps[j] == Step(b, PendingSkip(g))
    requires steps[k] == Step(c, SuccessOk) && tr[k].queues[c].worker.Reporting? && tr[k].queues[c].worker.pr == n
    ensures exists m :: i < m <= k && Head(tr[m].queues[c].q.active) == Some(n)
  {
    if b == c {
      CancelHandshakeWithin(tr, steps, count, i, j, k, b, g, n);
    } else {
      CancelHandshakeAcross(tr, steps, count, i, j, k, b, g, c, n);
    }
  }

  lemma SeenRemoval(s: System, x: Step, b: nat, g: Agent)
    requires StepEnabled(s, x)
    ensures (Seen(s, x, b).Remove? && Seen(s, x, b).agent == g) <==> BeginsRemoval(x, b, g)
    ensures x.queue == b ==> Seen(s, x, b) == x.action
  {
  }

  /** The removal as queue b itself sees it. */
  lemma ViewOfRemoval(tr: seq<System>, steps: seq<Step>, count: nat, i: nat, j: nat, b: nat, g: Agent, n: nat)
      returns (seen: seq<State>, acts: seq<Action>)
    requires IsSystemTrace(tr, steps, count) && i < j < |steps| && b < count
    requires RemovesFrom(tr, steps, i, b, g, n)
    requires forall m :: i < m < j ==> !BeginsRemoval(steps[m], b, g)
    ensures IsTrace(seen, acts) && |seen| == |tr| && |acts| == |steps|
    ensures forall m {:trigger seen[m]} {:trigger tr[m]} :: 0 <= m < |tr| ==> seen[m] == View(tr[m], b)
    ensures forall m {:trigger acts[m]} {:trigger steps[m]} ::
              0 <= m < |steps| && steps[m].queue == b ==> acts[m] == steps[m].action
    ensures RemovesAt(seen, acts, i, g, n) && forall m :: i < m < j ==> !(acts[m].Remove? && acts[m].agent == g)
  {
    hide StepEnabled;
    hide StepNext;
    hide IsTrace;
    seen, acts := ViewIsTrace(tr, steps, count, b);
    forall m | 0 <= m < |steps|
      ensures steps[m].queue == b ==> acts[m] == steps[m].action
      ensures (acts[m].Remove? && acts[m].agent == g) <==> BeginsRemoval(steps[m], b, g)
    {
      SeenRemoval(tr[m], steps[m], b, g);
    }
    hide Seen;
    assert seen[i] == View(tr[i], b);
  }

  lemma FirstInView(tr: seq<System>, seen: seq<State>, count: nat, i: nat, k: nat, c: nat, n: nat)
    requires |seen| == |tr| && k < |tr| && c < count && (forall m :: 0 <= m < |tr| ==> |tr[m].queues| == count)
    requires forall m {:trigger seen[m]} {:trigger tr[m]} :: 0 <= m < |tr| ==> seen[m] == View(tr[m], c)
    requires exists m :: i < m <= k && Head(seen[m].q.active) == Some(n)
    ensures exists m :: i < m <= k && Head(tr[m].queues[c].q.active) == Some(n)
  {
    var m :| i < m <= k && Head(seen[m].q.active) == Some(n);
    assert seen[m] == View(tr[m], c);
  }

  lemma CancelHandshakeWithin(tr: seq<System>, steps: seq<Step>, count: nat, i: nat, j: nat, k: nat, b: nat, g: Agent,
                              n: nat)
    requires IsSystemTrace(tr, steps, count) && i < j < k < |steps| && b < count
    requires RemovesFrom(tr, steps, i, b, g, n)
    requires forall m :: i < m < j ==> !BeginsRemoval(steps[m], b, g)
    requires steps[j] == Step(b, PendingOk(g)) || steps[j] == Step(b, PendingSkip(g))
    requires steps[k] == Step(b, SuccessOk) && tr[k].queues[b].worker.Reporting? && tr[k].queues[b].worker.pr == n
    ensures exists m :: i < m <= k && Head(tr[m].queues[b].q.active) == Some(n)
  {
    hide StepEnabled;
    hide StepNext;
    hide IsTrace;
    var seen, acts := ViewOfRemoval(tr, steps, count, i, j, b, g, n);
    hide RemovesAt;
    hide RemovesFrom;
    hide BeginsRemoval;
    assert seen[k] == View(tr[k], b);
    assert acts[j] == steps[j].action && acts[k] == steps[k].action;
    QueueSafety.CancelHandshake(seen, acts, i, j, k, g, n);
    FirstInView(tr, seen, count, i, k, b, n);
  }

  lemma CancelHandshakeAcross(tr: seq<System>, steps: seq<Step>, count: nat, i: nat, j: nat, k: nat,
                              b: nat, g: Agent, c: nat, n: nat)
    requires IsSystemTrace(tr, steps, count) && i < j < k < |steps| && b < count && c < count && b != c
    requires RemovesFrom(tr, steps, i, b, g, n)
    requires forall m :: i < m < j ==> !BeginsRemoval(steps[m], b, g)
    requires steps[j] == Step(b, PendingOk(g)) || steps[j] == Step(b, PendingSkip(g))
    requires steps[k] == Step(c, SuccessOk) && tr[k].queues[c].worker.Reporting? && tr[k].queues[c].worker.pr == n
    ensures exists m :: i < m <= k && Head(tr[m].queues[c].q.active) == Some(n)
  {
    hide StepEnabled;
    hide StepNext;
    hide Enabled;
    hide Next;
    hide FromOutside;
    hide Hot;
    hide SuccessUnderWay;
    NotHotAtRemoval(tr, steps, count, i, b, g, c, n);
    SilentAtReport(tr, steps, count, i, j, b, g, c, n);
    var seen, acts := ViewIsTrace(tr, steps, count, c);
    hide IsTrace;
    hide IsSystemTrace;
    hide RemovesFrom;
    if NeverFirst(seen, i, k, n) {
      SilentPersists(seen, acts, i, j, k, n);
      SuccessIsLive(seen[k], acts[k], n);
    } else {
      FirstInView(tr, seen, count, i, k, c, n);
    }
  }

  lemma SuccessIsLive(s: State, a: Action, n: nat)
    requires Enabled(s, a) && a.SuccessOk? && s.worker.Reporting? && s.worker.pr == n
    ensures SuccessUnderWay(s.worker, n)
  {
  }

  lemma NotHotAtRemoval(tr: seq<System>, steps: seq<Step>, count: nat, i: nat, b: nat, g: Agent, c: nat, n: nat)
    requires IsSystemTrace(tr, steps, count) && b < count && c < count && b != c && RemovesFrom(tr, steps, i, b, g, n)
    ensures var s := View(tr[i], c);
            !Hot(s.c, s.worker, n) && Head(s.q.active) != Some(n)
  {
    hide StepEnabled;
    hide StepNext;
    TraceSystemInv(tr, steps, count, i);
    TraceExclusive(tr, steps, count, i);
    assert Has(View(tr[i], b), n);
    assert !Has(View(tr[i], c), n);
    hide Has;
    hide Exclusive;
    assert ViewInv(View(tr[i], c));
    hide Inv;
    hide Led;
    hide LabelLocks;
    hide Flags;
    hide SystemInv;
    NotHot(View(tr[i], c), n);
  }

  lemma SilentAtReport(tr: seq<System>, steps: seq<Step>, count: nat, i: nat, j: nat, b: nat, g: Agent, c: nat, n: nat)
    requires IsSystemTrace(tr, steps, count) && i < j < |steps| && b < count && c < count && b != c
    requires RemovesFrom(tr, steps, i, b, g, n)
    requires forall m :: i < m < j ==> !BeginsRemoval(steps[m], b, g)
    requires steps[j] == Step(b, PendingOk(g)) || steps[j] == Step(b, PendingSkip(g))
    ensures !SuccessUnderWay(View(tr[j], c).worker, n)
  {
    hide StepEnabled;
    hide StepNext;
    hide Enabled;
    hide Next;
    hide SystemInv;
    var seen, acts := ViewOfRemoval(tr, steps, count, i, j, b, g, n);
    hide RemovesAt;
    hide RemovesFrom;
    RemovalStays(seen, acts, i, j, g, n);
    EndsReport(seen[j], acts[j], g);
    assert seen[j] == View(tr[j], b);
    hide View;
    hide SuccessUnderWay;
    TraceSystemInv(tr, steps, count, j);
    ReportExcludes(tr[j], b, c, g, n);
  }

  lemma EndsReport(s: State, a: Action, g: Agent)
    requires Enabled(s, a) && (a == PendingOk(g) || a == PendingSkip(g))
    ensures var p := ProcOf(s.procs, g);
            p.Removal? && (p.stage == Holding || p.stage == InCall)
  {
  }

  /** Only its own steps look like steps of its own to a queue. */
  lemma SeenOwn(s: System, x: Step, b: nat, a: Action)
    requires StepEnabled(s, x) && !OfForeign(a)
    ensures Seen(s, x, b) == a <==> x == Step(b, a)
  {
  }

  /** Agent g of queue b begins at step i a removal of n that is to report, and ends it at step j without giving up. */
  ghost predicate RemovalEnds(tr: seq<System>, steps: seq<Step>, i: nat, j: nat, b: nat, g: Agent, n: nat)
    requires |tr| == |steps| + 1
  {
    && RemovesFrom(tr, steps, i, b, g, n) && QueueDuties.ToReport(steps[i].action)
    && i < j < |steps| && steps[j] == Step(b, ScheduleNew(g))
    && forall m :: i < m < j ==> steps[m] != Step(b, ScheduleNew(g)) && steps[m] != Step(b, PendingGiveUp(g))
  }

  /** The step looks to queue b like this action, as far as a removal by g is concerned. */
  ghost predicate LooksLike(x: Step, a: Action, b: nat, g: Agent) {
    && (x.queue == b ==> a == x.action)
    && (a == ScheduleNew(g) <==> x == Step(b, ScheduleNew(g)))
    && (a == PendingGiveUp(g) <==> x == Step(b, PendingGiveUp(g)))
    && (a == PendingOk(g) <==> x == Step(b, PendingOk(g)))
    && (a == PendingSkip(g) <==> x == Step(b, PendingSkip(g)))
    && ((a.Remove? && a.agent == g) <==> BeginsRemoval(x, b, g))
  }

  lemma SeenLooksLike(s: System, x: Step, b: nat, g: Agent)
    requires StepEnabled(s, x)
    ensures LooksLike(x, Seen(s, x, b), b, g)
  {
    SeenRemoval(s, x, b, g);
    SeenOwn(s, x, b, ScheduleNew(g));
    SeenOwn(s, x, b, PendingGiveUp(g));
    SeenOwn(s, x, b, PendingOk(g));
    SeenOwn(s, x, b, PendingSkip(g));
    hide Seen;
    hide StepEnabled;
  }

  lemma ViewOfSteps(tr: seq<System>, steps: seq<Step>, count: nat, b: nat, g: Agent)
      returns (seen: seq<State>, acts: seq<Action>)
    requires IsSystemTrace(tr, steps, count) && b < count
    ensures IsTrace(seen, acts) && |seen| == |tr| && |acts| == |steps|
    ensures forall m {:trigger seen[m]} :: 0 <= m < |tr| ==> b < |tr[m].queues| && seen[m] == View(tr[m], b)
    ensures forall m {:trigger acts[m]} {:trigger steps[m]} :: 0 <= m < |steps| ==> LooksLike(steps[m], acts[m], b, g)
  {
    hide StepEnabled;
    hide StepNext;
    hide IsTrace;
    hide LooksLike;
    seen, acts := ViewIsTrace(tr, steps, count, b);
    forall m | 0 <= m < |steps|
      ensures LooksLike(steps[m], acts[m], b, g)
    {
      SeenLooksLike(tr[m], steps[m], b, g);
    }
    hide Seen;
  }

  lemma WhereReported(tr: seq<System>, steps: seq<Step>, count: nat, i: nat, j: nat, b: nat, g: Agent, n: nat)
      returns (r: nat)
    requires IsSystemTrace(tr, steps, count) && b < count && RemovalEnds(tr, steps, i, j, b, g, n)
    ensures i < r < j && (steps[r] == Step(b, PendingOk(g)) || steps[r] == Step(b, PendingSkip(g)))
    ensures forall m :: i < m < r ==> !BeginsRemoval(steps[m], b, g)
  {
    hide IsTrace;
    var seen, acts := ViewOfSteps(tr, steps, count, b, g);
    hide IsSystemTrace;
    SeenEnds(tr, steps, seen, acts, i, j, b, g, n);
    hide RemovalEnds;
    r := QueueDuties.WhereReported(seen, acts, i, j, g, n);
    hide QueueDuties.Removes;
    hide RemovesAt;
    hide BeginsRemoval;
    hide LooksLike;
    assert LooksLike(steps[r], acts[r], b, g);
    forall m | i < m < r
      ensures !BeginsRemoval(steps[m], b, g)
    {
      SameBeginning(steps[m], acts[m], b, g);
    }
    SameReport(steps[r], acts[r], b, g);
  }

  lemma SameBeginning(x: Step, a: Action, b: nat, g: Agent)
    requires LooksLike(x, a, b, g)
    ensures (a.Remove? && a.agent == g) <==> BeginsRemoval(x, b, g)
  {
  }

  lemma SameReport(x: Step, a: Action, b: nat, g: Agent)
    requires LooksLike(x, a, b, g)
    ensures a == PendingOk(g) <==> x == Step(b, PendingOk(g))
    ensures a == PendingSkip(g) <==> x == Step(b, PendingSkip(g))
  {
  }

  lemma SeenEnds(tr: seq<System>, steps: seq<Step>, seen: seq<State>, acts: seq<Action>, i: nat, j: nat, b: nat,
                 g: Agent, n: nat)
    requires |tr| == |seen| == |steps| + 1 && |acts| == |steps| && RemovalEnds(tr, steps, i, j, b, g, n)
    requires forall m {:trigger seen[m]} :: 0 <= m < |tr| ==> b < |tr[m].queues| && seen[m] == View(tr[m], b)
    requires forall m {:trigger acts[m]} {:trigger steps[m]} :: 0 <= m < |steps| ==> LooksLike(steps[m], acts[m], b, g)
    ensures QueueDuties.Removes(seen, acts, i, j, g, n) && QueueDuties.ToReport(acts[i])
    ensures forall m :: i < m < j ==> acts[m] != PendingGiveUp(g)
  {
    assert seen[i] == View(tr[i], b);
  }

  /**
   The cancel handshake across queues, for whole calls: once a Dequeue or suspend of
   queue b that is to report has ended, without giving the report up, a success
   report for its pull request succeeds in a queue c only if that was first in c in
   between.
   */
  lemma EndedRemovalHandshake(tr: seq<System>, steps: seq<Step>, count: nat, i: nat, j: nat, k: nat,
                              b: nat, g: Agent, c: nat, n: nat)
    requires IsSystemTrace(tr, steps, count) && b < count && c < count && j < k < |steps|
    requires RemovalEnds(tr, steps, i, j, b, g, n)
    requires steps[k] == Step(c, SuccessOk) && tr[k].queues[c].worker.Reporting? && tr[k].queues[c].worker.pr == n
    ensures exists m :: i < m <= k && Head(tr[m].queues[c].q.active) == Some(n)
  {
    var r := WhereReported(tr, steps, count, i, j, b, g, n);
    CancelHandshake(tr, steps, count, i, r, k, b, g, c, n);
  }
}
