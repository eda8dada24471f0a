/**
 What the operations of a queue get done: over every run, that a removal which was
 asked to report does; and for each operation, what comes of it when nobody
 disturbs it and its calls succeed.
 */
module QueueDuties {
  import opened LinkedList
  import opened QueueProtocol
  import opened QueueSafety
  import opened QueueLabels

  // ---------------------------------------------------------------------
  // A removal that is to report does
  // ---------------------------------------------------------------------

  /** The report of the pending status is over: it succeeded, was not needed, or is given up. */
  predicate EndsReport(a: Action) {
    a.PendingOk? || a.PendingSkip? || a.PendingGiveUp?
  }

  predicate OutsideReport(stage: Stage) {
    stage != Unlabelled && stage != Holding && stage != InCall
  }

  /** The removal has its report before it, or is at it. */
  predicate BeforeReport(stage: Stage) {
    stage != Reported && stage != Labelling && stage != Labelled
  }

  /** How an own step p to q of a removal bears on its report. */
  predicate ReportMove(a: Action, p: Proc, q: Proc) {
    && p.Removal?
    && (a.ScheduleNew? <==> !q.Removal?)
    && (q.Removal? ==> q == p.(stage := q.stage))
    && (OfPending(a) ==> !OutsideReport(p.stage))
    && (p.report && BeforeReport(p.stage) && !EndsReport(a) ==> !a.ScheduleNew? && BeforeReport(q.stage))
    && (!BeforeReport(p.stage) && q.Removal? ==> !BeforeReport(q.stage))
    && (!p.report && OutsideReport(p.stage) && q.Removal? ==> OutsideReport(q.stage))
  }

  lemma RemovalReportMove(s: State, a: Action)
    requires OfRemoval(a) && !a.Remove? && RemovalEnabled(s, a)
    ensures ReportMove(a, ProcOf(s.procs, a.agent), ProcOf(NextRemoval(s, a).procs, a.agent))
  {
  }

  lemma LabelReportMove(s: State, a: Action)
    requires OfLabel(a) && LabelEnabled(s, a)
    ensures ReportMove(a, ProcOf(s.procs, a.agent), ProcOf(NextLabel(s, a).procs, a.agent))
  {
  }

  lemma PendingReportMove(s: State, a: Action)
    requires OfPending(a) && PendingEnabled(s, a)
    ensures ReportMove(a, ProcOf(s.procs, a.agent), ProcOf(NextPending(s, a).procs, a.agent))
  {
    hide FirstAfter;
  }

  lemma OwnReportMove(s: State, a: Action, g: Agent)
    requires Enabled(s, a) && OwnStep(a, g)
    ensures ReportMove(a, ProcOf(s.procs, g), ProcOf(Next(s, a).procs, g))
  {
    hide NextFiling;
    hide NextControl;
    hide NextRemoval;
    hide NextLabel;
    hide NextPending;
    hide NextSuccess;
    hide NextHead;
    hide NextForeign;
    hide NextWorker;
    hide RemovalEnabled;
    hide LabelEnabled;
    hide PendingEnabled;
    hide ReportMove;
    if OfRemoval(a) {
      RemovalReportMove(s, a);
    } else if OfLabel(a) {
      LabelReportMove(s, a);
    } else {
      PendingReportMove(s, a);
    }
  }

  /** Agent g begins the removal of n from the active queue at step i, and ends it at step j. */
  ghost predicate Removes(tr: seq<State>, acts: seq<Action>, i: nat, j: nat, g: Agent, n: nat)
    requires |tr| == |acts| + 1
  {
    && i < j < |acts| && acts[i].Remove? && acts[i].agent == g && acts[i].pr == n && n in tr[i].q.active
    && acts[j] == ScheduleNew(g) && forall m :: i < m < j ==> acts[m] != ScheduleNew(g)
  }

  lemma RemovalStarts(s: State, a: Action)
    requires Inv(s) && Enabled(s, a) && a.Remove? && a.pr in s.q.active
    ensures var p := ProcOf(Next(s, a).procs, a.agent);
            && p.Removal? && p.pr == a.pr && p.report == a.report && p.suspending == a.suspending
            && p.stage == Unlocked
  {
    hide Shape;
    hide Locks;
    hide Gauged;
    hide Owed;
    hide Epochs;
    hide Gone;
    hide Barred;
    hide Quiet;
    hide SetActive;
    hide Without;
  }

  /** A Dequeue reports the pending status if it is asked to, and suspend always does. */
  predicate ToReport(a: Action) {
    a.Remove? && (a.report || a.suspending)
  }

  /** Between steps i and k agent g has ended the report of n, with the status mutex of n. */
  ghost predicate ReportedBetween(tr: seq<State>, acts: seq<Action>, i: nat, k: nat, g: Agent, n: nat)
    requires |tr| == |acts| + 1 && k <= |acts|
  {
    exists m :: i < m < k && EndsReport(acts[m]) && acts[m].agent == g && HasStatusMutex(tr[m], g, n)
                && (acts[m].PendingGiveUp? || n in tr[m + 1].st.lastPending)
  }

  predicate HasStatusMutex(s: State, g: Agent, n: nat) {
    n in s.st.holder && s.st.holder[n] == Local(g)
  }

  lemma EndsWithMutex(s: State, a: Action)
    requires Inv(s) && Enabled(s, a) && EndsReport(a)
    ensures HasStatusMutex(s, a.agent, ProcOf(s.procs, a.agent).pr)
    ensures a.PendingGiveUp? || ProcOf(s.procs, a.agent).pr in Next(s, a).st.lastPending
  {
    hide Sets;
    hide Gauged;
    hide Owed;
    hide Epochs;
    hide Gone;
    hide Barred;
    hide Quiet;
    assert LockOk(s.st, ProcOf(s.procs, a.agent), a.agent);
  }

  /** The removal goes on as it began; its report is over exactly if that has happened. */
  lemma {:induction false} RemovalSoFar(tr: seq<State>, acts: seq<Action>, i: nat, k: nat, j: nat, g: Agent, n: nat)
    requires IsTrace(tr, acts) && Removes(tr, acts, i, j, g, n) && i < k <= j
    ensures var p := ProcOf(tr[k].procs, g);
            && p.Removal? && p.pr == n && p.report == acts[i].report && p.suspending == acts[i].suspending
            && (p.report ==> BeforeReport(p.stage) || ReportedBetween(tr, acts, i, k, g, n))
            && (!p.report ==> OutsideReport(p.stage))
  {
    hide Enabled;
    hide Next;
    hide Inv;
    if k == i + 1 {
      TraceInv(tr, acts, i);
      RemovalStarts(tr[i], acts[i]);
    } else {
      RemovalSoFar(tr, acts, i, k - 1, j, g, n);
      var s, a := tr[k - 1], acts[k - 1];
      if OwnStep(a, g) {
        OwnReportMove(s, a, g);
        if EndsReport(a) {
          TraceInv(tr, acts, k - 1);
          EndsWithMutex(s, a);
        }
      } else {
        OthersLeaveRemovals(s, a, g);
      }
    }
  }

  /**
   Over all runs: a removal that is to report the pending status does not end
   before it has: the report succeeded, was skipped because the state had been
   reported, or was given up, with the status mutex in hands.
   */
  lemma AskedToReport(tr: seq<State>, acts: seq<Action>, i: nat, j: nat, g: Agent, n: nat)
    requires IsTrace(tr, acts) && Removes(tr, acts, i, j, g, n) && ToReport(acts[i])
    ensures ReportedBetween(tr, acts, i, j, g, n)
  {
    assert Enabled(tr[i], acts[i]);
    RemovalSoFar(tr, acts, i, j, j, g, n);
    OwnReportMove(tr[j], acts[j], g);
    hide Enabled;
    hide Next;
    hide IsTrace;
  }

  /** And one that is not asked to takes no step of a report. */
  lemma NotAskedToReport(tr: seq<State>, acts: seq<Action>, i: nat, j: nat, m: nat, g: Agent, n: nat)
    requires IsTrace(tr, acts) && Removes(tr, acts, i, j, g, n) && !acts[i].report && i < m < j
    ensures !(OfPending(acts[m]) && acts[m].agent == g)
  {
    RemovalSoFar(tr, acts, i, m, j, g, n);
    if OwnStep(acts[m], g) {
      OwnReportMove(tr[m], acts[m], g);
    }
    hide Enabled;
    hide Next;
    hide IsTrace;
  }

  /** While g is in its removal it begins no other. */
  lemma NoOtherRemoval(tr: seq<State>, acts: seq<Action>, i: nat, j: nat, m: nat, g: Agent, n: nat)
    requires IsTrace(tr, acts) && Removes(tr, acts, i, j, g, n) && i < m <= j
    ensures !(acts[m].Remove? && acts[m].agent == g)
  {
    RemovalSoFar(tr, acts, i, m, j, g, n);
    assert Enabled(tr[m], acts[m]);
    hide Next;
    hide ReportedBetween;
  }

  lemma ReportedWhere(tr: seq<State>, acts: seq<Action>, i: nat, j: nat, g: Agent, n: nat) returns (r: nat)
    requires |tr| == |acts| + 1 && j <= |acts| && ReportedBetween(tr, acts, i, j, g, n)
    requires forall m :: i < m < j ==> acts[m] != PendingGiveUp(g)
    ensures i < r < j && (acts[r] == PendingOk(g) || acts[r] == PendingSkip(g))
  {
    hide HasStatusMutex;
    r :| i < r < j && EndsReport(acts[r]) && acts[r].agent == g;
  }

  /** Where its report succeeded, if it was not given up. */
  lemma WhereReported(tr: seq<State>, acts: seq<Action>, i: nat, j: nat, g: Agent, n: nat) returns (r: nat)
    requires IsTrace(tr, acts) && Removes(tr, acts, i, j, g, n) && ToReport(acts[i])
    requires forall m :: i < m < j ==> acts[m] != PendingGiveUp(g)
    ensures i < r < j && RemovesAt(tr, acts, i, g, n) && (acts[r] == PendingOk(g) || acts[r] == PendingSkip(g))
    ensures forall m :: i < m < r ==> !(acts[m].Remove? && acts[m].agent == g)
  {
    assert |tr| == |acts| + 1 && j <= |acts| && RemovesAt(tr, acts, i, g, n);
    hide IsTrace;
    hide Removes;
    hide RemovesAt;
    AskedToReport(tr, acts, i, j, g, n);
    r := ReportedWhere(tr, acts, i, j, g, n);
    hide ReportedBetween;
    forall m | i < m < r
      ensures !(acts[m].Remove? && acts[m].agent == g)
    {
      NoOtherRemoval(tr, acts, i, j, m, g, n);
    }
  }

  /**
   The cancel handshake for whole calls: once a Dequeue or suspend that is to report
   has ended, without giving the report up, a success report for its pull request
   succeeds only if that was first again in between.
   */
  lemma EndedRemovalHandshake(tr: seq<State>, acts: seq<Action>, i: nat, j: nat, k: nat, g: Agent, n: nat)
    requires IsTrace(tr, acts) && Removes(tr, acts, i, j, g, n) && ToReport(acts[i]) && j < k < |acts|
    requires forall m :: i < m < j ==> acts[m] != PendingGiveUp(g)
    requires acts[k] == SuccessOk && tr[k].worker.Reporting? && tr[k].worker.pr == n
    ensures exists m :: i < m <= k && Head(tr[m].q.active) == Some(n)
  {
    assert |tr| == |acts| + 1;
    hide IsTrace;
    var r := WhereReported(tr, acts, i, j, g, n);
    hide Removes;
    hide RemovesAt;
    CancelHandshake(tr, acts, i, r, k, g, n);
  }

  // ---------------------------------------------------------------------
  // suspend is one section, and a run acts for the first one
  // ---------------------------------------------------------------------

  /** The step needs the queue mutex. */
  predicate NeedsMutex(a: Action) {
    OfFiling(a) || a.Remove? || a.ReadFirst? || a.CheckFirst?
  }

  lemma RemovalKeepsActive(s: State, a: Action)
    requires OfRemoval(a) && !a.Remove? && RemovalEnabled(s, a)
    ensures NextRemoval(s, a).q.active == s.q.active
  {
  }

  lemma HeldKeepsActive(s: State, a: Action)
    requires Inv(s) && s.mutexHeld && Enabled(s, a)
    ensures !NeedsMutex(a) && Next(s, a).q.active == s.q.active
  {
    hide NextFiling;
    hide NextRemoval;
    hide NextControl;
    hide NextLabel;
    hide NextPending;
    hide NextSuccess;
    hide NextHead;
    hide NextForeign;
    hide NextWorker;
    hide Inv;
    if OfRemoval(a) {
      RemovalKeepsActive(s, a);
    } else {
      OthersLead(s, a);
    }
  }

  /** Over all runs: while a suspend is under way nobody else looks at the active queue or changes it. */
  lemma {:induction false} SuspendIsAtomic(tr: seq<State>, acts: seq<Action>, i: nat, m: nat, j: nat, n: nat)
    requires IsTrace(tr, acts) && Removes(tr, acts, i, j, TheWorker, n) && acts[i].suspending && i < m < j
    ensures tr[m].mutexHeld && !NeedsMutex(acts[m]) && tr[m].q.active == tr[i + 1].q.active
  {
    hide Next;
    hide Enabled;
    SuspendHasMutex(tr, acts, i, m, j, n);
    HeldKeepsActive(tr[m], acts[m]);
    if i + 1 < m {
      SuspendHasMutex(tr, acts, i, m - 1, j, n);
      HeldKeepsActive(tr[m - 1], acts[m - 1]);
      SuspendIsAtomic(tr, acts, i, m - 1, j, n);
    }
    hide Inv;
    hide Removes;
    hide NeedsMutex;
  }

  lemma SuspendHasMutex(tr: seq<State>, acts: seq<Action>, i: nat, m: nat, j: nat, n: nat)
    requires IsTrace(tr, acts) && Removes(tr, acts, i, j, TheWorker, n) && acts[i].suspending && i < m < j
    ensures Inv(tr[m]) && tr[m].mutexHeld
  {
    RemovalSoFar(tr, acts, i, m, j, TheWorker, n);
    TraceInv(tr, acts, m);
    hide IsTrace;
    hide Removes;
    hide ReportedBetween;
    hide BeforeReport;
    hide OutsideReport;
    HeldBySuspend(tr[m]);
    hide Inv;
  }

  lemma HeldBySuspend(s: State)
    requires Inv(s)
    ensures s.mutexHeld <==> ProcOf(s.procs, TheWorker).Removal? && ProcOf(s.procs, TheWorker).suspending
  {
    hide Locks;
    hide Sets;
    hide Gauged;
    hide Owed;
    hide Epochs;
    hide Gone;
    hide Barred;
    hide Quiet;
  }

  /** The worker is in a run for n. */
  predicate Running(w: Worker, n: nat) {
    InRun(w) && w.pr == n
  }

  lemma RunStep(s: State, a: Action, n: nat)
    requires Enabled(s, a) && Running(Next(s, a).worker, n)
    ensures Running(s.worker, n) || (a.CheckFirst? && Head(s.q.active) == Some(n))
  {
    hide NextFiling;
    hide NextRemoval;
    hide NextControl;
    hide NextLabel;
    hide NextPending;
    hide NextSuccess;
    hide NextHead;
    hide NextForeign;
    hide NextWorker;
    if OfFiling(a) {
      FilingFrame(s, a);
    } else if OfControl(a) {
      ControlFrame(s, a);
    } else if OfRemoval(a) {
      RemovalKeepsWorker(s, a);
    } else if OfLabel(a) {
      LabelFrame(s, a);
    } else if OfPending(a) {
      PendingFrame(s, a);
    } else if OfSuccess(a) {
      SuccessFrame(s, a);
    } else if OfHead(a) {
      HeadFrame(s, a);
    } else if OfForeign(a) {
      ForeignFrame(s, a);
    } else {
      WorkerRunStep(s, a, n);
    }
  }

  lemma RemovalKeepsWorker(s: State, a: Action)
    requires OfRemoval(a) && RemovalEnabled(s, a)
    ensures NextRemoval(s, a).worker == s.worker
  {
    hide SetActive;
    hide Without;
  }

  lemma WorkerRunStep(s: State, a: Action, n: nat)
    requires OfWorker(a) && WorkerEnabled(s, a) && Running(NextWorker(s, a).worker, n)
    ensures Running(s.worker, n) || (a.CheckFirst? && Head(s.q.active) == Some(n))
  {
  }

  /** The run that is under way at i began with a check at which n was first. */
  lemma {:induction false} RunBegan(tr: seq<State>, acts: seq<Action>, i: nat, n: nat) returns (k: nat)
    requires IsTrace(tr, acts) && i <= |acts| && Running(tr[i].worker, n)
    ensures k < i && acts[k] == CheckFirst && Head(tr[k].q.active) == Some(n)
    ensures forall m :: k < m <= i ==> Running(tr[m].worker, n)
  {
    hide Next;
    hide Enabled;
    if i == 0 {
      assert false;
    } else {
      RunStep(tr[i - 1], acts[i - 1], n);
      if Running(tr[i - 1].worker, n) {
        k := RunBegan(tr, acts, i - 1, n);
      } else {
        k := i - 1;
      }
    }
  }

  /** The worker removes n, or takes a step to label or report it. */
  predicate ActsFor(s: State, a: Action, n: nat) {
    || (a.Remove? && a.agent == TheWorker && a.pr == n)
    || ((OfSuccess(a) || OfHead(a)) && !s.worker.Resting? && !s.worker.Begun? && s.worker.pr == n)
  }

  lemma ActsInRun(s: State, a: Action, n: nat)
    requires Enabled(s, a) && ActsFor(s, a, n)
    ensures Running(s.worker, n)
  {
    hide FilingEnabled;
    hide ControlEnabled;
    hide LabelEnabled;
    hide PendingEnabled;
    hide ForeignEnabled;
    hide WorkerEnabled;
    if OfSuccess(a) {
      SuccessFrame(s, a);
    } else if OfHead(a) {
      HeadFrame(s, a);
    }
    hide NextSuccess;
    hide NextHead;
  }

  /**
   Over all runs: what a run removes, labels or reports is the pull request that was
   first when it passed its last check.
   */
  lemma RunActsForFirst(tr: seq<State>, acts: seq<Action>, i: nat, n: nat) returns (k: nat)
    requires IsTrace(tr, acts) && i < |acts| && ActsFor(tr[i], acts[i], n)
    ensures k < i && acts[k] == CheckFirst && Head(tr[k].q.active) == Some(n)
    ensures forall m :: k < m <= i ==> Running(tr[m].worker, n)
  {
    hide Next;
    hide Enabled;
    ActsInRun(tr[i], acts[i], n);
    k := RunBegan(tr, acts, i, n);
    hide ActsFor;
  }

  // ---------------------------------------------------------------------
  // A removal that nobody disturbs
  // ---------------------------------------------------------------------

  /** The first one after n was removed, if that is a new one. */
  function FirstWithout(active: seq<nat>, n: nat): Option<nat> {
    if Head(active) == Some(n) then Head(Without(active, n)) else None
  }

  /** Agent g is in the removal of n. */
  predicate At(s: State, g: Agent, p: Proc, stage: Stage)
    requires p.Removal?
  {
    ProcOf(s.procs, g) == p.(stage := stage)
  }

  lemma LeavesQueue(s: State, g: Agent, n: nat, report: bool, suspending: bool) returns (t: State, p: Proc)
    requires Enabled(s, Remove(g, n, report, suspending)) && n in s.q.active && (suspending || n !in s.q.suspended)
    ensures Leads(s, [Remove(g, n, report, suspending)], t)
    ensures t == s.(q := t.q, procs := t.procs, mutexHeld := suspending) && OnlyOf(s, t, g)
    ensures t.q.active == Without(s.q.active, n) && t.q.suspended == s.q.suspended
    ensures t.q.activeGauge == s.q.activeGauge - 1 && t.q.suspendedGauge == s.q.suspendedGauge
    ensures p.Removal? && p == Removal(n, report, suspending, FirstWithout(s.q.active, n), p.since, Unlocked)
    ensures At(t, g, p, Unlocked)
  {
    var a := Remove(g, n, report, suspending);
    WithoutMembers(s.q.active, n);
    WithoutHead(s.q.active, n);
    SetActiveKeeps(s.q, Without(s.q.active, n));
    t := Next(s, a);
    p := ProcOf(t.procs, g);
    LeadsOne(s, a);
    hide SetActive;
    hide Without;
    hide Leads;
  }

  /** The context of the run for n, if one can be seen. */
  function RunFor(executing: Option<Operation>, n: nat): set<Ctx> {
    if executing.Some? && executing.value.pr == n then {executing.value.ctx} else {}
  }

  lemma CancelsRun(s: State, g: Agent, p: Proc) returns (t: State)
    requires p.Removal? && At(s, g, p, Unlocked)
    ensures Leads(s, [Load(g), Cancel(g)], t)
    ensures t == s.(q := t.q, c := t.c, procs := t.procs) && OnlyOf(s, t, g) && At(t, g, p, Cancelled)
    ensures t.c == s.c.(cancelled := s.c.cancelled + RunFor(s.c.executing, p.pr))
    ensures t.q == if p.suspending then
            s.q.(suspended := s.q.suspended + {p.pr}, suspendedGauge := s.q.suspendedGauge + 1)
                   else s.q
  {
    t := Next(Next(s, Load(g)), Cancel(g));
    LeadsTwo(s, Load(g), Cancel(g));
    assert s.c.cancelled + {} == s.c.cancelled;
    hide Leads;
  }

  /** How the calls of a removal end. */
  datatype Answers = Answers(unlabelled: bool, reported: bool, labelled: bool)

  lemma CallsToUnlabel(s: State, g: Agent, p: Proc) returns (t: State)
    requires p.Removal? && At(s, g, p, Cancelled) && p.pr !in s.lb.holder
    ensures Leads(s, [UnlabelCall(g)], t) && OnlyOf(s, t, g) && At(t, g, p, Unlabelling)
    ensures t == s.(lb := Labels(s.lb.holder[p.pr := g], s.lb.flagged - {p.pr}, s.lb.stray - {p.pr}), procs := t.procs)
  {
    t := Next(s, UnlabelCall(g));
    LeadsOne(s, UnlabelCall(g));
    hide Leads;
  }

  lemma UnlabelAnswered(s: State, g: Agent, p: Proc, ok: bool) returns (t: State)
    requires p.Removal? && At(s, g, p, Unlabelling)
    ensures Leads(s, [if ok then UnlabelOk(g) else UnlabelFail(g)], t) && OnlyOf(s, t, g)
    ensures At(t, g, p, if p.report then Unlabelled else Reported)
    ensures t == s.(lb := s.lb.(holder := s.lb.holder - {p.pr}), procs := t.procs)
  {
    var a := if ok then UnlabelOk(g) else UnlabelFail(g);
    t := Next(s, a);
    LeadsOne(s, a);
    hide Leads;
  }

  /** The flag of the removed one is cleared, whether the call for its label succeeds or not. */
  lemma TakesLabel(s: State, g: Agent, p: Proc, ok: bool) returns (t: State)
    requires p.Removal? && At(s, g, p, Cancelled) && p.pr !in s.lb.holder
    ensures Leads(s, [UnlabelCall(g)] + [if ok then UnlabelOk(g) else UnlabelFail(g)], t) && OnlyOf(s, t, g)
    ensures At(t, g, p, if p.report then Unlabelled else Reported)
    ensures t == s.(lb := Labels(s.lb.holder, s.lb.flagged - {p.pr}, s.lb.stray - {p.pr}), procs := t.procs)
  {
    var s1 := CallsToUnlabel(s, g, p);
    t := UnlabelAnswered(s1, g, p, ok);
    LeadsOn(s, [UnlabelCall(g)], s1, [if ok then UnlabelOk(g) else UnlabelFail(g)], t);
    assert s.lb.holder[p.pr := g] - {p.pr} == s.lb.holder;
    hide Leads;
    hide At;
  }

  /** The steps of a report; it is skipped if that state had been reported, and given up if it fails. */
  function ReportSteps(lastPending: set<nat>, g: Agent, n: nat, ok: bool): seq<Action> {
    [PendingLock(g)]
    + if n in lastPending then [PendingSkip(g)]
    else if ok then [PendingCall(g)] + [PendingOk(g)]
    else [PendingCall(g)] + [PendingFail(g)] + [PendingGiveUp(g)]
  }

  lemma Reports(s: State, g: Agent, p: Proc, ok: bool) returns (t: State)
    requires p.Removal? && At(s, g, p, Unlabelled) && p.pr !in s.st.holder
    ensures Leads(s, ReportSteps(s.st.lastPending, g, p.pr, ok), t)
    ensures t == s.(q := t.q, st := t.st, procs := t.procs) && OnlyOf(s, t, g) && At(t, g, p, Reported)
    ensures t.q == s.q.(barred := t.q.barred)
    ensures t.st == s.st.(lastPending := s.st.lastPending + if ok then {p.pr} else {})
  {
    hide Leads;
    hide At;
    hide OnlyOf;
    var s1 := TakesStatusMutex(s, g, p);
    if p.pr in s.st.lastPending {
      t := SkipsReport(s1, g, p);
      LeadsOn(s, [PendingLock(g)], s1, [PendingSkip(g)], t);
    } else if ok {
      t := ReportsIndeed(s1, g, p, true);
      LeadsOn(s, [PendingLock(g)], s1, [PendingCall(g)] + [PendingOk(g)], t);
    } else {
      var s2 := ReportsIndeed(s1, g, p, false);
      t := GivesReportUp(s2, g, p);
      LeadsOn(s1, [PendingCall(g)] + [PendingFail(g)], s2, [PendingGiveUp(g)], t);
      OnlyOfOne(s1, s2, t, g);
      LeadsOn(s, [PendingLock(g)], s1, [PendingCall(g)] + [PendingFail(g)] + [PendingGiveUp(g)], t);
    }
    OnlyOfOne(s, s1, t, g);
    assert s.st.holder[p.pr := Local(g)] - {p.pr} == s.st.holder;
    assert p.pr in s.st.lastPending ==> s.st.lastPending + {p.pr} == s.st.lastPending;
  }

  lemma TakesStatusMutex(s: State, g: Agent, p: Proc) returns (t: State)
    requires p.Removal? && At(s, g, p, Unlabelled) && p.pr !in s.st.holder
    ensures Leads(s, [PendingLock(g)], t) && OnlyOf(s, t, g) && At(t, g, p, Holding)
    ensures t == s.(st := Statuses(s.st.holder[p.pr := Local(g)], s.st.lastPending), procs := t.procs)
  {
    t := Next(s, PendingLock(g));
    LeadsOne(s, PendingLock(g));
    hide Leads;
  }

  lemma SkipsReport(s: State, g: Agent, p: Proc) returns (t: State)
    requires p.Removal? && At(s, g, p, Holding) && p.pr in s.st.lastPending
    ensures Leads(s, [PendingSkip(g)], t)
    ensures t == s.(q := t.q, st := t.st, procs := t.procs) && OnlyOf(s, t, g) && At(t, g, p, Reported)
    ensures t.q == s.q.(barred := t.q.barred) && t.st == Statuses(s.st.holder - {p.pr}, s.st.lastPending + {p.pr})
  {
    t := Next(s, PendingSkip(g));
    LeadsOne(s, PendingSkip(g));
    hide Leads;
    hide FirstAfter;
  }

  lemma CallsForReport(s: State, g: Agent, p: Proc) returns (t: State)
    requires p.Removal? && At(s, g, p, Holding) && p.pr !in s.st.lastPending
    ensures Leads(s, [PendingCall(g)], t) && t == s.(procs := t.procs) && OnlyOf(s, t, g) && At(t, g, p, InCall)
  {
    t := Next(s, PendingCall(g));
    LeadsOne(s, PendingCall(g));
    hide Leads;
  }

  lemma ReportSucceeds(s: State, g: Agent, p: Proc) returns (t: State)
    requires p.Removal? && At(s, g, p, InCall)
    ensures Leads(s, [PendingOk(g)], t) && OnlyOf(s, t, g) && At(t, g, p, Reported)
    ensures t == s.(q := s.q.(barred := t.q.barred), procs := t.procs,
                    st := Statuses(s.st.holder - {p.pr}, s.st.lastPending + {p.pr}))
  {
    t := Next(s, PendingOk(g));
    LeadsOne(s, PendingOk(g));
    hide Leads;
    hide FirstAfter;
  }

  lemma ReportFails(s: State, g: Agent, p: Proc) returns (t: State)
    requires p.Removal? && At(s, g, p, InCall)
    ensures Leads(s, [PendingFail(g)], t) && t == s.(procs := t.procs) && OnlyOf(s, t, g) && At(t, g, p, Holding)
  {
    t := Next(s, PendingFail(g));
    LeadsOne(s, PendingFail(g));
    hide Leads;
  }

  lemma GivesReportUp(s: State, g: Agent, p: Proc) returns (t: State)
    requires p.Removal? && At(s, g, p, Holding)
    ensures Leads(s, [PendingGiveUp(g)], t) && OnlyOf(s, t, g) && At(t, g, p, Reported)
    ensures t == s.(st := s.st.(holder := s.st.holder - {p.pr}), procs := t.procs)
  {
    t := Next(s, PendingGiveUp(g));
    LeadsOne(s, PendingGiveUp(g));
    hide Leads;
  }

  lemma ReportsIndeed(s: State, g: Agent, p: Proc, ok: bool) returns (t: State)
    requires p.Removal? && At(s, g, p, Holding) && p.pr !in s.st.lastPending
    ensures Leads(s, [PendingCall(g)] + [if ok then PendingOk(g) else PendingFail(g)], t) && OnlyOf(s, t, g)
    ensures At(t, g, p, if ok then Reported else Holding)
    ensures t == s.(q := s.q.(barred := t.q.barred), st := t.st, procs := t.procs)
    ensures t.st == if ok then Statuses(s.st.holder - {p.pr}, s.st.lastPending + {p.pr}) else s.st
  {
    hide Leads;
    hide At;
    var s1 := CallsForReport(s, g, p);
    if ok {
      t := ReportSucceeds(s1, g, p);
    } else {
      t := ReportFails(s1, g, p);
    }
    LeadsOn(s, [PendingCall(g)], s1, [if ok then PendingOk(g) else PendingFail(g)], t);
  }

  /** Two parts of what only g does. */
  lemma OnlyOfOne(s: State, t: State, u: State, g: Agent)
    requires OnlyOf(s, t, g) && OnlyOf(t, u, g)
    ensures OnlyOf(s, u, g)
  {
  }

  function LabelSteps(flagged: set<nat>, g: Agent, m: nat, ok: bool): seq<Action> {
    if m in flagged then [LabelSkip(g)] else [LabelCall(g)] + [if ok then LabelOk(g) else LabelFail(g)]
  }

  lemma GivesLabel(s: State, g: Agent, p: Proc, m: nat, ok: bool) returns (t: State)
    requires p.Removal? && At(s, g, p, Reported) && !p.suspending && p.newFirst == Some(m) && m !in s.lb.holder
    ensures Leads(s, LabelSteps(s.lb.flagged, g, m, ok), t)
    ensures t == s.(lb := t.lb, procs := t.procs) && OnlyOf(s, t, g) && At(t, g, p, Labelled)
    ensures t.lb.holder == s.lb.holder && t.lb.flagged == s.lb.flagged + if ok then {m} else {}
  {
    if m in s.lb.flagged {
      t := Next(s, LabelSkip(g));
      LeadsOne(s, LabelSkip(g));
      assert s.lb.flagged + {m} == s.lb.flagged;
    } else {
      t := LabelsIndeed(s, g, p, m, ok);
      hide Next;
      hide Enabled;
      hide At;
      hide OnlyOf;
    }
    hide Leads;
  }

  lemma CallsForLabel(s: State, g: Agent, p: Proc, m: nat) returns (t: State)
    requires p.Removal? && At(s, g, p, Reported) && !p.suspending && p.newFirst == Some(m) && m !in s.lb.holder
    requires m !in s.lb.flagged
    ensures Leads(s, [LabelCall(g)], t)
    ensures t == s.(lb := s.lb.(holder := s.lb.holder[m := g]), procs := t.procs)
    ensures OnlyOf(s, t, g) && At(t, g, p, Labelling)
  {
    t := Next(s, LabelCall(g));
    LeadsOne(s, LabelCall(g));
    hide Leads;
  }

  lemma LabelAnswered(s: State, g: Agent, p: Proc, m: nat, ok: bool) returns (t: State)
    requires p.Removal? && At(s, g, p, Labelling) && !p.suspending && p.newFirst == Some(m)
    ensures Leads(s, [if ok then LabelOk(g) else LabelFail(g)], t)
    ensures t == s.(lb := t.lb, procs := t.procs) && OnlyOf(s, t, g) && At(t, g, p, Labelled)
    ensures t.lb.holder == s.lb.holder - {m} && t.lb.flagged == s.lb.flagged + if ok then {m} else {}
  {
    var a := if ok then LabelOk(g) else LabelFail(g);
    t := Next(s, a);
    LeadsOne(s, a);
    hide Leads;
  }

  lemma LabelsIndeed(s: State, g: Agent, p: Proc, m: nat, ok: bool) returns (t: State)
    requires p.Removal? && At(s, g, p, Reported) && !p.suspending && p.newFirst == Some(m) && m !in s.lb.holder
    requires m !in s.lb.flagged
    ensures Leads(s, [LabelCall(g)] + [if ok then LabelOk(g) else LabelFail(g)], t)
    ensures t == s.(lb := t.lb, procs := t.procs) && OnlyOf(s, t, g) && At(t, g, p, Labelled)
    ensures t.lb.holder == s.lb.holder && t.lb.flagged == s.lb.flagged + if ok then {m} else {}
  {
    hide Leads;
    var s1 := CallsForLabel(s, g, p, m);
    t := LabelAnswered(s1, g, p, m, ok);
    LeadsOn(s, [LabelCall(g)], s1, [if ok then LabelOk(g) else LabelFail(g)], t);
    assert s.lb.holder[m := g] - {m} == s.lb.holder;
    hide At;
    hide OnlyOf;
  }

  /** processPR is queued for the new first one, if there is one. */
  function TaskFor(newFirst: Option<nat>): seq<Task> {
    if newFirst.Some? then [Process(newFirst.value)] else []
  }

  lemma Ends(s: State, g: Agent, p: Proc) returns (t: State)
    requires p.Removal? && At(s, g, p, if p.newFirst.Some? && !p.suspending then Labelled else Reported)
    requires s.mutexHeld ==> p.suspending
    ensures Leads(s, [ScheduleNew(g)], t)
    ensures t == s.(q := t.q, tasks := s.tasks + TaskFor(p.newFirst), procs := t.procs, mutexHeld := false)
    ensures t.q == s.q.(headScheduled := t.q.headScheduled) && OnlyOf(s, t, g) && ProcOf(t.procs, g) == Free
  {
    t := Next(s, ScheduleNew(g));
    LeadsOne(s, ScheduleNew(g));
    assert s.tasks + [] == s.tasks;
    hide Leads;
  }

  /** What the removal of n by g makes of s when nobody disturbs it. */
  ghost predicate Removed(s: State, t: State, g: Agent, n: nat, report: bool, suspending: bool, answers: Answers) {
    var newFirst := FirstWithout(s.q.active, n);
    && t.q.active == Without(s.q.active, n) && t.q.activeGauge == s.q.activeGauge - 1
    && t.q.suspended == (if suspending then s.q.suspended + {n} else s.q.suspended)
    && t.q.suspendedGauge == s.q.suspendedGauge + (if suspending then 1 else 0)
    && t.c == s.c.(cancelled := s.c.cancelled + RunFor(s.c.executing, n))
    && t.st == s.st.(lastPending := s.st.lastPending + if report && answers.reported then {n} else {})
    && t.lb.holder == s.lb.holder
    && t.lb.flagged == s.lb.flagged - {n}
                       + (if newFirst.Some? && !suspending && answers.labelled then {newFirst.value} else {})
    && t.tasks == s.tasks + TaskFor(newFirst)
    && t.worker == s.worker && t.ended == s.ended && !t.mutexHeld
    && OnlyOf(s, t, g) && ProcOf(t.procs, g) == Free
  }

  /** The label mutexes the removal needs are free. */
  predicate LabelsFree(s: State, n: nat, suspending: bool) {
    && n !in s.lb.holder
    && (suspending || FirstWithout(s.q.active, n).None? || FirstWithout(s.q.active, n).value !in s.lb.holder)
  }

  /**
   A Dequeue or suspend that nobody disturbs, however its calls end: it takes the
   pull request out, cancels the run for it, takes its label away, reports its
   pending status if that was asked for, and hands over to the new first one.
   */
  lemma RemovalAlone(s: State, g: Agent, n: nat, report: bool, suspending: bool, answers: Answers)
    returns (acts: seq<Action>, t: State)
    requires Enabled(s, Remove(g, n, report, suspending)) && n in s.q.active && (suspending || n !in s.q.suspended)
    requires LabelsFree(s, n, suspending) && (report ==> n !in s.st.holder)
    ensures Leads(s, acts, t) && Removed(s, t, g, n, report, suspending, answers)
    ensures acts != [] && acts[0] == Remove(g, n, report, suspending)
    ensures report && answers.reported && n !in s.st.lastPending ==> PendingOk(g) in acts
  {
    hide Enabled;
    hide Leads;
    hide Without;
    hide OnlyOf;
    hide At;
    var s1, p := LeavesQueue(s, g, n, report, suspending);
    var s2 := CancelsRun(s1, g, p);
    OnlyOfOne(s, s1, s2, g);
    var s3 := TakesLabel(s2, g, p, answers.unlabelled);
    OnlyOfOne(s, s2, s3, g);
    acts := [Remove(g, n, report, suspending)];
    LeadsOn(s, acts, s1, [Load(g), Cancel(g)], s2);
    acts := acts + [Load(g), Cancel(g)];
    var steps := [UnlabelCall(g)] + [if answers.unlabelled then UnlabelOk(g) else UnlabelFail(g)];
    LeadsOn(s, acts, s2, steps, s3);
    acts := acts + steps;
    var s4 := s3;
    assert s3.st.lastPending + {} == s3.st.lastPending;
    if report {
      s4 := Reports(s3, g, p, answers.reported);
      OnlyOfOne(s, s3, s4, g);
      steps := ReportSteps(s3.st.lastPending, g, n, answers.reported);
      LeadsOn(s, acts, s3, steps, s4);
      acts := acts + steps;
    }
    var s5 := s4;
    if p.newFirst.Some? && !suspending {
      s5 := GivesLabel(s4, g, p, p.newFirst.value, answers.labelled);
      OnlyOfOne(s, s4, s5, g);
      steps := LabelSteps(s4.lb.flagged, g, p.newFirst.value, answers.labelled);
      LeadsOn(s, acts, s4, steps, s5);
      acts := acts + steps;
    }
    t := Ends(s5, g, p);
    OnlyOfOne(s, s5, t, g);
    LeadsOn(s, acts, s5, [ScheduleNew(g)], t);
    acts := acts + [ScheduleNew(g)];
  }

  lemma OneEnqueued(g: Agent) returns (s: State)
    requires g.Caller?
    ensures Leads(Init(), [Enqueue(1, 0)], s)
    ensures s.q.active == [1] && s.q.suspended == {} && s.st == Init().st && s.lb == Init().lb
    ensures Enabled(s, Remove(g, 1, true, false))
  {
    s := Next(Init(), Enqueue(1, 0));
    LeadsOne(Init(), Enqueue(1, 0));
    hide Leads;
  }

  /** The handshake is about something: a run in which the pending report of a removal succeeds. */
  lemma PendingReported() returns (tr: seq<State>, acts: seq<Action>, j: nat)
    ensures IsTrace(tr, acts) && 1 < j < |acts| && acts[j] == PendingOk(Caller(0))
    ensures acts[0] == Enqueue(1, 0) && acts[1] == Remove(Caller(0), 1, true, false)
  {
    hide Leads;
    hide Enabled;
    hide Next;
    hide Removed;
    var g := Caller(0);
    var s := OneEnqueued(g);
    var own, t := RemovalAlone(s, g, 1, true, false, Answers(true, true, true));
    LeadsOn(Init(), [Enqueue(1, 0)], s, own, t);
    acts := [Enqueue(1, 0)] + own;
    tr := LeadsIsTrace(Init(), acts, t);
    j := Index(acts, PendingOk(g));
    hide IsTrace;
  }

  // ---------------------------------------------------------------------
  // A run that nobody disturbs
  // ---------------------------------------------------------------------

  /** The worker rests, and the next task is a run for n. */
  predicate RunIsNext(s: State, n: nat) {
    s.worker == Resting && s.c.executing == None && s.tasks != [] && s.tasks[0] == Process(n) && !s.mutexHeld
  }

  lemma TakesTask(s: State) returns (t: State)
    requires s.worker == Resting && s.tasks != []
    ensures Leads(s, [TakeTask], t)
    ensures t == s.(tasks := s.tasks[1..], worker := Begun(s.tasks[0], s.c.nextCtx),
                    c := s.c.(nextCtx := s.c.nextCtx + 1))
  {
    t := Next(s, TakeTask);
    LeadsOne(s, TakeTask);
    hide Leads;
  }

  lemma SetsExecuting(s: State, task: Task, ctx: Ctx) returns (t: State)
    requires s.worker == Begun(task, ctx)
    ensures Leads(s, [SetExecuting], t)
    ensures t == s.(worker := Entered(task, ctx), c := s.c.(executing := Some(Operation(task.pr, ctx))))
  {
    t := Next(s, SetExecuting);
    LeadsOne(s, SetExecuting);
    hide Leads;
  }

  /** A run is to check first whether it is to be; a status check acts at once. */
  function Entered(task: Task, ctx: Ctx): Worker {
    if task.Process? then AtGate(task.pr, ctx, Paused) else Acting(task.pr, ctx, false)
  }

  /** The worker takes the next task. */
  lemma TakesNext(s: State) returns (t: State)
    requires s.worker == Resting && s.tasks != []
    ensures Leads(s, [TakeTask] + [SetExecuting], t)
    ensures t == s.(tasks := s.tasks[1..], worker := Entered(s.tasks[0], s.c.nextCtx),
                    c := s.c.(nextCtx := s.c.nextCtx + 1,
                              executing := Some(Operation(s.tasks[0].pr, s.c.nextCtx))))
  {
    var s1 := TakesTask(s);
    t := SetsExecuting(s1, s.tasks[0], s.c.nextCtx);
    LeadsOn(s, [TakeTask], s1, [SetExecuting], t);
    hide Leads;
    hide Entered;
  }

  lemma ChecksPaused(s: State, n: nat, ctx: Ctx) returns (t: State)
    requires s.worker == AtGate(n, ctx, Paused)
    ensures Leads(s, [CheckPaused], t)
    ensures t == s.(worker := if s.c.paused then Ending(n, ctx, Process(n)) else AtGate(n, ctx, Context))
  {
    t := Next(s, CheckPaused);
    LeadsOne(s, CheckPaused);
    hide Leads;
  }

  lemma ChecksContext(s: State, n: nat, ctx: Ctx) returns (t: State)
    requires s.worker == AtGate(n, ctx, Context)
    ensures Leads(s, [CheckContext], t)
    ensures t == s.(worker := if ctx in s.c.cancelled then Ending(n, ctx, Process(n)) else AtGate(n, ctx, First))
  {
    t := Next(s, CheckContext);
    LeadsOne(s, CheckContext);
    hide Leads;
  }

  lemma ChecksFirst(s: State, n: nat, ctx: Ctx) returns (t: State)
    requires s.worker == AtGate(n, ctx, First) && !s.mutexHeld
    ensures Leads(s, [CheckFirst], t)
    ensures t == s.(worker := if Head(s.q.active) == Some(n) then Acting(n, ctx, true) else Ending(n, ctx, Process(n)))
  {
    t := Next(s, CheckFirst);
    LeadsOne(s, CheckFirst);
    hide Leads;
  }

  /** The gates let a run in exactly if the queue is not paused, its context is good and its pull request is first. */
  lemma Gates(s: State, n: nat, ctx: Ctx) returns (acts: seq<Action>, t: State)
    requires s.worker == AtGate(n, ctx, Paused) && !s.mutexHeld
    ensures Leads(s, acts, t)
    ensures t == s.(worker := if !s.c.paused && ctx !in s.c.cancelled && Head(s.q.active) == Some(n)
                              then Acting(n, ctx, true) else Ending(n, ctx, Process(n)))
  {
    hide Leads;
    var s1 := ChecksPaused(s, n, ctx);
    acts, t := [CheckPaused], s1;
    if !s.c.paused {
      var s2 := ChecksContext(s1, n, ctx);
      LeadsOn(s, acts, s1, [CheckContext], s2);
      acts, t := acts + [CheckContext], s2;
      if ctx !in s.c.cancelled {
        t := ChecksFirst(s2, n, ctx);
        LeadsOn(s, acts, s2, [CheckFirst], t);
        acts := acts + [CheckFirst];
      }
    }
  }

  lemma CallsForHead(s: State, n: nat, ctx: Ctx) returns (t: State)
    requires s.worker == Acting(n, ctx, true)
    requires ProcOf(s.procs, TheWorker) == Free && n !in s.lb.holder && n !in s.lb.flagged
    ensures Leads(s, [HeadCall], t)
    ensures t == s.(worker := AddsLabel(n, ctx, ctx in s.c.cancelled),
                    lb := s.lb.(holder := s.lb.holder[n := TheWorker]))
  {
    t := Next(s, HeadCall);
    LeadsOne(s, HeadCall);
    hide Leads;
  }

  lemma HeadAnswered(s: State, n: nat, ctx: Ctx, dead: bool, ok: bool) returns (t: State)
    requires s.worker == AddsLabel(n, ctx, dead) && !(ok && dead)
    ensures Leads(s, [if ok then HeadOk else HeadFail], t)
    ensures t == s.(worker := Acting(n, ctx, true),
                    lb := s.lb.(holder := s.lb.holder - {n},
                                flagged := s.lb.flagged + if ok then {n} else {}))
  {
    var a := if ok then HeadOk else HeadFail;
    t := Next(s, a);
    assert s.lb.flagged + {} == s.lb.flagged;
    LeadsOne(s, a);
    hide Leads;
  }

  /** The call of a run that adds the label sets the flag exactly if it succeeds, and the run goes on. */
  lemma RunCallsForLabel(s: State, n: nat, ctx: Ctx, ok: bool) returns (t: State)
    requires s.worker == Acting(n, ctx, true) && !(ok && ctx in s.c.cancelled)
    requires ProcOf(s.procs, TheWorker) == Free && n !in s.lb.holder && n !in s.lb.flagged
    ensures Leads(s, [HeadCall] + [if ok then HeadOk else HeadFail], t)
    ensures t == s.(lb := s.lb.(flagged := s.lb.flagged + if ok then {n} else {}))
  {
    var s1 := CallsForHead(s, n, ctx);
    t := HeadAnswered(s1, n, ctx, ctx in s.c.cancelled, ok);
    LeadsOn(s, [HeadCall], s1, [if ok then HeadOk else HeadFail], t);
    assert s.lb.holder[n := TheWorker] - {n} == s.lb.holder;
    hide Leads;
  }

  /** A run adds the head label, unless its flag is set. */
  lemma RunLabels(s: State, n: nat, ctx: Ctx) returns (acts: seq<Action>, t: State)
    requires s.worker == Acting(n, ctx, true) && ctx !in s.c.cancelled
    requires ProcOf(s.procs, TheWorker) == Free && n !in s.lb.holder
    ensures Leads(s, acts, t) && t == s.(lb := s.lb.(flagged := s.lb.flagged + {n}))
    ensures n !in s.lb.flagged ==> HeadOk in acts
  {
    if n in s.lb.flagged {
      acts, t := [HeadSkip], Next(s, HeadSkip);
      LeadsOne(s, HeadSkip);
      assert s.lb.flagged + {n} == s.lb.flagged;
    } else {
      acts := [HeadCall] + [HeadOk];
      t := RunCallsForLabel(s, n, ctx, true);
    }
    hide Leads;
  }

  lemma RunWantsMutex(s: State, n: nat, ctx: Ctx) returns (t: State)
    requires s.worker == Acting(n, ctx, true) && ProcOf(s.procs, TheWorker) == Free
    ensures Leads(s, [SuccessWant], t) && t == s.(worker := WantsStatus(n, ctx))
  {
    t := Next(s, SuccessWant);
    LeadsOne(s, SuccessWant);
    hide Leads;
  }

  lemma RunHasMutex(s: State, n: nat, ctx: Ctx) returns (t: State)
    requires s.worker == WantsStatus(n, ctx) && n !in s.st.holder
    ensures Leads(s, [SuccessLock], t)
    ensures t == s.(worker := HoldsStatus(n, ctx), st := s.st.(holder := s.st.holder[n := Local(TheWorker)]))
  {
    t := Next(s, SuccessLock);
    LeadsOne(s, SuccessLock);
    hide Leads;
  }

  lemma RunTakesMutex(s: State, n: nat, ctx: Ctx) returns (t: State)
    requires s.worker == Acting(n, ctx, true) && ProcOf(s.procs, TheWorker) == Free && n !in s.st.holder
    ensures Leads(s, [SuccessWant] + [SuccessLock], t)
    ensures t == s.(worker := HoldsStatus(n, ctx), st := s.st.(holder := s.st.holder[n := Local(TheWorker)]))
  {
    var s1 := RunWantsMutex(s, n, ctx);
    t := RunHasMutex(s1, n, ctx);
    LeadsOn(s, [SuccessWant], s1, [SuccessLock], t);
    hide Leads;
  }

  lemma RunStartsReport(s: State, n: nat, ctx: Ctx) returns (t: State)
    requires s.worker == HoldsStatus(n, ctx)
    ensures Leads(s, [SuccessCall], t) && t == s.(worker := Reporting(n, ctx, ctx in s.c.cancelled))
  {
    t := Next(s, SuccessCall);
    LeadsOne(s, SuccessCall);
    hide Leads;
  }

  /** A report that fails can be tried again, with the mutex still in hands. */
  lemma RunReportAnswered(s: State, n: nat, ctx: Ctx, dead: bool, ok: bool) returns (t: State)
    requires s.worker == Reporting(n, ctx, dead) && !(ok && dead)
    ensures Leads(s, [if ok then SuccessOk else SuccessFail], t)
    ensures t == if ok
                 then s.(worker := Acting(n, ctx, true), st := Statuses(s.st.holder - {n}, s.st.lastPending - {n}))
                 else s.(worker := HoldsStatus(n, ctx))
  {
    var a := if ok then SuccessOk else SuccessFail;
    t := Next(s, a);
    LeadsOne(s, a);
    hide Leads;
  }

  lemma RunReportsIndeed(s: State, n: nat, ctx: Ctx, ok: bool) returns (t: State)
    requires s.worker == HoldsStatus(n, ctx) && !(ok && ctx in s.c.cancelled)
    ensures Leads(s, [SuccessCall] + [if ok then SuccessOk else SuccessFail], t)
    ensures t == if ok
                 then s.(worker := Acting(n, ctx, true), st := Statuses(s.st.holder - {n}, s.st.lastPending - {n}))
                 else s
  {
    var s1 := RunStartsReport(s, n, ctx);
    t := RunReportAnswered(s1, n, ctx, ctx in s.c.cancelled, ok);
    LeadsOn(s, [SuccessCall], s1, [if ok then SuccessOk else SuccessFail], t);
    hide Leads;
  }

  /** A run reports success. */
  lemma RunReports(s: State, n: nat, ctx: Ctx) returns (acts: seq<Action>, t: State)
    requires s.worker == Acting(n, ctx, true) && ctx !in s.c.cancelled
    requires ProcOf(s.procs, TheWorker) == Free && n !in s.st.holder
    ensures Leads(s, acts, t) && SuccessOk in acts
    ensures t == s.(st := s.st.(lastPending := s.st.lastPending - {n}))
  {
    hide Leads;
    var s2 := RunTakesMutex(s, n, ctx);
    t := RunReportsIndeed(s2, n, ctx, true);
    assert s.st.holder[n := Local(TheWorker)] - {n} == s.st.holder;
    LeadsOn(s, [SuccessWant] + [SuccessLock], s2, [SuccessCall] + [SuccessOk], t);
    acts := [SuccessWant] + [SuccessLock] + ([SuccessCall] + [SuccessOk]);
    assert acts[3] == SuccessOk;
  }

  lemma ReportEnds(s: State, n: nat, ctx: Ctx, a: Action) returns (t: State)
    requires s.worker == HoldsStatus(n, ctx)
    requires a == SuccessGiveUp || (a == SuccessSkip && n !in s.st.lastPending)
    ensures Leads(s, [a], t)
    ensures t == s.(worker := Acting(n, ctx, true), st := s.st.(holder := s.st.holder - {n}))
  {
    t := Next(s, a);
    LeadsOne(s, a);
    hide Leads;
  }

  /** A run that gives its report up, or finds it made, goes on as if it had not begun it. */
  lemma RunReportsNothing(s: State, n: nat, ctx: Ctx, a: Action)
    requires s.worker == Acting(n, ctx, true) && ProcOf(s.procs, TheWorker) == Free && n !in s.st.holder
    requires a == SuccessGiveUp || (a == SuccessSkip && n !in s.st.lastPending)
    ensures Leads(s, [SuccessWant] + [SuccessLock] + [a], s)
  {
    hide Leads;
    var s1 := RunTakesMutex(s, n, ctx);
    var t := ReportEnds(s1, n, ctx, a);
    assert s.st.holder[n := Local(TheWorker)] - {n} == s.st.holder;
    LeadsOn(s, [SuccessWant] + [SuccessLock], s1, [a], t);
  }

  lemma CallStarts(s: State, n: nat, ctx: Ctx) returns (t: State)
    requires s.worker.Acting? && s.worker.pr == n && s.worker.ctx == ctx && ProcOf(s.procs, TheWorker) == Free
    ensures Leads(s, [CallStart], t)
    ensures t == s.(worker := Calling(n, ctx, s.worker.isRun, ctx in s.c.cancelled))
  {
    t := Next(s, CallStart);
    LeadsOne(s, CallStart);
    hide Leads;
  }

  lemma CallAnswered(s: State, ok: bool) returns (t: State)
    requires s.worker.Calling? && !(ok && s.worker.dead)
    ensures Leads(s, [if ok then CallOk else CallFail], t)
    ensures t == s.(worker := Acting(s.worker.pr, s.worker.ctx, s.worker.isRun))
  {
    var a := if ok then CallOk else CallFail;
    t := Next(s, a);
    LeadsOne(s, a);
    hide Leads;
  }

  /** After any other call, also one that fails, the worker goes on where it was. */
  lemma CallReturns(s: State, n: nat, ctx: Ctx, ok: bool)
    requires s.worker.Acting? && s.worker.pr == n && s.worker.ctx == ctx && ProcOf(s.procs, TheWorker) == Free
    requires !(ok && ctx in s.c.cancelled)
    ensures Leads(s, [CallStart] + [if ok then CallOk else CallFail], s)
  {
    hide Leads;
    var s1 := CallStarts(s, n, ctx);
    var t := CallAnswered(s1, ok);
    LeadsOn(s, [CallStart], s1, [if ok then CallOk else CallFail], t);
  }

  lemma TaskEnds(s: State, task: Task, ctx: Ctx) returns (t: State)
    requires s.worker == Ending(task.pr, ctx, task)
    ensures Leads(s, [ClearExecuting], t)
    ensures t == s.(worker := Resting, c := s.c.(executing := None), ended := s.ended + [task])
  {
    t := Next(s, ClearExecuting);
    LeadsOne(s, ClearExecuting);
    hide Leads;
  }

  lemma RunEnds(s: State, task: Task, ctx: Ctx) returns (t: State)
    requires s.worker == Acting(task.pr, ctx, task.Process?) && ProcOf(s.procs, TheWorker) == Free
    ensures Leads(s, [EndRun], t) && t == s.(worker := Ending(task.pr, ctx, task))
  {
    t := Next(s, EndRun);
    LeadsOne(s, EndRun);
    hide Leads;
  }

  lemma ActingEnds(s: State, task: Task, ctx: Ctx) returns (t: State)
    requires s.worker == Acting(task.pr, ctx, task.Process?) && ProcOf(s.procs, TheWorker) == Free
    ensures Leads(s, [EndRun] + [ClearExecuting], t)
    ensures t == s.(worker := Resting, c := s.c.(executing := None), ended := s.ended + [task])
  {
    var s1 := RunEnds(s, task, ctx);
    t := TaskEnds(s1, task, ctx);
    LeadsOn(s, [EndRun], s1, [ClearExecuting], t);
    hide Leads;
  }

  /** What is left when the next task has ended and nothing else has changed. */
  function TaskDone(s: State): State
    requires s.tasks != []
  {
    s.(tasks := s.tasks[1..], c := s.c.(nextCtx := s.c.nextCtx + 1), ended := s.ended + [s.tasks[0]])
  }

  /**
   A run for the first one that nobody disturbs, and whose calls succeed: the worker
   takes it, its context is good, and it can label the pull request and report it.
   */
  lemma RunAlone(s: State, n: nat) returns (acts: seq<Action>, t: State)
    requires RunIsNext(s, n) && ProcOf(s.procs, TheWorker) == Free
    requires !s.c.paused && s.c.nextCtx !in s.c.cancelled && Head(s.q.active) == Some(n)
    requires n !in s.lb.holder && n !in s.st.holder
    ensures Leads(s, acts, t) && SuccessOk in acts
    ensures t == TaskDone(s).(lb := s.lb.(flagged := s.lb.flagged + {n}),
                              st := s.st.(lastPending := s.st.lastPending - {n}))
  {
    hide Leads;
    var s1 := TakesNext(s);
    var checks, s2 := Gates(s1, n, s.c.nextCtx);
    var labels, s3 := RunLabels(s2, n, s.c.nextCtx);
    var reports, s4 := RunReports(s3, n, s.c.nextCtx);
    t := ActingEnds(s4, Process(n), s.c.nextCtx);
    acts := [TakeTask] + [SetExecuting];
    LeadsOn(s, acts, s1, checks, s2);
    acts := acts + checks;
    LeadsOn(s, acts, s2, labels, s3);
    acts := acts + labels;
    LeadsOn(s, acts, s3, reports, s4);
    acts := acts + reports;
    LeadsOn(s, acts, s4, ([EndRun] + [ClearExecuting]), t);
    acts := acts + ([EndRun] + [ClearExecuting]);
  }

  /** A run for another one, or of a paused queue, comes to nothing. */
  lemma IdleRunAlone(s: State, n: nat) returns (acts: seq<Action>, t: State)
    requires RunIsNext(s, n) && (s.c.paused || s.c.nextCtx in s.c.cancelled || Head(s.q.active) != Some(n))
    ensures Leads(s, acts, t) && t == TaskDone(s)
  {
    hide Leads;
    var s1 := TakesNext(s);
    var checks, s2 := Gates(s1, n, s.c.nextCtx);
    t := TaskEnds(s2, Process(n), s.c.nextCtx);
    acts := [TakeTask] + [SetExecuting];
    LeadsOn(s, acts, s1, checks, s2);
    acts := acts + checks;
    LeadsOn(s, acts, s2, [ClearExecuting], t);
    acts := acts + [ClearExecuting];
  }

  /**
   A call is skipped only where it would change nothing: what was to be reported has
   been, or the flag of the head label is set.
   */
  lemma SkipsWhatIsThere(s: State, a: Action)
    requires Enabled(s, a) && (a.PendingSkip? || a.SuccessSkip? || a.LabelSkip? || a.HeadSkip?)
    ensures Next(s, a).st.lastPending == s.st.lastPending && Next(s, a).lb.flagged == s.lb.flagged
    ensures a.PendingSkip? ==> ProcOf(s.procs, a.agent).pr in s.st.lastPending
    ensures a.SuccessSkip? ==> s.worker.pr !in s.st.lastPending
    ensures a.LabelSkip? ==> ProcOf(s.procs, a.agent).newFirst.Some?
                             && ProcOf(s.procs, a.agent).newFirst.value in s.lb.flagged
    ensures a.HeadSkip? ==> s.worker.pr in s.lb.flagged
  {
    hide FirstAfter;
    if a.PendingSkip? {
      var n := ProcOf(s.procs, a.agent).pr;
      assert s.st.lastPending + {n} == s.st.lastPending;
    }
  }

  // ---------------------------------------------------------------------
  // The context of a run is its own
  // ---------------------------------------------------------------------

  predicate Older(running: Option<Operation>, nextCtx: Ctx) {
    running.Some? ==> running.value.ctx < nextCtx
  }

  predicate KnowsOlder(p: Proc, nextCtx: Ctx) {
    && (p.Removal? && p.stage.Loaded? ==> Older(p.stage.running, nextCtx))
    && (p.PauseLoaded? ==> Older(p.running, nextCtx))
  }

  /** Nobody has heard of a context that was not given to a task yet. */
  ghost predicate Contexts(s: State) {
    && (forall ctx :: ctx in s.c.cancelled ==> ctx < s.c.nextCtx)
    && Older(s.c.executing, s.c.nextCtx)
    && (!s.worker.Resting? ==> s.worker.ctx < s.c.nextCtx)
    && (forall g :: KnowsOlder(ProcOf(s.procs, g), s.c.nextCtx))
  }

  lemma ContextsFiling(s: State, a: Action)
    requires Contexts(s) && OfFiling(a) && FilingEnabled(s, a)
    ensures Contexts(NextFiling(s, a))
  {
    FilingFrame(s, a);
    hide NextFiling;
    hide FilingEnabled;
    ContextsWith(s, NextFiling(s, a));
  }

  /** What is no change of control, or of what is known of it, keeps that. */
  lemma ContextsWith(s: State, t: State)
    requires Contexts(s) && t.c == s.c && (!t.worker.Resting? ==> !s.worker.Resting? && t.worker.ctx == s.worker.ctx)
    requires forall g :: KnowsOlder(ProcOf(t.procs, g), t.c.nextCtx) || ProcOf(t.procs, g) == ProcOf(s.procs, g)
    ensures Contexts(t)
  {
    forall g
      ensures KnowsOlder(ProcOf(t.procs, g), t.c.nextCtx)
    {
      assert KnowsOlder(ProcOf(s.procs, g), s.c.nextCtx);
    }
  }

  lemma ContextsControl(s: State, a: Action)
    requires Contexts(s) && OfControl(a) && ControlEnabled(s, a)
    ensures Contexts(NextControl(s, a))
  {
    var t := NextControl(s, a);
    if a.PauseCancel? {
      assert KnowsOlder(ProcOf(s.procs, Caller(a.id)), s.c.nextCtx);
    }
    forall g
      ensures KnowsOlder(ProcOf(t.procs, g), t.c.nextCtx)
    {
      assert KnowsOlder(ProcOf(s.procs, g), s.c.nextCtx);
    }
  }

  lemma ContextsRemoval(s: State, a: Action)
    requires Contexts(s) && OfRemoval(a) && RemovalEnabled(s, a)
    ensures Contexts(NextRemoval(s, a))
  {
    hide SetActive;
    hide Without;
    var t := NextRemoval(s, a);
    assert KnowsOlder(ProcOf(s.procs, a.agent), s.c.nextCtx);
    forall g
      ensures KnowsOlder(ProcOf(t.procs, g), t.c.nextCtx)
    {
      assert KnowsOlder(ProcOf(s.procs, g), s.c.nextCtx);
    }
  }

  lemma ContextsWorker(s: State, a: Action)
    requires Contexts(s) && OfWorker(a) && WorkerEnabled(s, a)
    ensures Contexts(NextWorker(s, a))
  {
    var t := NextWorker(s, a);
    forall g
      ensures KnowsOlder(ProcOf(t.procs, g), t.c.nextCtx)
    {
      assert KnowsOlder(ProcOf(s.procs, g), s.c.nextCtx);
    }
  }

  lemma ContextsLabel(s: State, a: Action)
    requires Contexts(s) && OfLabel(a) && LabelEnabled(s, a)
    ensures Contexts(NextLabel(s, a))
  {
    LabelFrame(s, a);
    hide NextLabel;
    hide LabelEnabled;
    ContextsWith(s, NextLabel(s, a));
    hide Contexts;
  }

  lemma ContextsPending(s: State, a: Action)
    requires Contexts(s) && OfPending(a) && PendingEnabled(s, a)
    ensures Contexts(NextPending(s, a))
  {
    PendingFrame(s, a);
    hide NextPending;
    hide PendingEnabled;
    ContextsWith(s, NextPending(s, a));
    hide Contexts;
  }

  lemma ContextsSuccess(s: State, a: Action)
    requires Contexts(s) && OfSuccess(a) && SuccessEnabled(s, a)
    ensures Contexts(NextSuccess(s, a))
  {
    SuccessFrame(s, a);
    hide NextSuccess;
    hide SuccessEnabled;
    ContextsWith(s, NextSuccess(s, a));
    hide Contexts;
  }

  lemma ContextsHead(s: State, a: Action)
    requires Contexts(s) && OfHead(a) && HeadEnabled(s, a)
    ensures Contexts(NextHead(s, a))
  {
    HeadFrame(s, a);
    hide NextHead;
    hide HeadEnabled;
    ContextsWith(s, NextHead(s, a));
    hide Contexts;
  }

  lemma ContextsForeign(s: State, a: Action)
    requires Contexts(s) && OfForeign(a) && ForeignEnabled(s, a)
    ensures Contexts(NextForeign(s, a))
  {
    ForeignFrame(s, a);
    hide NextForeign;
    hide ForeignEnabled;
    ContextsWith(s, NextForeign(s, a));
    hide Contexts;
  }

  lemma NextContexts(s: State, a: Action)
    requires Contexts(s) && Enabled(s, a)
    ensures Contexts(Next(s, a))
  {
    hide NextFiling;
    hide NextControl;
    hide NextRemoval;
    hide NextLabel;
    hide NextPending;
    hide NextSuccess;
    hide NextHead;
    hide NextForeign;
    hide NextWorker;
    hide FilingEnabled;
    hide ControlEnabled;
    hide RemovalEnabled;
    hide LabelEnabled;
    hide PendingEnabled;
    hide SuccessEnabled;
    hide HeadEnabled;
    hide ForeignEnabled;
    hide WorkerEnabled;
    hide Contexts;
    if OfFiling(a) {
      ContextsFiling(s, a);
    } else if OfControl(a) {
      ContextsControl(s, a);
    } else if OfRemoval(a) {
      ContextsRemoval(s, a);
    } else if OfLabel(a) {
      ContextsLabel(s, a);
    } else if OfPending(a) {
      ContextsPending(s, a);
    } else if OfSuccess(a) {
      ContextsSuccess(s, a);
    } else if OfHead(a) {
      ContextsHead(s, a);
    } else if OfForeign(a) {
      ContextsForeign(s, a);
    } else {
      ContextsWorker(s, a);
    }
  }

  /** Over all runs: the context of the next task is good, whatever was cancelled or expired before. */
  lemma {:induction false} TraceContexts(tr: seq<State>, acts: seq<Action>, k: nat)
    requires IsTrace(tr, acts) && k <= |acts|
    ensures Contexts(tr[k])
    ensures tr[k].c.nextCtx !in tr[k].c.cancelled
  {
    hide Enabled;
    hide Next;
    if k > 0 {
      TraceContexts(tr, acts, k - 1);
      NextContexts(tr[k - 1], acts[k - 1]);
    }
  }

  // ---------------------------------------------------------------------
  // The other operations, undisturbed
  // ---------------------------------------------------------------------

  /** What coming into the active queue at the place comes to. */
  ghost predicate Placed(s: State, t: State, n: nat, at: nat)
    requires at <= |s.q.active|
  {
    && t.q.active == InsertAt(s.q.active, at, n) && t.q.activeGauge == s.q.activeGauge + 1
    && t.tasks == s.tasks + (if s.q.active == [] then [Process(n)] else [])
    && t == s.(q := t.q, tasks := t.tasks, procs := t.procs) && forall g :: ProcOf(t.procs, g) == ProcOf(s.procs, g)
  }

  /** Enqueue takes a number that is neither active nor suspended, at any place behind the first. */
  lemma EnqueueAlone(s: State, n: nat, at: nat)
    requires !s.mutexHeld && n !in s.q.active && n !in s.q.suspended
    requires at <= |s.q.active| && (at == 0 ==> s.q.active == [])
    ensures Enabled(s, Enqueue(n, at))
    ensures var t := Next(s, Enqueue(n, at));
            && Placed(s, t, n, at) && t.q.suspended == s.q.suspended && t.q.suspendedGauge == s.q.suspendedGauge
  {
    hide InsertAt;
  }

  /** Who may resume a single pull request: a caller that is free, or the worker on a status check. */
  predicate MayResume(s: State, g: Agent) {
    ProcOf(s.procs, g) == Free && (g == TheWorker ==> s.worker.Acting? && !s.worker.isRun)
  }

  lemma TakesSuspended(s: State, g: Agent, n: nat) returns (t: State)
    requires !s.mutexHeld && MayResume(s, g) && n in s.q.suspended
    ensures Leads(s, [ResumeTake(g, n)], t) && OnlyOf(s, t, g) && ProcOf(t.procs, g) == InFlight(n)
    ensures t == s.(q := s.q.(suspended := s.q.suspended - {n}, suspendedGauge := s.q.suspendedGauge - 1),
                    procs := t.procs)
  {
    t := Next(s, ResumeTake(g, n));
    LeadsOne(s, ResumeTake(g, n));
    hide Leads;
  }

  lemma PutsActive(s: State, g: Agent, n: nat, at: nat) returns (t: State)
    requires !s.mutexHeld && ProcOf(s.procs, g) == InFlight(n) && n !in s.q.active && n !in s.q.suspended
    requires at <= |s.q.active| && (at == 0 ==> s.q.active == [])
    ensures Leads(s, [ResumePut(g, at)], t) && OnlyOf(s, t, g) && ProcOf(t.procs, g) == Free
    ensures t == s.(q := t.q, tasks := t.tasks, procs := t.procs)
    ensures t.q.active == InsertAt(s.q.active, at, n) && t.q.activeGauge == s.q.activeGauge + 1
    ensures t.q.suspended == s.q.suspended && t.q.suspendedGauge == s.q.suspendedGauge
    ensures t.tasks == s.tasks + if s.q.active == [] then [Process(n)] else []
  {
    t := Next(s, ResumePut(g, at));
    LeadsOne(s, ResumePut(g, at));
    hide InsertAt;
    hide Leads;
  }

  /** ResumePR brings a suspended pull request back to any place behind the first. */
  lemma ResumeAlone(s: State, g: Agent, n: nat, at: nat) returns (t: State)
    requires !s.mutexHeld && MayResume(s, g) && n in s.q.suspended && n !in s.q.active
    requires at <= |s.q.active| && (at == 0 ==> s.q.active == [])
    ensures Leads(s, [ResumeTake(g, n)] + [ResumePut(g, at)], t)
    ensures Placed(s, t, n, at) && t.q.suspended == s.q.suspended - {n} && t.q.suspendedGauge == s.q.suspendedGauge - 1
  {
    hide Leads;
    hide InsertAt;
    var s1 := TakesSuspended(s, g, n);
    t := PutsActive(s1, g, n, at);
    LeadsOn(s, [ResumeTake(g, n)], s1, [ResumePut(g, at)], t);
  }

  /** ResumeAllPRs brings all suspended ones back, in any order behind the first. */
  lemma ResumeAllAlone(s: State, arranged: seq<nat>)
    requires !s.mutexHeld && Rearranges(s.q.active, s.q.suspended, arranged)
    ensures Enabled(s, ResumeAll(arranged))
    ensures var t := Next(s, ResumeAll(arranged));
            && t.q.active == arranged && t.q.suspended == {}
            && t.q.activeGauge == s.q.activeGauge + |s.q.suspended|
            && t.q.suspendedGauge == s.q.suspendedGauge - |s.q.suspended|
            && t.tasks == s.tasks + (if s.q.active == [] && arranged != [] then [Process(arranged[0])] else [])
            && t == s.(q := t.q, tasks := t.tasks)
  {
    hide Distinct;
  }

  /** Sorting arranges the active ones anew, with the first one first, and does nothing else. */
  lemma SortAlone(s: State, arranged: seq<nat>)
    requires !s.mutexHeld && Rearranges(s.q.active, {}, arranged)
    ensures Enabled(s, Sort(arranged))
    ensures Next(s, Sort(arranged)) == s.(q := s.q.(active := arranged))
  {
    hide Distinct;
    assert arranged != [] ==> arranged[0] in arranged;
  }

  /** Pause stops the queue and cancels the context of the task that is executed. */
  lemma PauseAlone(s: State, id: nat) returns (t: State)
    requires ProcOf(s.procs, Caller(id)) == Free
    ensures Leads(s, [PauseStore(id), PauseLoad(id)] + [PauseCancel(id)], t)
    ensures t == s.(c := t.c, procs := t.procs) && forall g :: ProcOf(t.procs, g) == ProcOf(s.procs, g)
    ensures t.c == s.c.(paused := true, quiet := true,
                        cancelled := s.c.cancelled
                                     + if s.c.executing.Some? then {s.c.executing.value.ctx} else {})
  {
    var s2 := PauseLoads(s, id);
    t := Next(s2, PauseCancel(id));
    LeadsOne(s2, PauseCancel(id));
    hide Leads;
    LeadsOn(s, [PauseStore(id), PauseLoad(id)], s2, [PauseCancel(id)], t);
  }

  lemma PauseLoads(s: State, id: nat) returns (t: State)
    requires ProcOf(s.procs, Caller(id)) == Free
    ensures Leads(s, [PauseStore(id), PauseLoad(id)], t)
    ensures t == s.(c := s.c.(paused := true), procs := t.procs) && OnlyOf(s, t, Caller(id))
    ensures ProcOf(t.procs, Caller(id)) == PauseLoaded(s.c.resumes, s.c.executing)
  {
    t := Next(Next(s, PauseStore(id)), PauseLoad(id));
    LeadsTwo(s, PauseStore(id), PauseLoad(id));
    hide Leads;
  }

  /** Resume: the queue is not paused any more, and processPR is queued for the first one. */
  lemma UnpauseAlone(s: State, id: nat) returns (acts: seq<Action>, t: State)
    requires !s.mutexHeld && ProcOf(s.procs, Caller(id)) == Free
    ensures Leads(s, acts, t) && acts != [] && acts[0] == Unpause
    ensures t == s.(q := t.q, c := t.c, tasks := s.tasks + TaskFor(Head(s.q.active)), procs := t.procs)
    ensures !t.c.paused && t.c == s.c.(paused := false, quiet := false, resumes := t.c.resumes)
    ensures t.q == s.q.(headScheduled := t.q.headScheduled) && forall g :: ProcOf(t.procs, g) == ProcOf(s.procs, g)
  {
    var s1 := Next(s, Unpause);
    LeadsOne(s, Unpause);
    assert s1 == s.(c := s.c.(paused := false, resumes := s.c.resumes + 1, quiet := false));
    acts, t := [Unpause], s1;
    if s.q.active != [] {
      t := SchedulesFirst(s1, id);
      hide Leads;
      LeadsOn(s, acts, s1, [ReadFirst(id), ScheduleFirst(id)], t);
      acts := acts + [ReadFirst(id), ScheduleFirst(id)];
    }
    hide Next;
    hide Enabled;
  }

  lemma SchedulesFirst(s: State, id: nat) returns (t: State)
    requires !s.mutexHeld && ProcOf(s.procs, Caller(id)) == Free && s.q.active != []
    ensures Leads(s, [ReadFirst(id), ScheduleFirst(id)], t)
    ensures t == s.(q := t.q, tasks := s.tasks + [Process(s.q.active[0])], procs := t.procs)
    ensures t.q == s.q.(headScheduled := t.q.headScheduled) && forall g :: ProcOf(t.procs, g) == ProcOf(s.procs, g)
  {
    t := Next(Next(s, ReadFirst(id)), ScheduleFirst(id));
    LeadsTwo(s, ReadFirst(id), ScheduleFirst(id));
    hide Leads;
  }

  /** A status check: it is queued, taken, may call and resume, and ends. */
  lemma CheckAlone(s: State, n: nat) returns (t: State)
    requires s.worker == Resting && s.c.executing == None && s.tasks != [] && s.tasks[0] == CheckStatus(n)
    requires s.c.nextCtx !in s.c.cancelled && ProcOf(s.procs, TheWorker) == Free
    ensures Leads(s, [TakeTask] + [SetExecuting] + ([CallStart] + [CallOk]) + ([EndRun] + [ClearExecuting]), t)
    ensures t == TaskDone(s)
  {
    var takes, calls := [TakeTask] + [SetExecuting], [CallStart] + [CallOk];
    var s1 := TakesNext(s);
    CallReturns(s1, n, s.c.nextCtx, true);
    t := ActingEnds(s1, CheckStatus(n), s.c.nextCtx);
    hide Leads;
    LeadsOn(s, takes, s1, calls, s1);
    LeadsOn(s, takes + calls, s1, [EndRun] + [ClearExecuting], t);
  }

  /** Queueing a status check puts it behind all tasks and does nothing else. */
  lemma QueueCheckAlone(s: State, n: nat)
    ensures Enabled(s, QueueCheck(n)) && Next(s, QueueCheck(n)) == s.(tasks := s.tasks + [CheckStatus(n)])
  {
  }
}
