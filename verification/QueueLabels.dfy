/**
 Who carries the head label of a queue, in every interleaving.

 The label belongs to the first active pull request.  A removal takes it away
 after its section, and Dequeue gives it to the new first one after its unlock,
 when that may not be first any more.
 */
module QueueLabels {
  import opened LinkedList
  import opened QueueProtocol
  import opened QueueSafety

  // ---------------------------------------------------------------------
  // Invariants
  // ---------------------------------------------------------------------

  /** The agent is in the section that is protected by the label mutex of n. */
  predicate InLabelSection(w: Worker, procs: Procs, g: Agent, n: nat) {
    var p := ProcOf(procs, g);
    || (AtStage(p, Unlabelling) && p.pr == n)
    || (AtStage(p, Labelling) && p.newFirst == Some(n))
    || (g == TheWorker && w.AddsLabel? && w.pr == n)
  }

  predicate HasLabelMutex(lb: Labels, g: Agent, n: nat) {
    n in lb.holder && lb.holder[n] == g
  }

  predicate LabelLockOk(lb: Labels, p: Proc, g: Agent) {
    && (AtStage(p, Unlabelling) ==> HasLabelMutex(lb, g, p.pr))
    && (AtStage(p, Labelling) ==> p.newFirst.Some? && HasLabelMutex(lb, g, p.newFirst.value))
  }

  predicate LabelHolderOk(lb: Labels, w: Worker, procs: Procs, n: nat) {
    n in lb.holder ==> InLabelSection(w, procs, lb.holder[n], n)
  }

  /** Those in a section under a label mutex are those that have that mutex. */
  ghost predicate LabelLocks(lb: Labels, w: Worker, procs: Procs) {
    && (w.AddsLabel? ==> HasLabelMutex(lb, TheWorker, w.pr))
    && (forall g :: LabelLockOk(lb, ProcOf(procs, g), g))
    && (forall n :: LabelHolderOk(lb, w, procs, n))
  }

  /** Whoever last removed n while it was first has not cancelled the run for it yet. */
  predicate BeforeCancel(procs: Procs, remover: map<nat, Agent>, executing: Option<Operation>, n: nat) {
    n in remover &&
    var p := ProcOf(procs, remover[n]);
    p.Removal? && p.pr == n && (p.stage == Unlocked || (p.stage.Loaded? && p.stage.running == executing))
  }

  /** A run whose context is good is for the first one, or is going to be cancelled. */
  predicate Led(q: Entries, c: Control, w: Worker, procs: Procs) {
    InRun(w) && w.ctx !in c.cancelled ==>
      Head(q.active) == Some(w.pr) || BeforeCancel(procs, q.remover, c.executing, w.pr)
  }

  /** Whoever last removed n while it was first has not begun to take its label away. */
  predicate BeforeUnlabel(procs: Procs, remover: map<nat, Agent>, n: nat) {
    n in remover &&
    var p := ProcOf(procs, remover[n]);
    p.Removal? && p.pr == n && (p.stage == Unlocked || p.stage.Loaded? || p.stage == Cancelled)
  }

  /** n is first, or its label is going to be taken away. */
  predicate MayCarry(q: Entries, procs: Procs, n: nat) {
    Head(q.active) == Some(n) || BeforeUnlabel(procs, q.remover, n)
  }

  predicate FlagOk(q: Entries, lb: Labels, procs: Procs, n: nat) {
    n in lb.flagged && n !in lb.stray ==> MayCarry(q, procs, n)
  }

  /** Only those may carry the label, and be given it by a run, but for the strays. */
  ghost predicate Flags(q: Entries, lb: Labels, w: Worker, procs: Procs) {
    && (w.AddsLabel? && !w.dead ==> MayCarry(q, procs, w.pr))
    && (forall n :: FlagOk(q, lb, procs, n))
  }

  ghost predicate LabelsInv(s: State) {
    && LabelLocks(s.lb, s.worker, s.procs)
    && Led(s.q, s.c, s.worker, s.procs)
    && Flags(s.q, s.lb, s.worker, s.procs)
  }

  lemma InitLabelsInv()
    ensures LabelsInv(Init())
  {
  }

  // ---------------------------------------------------------------------
  // The first one, and who removes it
  // ---------------------------------------------------------------------

  /** Agent g has just removed n, which was first. */
  predicate FirstRemoved(t: State, g: Agent, n: nat) {
    var p := ProcOf(t.procs, g);
    n in t.q.remover && t.q.remover[n] == g && p.Removal? && p.pr == n && p.stage == Unlocked
  }

  /** The first one stays first, or is removed by a step that records who did that. */
  predicate LeadMove(s: State, a: Action, t: State) {
    && (s.q.active == [] || Head(t.q.active) == Head(s.q.active)
        || (a.Remove? && FirstRemoved(t, a.agent, s.q.active[0])))
    && (t.q.remover == s.q.remover
        || (a.Remove? && s.q.active != [] && t.q.remover == s.q.remover[s.q.active[0] := a.agent]
            && FirstRemoved(t, a.agent, s.q.active[0])))
  }

  lemma LeadFiling(s: State, a: Action)
    requires OfFiling(a) && FilingEnabled(s, a)
    ensures LeadMove(s, a, NextFiling(s, a))
  {
    hide Size;
    hide Distinct;
  }

  lemma WithoutHead(a: seq<nat>, n: nat)
    ensures Head(a).Some? && Head(a) != Some(n) ==> Head(Without(a, n)) == Head(a)
  {
  }

  lemma SetActiveLead(q: Entries, active: seq<nat>)
    ensures SetActive(q, active).active == active && SetActive(q, active).remover == q.remover
  {
  }

  /** The section changes who is first, and who removed it, only if it removes the first one. */
  lemma RemoveSectionLead(s: State, g: Agent, n: nat, report: bool, suspending: bool)
    ensures var t := RemoveSection(s, g, n, report, suspending);
            || (t.q.remover == s.q.remover && (s.q.active == [] || Head(t.q.active) == Head(s.q.active)))
            || (Head(s.q.active) == Some(n) && t.q.remover == s.q.remover[n := g] && FirstRemoved(t, g, n))
  {
    WithoutHead(s.q.active, n);
    SetActiveLead(s.q, Without(s.q.active, n));
    hide SetActive;
    hide Without;
  }

  lemma LeadRemoveSection(s: State, g: Agent, n: nat, report: bool, suspending: bool)
    ensures LeadMove(s, Remove(g, n, report, suspending), RemoveSection(s, g, n, report, suspending))
  {
    RemoveSectionLead(s, g, n, report, suspending);
    hide RemoveSection;
    hide FirstRemoved;
  }

  lemma LeadRemoval(s: State, a: Action)
    requires OfRemoval(a) && RemovalEnabled(s, a)
    ensures LeadMove(s, a, NextRemoval(s, a))
  {
    hide RemoveSection;
    hide FirstRemoved;
    if a.Remove? {
      LeadRemoveSection(s, a.agent, a.pr, a.report, a.suspending);
    }
  }

  lemma WorkerFrame(s: State, a: Action)
    requires OfWorker(a) && WorkerEnabled(s, a)
    ensures var t := NextWorker(s, a);
            t.q == s.q && t.st == s.st && t.lb == s.lb && t.procs == s.procs && t.mutexHeld == s.mutexHeld
  {
  }

  /** The other steps leave the entries as they are. */
  lemma OthersLead(s: State, a: Action)
    requires Enabled(s, a) && !OfFiling(a) && !OfRemoval(a)
    ensures Next(s, a).q.active == s.q.active && Next(s, a).q.remover == s.q.remover
  {
    hide NextControl;
    hide NextLabel;
    hide NextPending;
    hide NextSuccess;
    hide NextHead;
    hide NextForeign;
    hide NextWorker;
    hide ControlEnabled;
    hide LabelEnabled;
    hide PendingEnabled;
    hide SuccessEnabled;
    hide HeadEnabled;
    hide ForeignEnabled;
    hide WorkerEnabled;
    if OfControl(a) {
      ControlFrame(s, a);
    } else if OfLabel(a) {
      LabelFrame(s, a);
    } else if OfPending(a) {
      PendingFrame(s, a);
    } else if OfSuccess(a) {
      SuccessFrame(s, a);
    } else if OfHead(a) {
      HeadFrame(s, a);
    } else if OfForeign(a) {
      ForeignFrame(s, a);
    } else {
      WorkerFrame(s, a);
    }
  }

  lemma NextLead(s: State, a: Action)
    requires Enabled(s, a)
    ensures LeadMove(s, a, Next(s, a))
  {
    hide NextFiling;
    hide NextRemoval;
    hide FilingEnabled;
    hide RemovalEnabled;
    if OfFiling(a) {
      LeadFiling(s, a);
    } else if OfRemoval(a) {
      LeadRemoval(s, a);
    } else {
      OthersLead(s, a);
      hide Enabled;
      hide Next;
    }
    hide LeadMove;
  }

  // ---------------------------------------------------------------------
  // Before the cancellation, and before the label goes
  // ---------------------------------------------------------------------

  /** The step a of agent g is the one that a removal takes that has not begun to take the label away. */
  predicate EarlyMove(s: State, a: Action, t: State, g: Agent) {
    var p, q := ProcOf(s.procs, g), ProcOf(t.procs, g);
    && p.Removal?
    && (p.stage == Unlocked ==> q == p.(stage := Loaded(s.c.executing)) && t.c == s.c)
    && (p.stage.Loaded? ==>
          && q == p.(stage := Cancelled)
          && (p.stage.running.Some? && p.stage.running.value.pr == p.pr ==> p.stage.running.value.ctx in t.c.cancelled))
    && (p.stage == Cancelled ==> a == UnlabelCall(g))
  }

  lemma EarlyRemoval(s: State, a: Action)
    requires OfRemoval(a) && !a.Remove? && RemovalEnabled(s, a)
    ensures EarlyMove(s, a, NextRemoval(s, a), a.agent)
  {
  }

  lemma LaterLabel(s: State, a: Action)
    requires OfLabel(a) && LabelEnabled(s, a)
    ensures var p := ProcOf(s.procs, a.agent);
            p.Removal? && p.stage != Unlocked && !p.stage.Loaded?
              && (p.stage == Cancelled ==> a == UnlabelCall(a.agent))
  {
  }

  lemma LaterPending(s: State, a: Action)
    requires OfPending(a) && PendingEnabled(s, a)
    ensures var p := ProcOf(s.procs, a.agent);
            p.Removal? && p.stage != Unlocked && !p.stage.Loaded? && p.stage != Cancelled
  {
  }

  lemma EarlyStep(s: State, a: Action, g: Agent)
    requires Enabled(s, a) && OwnStep(a, g)
    ensures EarlyMove(s, a, Next(s, a), g)
  {
    hide NextRemoval;
    hide NextLabel;
    hide NextPending;
    hide RemovalEnabled;
    hide LabelEnabled;
    hide PendingEnabled;
    if OfRemoval(a) {
      EarlyRemoval(s, a);
    } else if OfLabel(a) {
      LaterLabel(s, a);
    } else {
      LaterPending(s, a);
    }
  }

  lemma BeforeUnlabelMove(s: State, a: Action, n: nat)
    requires Enabled(s, a) && BeforeUnlabel(s.procs, s.q.remover, n) && a != UnlabelCall(s.q.remover[n])
    ensures BeforeUnlabel(Next(s, a).procs, Next(s, a).q.remover, n)
  {
    hide Enabled;
    hide Next;
    NextLead(s, a);
    var g := s.q.remover[n];
    if OwnStep(a, g) {
      EarlyStep(s, a, g);
    } else {
      OthersLeaveRemovals(s, a, g);
    }
  }

  /** The removal that takes step a is for n. */
  predicate IsFor(s: State, a: Action, n: nat)
    requires OfLabel(a)
  {
    var p := ProcOf(s.procs, a.agent);
    p.Removal? && if a.UnlabelCall? || a.UnlabelOk? || a.UnlabelFail? then p.pr == n else p.newFirst == Some(n)
  }

  /** The step begins to take the label of n away. */
  predicate Unlabels(s: State, a: Action, n: nat) {
    a.UnlabelCall? && IsFor(s, a, n)
  }

  /** Who may carry the label still may after a step, unless the step begins to take it away. */
  lemma MayCarryMove(s: State, a: Action, n: nat)
    requires Enabled(s, a) && MayCarry(s.q, s.procs, n)
    requires !Unlabels(s, a, n)
    ensures MayCarry(Next(s, a).q, Next(s, a).procs, n)
  {
    NextLead(s, a);
    if Head(s.q.active) != Some(n) {
      BeforeUnlabelMove(s, a, n);
    }
    hide Enabled;
    hide Next;
  }

  /** A run goes on under its context, or has just found its pull request first. */
  predicate RunMove(s: State, a: Action, t: State) {
    && s.c.cancelled <= t.c.cancelled
    && (InRun(t.worker) ==>
          || (InRun(s.worker) && t.worker.pr == s.worker.pr && t.worker.ctx == s.worker.ctx
              && t.c.executing == s.c.executing)
          || (a.CheckFirst? && Head(s.q.active) == Some(t.worker.pr)))
  }

  lemma RunWorker(s: State, a: Action)
    requires OfWorker(a) && WorkerEnabled(s, a)
    ensures RunMove(s, a, NextWorker(s, a))
  {
  }

  /** Filing, and what concerns labels and statuses, leaves control and the worker alone. */
  lemma RunControl(s: State, a: Action)
    requires OfControl(a) && ControlEnabled(s, a)
    ensures RunMove(s, a, NextControl(s, a))
  {
  }

  lemma RunRemoval(s: State, a: Action)
    requires OfRemoval(a) && RemovalEnabled(s, a)
    ensures RunMove(s, a, NextRemoval(s, a))
  {
    hide SetActive;
    hide Without;
  }

  lemma NextRunMove(s: State, a: Action)
    requires Enabled(s, a)
    ensures RunMove(s, a, Next(s, a))
  {
    hide NextFiling;
    hide NextControl;
    hide NextRemoval;
    hide NextLabel;
    hide NextPending;
    hide NextSuccess;
    hide NextHead;
    hide NextForeign;
    hide NextWorker;
    hide FilingEnabled;
    hide ControlEnabled;
    hide RemovalEnabled;
    hide LabelEnabled;
    hide PendingEnabled;
    hide SuccessEnabled;
    hide HeadEnabled;
    hide ForeignEnabled;
    hide WorkerEnabled;
    if OfFiling(a) {
      FilingFrame(s, a);
    } else if OfControl(a) {
      RunControl(s, a);
    } else if OfRemoval(a) {
      RunRemoval(s, a);
    } else if OfLabel(a) {
      LabelFrame(s, a);
    } else if OfPending(a) {
      PendingFrame(s, a);
    } else if OfSuccess(a) {
      SuccessFrame(s, a);
    } else if OfHead(a) {
      HeadFrame(s, a);
    } else if OfForeign(a) {
      ForeignFrame(s, a);
    } else {
      RunWorker(s, a);
    }
  }

  lemma NextLed(s: State, a: Action)
    requires Inv(s) && Enabled(s, a) && Led(s.q, s.c, s.worker, s.procs)
    ensures var t := Next(s, a);
            Led(t.q, t.c, t.worker, t.procs)
  {
    var t := Next(s, a);
    NextLead(s, a);
    NextRunMove(s, a);
    if InRun(t.worker) && t.worker.ctx !in t.c.cancelled {
      var n := t.worker.pr;
      if Head(s.q.active) != Some(n) {
        BeforeCancelMove(s, a);
      } else {
        assert !a.CheckFirst? || t.q.active == s.q.active by {
          if a.CheckFirst? { OthersLead(s, a); }
        }
      }
    }
    hide Enabled;
    hide Next;
    hide Inv;
  }

  lemma RunIsVisible(s: State)
    requires Inv(s) && InRun(s.worker)
    ensures s.c.executing == Some(Operation(s.worker.pr, s.worker.ctx))
  {
    hide Locks;
    hide Sets;
    hide Gauged;
    hide Owed;
    hide Epochs;
    hide Gone;
    hide Barred;
    hide Quiet;
  }

  lemma BeforeCancelKept(s: State, a: Action, t: State, g: Agent, n: nat, ctx: Ctx)
    requires LeadMove(s, a, t) && (EarlyMove(s, a, t, g) || ProcOf(t.procs, g) == ProcOf(s.procs, g))
    requires BeforeCancel(s.procs, s.q.remover, s.c.executing, n) && g == s.q.remover[n]
    requires t.c.executing == s.c.executing == Some(Operation(n, ctx)) && ctx !in t.c.cancelled
    ensures BeforeCancel(t.procs, t.q.remover, t.c.executing, n)
  {
  }

  lemma BeforeCancelMove(s: State, a: Action)
    requires Inv(s) && Enabled(s, a) && InRun(s.worker)
             && BeforeCancel(s.procs, s.q.remover, s.c.executing, s.worker.pr)
    requires var t := Next(s, a);
             InRun(t.worker) && t.worker.pr == s.worker.pr && t.worker.ctx == s.worker.ctx
               && t.worker.ctx !in t.c.cancelled
    ensures var t := Next(s, a);
            BeforeCancel(t.procs, t.q.remover, t.c.executing, t.worker.pr)
  {
    var g := s.q.remover[s.worker.pr];
    RunIsVisible(s);
    NextInv(s, a);
    RunIsVisible(Next(s, a));
    hide Inv;
    hide Enabled;
    hide Next;
    hide InRun;
    NextLead(s, a);
    hide LeadMove;
    if OwnStep(a, g) {
      EarlyStep(s, a, g);
    } else {
      OthersLeaveRemovals(s, a, g);
    }
    hide EarlyMove;
    BeforeCancelKept(s, a, Next(s, a), g, s.worker.pr, s.worker.ctx);
  }

  // ---------------------------------------------------------------------
  // The label mutexes
  // ---------------------------------------------------------------------

  predicate OutsideLabelSection(p: Proc) {
    !AtStage(p, Unlabelling) && !AtStage(p, Labelling)
  }

  /** Nobody comes into a section under a label mutex, or out of one. */
  ghost predicate SectionsStay(s: State, t: State) {
    && t.lb == s.lb
    && (t.worker == s.worker || (!s.worker.AddsLabel? && !t.worker.AddsLabel?))
    && (forall g :: ProcOf(t.procs, g) == ProcOf(s.procs, g)
                    || (OutsideLabelSection(ProcOf(s.procs, g)) && OutsideLabelSection(ProcOf(t.procs, g))))
  }

  lemma StayFiling(s: State, a: Action)
    requires OfFiling(a) && FilingEnabled(s, a)
    ensures SectionsStay(s, NextFiling(s, a))
  {
    hide SetActive;
    hide InsertAt;
    hide Size;
    hide Rearranges;
  }

  lemma StayControl(s: State, a: Action)
    requires OfControl(a) && ControlEnabled(s, a)
    ensures SectionsStay(s, NextControl(s, a))
  {
  }

  lemma StayRemoval(s: State, a: Action)
    requires OfRemoval(a) && RemovalEnabled(s, a)
    ensures SectionsStay(s, NextRemoval(s, a))
  {
    hide SetActive;
    hide Without;
  }

  lemma StayPending(s: State, a: Action)
    requires OfPending(a) && PendingEnabled(s, a)
    ensures SectionsStay(s, NextPending(s, a))
  {
    hide FirstAfter;
  }

  lemma StayWorker(s: State, a: Action)
    requires OfWorker(a) && WorkerEnabled(s, a)
    ensures SectionsStay(s, NextWorker(s, a))
  {
  }

  lemma StaySuccess(s: State, a: Action)
    requires OfSuccess(a) && SuccessEnabled(s, a)
    ensures SectionsStay(s, NextSuccess(s, a))
  {
  }

  lemma NextStay(s: State, a: Action)
    requires Enabled(s, a) && !OfLabel(a) && !OfHead(a)
    ensures SectionsStay(s, Next(s, a))
  {
    hide NextFiling;
    hide NextControl;
    hide NextRemoval;
    hide NextPending;
    hide NextSuccess;
    hide NextForeign;
    hide NextWorker;
    hide FilingEnabled;
    hide ControlEnabled;
    hide RemovalEnabled;
    hide PendingEnabled;
    hide SuccessEnabled;
    hide ForeignEnabled;
    hide WorkerEnabled;
    if OfFiling(a) {
      StayFiling(s, a);
    } else if OfControl(a) {
      StayControl(s, a);
    } else if OfRemoval(a) {
      StayRemoval(s, a);
    } else if OfPending(a) {
      StayPending(s, a);
    } else if OfSuccess(a) {
      StaySuccess(s, a);
    } else if OfForeign(a) {
      ForeignFrame(s, a);
    } else {
      StayWorker(s, a);
    }
  }

  lemma LabelLocksStay(s: State, t: State)
    requires LabelLocks(s.lb, s.worker, s.procs) && SectionsStay(s, t)
    ensures LabelLocks(t.lb, t.worker, t.procs)
  {
    forall g
      ensures LabelLockOk(t.lb, ProcOf(t.procs, g), g)
    {
      assert LabelLockOk(s.lb, ProcOf(s.procs, g), g);
    }
    forall n: nat
      ensures LabelHolderOk(t.lb, t.worker, t.procs, n)
    {
      assert LabelHolderOk(s.lb, s.worker, s.procs, n);
    }
  }

  lemma LabelLocksHead(s: State, a: Action)
    requires Shape(s.c, s.worker, s.procs, s.mutexHeld) && LabelLocks(s.lb, s.worker, s.procs)
    requires OfHead(a) && HeadEnabled(s, a)
    ensures var t := NextHead(s, a);
            LabelLocks(t.lb, t.worker, t.procs)
  {
    var t := NextHead(s, a);
    forall g
      ensures LabelLockOk(t.lb, ProcOf(t.procs, g), g)
    {
      assert LabelLockOk(s.lb, ProcOf(s.procs, g), g);
    }
    forall n: nat
      ensures LabelHolderOk(t.lb, t.worker, t.procs, n)
    {
      assert LabelHolderOk(s.lb, s.worker, s.procs, n);
    }
  }

  lemma LabelLocksLabel(s: State, a: Action)
    requires Shape(s.c, s.worker, s.procs, s.mutexHeld) && LabelLocks(s.lb, s.worker, s.procs)
    requires OfLabel(a) && LabelEnabled(s, a)
    ensures var t := NextLabel(s, a);
            LabelLocks(t.lb, t.worker, t.procs)
  {
    var t := NextLabel(s, a);
    assert LabelLockOk(s.lb, ProcOf(s.procs, a.agent), a.agent);
    forall g
      ensures LabelLockOk(t.lb, ProcOf(t.procs, g), g)
    {
      assert LabelLockOk(s.lb, ProcOf(s.procs, g), g);
    }
    forall n: nat
      ensures LabelHolderOk(t.lb, t.worker, t.procs, n)
    {
      assert LabelHolderOk(s.lb, s.worker, s.procs, n);
    }
  }

  lemma NextLabelLocks(s: State, a: Action)
    requires Shape(s.c, s.worker, s.procs, s.mutexHeld) && LabelLocks(s.lb, s.worker, s.procs) && Enabled(s, a)
    ensures var t := Next(s, a);
            LabelLocks(t.lb, t.worker, t.procs)
  {
    hide LabelLocks;
    hide Shape;
    if OfLabel(a) {
      hide NextLabel;
      hide LabelEnabled;
      LabelLocksLabel(s, a);
    } else if OfHead(a) {
      hide NextHead;
      hide HeadEnabled;
      LabelLocksHead(s, a);
    } else {
      hide Enabled;
      hide Next;
      NextStay(s, a);
      LabelLocksStay(s, Next(s, a));
    }
  }

  // ---------------------------------------------------------------------
  // The flags
  // ---------------------------------------------------------------------

  /** Dequeue has labelled n, which it found to be the new first one. */
  predicate LabelsNew(s: State, a: Action, n: nat) {
    a.LabelOk? && IsFor(s, a, n)
  }

  /** A run has labelled n. */
  predicate LabelsFirst(s: State, a: Action, n: nat) {
    a.HeadOk? && s.worker.AddsLabel? && s.worker.pr == n
  }

  /** Exactly which steps set the flag of n, and make a stray of it, and which clear that. */
  predicate FlagMove(s: State, a: Action, t: State, n: nat) {
    && (n in t.lb.flagged <==> LabelsNew(s, a, n) || LabelsFirst(s, a, n) || (n in s.lb.flagged && !Unlabels(s, a, n)))
    && (n in t.lb.stray <==>
          (LabelsNew(s, a, n) && Head(s.q.active) != Some(n)) || (n in s.lb.stray && !Unlabels(s, a, n)))
  }

  lemma FlagLabel(s: State, a: Action, n: nat)
    requires OfLabel(a) && LabelEnabled(s, a)
    ensures FlagMove(s, a, NextLabel(s, a), n)
  {
  }

  lemma FlagHead(s: State, a: Action, n: nat)
    requires OfHead(a) && HeadEnabled(s, a)
    ensures FlagMove(s, a, NextHead(s, a), n)
  {
  }

  lemma NextFlag(s: State, a: Action, n: nat)
    requires Enabled(s, a)
    ensures FlagMove(s, a, Next(s, a), n)
  {
    hide NextFiling;
    hide NextControl;
    hide NextRemoval;
    hide NextLabel;
    hide NextPending;
    hide NextSuccess;
    hide NextHead;
    hide NextForeign;
    hide NextWorker;
    hide FilingEnabled;
    hide ControlEnabled;
    hide RemovalEnabled;
    hide LabelEnabled;
    hide PendingEnabled;
    hide SuccessEnabled;
    hide HeadEnabled;
    hide ForeignEnabled;
    hide WorkerEnabled;
    if OfLabel(a) {
      FlagLabel(s, a, n);
    } else if OfHead(a) {
      FlagHead(s, a, n);
    } else {
      NextStay(s, a);
      hide Enabled;
      hide Next;
    }
  }

  /** A label call of a run goes on, or one starts under the context of the run. */
  predicate AddingMove(s: State, a: Action, t: State) {
    t.worker.AddsLabel? ==>
      || t.worker == s.worker
      || (a.HeadCall? && InRun(s.worker)
          && t.worker == AddsLabel(s.worker.pr, s.worker.ctx, s.worker.ctx in s.c.cancelled))
  }

  lemma AddingHead(s: State, a: Action)
    requires OfHead(a) && HeadEnabled(s, a)
    ensures AddingMove(s, a, NextHead(s, a))
  {
  }

  lemma NextAdding(s: State, a: Action)
    requires Enabled(s, a)
    ensures AddingMove(s, a, Next(s, a))
  {
    hide NextFiling;
    hide NextControl;
    hide NextRemoval;
    hide NextLabel;
    hide NextPending;
    hide NextSuccess;
    hide NextHead;
    hide NextForeign;
    hide NextWorker;
    hide FilingEnabled;
    hide ControlEnabled;
    hide RemovalEnabled;
    hide LabelEnabled;
    hide PendingEnabled;
    hide SuccessEnabled;
    hide HeadEnabled;
    hide ForeignEnabled;
    hide WorkerEnabled;
    if OfLabel(a) {
      LabelFrame(s, a);
    } else if OfHead(a) {
      AddingHead(s, a);
    } else {
      NextStay(s, a);
      hide Enabled;
      hide Next;
    }
  }

  /** While a run adds the label of n, nobody begins to take it away. */
  lemma AddingExcludes(s: State, a: Action)
    requires LabelLocks(s.lb, s.worker, s.procs) && Enabled(s, a) && s.worker.AddsLabel?
    ensures !Unlabels(s, a, s.worker.pr)
  {
  }

  lemma BeforeCancelMayCarry(q: Entries, c: Control, w: Worker, procs: Procs)
    requires Led(q, c, w, procs) && InRun(w) && w.ctx !in c.cancelled
    ensures MayCarry(q, procs, w.pr)
  {
  }

  lemma NextAddsLabel(s: State, a: Action)
    requires LabelsInv(s) && Enabled(s, a)
    ensures var t := Next(s, a);
            t.worker.AddsLabel? && !t.worker.dead ==> MayCarry(t.q, t.procs, t.worker.pr)
  {
    NextAdding(s, a);
    var t := Next(s, a);
    if t.worker.AddsLabel? && !t.worker.dead {
      if t.worker == s.worker {
        AddingExcludes(s, a);
      } else {
        BeforeCancelMayCarry(s.q, s.c, s.worker, s.procs);
      }
      hide Led;
      hide InRun;
      hide MayCarry;
      hide LabelLocks;
      MayCarryMove(s, a, t.worker.pr);
    }
    hide Enabled;
    hide Next;
  }

  lemma NextFlagOk(s: State, a: Action, n: nat)
    requires Flags(s.q, s.lb, s.worker, s.procs) && Enabled(s, a)
    ensures FlagOk(Next(s, a).q, Next(s, a).lb, Next(s, a).procs, n)
  {
    hide Enabled;
    hide Next;
    NextFlag(s, a, n);
    var t := Next(s, a);
    assert FlagOk(s.q, s.lb, s.procs, n);
    if n in t.lb.flagged && n !in t.lb.stray {
      if a.HeadOk? {
        HeadOkIsLive(s, a);
      }
      MayCarryMove(s, a, n);
    }
  }

  lemma HeadOkIsLive(s: State, a: Action)
    requires Enabled(s, a) && a.HeadOk?
    ensures s.worker.AddsLabel? && !s.worker.dead
  {
  }

  lemma NextLabelsInv(s: State, a: Action)
    requires Inv(s) && LabelsInv(s) && Enabled(s, a)
    ensures LabelsInv(Next(s, a))
  {
    NextLabelLocks(s, a);
    NextLed(s, a);
    NextAddsLabel(s, a);
    hide Enabled;
    hide Next;
    hide Inv;
    hide LabelLocks;
    hide Led;
    var t := Next(s, a);
    forall n: nat
      ensures FlagOk(t.q, t.lb, t.procs, n)
    {
      NextFlagOk(s, a, n);
    }
    hide FlagOk;
    hide MayCarry;
  }

  lemma {:induction false} TraceLabelsInv(tr: seq<State>, acts: seq<Action>, k: nat)
    requires IsTrace(tr, acts) && k <= |acts|
    ensures LabelsInv(tr[k])
  {
    hide LabelsInv;
    hide Inv;
    hide Enabled;
    hide Next;
    if k == 0 {
      InitLabelsInv();
    } else {
      TraceLabelsInv(tr, acts, k - 1);
      TraceInv(tr, acts, k - 1);
      NextLabelsInv(tr[k - 1], acts[k - 1]);
    }
  }

  // ---------------------------------------------------------------------
  // Exactly when one that is not first has the label
  // ---------------------------------------------------------------------

  /** At step i a Dequeue labelled n as the new first one, when n was not first any more. */
  ghost predicate LabelledLate(tr: seq<State>, acts: seq<Action>, i: nat, n: nat)
    requires |tr| == |acts| + 1 && i < |acts|
  {
    LabelsNew(tr[i], acts[i], n) && Head(tr[i].q.active) != Some(n)
  }

  /** That happened before state k, and nobody has begun to take the label away since. */
  ghost predicate KeepsLate(tr: seq<State>, acts: seq<Action>, i: nat, k: nat, n: nat)
    requires |tr| == |acts| + 1 && i < k <= |acts|
  {
    LabelledLate(tr, acts, i, n) && forall m :: i < m < k ==> !Unlabels(tr[m], acts[m], n)
  }

  lemma {:induction false} StrayMeaning(tr: seq<State>, acts: seq<Action>, k: nat, n: nat)
    requires IsTrace(tr, acts) && k <= |acts|
    ensures n in tr[k].lb.stray <==> exists i: nat :: i < k && KeepsLate(tr, acts, i, k, n)
    ensures n in tr[k].lb.stray ==> n in tr[k].lb.flagged
  {
    hide Enabled;
    hide Next;
    hide Unlabels;
    hide LabelsNew;
    hide LabelsFirst;
    if k > 0 {
      StrayMeaning(tr, acts, k - 1, n);
      NextFlag(tr[k - 1], acts[k - 1], n);
      OneStepLater(tr, acts, k - 1, k, n);
      hide KeepsLate;
    }
  }

  lemma OneStepLater(tr: seq<State>, acts: seq<Action>, k: nat, later: nat, n: nat)
    requires |tr| == |acts| + 1 && k < |acts| && later == k + 1
    ensures (exists i: nat :: i < later && KeepsLate(tr, acts, i, later, n)) <==>
            || LabelledLate(tr, acts, k, n)
            || (!Unlabels(tr[k], acts[k], n) && exists i: nat :: i < k && KeepsLate(tr, acts, i, k, n))
  {
    hide Unlabels;
    hide LabelledLate;
    if LabelledLate(tr, acts, k, n) {
      assert KeepsLate(tr, acts, k, later, n);
    }
    forall i: nat | i < k
      ensures KeepsLate(tr, acts, i, later, n) <==> KeepsLate(tr, acts, i, k, n) && !Unlabels(tr[k], acts[k], n)
    {
    }
  }

  /** A removal of n has not begun to take the label of n away. */
  ghost predicate LosesLabel(s: State, n: nat) {
    exists g :: EarlyRemovalOf(ProcOf(s.procs, g), n)
  }

  predicate EarlyRemovalOf(p: Proc, n: nat) {
    p.Removal? && p.pr == n && (p.stage == Unlocked || p.stage.Loaded? || p.stage == Cancelled)
  }

  lemma BeforeUnlabelLoses(s: State, n: nat)
    requires BeforeUnlabel(s.procs, s.q.remover, n)
    ensures LosesLabel(s, n)
  {
    assert EarlyRemovalOf(ProcOf(s.procs, s.q.remover[n]), n);
  }

  /**
   Exactly when a pull request that is not first has the head label, in every
   interleaving: when a Dequeue labelled it as the new first one after it had left
   the front, and nobody has begun to take the label away since, or when a removal
   of it is going to do that.
   */
  lemma LabelledBehindExactly(tr: seq<State>, acts: seq<Action>, k: nat, n: nat)
    requires IsTrace(tr, acts) && k <= |acts|
    requires Head(tr[k].q.active) != Some(n) && !LosesLabel(tr[k], n)
    ensures n in tr[k].lb.flagged <==> exists i: nat :: i < k && KeepsLate(tr, acts, i, k, n)
  {
    TraceLabelsInv(tr, acts, k);
    StrayMeaning(tr, acts, k, n);
    assert FlagOk(tr[k].q, tr[k].lb, tr[k].procs, n);
    if BeforeUnlabel(tr[k].procs, tr[k].q.remover, n) {
      BeforeUnlabelLoses(tr[k], n);
    }
  }

  // ---------------------------------------------------------------------
  // No removal is stuck
  // ---------------------------------------------------------------------

  /** Whoever has the label mutex of n can give it back at once. */
  ghost predicate CanReleaseLabel(s: State, n: nat) {
    exists a :: Enabled(s, a) && n !in Next(s, a).lb.holder
  }

  lemma RemovalCanReleaseLabel(s: State, g: Agent, n: nat)
    requires var p := ProcOf(s.procs, g);
             (AtStage(p, Unlabelling) && p.pr == n)
               || (AtStage(p, Labelling) && LabelsNewFirst(p) && p.newFirst.value == n)
    ensures CanReleaseLabel(s, n)
  {
    var a := if ProcOf(s.procs, g).stage == Unlabelling then UnlabelOk(g) else LabelOk(g);
    assert Enabled(s, a) && n !in Next(s, a).lb.holder;
    hide Enabled;
    hide Next;
  }

  lemma RunCanReleaseLabel(s: State)
    requires s.worker.AddsLabel?
    ensures CanReleaseLabel(s, s.worker.pr)
  {
    assert Enabled(s, HeadFail) && s.worker.pr !in Next(s, HeadFail).lb.holder;
    hide Enabled;
    hide Next;
  }

  lemma LabelHolderCanRelease(s: State, n: nat)
    requires Inv(s) && LabelLocks(s.lb, s.worker, s.procs) && n in s.lb.holder
    ensures CanReleaseLabel(s, n)
  {
    hide CanReleaseLabel;
    assert LabelHolderOk(s.lb, s.worker, s.procs, n);
    hide LabelLocks;
    var g := s.lb.holder[n];
    var p := ProcOf(s.procs, g);
    if AtStage(p, Labelling) {
      LabelledByDequeue(s, g);
    }
    hide Inv;
    if p.Removal? && (p.stage == Unlabelling || p.stage == Labelling)
        && (if p.stage == Unlabelling then p.pr == n else p.newFirst == Some(n)) {
      RemovalCanReleaseLabel(s, g, n);
    } else {
      RunCanReleaseLabel(s);
    }
  }

  /**
   No removal is ever stuck: in every state of every run it can step, or it waits
   for a status mutex that can be released, or for a label mutex whose holder can
   release it at once.
   */
  lemma RemovalNeverStuck(tr: seq<State>, acts: seq<Action>, k: nat, g: Agent)
    requires IsTrace(tr, acts) && k <= |acts| && ProcOf(tr[k].procs, g).Removal?
    ensures var s, p := tr[k], ProcOf(tr[k].procs, g);
            || (exists a :: OwnStep(a, g) && !a.PendingFail? && Enabled(s, a))
            || (AtStage(p, Unlabelled) && CanRelease(s, p.pr))
            || (LabelWanted(p).Some? && CanReleaseLabel(s, LabelWanted(p).value))
  {
    var s, p := tr[k], ProcOf(tr[k].procs, g);
    TraceInv(tr, acts, k);
    TraceLabelsInv(tr, acts, k);
    hide CanRelease;
    hide CanReleaseLabel;
    hide LabelLocks;
    hide Locks;
    hide Enabled;
    if !Waits(s, p) {
      RemovalSteps(s, g);
    } else if AtStage(p, Unlabelled) && p.pr in s.st.holder {
      HolderCanRelease(s, p.pr);
    } else {
      LabelHolderCanRelease(s, LabelWanted(p).value);
    }
  }

  // ---------------------------------------------------------------------
  // It happens
  // ---------------------------------------------------------------------

  /** The steps lead from s to t. */
  ghost predicate Leads(s: State, acts: seq<Action>, t: State)
    decreases |acts|
  {
    if acts == [] then t == s else Enabled(s, acts[0]) && Leads(Next(s, acts[0]), acts[1..], t)
  }

  lemma {:induction false} LeadsOn(s: State, acts: seq<Action>, t: State, more: seq<Action>, u: State)
    requires Leads(s, acts, t) && Leads(t, more, u)
    ensures Leads(s, acts + more, u)
    decreases |acts|
  {
    hide Enabled;
    hide Next;
    if acts == [] {
      assert acts + more == more;
    } else {
      LeadsOn(Next(s, acts[0]), acts[1..], t, more, u);
      assert (acts + more)[0] == acts[0] && (acts + more)[1..] == acts[1..] + more;
    }
  }

  lemma LeadsOne(s: State, a: Action)
    requires Enabled(s, a)
    ensures Leads(s, [a], Next(s, a))
  {
    hide Enabled;
    hide Next;
    assert [a][1..] == [];
  }

  lemma {:induction false} LeadsIsTrace(s: State, acts: seq<Action>, t: State) returns (tr: seq<State>)
    requires Leads(s, acts, t)
    ensures |tr| == |acts| + 1 && tr[0] == s && tr[|acts|] == t
    ensures forall i {:trigger acts[i]} ::
            0 <= i < |acts| ==> Enabled(tr[i], acts[i]) && tr[i + 1] == Next(tr[i], acts[i])
    decreases |acts|
  {
    hide Enabled;
    hide Next;
    if acts == [] {
      tr := [s];
    } else {
      var rest := LeadsIsTrace(Next(s, acts[0]), acts[1..], t);
      tr := [s] + rest;
      forall i | 0 <= i < |acts|
        ensures Enabled(tr[i], acts[i]) && tr[i + 1] == Next(tr[i], acts[i])
      {
        if i > 0 {
          assert acts[1..][i - 1] == acts[i];
        }
      }
    }
  }

  /** The active queue is as given, the worker rests, and no mutex is held; who changed between s and t is g at most. */
  predicate Idle(s: State, active: seq<nat>) {
    && s.q.active == active && s.q.suspended == {} && s.worker == Resting && s.c.executing == None
    && s.lb.holder == map[] && !s.mutexHeld
  }

  ghost predicate OnlyOf(s: State, t: State, g: Agent) {
    forall h :: h != g ==> ProcOf(t.procs, h) == ProcOf(s.procs, h)
  }

  /** g is in a Dequeue of n that reports nothing. */
  predicate Dequeues(s: State, g: Agent, n: nat, newFirst: Option<nat>, stage: Stage) {
    var p := ProcOf(s.procs, g);
    p.Removal? && p == Removal(n, false, false, newFirst, p.since, stage)
  }

  lemma FirstGoes(s: State, id: nat, n: nat, rest: seq<nat>) returns (t: State)
    requires Idle(s, [n] + rest) && n !in rest && Head(rest) != Some(n) && ProcOf(s.procs, Caller(id)) == Free
    ensures Leads(s, [Remove(Caller(id), n, false, false)], t)
    ensures Idle(t, rest) && t.lb == s.lb && OnlyOf(s, t, Caller(id))
    ensures Dequeues(t, Caller(id), n, Head(rest), Unlocked)
  {
    var a := Remove(Caller(id), n, false, false);
    WithoutFirst(n, rest);
    hide Without;
    t := Next(s, a);
    LeadsOne(s, a);
  }

  lemma {:induction false} WithoutFirst(n: nat, rest: seq<nat>)
    requires n !in rest
    ensures Without([n] + rest, n) == rest
  {
    assert ([n] + rest)[1..] == rest;
    WithoutAbsent(rest, n);
  }

  lemma LeadsTwo(s: State, a: Action, b: Action)
    requires Enabled(s, a) && Enabled(Next(s, a), b)
    ensures Leads(s, [a, b], Next(Next(s, a), b))
  {
    hide Enabled;
    hide Next;
    LeadsOne(Next(s, a), b);
    assert [a, b][1..] == [b];
  }

  lemma CancelsNothing(s: State, g: Agent, n: nat, newFirst: Option<nat>, active: seq<nat>) returns (t: State)
    requires Idle(s, active) && Dequeues(s, g, n, newFirst, Unlocked)
    ensures Leads(s, [Load(g), Cancel(g)], t)
    ensures Idle(t, active) && t.lb == s.lb && OnlyOf(s, t, g) && Dequeues(t, g, n, newFirst, Cancelled)
  {
    t := Next(Next(s, Load(g)), Cancel(g));
    LeadsTwo(s, Load(g), Cancel(g));
    hide Leads;
  }

  lemma LabelGoes(s: State, g: Agent, n: nat, newFirst: Option<nat>, active: seq<nat>) returns (t: State)
    requires Idle(s, active) && Dequeues(s, g, n, newFirst, Cancelled)
    ensures Leads(s, [UnlabelCall(g), UnlabelOk(g)], t)
    ensures Idle(t, active) && t.lb == Labels(map[], s.lb.flagged - {n}, s.lb.stray - {n}) && OnlyOf(s, t, g)
    ensures Dequeues(t, g, n, newFirst, Reported)
  {
    t := Next(Next(s, UnlabelCall(g)), UnlabelOk(g));
    LeadsTwo(s, UnlabelCall(g), UnlabelOk(g));
    hide Leads;
  }

  /** A whole Dequeue of the first one, up to where it turns to the new first one. */
  lemma DequeueUpToNew(s: State, id: nat, n: nat, rest: seq<nat>) returns (acts: seq<Action>, t: State)
    requires Idle(s, [n] + rest) && n !in rest && Head(rest) != Some(n) && ProcOf(s.procs, Caller(id)) == Free
    ensures Leads(s, acts, t)
    ensures Idle(t, rest) && t.lb == Labels(map[], s.lb.flagged - {n}, s.lb.stray - {n}) && OnlyOf(s, t, Caller(id))
    ensures Dequeues(t, Caller(id), n, Head(rest), Reported)
  {
    hide Leads;
    var g := Caller(id);
    var s1 := FirstGoes(s, id, n, rest);
    var s2 := CancelsNothing(s1, g, n, Head(rest), rest);
    t := LabelGoes(s2, g, n, Head(rest), rest);
    LeadsOn(s, [Remove(g, n, false, false)], s1, [Load(g), Cancel(g)], s2);
    acts := [Remove(g, n, false, false)] + [Load(g), Cancel(g)];
    LeadsOn(s, acts, s2, [UnlabelCall(g), UnlabelOk(g)], t);
    acts := acts + [UnlabelCall(g), UnlabelOk(g)];
  }

  /** The Dequeue schedules what it found to be the new first one, and is done. */
  lemma DequeueEnds(s: State, g: Agent, n: nat, newFirst: Option<nat>, active: seq<nat>) returns (t: State)
    requires Idle(s, active) && Dequeues(s, g, n, newFirst, if newFirst.Some? then Labelled else Reported)
    ensures Leads(s, [ScheduleNew(g)], t)
    ensures Idle(t, active) && t.lb == s.lb && OnlyOf(s, t, g) && ProcOf(t.procs, g) == Free
  {
    t := Next(s, ScheduleNew(g));
    LeadsOne(s, ScheduleNew(g));
    hide Leads;
  }

  /** The Dequeue of n labels m, which it found to be the new first one. */
  lemma LabelsNewOne(s: State, g: Agent, n: nat, m: nat, active: seq<nat>) returns (t: State)
    requires Idle(s, active) && Dequeues(s, g, n, Some(m), Reported) && m !in s.lb.flagged
    ensures Leads(s, [LabelCall(g), LabelOk(g)], t)
    ensures Idle(t, active) && m in t.lb.flagged && OnlyOf(s, t, g) && Dequeues(t, g, n, Some(m), Labelled)
  {
    t := Next(Next(s, LabelCall(g)), LabelOk(g));
    LeadsTwo(s, LabelCall(g), LabelOk(g));
    hide Leads;
  }

  /** Two pull requests come into the queue. */
  lemma TwoEnqueued() returns (t: State)
    ensures Leads(Init(), [Enqueue(1, 0), Enqueue(2, 1)], t)
    ensures Idle(t, [1] + [2]) && t.lb == Labels(map[], {}, {}) && forall g :: ProcOf(t.procs, g) == Free
  {
    t := Next(Next(Init(), Enqueue(1, 0)), Enqueue(2, 1));
    LeadsTwo(Init(), Enqueue(1, 0), Enqueue(2, 1));
    hide Leads;
  }

  /**
   A pull request can keep the head label for good: two Dequeues cross, and when
   both are done the queue is empty, nobody is in the middle of anything, and the
   second pull request has the label.
   */
  lemma LabelStays() returns (tr: seq<State>, acts: seq<Action>, n: nat)
    ensures IsTrace(tr, acts)
    ensures var s := tr[|acts|];
            s.q.active == [] && s.q.suspended == {} && n in s.lb.flagged && forall g :: ProcOf(s.procs, g) == Free
  {
    hide Leads;
    var s0 := TwoEnqueued();
    var a1, s1 := DequeueUpToNew(s0, 0, 1, [2]);
    var a2, s2 := DequeueUpToNew(s1, 1, 2, []);
    var s3 := DequeueEnds(s2, Caller(1), 2, None, []);
    var s4 := LabelsNewOne(s3, Caller(0), 1, 2, []);
    var s5 := DequeueEnds(s4, Caller(0), 1, Some(2), []);
    n := 2;
    acts := [Enqueue(1, 0), Enqueue(2, 1)];
    LeadsOn(Init(), acts, s0, a1, s1);
    acts := acts + a1;
    LeadsOn(Init(), acts, s1, a2, s2);
    acts := acts + a2;
    LeadsOn(Init(), acts, s2, [ScheduleNew(Caller(1))], s3);
    acts := acts + [ScheduleNew(Caller(1))];
    LeadsOn(Init(), acts, s3, [LabelCall(Caller(0)), LabelOk(Caller(0))], s4);
    acts := acts + [LabelCall(Caller(0)), LabelOk(Caller(0))];
    LeadsOn(Init(), acts, s4, [ScheduleNew(Caller(0))], s5);
    acts := acts + [ScheduleNew(Caller(0))];
    tr := LeadsIsTrace(Init(), acts, s5);
  }
}
