/** What every step of the queue protocol keeps, and what follows for whole runs. */
module QueueSafety {
  import opened LinkedList
  import opened QueueProtocol
  import OrderedMap
  import Pool

  // ---------------------------------------------------------------------
  // Invariants
  // ---------------------------------------------------------------------

  /** The worker executes a task whose operation is visible in `executing`. */
  predicate Visible(w: Worker) {
    !w.Resting? && !w.Begun?
  }

  predicate StatusPhase(w: Worker) {
    w.HoldsStatus? || w.Reporting?
  }

  /** Program counters, `executing`, contexts and the queue mutex go together. */
  predicate Shape(c: Control, w: Worker, procs: Procs, mutexHeld: bool) {
    var own := ProcOf(procs, TheWorker);
    && c.executing == (if Visible(w) then Some(Operation(w.pr, w.ctx)) else None)
    && (own != Free ==> w.Acting? && (own.Removal? || own.InFlight?))
    && (mutexHeld <==> own.Removal? && own.suspending)
  }

  predicate LockOk(st: Statuses, p: Proc, g: Agent) {
    p.Removal? ==>
      && (p.stage == Holding || p.stage == InCall ==> p.pr in st.holder && st.holder[p.pr] == Local(g))
      && (p.suspending ==> g == TheWorker)
      && (p.stage == Labelling || p.stage == Labelled ==> LabelsNewFirst(p))
  }

  /** The agent is in the section that is protected by the status mutex of n. */
  predicate InStatusSection(w: Worker, procs: Procs, g: Agent, n: nat) {
    var p := ProcOf(procs, g);
    (p.Removal? && (p.stage == Holding || p.stage == InCall) && p.pr == n)
      || (g == TheWorker && StatusPhase(w) && w.pr == n)
  }

  predicate HolderOk(st: Statuses, w: Worker, procs: Procs, n: nat) {
    n in st.holder && st.holder[n].Local? ==> InStatusSection(w, procs, st.holder[n].agent, n)
  }

  /** Those in a section under a status mutex are those that have that mutex, but for other queues. */
  ghost predicate Locks(st: Statuses, w: Worker, procs: Procs) {
    && (StatusPhase(w) ==> w.pr in st.holder && st.holder[w.pr] == Local(TheWorker))
    && (forall g :: LockOk(st, ProcOf(procs, g), g))
    && (forall n :: HolderOk(st, w, procs, n))
  }

  /** A pull request is in at most one of the two sets, and there only once. */
  ghost predicate Sets(q: Entries, procs: Procs, mutexHeld: bool) {
    && Distinct(q.active)
    && (forall n :: n in q.active ==> n !in q.suspended)
    && var own := ProcOf(procs, TheWorker);
       mutexHeld ==>
         && own.Removal? && own.pr !in q.active
         && (own.stage == Unlocked || own.stage.Loaded? <==> own.pr !in q.suspended)
  }

  /** The gauges are the sizes of the sets. */
  predicate Gauged(q: Entries) {
    q.activeGauge == |q.active| && q.suspendedGauge == Size(q.suspended)
  }

  /** processPR was queued for the first pull request since it became first, or a removal owes it. */
  predicate Owed(q: Entries, procs: Procs) {
    q.active != [] && !q.headScheduled ==>
      && ProcOf(procs, q.debtor).Removal?
      && ProcOf(procs, q.debtor).newFirst == Some(q.active[0])
  }

  predicate EpochOk(q: Entries, p: Proc) {
    p.Removal? ==> p.since <= q.epoch && (p.since == q.epoch ==> Head(q.active) != Some(p.pr))
  }

  ghost predicate Epochs(q: Entries, procs: Procs) {
    && (forall n :: n in q.lastFirst ==> q.lastFirst[n] <= q.epoch)
    && (q.active != [] ==> q.active[0] in q.lastFirst && q.lastFirst[q.active[0]] == q.epoch)
    && (forall g :: EpochOk(q, ProcOf(procs, g)))
  }

  /** The worker is in a processPR run past its checks. */
  predicate InRun(w: Worker) {
    match w
    case Acting(_, _, isRun) => isRun
    case Calling(_, _, isRun, _) => isRun
    case WantsStatus(_, _) => true
    case HoldsStatus(_, _) => true
    case Reporting(_, _, _) => true
    case AddsLabel(_, _, _) => true
    case _ => false
  }

  /** The worker is in a run for n whose context is still good. */
  predicate Hot(c: Control, w: Worker, n: nat) {
    InRun(w) && w.pr == n && w.ctx !in c.cancelled
  }

  predicate GoneOk(lastFirst: map<nat, nat>, c: Control, w: Worker, p: Proc) {
    p.Removal? && !FirstAfter(lastFirst, p.pr, p.since) && Hot(c, w, p.pr) ==>
      p.stage == Unlocked || (p.stage.Loaded? && p.stage.running == c.executing)
  }

  /** A removal that has cancelled leaves no good run behind, until the pull request is first again. */
  ghost predicate Gone(lastFirst: map<nat, nat>, c: Control, w: Worker, procs: Procs) {
    forall g :: GoneOk(lastFirst, c, w, ProcOf(procs, g))
  }

  /** A success report for n is under way that can still succeed. */
  predicate SuccessUnderWay(w: Worker, n: nat) {
    w.Reporting? && w.pr == n && !w.dead
  }

  predicate BarredOk(q: Entries, c: Control, w: Worker, n: nat) {
    n in q.barred ==> !Hot(c, w, n) && !SuccessUnderWay(w, n) && Head(q.active) != Some(n)
  }

  ghost predicate Barred(q: Entries, c: Control, w: Worker) {
    forall n :: BarredOk(q, c, w, n)
  }

  /** The worker is in a processPR run past its check of `paused`, and its context is still good. */
  predicate Unstopped(c: Control, w: Worker) {
    (InRun(w) || (w.AtGate? && w.gate != Paused)) && w.ctx !in c.cancelled
  }

  predicate QuietOk(c: Control, w: Worker, p: Proc) {
    && (p.PauseStored? ==> p.gen <= c.resumes && (p.gen == c.resumes ==> c.paused))
    && (p.PauseLoaded? ==>
          p.gen <= c.resumes &&
          (p.gen == c.resumes ==> c.paused && (Unstopped(c, w) ==> p.running == c.executing)))
  }

  ghost predicate Quiet(c: Control, w: Worker, procs: Procs) {
    && (c.quiet ==> c.paused && !Unstopped(c, w))
    && (forall g :: QuietOk(c, w, ProcOf(procs, g)))
  }

  ghost predicate Inv(s: State) {
    && Shape(s.c, s.worker, s.procs, s.mutexHeld)
    && Locks(s.st, s.worker, s.procs)
    && Sets(s.q, s.procs, s.mutexHeld) && Gauged(s.q)
    && Owed(s.q, s.procs)
    && Epochs(s.q, s.procs)
    && Gone(s.q.lastFirst, s.c, s.worker, s.procs)
    && Barred(s.q, s.c, s.worker)
    && Quiet(s.c, s.worker, s.procs)
  }

  lemma InitInv()
    ensures Inv(Init())
  {
  }

  // ---------------------------------------------------------------------
  // Steps keep the invariant
  // ---------------------------------------------------------------------

  lemma {:induction false} WithoutMembers(a: seq<nat>, n: nat)
    ensures forall m :: m in Without(a, n) <==> m in a && m != n
    ensures Distinct(a) ==> Distinct(Without(a, n))
  {
    if a != [] {
      WithoutMembers(a[1..], n);
      assert a == [a[0]] + a[1..];
      assert Distinct(a) ==> Distinct(a[1..]) && a[0] !in a[1..];
    }
  }

  lemma InsertMembers(a: seq<nat>, at: nat, n: nat)
    requires at <= |a|
    ensures forall m :: m in InsertAt(a, at, n) <==> m in a || m == n
    ensures Distinct(a) && n !in a ==> Distinct(InsertAt(a, at, n))
    ensures InsertAt(a, at, n) != [] && InsertAt(a, at, n)[0] == if at == 0 then n else a[0]
  {
    assert a == a[..at] + a[at..];
  }

  /** What SetActive leaves alone. */
  lemma SetActiveKeeps(q: Entries, active: seq<nat>)
    ensures var t := SetActive(q, active);
            && t.active == active && t.suspended == q.suspended
            && t.activeGauge == q.activeGauge && t.suspendedGauge == q.suspendedGauge
  {
  }

  predicate OutsideStatusSection(p: Proc) {
    p.Removal? ==> p.stage != Holding && p.stage != InCall
  }

  /** The status mutexes are not concerned when an agent changes outside the sections they protect. */
  lemma LocksWith(st: Statuses, w: Worker, procs: Procs, g: Agent, q: Proc)
    requires Locks(st, w, procs) && OutsideStatusSection(ProcOf(procs, g)) && OutsideStatusSection(q)
    requires q.Removal? && q.suspending ==> g == TheWorker
    requires q.Removal? && (q.stage == Labelling || q.stage == Labelled) ==> LabelsNewFirst(q)
    ensures Locks(st, w, procs[g := q])
  {
    var after := procs[g := q];
    forall h
      ensures LockOk(st, ProcOf(after, h), h)
    {
      assert LockOk(st, ProcOf(procs, h), h);
    }
    forall n: nat
      ensures HolderOk(st, w, after, n)
    {
      assert HolderOk(st, w, procs, n);
    }
  }

  /** Filing steps concern the entries and the scheduled tasks, and who has a pull request in flight. */
  lemma FilingFrame(s: State, a: Action)
    requires OfFiling(a) && FilingEnabled(s, a)
    ensures var t := NextFiling(s, a);
            && t.c == s.c && t.st == s.st && t.worker == s.worker && t.mutexHeld == s.mutexHeld
            && t.procs == if a.ResumeTake? && a.pr in s.q.suspended then s.procs[a.agent := InFlight(a.pr)]
                          else if a.ResumePut? then s.procs[a.agent := Free] else s.procs
  {
    hide SetActive;
    hide InsertAt;
    hide Size;
    hide Rearranges;
  }

  lemma ShapeLocksFiling(s: State, a: Action)
    requires Inv(s) && OfFiling(a) && FilingEnabled(s, a)
    ensures var t := NextFiling(s, a);
            Shape(t.c, t.worker, t.procs, t.mutexHeld) && Locks(t.st, t.worker, t.procs)
  {
    hide Sets;
    hide Gauged;
    hide Owed;
    hide Epochs;
    hide Gone;
    hide Barred;
    hide Quiet;
    hide Rearranges;
    FilingFrame(s, a);
    hide NextFiling;
    if a.ResumeTake? {
      LocksWith(s.st, s.worker, s.procs, a.agent, InFlight(a.pr));
    } else if a.ResumePut? {
      LocksWith(s.st, s.worker, s.procs, a.agent, Free);
    }
    hide Locks;
  }

  lemma SetsOwedFiling(s: State, a: Action)
    requires Inv(s) && OfFiling(a) && FilingEnabled(s, a)
    ensures var t := NextFiling(s, a);
            Sets(t.q, t.procs, t.mutexHeld) && Owed(t.q, t.procs)
  {
    hide Size;
    hide Shape;
    hide Locks;
    hide Gauged;
    hide Epochs;
    hide Gone;
    hide Barred;
    hide Quiet;
    if a.Enqueue? {
      InsertMembers(s.q.active, a.at, a.pr);
    } else if a.ResumePut? {
      InsertMembers(s.q.active, a.at, ProcOf(s.procs, a.agent).pr);
    } else if a.Sort? {
      assert a.arranged != [] ==> a.arranged[0] in a.arranged;
    }
  }

  lemma EpochsSetActive(q: Entries, procs: Procs, active: seq<nat>)
    requires Epochs(q, procs)
    ensures Epochs(SetActive(q, active), procs)
  {
    var t := SetActive(q, active);
    forall g
      ensures EpochOk(t, ProcOf(procs, g))
    {
      assert EpochOk(q, ProcOf(procs, g));
    }
  }

  /** Epochs depend on little else, and what is no removal does not matter. */
  lemma EpochsWith(q: Entries, procs: Procs, t: Entries, after: Procs)
    requires Epochs(q, procs) && t.active == q.active && t.epoch == q.epoch && t.lastFirst == q.lastFirst
    requires forall g :: ProcOf(after, g) == ProcOf(procs, g) || EpochOk(q, ProcOf(after, g))
    ensures Epochs(t, after)
  {
    forall g
      ensures EpochOk(t, ProcOf(after, g))
    {
      assert EpochOk(q, ProcOf(procs, g));
    }
  }

  lemma EpochsFiling(s: State, a: Action)
    requires Inv(s) && OfFiling(a) && FilingEnabled(s, a)
    ensures var t := NextFiling(s, a);
            Epochs(t.q, t.procs)
  {
    hide Size;
    hide Distinct;
    hide Shape;
    hide Locks;
    hide Sets;
    hide Gauged;
    hide Owed;
    hide Gone;
    hide Barred;
    hide Quiet;
    hide InsertAt;
    var t := NextFiling(s, a);
    var active :=
      match a
      case Enqueue(n, at) => InsertAt(s.q.active, at, n)
      case ResumeAll(b) => b
      case Sort(b) => b
      case ResumeTake(_, _) => s.q.active
      case ResumePut(g, at) =>
        var n := ProcOf(s.procs, g).pr;
        if n in s.q.suspended || n in s.q.active then s.q.active else InsertAt(s.q.active, at, n);
    EpochsSetActive(s.q, s.procs, active);
    hide Epochs;
    EpochsWith(SetActive(s.q, active), s.procs, t.q, t.procs);
  }

  /** Who was first stays recorded; a new record is of a later epoch. */
  lemma FilingFirst(s: State, a: Action)
    requires OfFiling(a) && FilingEnabled(s, a)
    ensures var t := NextFiling(s, a);
            forall n :: n in s.q.lastFirst ==>
              n in t.q.lastFirst && (t.q.lastFirst[n] == s.q.lastFirst[n] || t.q.lastFirst[n] > s.q.epoch)
  {
    hide InsertAt;
    hide Size;
    hide Rearranges;
  }

  lemma FilingFirstAfter(s: State, a: Action, n: nat, epoch: nat)
    requires OfFiling(a) && FilingEnabled(s, a) && epoch <= s.q.epoch && FirstAfter(s.q.lastFirst, n, epoch)
    ensures FirstAfter(NextFiling(s, a).q.lastFirst, n, epoch)
  {
    FilingFirst(s, a);
    hide NextFiling;
    hide FilingEnabled;
  }

  lemma GoneFiling(s: State, a: Action)
    requires Inv(s) && OfFiling(a) && FilingEnabled(s, a)
    ensures var t := NextFiling(s, a);
            Gone(t.q.lastFirst, t.c, t.worker, t.procs)
  {
    hide Shape;
    hide Locks;
    hide Sets;
    hide Gauged;
    hide Owed;
    hide Barred;
    hide Quiet;
    hide Hot;
    FilingFrame(s, a);
    assert forall g :: EpochOk(s.q, ProcOf(s.procs, g));
    hide NextFiling;
    hide FilingEnabled;
    hide FirstAfter;
    hide Epochs;
    var t := NextFiling(s, a);
    forall g
      ensures GoneOk(t.q.lastFirst, t.c, t.worker, ProcOf(t.procs, g))
    {
      var p := ProcOf(s.procs, g);
      if p.Removal? && FirstAfter(s.q.lastFirst, p.pr, p.since) {
        assert EpochOk(s.q, p);
        FilingFirstAfter(s, a, p.pr, p.since);
      }
      assert GoneOk(s.q.lastFirst, s.c, s.worker, ProcOf(s.procs, g));
    }
  }

  lemma BarredQuietFiling(s: State, a: Action)
    requires Inv(s) && OfFiling(a) && FilingEnabled(s, a)
    ensures var t := NextFiling(s, a);
            Barred(t.q, t.c, t.worker) && Quiet(t.c, t.worker, t.procs)
  {
    hide Size;
    hide Distinct;
    hide Shape;
    hide Locks;
    hide Sets;
    hide Gauged;
    hide Owed;
    hide Epochs;
    hide Gone;
    if a.Enqueue? {
      InsertMembers(s.q.active, a.at, a.pr);
    } else if a.ResumePut? {
      InsertMembers(s.q.active, a.at, ProcOf(s.procs, a.agent).pr);
    } else if a.Sort? {
      assert a.arranged != [] ==> a.arranged[0] in a.arranged;
    }
    var t := NextFiling(s, a);
    forall g
      ensures QuietOk(t.c, t.worker, ProcOf(t.procs, g))
    {
      assert QuietOk(s.c, s.worker, ProcOf(s.procs, g));
    }
    forall n: nat
      ensures BarredOk(t.q, t.c, t.worker, n)
    {
      assert BarredOk(s.q, s.c, s.worker, n);
    }
  }

  lemma ShapeLocksControl(s: State, a: Action)
    requires Inv(s) && OfControl(a) && ControlEnabled(s, a)
    ensures var t := NextControl(s, a);
            Shape(t.c, t.worker, t.procs, t.mutexHeld) && Locks(t.st, t.worker, t.procs)
  {
    hide Sets;
    hide Gauged;
    hide Owed;
    hide Epochs;
    hide Gone;
    hide Barred;
    hide Quiet;
    if !a.QueueCheck? && !a.Unpause? && !a.Expire? {
      LocksWith(s.st, s.worker, s.procs, Caller(a.id), ProcOf(NextControl(s, a).procs, Caller(a.id)));
    }
    hide Locks;
  }

  /** Control steps concern control, the scheduled tasks, and what a caller is in the middle of. */
  lemma ControlFrame(s: State, a: Action)
    requires OfControl(a) && ControlEnabled(s, a)
    ensures var t := NextControl(s, a);
            && t.st == s.st && t.worker == s.worker && t.mutexHeld == s.mutexHeld
            && t.q == s.q.(headScheduled := t.q.headScheduled) && (s.q.headScheduled ==> t.q.headScheduled)
            && (forall g :: ProcOf(t.procs, g) == ProcOf(s.procs, g)
                            || (!ProcOf(t.procs, g).Removal? && !ProcOf(s.procs, g).Removal?))
            && ProcOf(t.procs, TheWorker) == ProcOf(s.procs, TheWorker)
  {
  }

  lemma SetsOwedEpochsControl(s: State, a: Action)
    requires Inv(s) && OfControl(a) && ControlEnabled(s, a)
    ensures var t := NextControl(s, a);
            Sets(t.q, t.procs, t.mutexHeld) && Gauged(t.q) && Owed(t.q, t.procs) && Epochs(t.q, t.procs)
  {
    hide Shape;
    hide Locks;
    hide Gone;
    hide Barred;
    hide Quiet;
    ControlFrame(s, a);
    hide NextControl;
    var t := NextControl(s, a);
    forall g
      ensures EpochOk(t.q, ProcOf(t.procs, g))
    {
      assert EpochOk(s.q, ProcOf(s.procs, g));
    }
  }

  lemma GoneBarredControl(s: State, a: Action)
    requires Inv(s) && OfControl(a) && ControlEnabled(s, a)
    ensures var t := NextControl(s, a);
            Gone(t.q.lastFirst, t.c, t.worker, t.procs) && Barred(t.q, t.c, t.worker)
  {
    hide Shape;
    hide Locks;
    hide Sets;
    hide Gauged;
    hide Owed;
    hide Epochs;
    hide Quiet;
    ControlFrame(s, a);
    var t := NextControl(s, a);
    assert t.c.executing == s.c.executing && s.c.cancelled <= t.c.cancelled;
    hide NextControl;
    hide FirstAfter;
    forall g
      ensures GoneOk(t.q.lastFirst, t.c, t.worker, ProcOf(t.procs, g))
    {
      assert GoneOk(s.q.lastFirst, s.c, s.worker, ProcOf(s.procs, g));
    }
    forall n: nat
      ensures BarredOk(t.q, t.c, t.worker, n)
    {
      assert BarredOk(s.q, s.c, s.worker, n);
    }
  }

  lemma QuietControl(s: State, a: Action)
    requires Inv(s) && OfControl(a) && ControlEnabled(s, a)
    ensures var t := NextControl(s, a);
            Quiet(t.c, t.worker, t.procs)
  {
    hide Locks;
    hide Sets;
    hide Gauged;
    hide Owed;
    hide Epochs;
    hide Gone;
    hide Barred;
    var t := NextControl(s, a);
    forall g
      ensures QuietOk(t.c, t.worker, ProcOf(t.procs, g))
    {
      assert QuietOk(s.c, s.worker, ProcOf(s.procs, g));
    }
  }

  lemma ShapeLocksRemoval(s: State, a: Action)
    requires Inv(s) && OfRemoval(a) && RemovalEnabled(s, a)
    ensures var t := NextRemoval(s, a);
            Shape(t.c, t.worker, t.procs, t.mutexHeld) && Locks(t.st, t.worker, t.procs)
  {
    hide Sets;
    hide Gauged;
    hide Owed;
    hide Epochs;
    hide Gone;
    hide Barred;
    hide Quiet;
    hide SetActive;
    assert LockOk(s.st, ProcOf(s.procs, a.agent), a.agent);
    LocksWith(s.st, s.worker, s.procs, a.agent, ProcOf(NextRemoval(s, a).procs, a.agent));
    hide Locks;
  }

  /** The section of a removal on the two sets and their gauges. */
  lemma SetsRemoveSection(s: State, g: Agent, n: nat, report: bool, suspending: bool)
    requires Sets(s.q, s.procs, s.mutexHeld) && Gauged(s.q)
    requires !s.mutexHeld && ProcOf(s.procs, g) == Free && (suspending ==> g == TheWorker)
    ensures var t := RemoveSection(s, g, n, report, suspending);
            Sets(t.q, t.procs, t.mutexHeld) && Gauged(t.q)
  {
    WithoutMembers(s.q.active, n);
    if n in s.q.active {
      WithoutLength(s.q.active, n);
    }
    SetActiveKeeps(s.q, Without(s.q.active, n));
    hide SetActive;
    hide Without;
  }

  lemma SetsCancelSection(s: State, g: Agent)
    requires Sets(s.q, s.procs, s.mutexHeld) && Gauged(s.q)
    requires ProcOf(s.procs, g).Removal? && ProcOf(s.procs, g).stage.Loaded?
    requires ProcOf(s.procs, g).suspending ==> g == TheWorker
    requires s.mutexHeld <==> ProcOf(s.procs, TheWorker).Removal? && ProcOf(s.procs, TheWorker).suspending
    ensures var t := CancelSection(s, g);
            Sets(t.q, t.procs, t.mutexHeld) && Gauged(t.q)
  {
  }

  lemma SetsScheduleNewFirst(s: State, g: Agent)
    requires Sets(s.q, s.procs, s.mutexHeld) && Gauged(s.q) && ProcOf(s.procs, g).Removal?
    requires ProcOf(s.procs, g).suspending ==> g == TheWorker
    requires s.mutexHeld <==> ProcOf(s.procs, TheWorker).Removal? && ProcOf(s.procs, TheWorker).suspending
    ensures var t := ScheduleNewFirst(s, g);
            Sets(t.q, t.procs, t.mutexHeld) && Gauged(t.q)
  {
  }

  lemma SetsRemoval(s: State, a: Action)
    requires Inv(s) && OfRemoval(a) && RemovalEnabled(s, a)
    ensures var t := NextRemoval(s, a);
            Sets(t.q, t.procs, t.mutexHeld) && Gauged(t.q)
  {
    assert LockOk(s.st, ProcOf(s.procs, a.agent), a.agent);
    hide Locks;
    hide Owed;
    hide Epochs;
    hide Gone;
    hide Barred;
    hide Quiet;
    hide RemoveSection;
    hide CancelSection;
    hide ScheduleNewFirst;
    match a
    case Remove(g, n, report, suspending) => SetsRemoveSection(s, g, n, report, suspending);
    case Cancel(g) => SetsCancelSection(s, g);
    case ScheduleNew(g) => SetsScheduleNewFirst(s, g);
    case _ =>
  }

  lemma OwedRemoveSection(s: State, g: Agent, n: nat, report: bool, suspending: bool)
    requires Owed(s.q, s.procs) && ProcOf(s.procs, g) == Free
    ensures var t := RemoveSection(s, g, n, report, suspending);
            Owed(t.q, t.procs)
  {
    hide Without;
  }

  lemma OwedRemoval(s: State, a: Action)
    requires Inv(s) && OfRemoval(a) && RemovalEnabled(s, a)
    ensures var t := NextRemoval(s, a);
            Owed(t.q, t.procs)
  {
    hide Shape;
    hide Locks;
    hide Sets;
    hide Gauged;
    hide Gone;
    hide Barred;
    hide Quiet;
    hide Epochs;
    hide RemoveSection;
    if a.Remove? {
      OwedRemoveSection(s, a.agent, a.pr, a.report, a.suspending);
    }
  }

  lemma EpochsRemoveSection(s: State, g: Agent, n: nat, report: bool, suspending: bool)
    requires Epochs(s.q, s.procs)
    ensures var t := RemoveSection(s, g, n, report, suspending);
            Epochs(t.q, t.procs)
  {
    WithoutMembers(s.q.active, n);
    hide Without;
    hide Distinct;
    var t := RemoveSection(s, g, n, report, suspending);
    var active := Without(s.q.active, n);
    if n in s.q.active && (suspending || n !in s.q.suspended) {
      EpochsSetActive(s.q, s.procs, active);
      hide Epochs;
      assert EpochOk(SetActive(s.q, active), ProcOf(t.procs, g));
      hide EpochOk;
      EpochsWith(SetActive(s.q, active), s.procs, t.q, t.procs);
    } else {
      EpochsWith(s.q, s.procs, t.q, t.procs);
    }
  }

  lemma EpochsRemoval(s: State, a: Action)
    requires Inv(s) && OfRemoval(a) && RemovalEnabled(s, a)
    ensures var t := NextRemoval(s, a);
            Epochs(t.q, t.procs)
  {
    hide Shape;
    hide Locks;
    hide Sets;
    hide Gauged;
    hide Owed;
    hide Gone;
    hide Barred;
    hide Quiet;
    hide RemoveSection;
    if a.Remove? {
      EpochsRemoveSection(s, a.agent, a.pr, a.report, a.suspending);
    } else {
      var t := NextRemoval(s, a);
      assert EpochOk(s.q, ProcOf(s.procs, a.agent));
      hide Epochs;
      EpochsWith(s.q, s.procs, t.q, t.procs);
    }
  }

  lemma GoneRemoveSection(s: State, g: Agent, n: nat, report: bool, suspending: bool)
    requires Gone(s.q.lastFirst, s.c, s.worker, s.procs) && Epochs(s.q, s.procs)
    ensures var t := RemoveSection(s, g, n, report, suspending);
            Gone(t.q.lastFirst, t.c, t.worker, t.procs)
  {
    hide Without;
    hide Hot;
    var t := RemoveSection(s, g, n, report, suspending);
    forall h
      ensures GoneOk(t.q.lastFirst, t.c, t.worker, ProcOf(t.procs, h))
    {
      assert EpochOk(s.q, ProcOf(s.procs, h)) && GoneOk(s.q.lastFirst, s.c, s.worker, ProcOf(s.procs, h));
    }
  }

  lemma GoneRemoval(s: State, a: Action)
    requires Inv(s) && OfRemoval(a) && RemovalEnabled(s, a)
    ensures var t := NextRemoval(s, a);
            Gone(t.q.lastFirst, t.c, t.worker, t.procs)
  {
    hide Locks;
    hide Sets;
    hide Gauged;
    hide Owed;
    hide Barred;
    hide Quiet;
    hide RemoveSection;
    if a.Remove? {
      GoneRemoveSection(s, a.agent, a.pr, a.report, a.suspending);
    } else {
      hide Epochs;
      var t := NextRemoval(s, a);
      forall g
        ensures GoneOk(t.q.lastFirst, t.c, t.worker, ProcOf(t.procs, g))
      {
        assert GoneOk(s.q.lastFirst, s.c, s.worker, ProcOf(s.procs, g));
      }
    }
  }

  lemma BarredRemoval(s: State, a: Action)
    requires Inv(s) && OfRemoval(a) && RemovalEnabled(s, a)
    ensures var t := NextRemoval(s, a);
            Barred(t.q, t.c, t.worker)
  {
    hide Shape;
    hide Locks;
    hide Sets;
    hide Gauged;
    hide Owed;
    hide Epochs;
    hide Gone;
    hide Quiet;
    if a.Remove? {
      WithoutMembers(s.q.active, a.pr);
    }
    hide Without;
    var t := NextRemoval(s, a);
    forall n: nat
      ensures BarredOk(t.q, t.c, t.worker, n)
    {
      assert BarredOk(s.q, s.c, s.worker, n);
    }
  }

  lemma QuietRemoval(s: State, a: Action)
    requires Inv(s) && OfRemoval(a) && RemovalEnabled(s, a)
    ensures var t := NextRemoval(s, a);
            Quiet(t.c, t.worker, t.procs)
  {
    hide Shape;
    hide Locks;
    hide Sets;
    hide Gauged;
    hide Owed;
    hide Epochs;
    hide Gone;
    hide Barred;
    hide Without;
    hide SetActive;
    var t := NextRemoval(s, a);
    forall g
      ensures QuietOk(t.c, t.worker, ProcOf(t.procs, g))
    {
      assert QuietOk(s.c, s.worker, ProcOf(s.procs, g));
    }
  }

  /** A step on the head labels concerns the labels and the stage of its agent. */
  lemma LabelFrame(s: State, a: Action)
    requires OfLabel(a) && LabelEnabled(s, a)
    ensures var t := NextLabel(s, a); var p, q := ProcOf(s.procs, a.agent), ProcOf(t.procs, a.agent);
            && t == s.(lb := t.lb, procs := s.procs[a.agent := q])
            && p.Removal? && q.Removal? && q == p.(stage := q.stage)
            && OutsideStatusSection(p) && OutsideStatusSection(q)
            && p.stage != Unlocked && !p.stage.Loaded? && q.stage != Unlocked && !q.stage.Loaded?
            && (q.stage == Labelling || q.stage == Labelled ==> LabelsNewFirst(q))
  {
    hide LabelsAfter;
  }

  lemma LabelInv(s: State, a: Action)
    requires Inv(s) && OfLabel(a) && LabelEnabled(s, a)
    ensures Inv(NextLabel(s, a))
  {
    LabelFrame(s, a);
    var t := NextLabel(s, a);
    assert LockOk(s.st, ProcOf(s.procs, a.agent), a.agent);
    LocksWith(s.st, s.worker, s.procs, a.agent, ProcOf(t.procs, a.agent));
    hide NextLabel;
    hide LabelEnabled;
    hide Locks;
    hide LockOk;
    hide FirstAfter;
    hide Hot;
    forall g
      ensures EpochOk(t.q, ProcOf(t.procs, g))
      ensures GoneOk(t.q.lastFirst, t.c, t.worker, ProcOf(t.procs, g)) && QuietOk(t.c, t.worker, ProcOf(t.procs, g))
    {
      assert EpochOk(s.q, ProcOf(s.procs, g));
      assert GoneOk(s.q.lastFirst, s.c, s.worker, ProcOf(s.procs, g)) && QuietOk(s.c, s.worker, ProcOf(s.procs, g));
    }
  }

  lemma ShapeLocksPending(s: State, a: Action)
    requires Inv(s) && OfPending(a) && PendingEnabled(s, a)
    ensures var t := NextPending(s, a);
            Shape(t.c, t.worker, t.procs, t.mutexHeld) && Locks(t.st, t.worker, t.procs)
  {
    hide Sets;
    hide Gauged;
    hide Owed;
    hide Epochs;
    hide Gone;
    hide Barred;
    hide Quiet;
    PendingFrame(s, a);
    LocksPending(s, a);
    hide NextPending;
    hide PendingEnabled;
    hide Locks;
  }

  lemma LocksPending(s: State, a: Action)
    requires Inv(s) && OfPending(a) && PendingEnabled(s, a)
    ensures var t := NextPending(s, a);
            Locks(t.st, t.worker, t.procs)
  {
    hide Sets;
    hide Gauged;
    hide Owed;
    hide Epochs;
    hide Gone;
    hide Barred;
    hide Quiet;
    hide FirstAfter;
    var t := NextPending(s, a);
    HoldersPending(s, a);
    forall g
      ensures LockOk(t.st, ProcOf(t.procs, g), g)
    {
      assert LockOk(s.st, ProcOf(s.procs, g), g);
    }
    hide HolderOk;
  }

  lemma HoldersPending(s: State, a: Action)
    requires Inv(s) && OfPending(a) && PendingEnabled(s, a)
    ensures var t := NextPending(s, a);
            forall n :: HolderOk(t.st, t.worker, t.procs, n)
  {
    hide Sets;
    hide Gauged;
    hide Owed;
    hide Epochs;
    hide Gone;
    hide Barred;
    hide Quiet;
    hide FirstAfter;
    var t := NextPending(s, a);
    assert LockOk(s.st, ProcOf(s.procs, a.agent), a.agent);
    forall n: nat
      ensures HolderOk(t.st, t.worker, t.procs, n)
    {
      assert HolderOk(s.st, s.worker, s.procs, n);
    }
    hide LockOk;
  }

  /** A step of a pending report concerns the statuses, the stage of its agent, and who is barred. */
  lemma PendingFrame(s: State, a: Action)
    requires OfPending(a) && PendingEnabled(s, a)
    ensures var t := NextPending(s, a);
            && t.c == s.c && t.worker == s.worker && t.mutexHeld == s.mutexHeld && t.tasks == s.tasks
            && t.q == s.q.(barred := t.q.barred)
            && ProcOf(s.procs, a.agent).Removal? && ProcOf(t.procs, a.agent).Removal?
            && t.procs == s.procs[a.agent := ProcOf(s.procs, a.agent).(stage := ProcOf(t.procs, a.agent).stage)]
            && ProcOf(s.procs, a.agent).stage != Unlocked && !ProcOf(s.procs, a.agent).stage.Loaded?
            && ProcOf(t.procs, a.agent).stage != Unlocked && !ProcOf(t.procs, a.agent).stage.Loaded?
  {
  }

  lemma SetsOwedPending(s: State, a: Action)
    requires Inv(s) && OfPending(a) && PendingEnabled(s, a)
    ensures var t := NextPending(s, a);
            Sets(t.q, t.procs, t.mutexHeld) && Gauged(t.q) && Owed(t.q, t.procs)
  {
    hide Locks;
    hide Epochs;
    hide Gone;
    hide Barred;
    hide Quiet;
    PendingFrame(s, a);
    hide NextPending;
    hide PendingEnabled;
  }

  lemma EpochsGonePending(s: State, a: Action)
    requires Inv(s) && OfPending(a) && PendingEnabled(s, a)
    ensures var t := NextPending(s, a);
            Epochs(t.q, t.procs) && Gone(t.q.lastFirst, t.c, t.worker, t.procs)
  {
    hide Shape;
    hide Locks;
    hide Sets;
    hide Gauged;
    hide Owed;
    hide Barred;
    hide Quiet;
    PendingFrame(s, a);
    hide NextPending;
    hide PendingEnabled;
    hide Hot;
    hide FirstAfter;
    var t := NextPending(s, a);
    forall g
      ensures EpochOk(t.q, ProcOf(t.procs, g)) && GoneOk(t.q.lastFirst, t.c, t.worker, ProcOf(t.procs, g))
    {
      assert EpochOk(s.q, ProcOf(s.procs, g)) && GoneOk(s.q.lastFirst, s.c, s.worker, ProcOf(s.procs, g));
    }
  }

  /** Who is barred by a step of a pending report. */
  lemma PendingBarred(s: State, a: Action, n: nat)
    requires OfPending(a) && PendingEnabled(s, a)
    ensures var p := ProcOf(s.procs, a.agent);
            n in NextPending(s, a).q.barred <==>
            || n in s.q.barred
            || ((a.PendingOk? || a.PendingSkip?) && n == p.pr && !FirstAfter(s.q.lastFirst, p.pr, p.since))
  {
    hide FirstAfter;
  }

  /** A removal whose report is done has left no good run and no report of success behind. */
  lemma NothingLeftToBar(s: State, g: Agent)
    requires Inv(s) && ProcOf(s.procs, g).Removal?
    requires ProcOf(s.procs, g).stage == Holding || ProcOf(s.procs, g).stage == InCall
    requires !FirstAfter(s.q.lastFirst, ProcOf(s.procs, g).pr, ProcOf(s.procs, g).since)
    ensures var n := ProcOf(s.procs, g).pr;
            !Hot(s.c, s.worker, n) && !SuccessUnderWay(s.worker, n) && Head(s.q.active) != Some(n)
  {
    hide Sets;
    hide Gauged;
    hide Owed;
    hide Barred;
    hide Quiet;
    assert GoneOk(s.q.lastFirst, s.c, s.worker, ProcOf(s.procs, g));
    assert LockOk(s.st, ProcOf(s.procs, g), g) && EpochOk(s.q, ProcOf(s.procs, g));
  }

  lemma BarredQuietPending(s: State, a: Action)
    requires Inv(s) && OfPending(a) && PendingEnabled(s, a)
    ensures var t := NextPending(s, a);
            Barred(t.q, t.c, t.worker) && Quiet(t.c, t.worker, t.procs)
  {
    PendingFrame(s, a);
    var t := NextPending(s, a);
    forall g
      ensures QuietOk(t.c, t.worker, ProcOf(t.procs, g))
    {
      assert QuietOk(s.c, s.worker, ProcOf(s.procs, g));
    }
    forall n: nat
      ensures BarredOk(t.q, t.c, t.worker, n)
    {
      assert BarredOk(s.q, s.c, s.worker, n);
      PendingBarred(s, a, n);
      if n in t.q.barred && n !in s.q.barred {
        NothingLeftToBar(s, a.agent);
      }
    }
    hide Shape;
    hide Locks;
    hide Sets;
    hide Gauged;
    hide Owed;
    hide Epochs;
    hide Gone;
    hide NextPending;
    hide FirstAfter;
    hide Hot;
  }

  lemma ShapeLocksSetsWorker(s: State, a: Action)
    requires Inv(s) && OfWorker(a) && WorkerEnabled(s, a)
    ensures var t := NextWorker(s, a);
            Shape(t.c, t.worker, t.procs, t.mutexHeld) && Locks(t.st, t.worker, t.procs)
              && Sets(t.q, t.procs, t.mutexHeld) && Gauged(t.q)
  {
    hide Owed;
    hide Epochs;
    hide Gone;
    hide Barred;
    hide Quiet;
    var t := NextWorker(s, a);
    forall g
      ensures LockOk(t.st, ProcOf(t.procs, g), g)
    {
      assert LockOk(s.st, ProcOf(s.procs, g), g);
    }
    forall n: nat
      ensures HolderOk(t.st, t.worker, t.procs, n)
    {
      assert HolderOk(s.st, s.worker, s.procs, n);
    }
  }

  lemma OwedEpochsWorker(s: State, a: Action)
    requires Inv(s) && OfWorker(a) && WorkerEnabled(s, a)
    ensures var t := NextWorker(s, a);
            Owed(t.q, t.procs) && Epochs(t.q, t.procs)
  {
    hide Shape;
    hide Locks;
    hide Sets;
    hide Gauged;
    hide Gone;
    hide Barred;
    hide Quiet;
    var t := NextWorker(s, a);
    forall g
      ensures EpochOk(t.q, ProcOf(t.procs, g))
    {
      assert EpochOk(s.q, ProcOf(s.procs, g));
    }
  }

  lemma GoneBarredQuietWorker(s: State, a: Action)
    requires Inv(s) && OfWorker(a) && WorkerEnabled(s, a)
    ensures var t := NextWorker(s, a);
            Gone(t.q.lastFirst, t.c, t.worker, t.procs) && Barred(t.q, t.c, t.worker) && Quiet(t.c, t.worker, t.procs)
  {
    hide Locks;
    hide Sets;
    hide Gauged;
    hide Owed;
    var t := NextWorker(s, a);
    forall g
      ensures GoneOk(t.q.lastFirst, t.c, t.worker, ProcOf(t.procs, g)) && QuietOk(t.c, t.worker, ProcOf(t.procs, g))
    {
      assert GoneOk(s.q.lastFirst, s.c, s.worker, ProcOf(s.procs, g)) && QuietOk(s.c, s.worker, ProcOf(s.procs, g));
    }
    forall n: nat
      ensures BarredOk(t.q, t.c, t.worker, n)
    {
      assert BarredOk(s.q, s.c, s.worker, n);
    }
  }

  lemma ShapeLocksSetsSuccess(s: State, a: Action)
    requires Inv(s) && OfSuccess(a) && SuccessEnabled(s, a)
    ensures var t := NextSuccess(s, a);
            Shape(t.c, t.worker, t.procs, t.mutexHeld) && Locks(t.st, t.worker, t.procs)
              && Sets(t.q, t.procs, t.mutexHeld) && Gauged(t.q)
  {
    hide Owed;
    hide Epochs;
    hide Gone;
    hide Barred;
    hide Quiet;
    var t := NextSuccess(s, a);
    forall g
      ensures LockOk(t.st, ProcOf(t.procs, g), g)
    {
      assert LockOk(s.st, ProcOf(s.procs, g), g);
    }
    forall n: nat
      ensures HolderOk(t.st, t.worker, t.procs, n)
    {
      assert HolderOk(s.st, s.worker, s.procs, n);
    }
  }

  lemma OwedEpochsSuccess(s: State, a: Action)
    requires Inv(s) && OfSuccess(a) && SuccessEnabled(s, a)
    ensures var t := NextSuccess(s, a);
            Owed(t.q, t.procs) && Epochs(t.q, t.procs)
  {
    hide Shape;
    hide Locks;
    hide Sets;
    hide Gauged;
    hide Gone;
    hide Barred;
    hide Quiet;
    var t := NextSuccess(s, a);
    forall g
      ensures EpochOk(t.q, ProcOf(t.procs, g))
    {
      assert EpochOk(s.q, ProcOf(s.procs, g));
    }
  }

  /** A step of a success report concerns the statuses and the phase of the worker, who stays in its run. */
  lemma SuccessFrame(s: State, a: Action)
    requires OfSuccess(a) && SuccessEnabled(s, a)
    ensures var t := NextSuccess(s, a);
            && t == s.(st := t.st, worker := t.worker)
            && InRun(s.worker) && InRun(t.worker) && t.worker.pr == s.worker.pr && t.worker.ctx == s.worker.ctx
            && (SuccessUnderWay(t.worker, t.worker.pr) ==>
                  SuccessUnderWay(s.worker, s.worker.pr) || s.worker.ctx !in s.c.cancelled)
  {
  }

  lemma GoneBarredQuietSuccess(s: State, a: Action)
    requires Inv(s) && OfSuccess(a) && SuccessEnabled(s, a)
    ensures var t := NextSuccess(s, a);
            Gone(t.q.lastFirst, t.c, t.worker, t.procs) && Barred(t.q, t.c, t.worker) && Quiet(t.c, t.worker, t.procs)
  {
    hide Shape;
    hide Locks;
    hide Sets;
    hide Gauged;
    hide Owed;
    hide Epochs;
    SuccessFrame(s, a);
    hide NextSuccess;
    hide SuccessEnabled;
    hide FirstAfter;
    var t := NextSuccess(s, a);
    forall g
      ensures GoneOk(t.q.lastFirst, t.c, t.worker, ProcOf(t.procs, g)) && QuietOk(t.c, t.worker, ProcOf(t.procs, g))
    {
      assert GoneOk(s.q.lastFirst, s.c, s.worker, ProcOf(s.procs, g)) && QuietOk(s.c, s.worker, ProcOf(s.procs, g));
    }
    forall n: nat
      ensures BarredOk(t.q, t.c, t.worker, n)
    {
      assert BarredOk(s.q, s.c, s.worker, n);
    }
  }

  /**
   A step with which the worker adds a head label concerns the labels and
   the phase of the worker, who stays in its run.
   */
  lemma HeadFrame(s: State, a: Action)
    requires OfHead(a) && HeadEnabled(s, a)
    ensures var t := NextHead(s, a);
            && t == s.(lb := t.lb, worker := t.worker)
            && InRun(s.worker) && InRun(t.worker) && t.worker.pr == s.worker.pr && t.worker.ctx == s.worker.ctx
            && !StatusPhase(s.worker) && !StatusPhase(t.worker)
            && (ProcOf(s.procs, TheWorker) != Free && s.worker.Acting? ==> t.worker == s.worker)
  {
  }

  lemma HeadInv(s: State, a: Action)
    requires Inv(s) && OfHead(a) && HeadEnabled(s, a)
    ensures Inv(NextHead(s, a))
  {
    HeadFrame(s, a);
    hide NextHead;
    hide HeadEnabled;
    hide FirstAfter;
    var t := NextHead(s, a);
    forall g
      ensures LockOk(t.st, ProcOf(t.procs, g), g)
      ensures GoneOk(t.q.lastFirst, t.c, t.worker, ProcOf(t.procs, g)) && QuietOk(t.c, t.worker, ProcOf(t.procs, g))
    {
      assert LockOk(s.st, ProcOf(s.procs, g), g);
      assert GoneOk(s.q.lastFirst, s.c, s.worker, ProcOf(s.procs, g)) && QuietOk(s.c, s.worker, ProcOf(s.procs, g));
    }
    forall n: nat
      ensures HolderOk(t.st, t.worker, t.procs, n) && BarredOk(t.q, t.c, t.worker, n)
    {
      assert HolderOk(s.st, s.worker, s.procs, n) && BarredOk(s.q, s.c, s.worker, n);
    }
  }

  /** A step of another queue concerns the statuses only. */
  lemma ForeignFrame(s: State, a: Action)
    requires OfForeign(a) && ForeignEnabled(s, a)
    ensures NextForeign(s, a) == s.(st := NextForeign(s, a).st)
  {
  }

  lemma ForeignInv(s: State, a: Action)
    requires Inv(s) && OfForeign(a) && ForeignEnabled(s, a)
    ensures Inv(NextForeign(s, a))
  {
    hide Sets;
    hide Gauged;
    hide Owed;
    hide Epochs;
    hide Gone;
    hide Barred;
    hide Quiet;
    var t := NextForeign(s, a);
    forall g
      ensures LockOk(t.st, ProcOf(t.procs, g), g)
    {
      assert LockOk(s.st, ProcOf(s.procs, g), g);
    }
    forall n: nat
      ensures HolderOk(t.st, t.worker, t.procs, n)
    {
      assert HolderOk(s.st, s.worker, s.procs, n);
    }
  }

  lemma {:induction false} WithoutLength(a: seq<nat>, n: nat)
    requires Distinct(a) && n in a
    ensures |Without(a, n)| == |a| - 1
  {
    assert a == [a[0]] + a[1..] && Distinct(a[1..]) && a[0] !in a[1..];
    if a[0] == n {
      WithoutAbsent(a[1..], n);
    } else {
      WithoutLength(a[1..], n);
    }
  }

  lemma {:induction false} WithoutAbsent(a: seq<nat>, n: nat)
    requires n !in a
    ensures Without(a, n) == a
  {
    if a != [] {
      assert a == [a[0]] + a[1..];
      WithoutAbsent(a[1..], n);
    }
  }

  lemma RearrangedLength(a: seq<nat>, extra: set<nat>, b: seq<nat>)
    requires Distinct(a) && (forall n :: n in a ==> n !in extra) && Rearranges(a, extra, b)
    ensures |b| == |a| + Size(extra)
  {
    var all := set n | n in a;
    OrderedMap.ListsSize(a, all);
    OrderedMap.ListsSize(b, all + extra);
    assert all !! extra;
  }

  lemma GaugedEnqueueActive(s: State, n: nat, at: nat)
    requires Gauged(s.q) && at <= |s.q.active|
    ensures Gauged(EnqueueActive(s, n, at).q)
  {
    SetActiveKeeps(s.q, InsertAt(s.q.active, at, n));
    hide SetActive;
    hide Size;
  }

  lemma Sizes(s: set<nat>, n: nat)
    ensures Size({}) == 0
    ensures n in s ==> Size(s - {n}) == Size(s) - 1
  {
  }

  lemma GaugedFiling(s: State, a: Action)
    requires Inv(s) && OfFiling(a) && FilingEnabled(s, a)
    ensures Gauged(NextFiling(s, a).q)
  {
    hide Shape;
    hide Locks;
    hide Owed;
    hide Epochs;
    hide Gone;
    hide Barred;
    hide Quiet;
    hide Size;
    hide EnqueueActive;
    match a
    case Enqueue(n, at) => GaugedEnqueueActive(s, n, at);
    case ResumeAll(b) =>
      RearrangedLength(s.q.active, s.q.suspended, b);
      SetActiveKeeps(s.q, b);
      Sizes({}, 0);
      hide SetActive;
    case Sort(b) =>
      RearrangedLength(s.q.active, {}, b);
      SetActiveKeeps(s.q, b);
      Sizes({}, 0);
      hide SetActive;
    case ResumeTake(_, n) => Sizes(s.q.suspended, n);
    case ResumePut(g, at) =>
      GaugedEnqueueActive(s.(procs := s.procs[g := Free]), ProcOf(s.procs, g).pr, at);
  }

  lemma NextInv(s: State, a: Action)
    requires Inv(s) && Enabled(s, a)
    ensures Inv(Next(s, a))
  {
    hide Shape;
    hide Locks;
    hide Sets;
    hide Gauged;
    hide Owed;
    hide Epochs;
    hide Gone;
    hide Barred;
    hide Quiet;
    hide NextFiling;
    hide NextControl;
    hide NextRemoval;
    hide NextLabel;
    hide NextPending;
    hide NextWorker;
    hide NextSuccess;
    hide NextHead;
    hide NextForeign;
    hide FilingEnabled;
    hide ControlEnabled;
    hide RemovalEnabled;
    hide LabelEnabled;
    hide PendingEnabled;
    hide WorkerEnabled;
    hide SuccessEnabled;
    hide HeadEnabled;
    hide ForeignEnabled;
    if OfFiling(a) {
      ShapeLocksFiling(s, a);
      SetsOwedFiling(s, a);
      EpochsFiling(s, a);
      GoneFiling(s, a);
      BarredQuietFiling(s, a);
      GaugedFiling(s, a);
    } else if OfControl(a) {
      ShapeLocksControl(s, a);
      SetsOwedEpochsControl(s, a);
      GoneBarredControl(s, a);
      QuietControl(s, a);
    } else if OfRemoval(a) {
      ShapeLocksRemoval(s, a);
      SetsRemoval(s, a);
      OwedRemoval(s, a);
      EpochsRemoval(s, a);
      GoneRemoval(s, a);
      BarredRemoval(s, a);
      QuietRemoval(s, a);
    } else if OfLabel(a) {
      LabelInv(s, a);
    } else if OfPending(a) {
      ShapeLocksPending(s, a);
      SetsOwedPending(s, a);
      EpochsGonePending(s, a);
      BarredQuietPending(s, a);
    } else if OfHead(a) {
      HeadInv(s, a);
    } else if OfForeign(a) {
      ForeignInv(s, a);
    } else if OfWorker(a) {
      ShapeLocksSetsWorker(s, a);
      OwedEpochsWorker(s, a);
      GoneBarredQuietWorker(s, a);
    } else {
      ShapeLocksSetsSuccess(s, a);
      OwedEpochsSuccess(s, a);
      GoneBarredQuietSuccess(s, a);
    }
  }

  // ---------------------------------------------------------------------
  // What a step can change
  // ---------------------------------------------------------------------

  /** How the step a can change what agent g is in the middle of. */
  predicate ProcMove(a: Action, g: Agent, p: Proc, q: Proc) {
    || q == p
    || (q == Free && (p.InFlight? ==> a.ResumePut? && a.agent == g))
    || (p == Free && q.Removal? && a.Remove? && a.agent == g)
    || (p == Free && q.InFlight? && a.ResumeTake? && a.agent == g)
    || (p == Free && q.Scheduling?)
    || (p == Free && q.PauseStored? && a.PauseStore? && g == Caller(a.id))
    || (p.PauseStored? && q.PauseLoaded? && q.gen == p.gen)
    || (p.Removal? && q.Removal? && q.(stage := p.stage) == p)
  }

  /** Who was first is recorded only for who is first; bars stay; scheduling the first is a task for it. */
  ghost predicate EntriesMove(s: State, t: State) {
    && (forall n :: n in t.q.lastFirst && Head(t.q.active) != Some(n) ==>
          n in s.q.lastFirst && t.q.lastFirst[n] == s.q.lastFirst[n])
    && (forall n :: n in s.q.barred && Head(t.q.active) != Some(n) ==> n in t.q.barred)
    && (t.q.headScheduled && t.q.active != [] ==>
          || t.tasks == s.tasks + [Process(t.q.active[0])]
          || (s.q.headScheduled && Head(s.q.active) == Head(t.q.active)))
  }

  predicate AnyCallStarts(a: Action) {
    a.CallStart? || a.SuccessCall? || a.HeadCall?
  }

  /** No API call is under way that can succeed. */
  predicate NoLiveCall(w: Worker) {
    (w.Calling? ==> w.dead) && (w.Reporting? ==> w.dead) && (w.AddsLabel? ==> w.dead)
  }

  predicate ControlMove(s: State, a: Action, t: State) {
    && (!a.Unpause? ==> t.c.resumes == s.c.resumes && (s.c.quiet ==> t.c.quiet))
    && (NoLiveCall(s.worker) && !AnyCallStarts(a) ==> NoLiveCall(t.worker))
  }

  ghost predicate Move(s: State, a: Action, t: State) {
    EntriesMove(s, t) && ControlMove(s, a, t) && forall g :: ProcMove(a, g, ProcOf(s.procs, g), ProcOf(t.procs, g))
  }

  lemma MoveEntering(s: State, a: Action)
    requires (a.Enqueue? || a.ResumeAll? || a.Sort?) && FilingEnabled(s, a)
    ensures Move(s, a, NextFiling(s, a))
  {
    EntriesEntering(s, a);
    FilingFrame(s, a);
    hide NextFiling;
    hide FilingEnabled;
    hide EntriesMove;
  }

  lemma EntriesEntering(s: State, a: Action)
    requires (a.Enqueue? || a.ResumeAll? || a.Sort?) && FilingEnabled(s, a)
    ensures EntriesMove(s, NextFiling(s, a))
  {
    if a.Enqueue? {
      EntriesEnqueueActive(s, a.pr, a.at);
    }
    hide Size;
    hide Distinct;
    hide Rearranges;
    hide EnqueueActive;
  }

  lemma MoveResumeTake(s: State, a: Action)
    requires a.ResumeTake? && FilingEnabled(s, a)
    ensures Move(s, a, NextFiling(s, a))
  {
    hide Size;
    hide Distinct;
    hide SetActive;
    hide InsertAt;
    hide Rearranges;
  }

  lemma MoveResumePut(s: State, a: Action)
    requires a.ResumePut? && FilingEnabled(s, a)
    ensures Move(s, a, NextFiling(s, a))
  {
    FilingFrame(s, a);
    EntriesResumePut(s, a);
    hide NextFiling;
    hide FilingEnabled;
    hide EntriesMove;
  }

  lemma EntriesResumePut(s: State, a: Action)
    requires a.ResumePut? && FilingEnabled(s, a)
    ensures EntriesMove(s, NextFiling(s, a))
  {
    var n := ProcOf(s.procs, a.agent).pr;
    EntriesEnqueueActive(s.(procs := s.procs[a.agent := Free]), n, a.at);
    hide EnqueueActive;
    hide Rearranges;
  }

  lemma EntriesEnqueueActive(s: State, n: nat, at: nat)
    requires at <= |s.q.active|
    ensures EntriesMove(s, EnqueueActive(s, n, at))
  {
  }

  lemma MoveControl(s: State, a: Action)
    requires OfControl(a) && ControlEnabled(s, a)
    ensures Move(s, a, NextControl(s, a))
  {
  }

  lemma MoveRemove(s: State, a: Action)
    requires a.Remove? && RemovalEnabled(s, a)
    ensures Move(s, a, NextRemoval(s, a))
  {
    hide Without;
  }

  lemma MoveAfterRemove(s: State, a: Action)
    requires OfRemoval(a) && !a.Remove? && RemovalEnabled(s, a)
    ensures Move(s, a, NextRemoval(s, a))
  {
  }

  lemma MoveLabel(s: State, a: Action)
    requires OfLabel(a) && LabelEnabled(s, a)
    ensures Move(s, a, NextLabel(s, a))
  {
    LabelFrame(s, a);
    hide NextLabel;
    hide LabelEnabled;
  }

  lemma MovePending(s: State, a: Action)
    requires OfPending(a) && PendingEnabled(s, a)
    ensures Move(s, a, NextPending(s, a))
  {
  }

  lemma MoveWorker(s: State, a: Action)
    requires OfWorker(a) && WorkerEnabled(s, a)
    ensures Move(s, a, NextWorker(s, a))
  {
  }

  lemma MoveSuccess(s: State, a: Action)
    requires OfSuccess(a) && SuccessEnabled(s, a)
    ensures Move(s, a, NextSuccess(s, a))
  {
  }

  lemma MoveHead(s: State, a: Action)
    requires OfHead(a) && HeadEnabled(s, a)
    ensures Move(s, a, NextHead(s, a))
  {
  }

  lemma MoveForeign(s: State, a: Action)
    requires OfForeign(a) && ForeignEnabled(s, a)
    ensures Move(s, a, NextForeign(s, a))
  {
  }

  /** suspend has n in its hands. */
  predicate BeingSuspended(procs: Procs, n: nat) {
    var p := ProcOf(procs, TheWorker);
    p.Removal? && p.suspending && p.pr == n
  }

  predicate Settled(q: Entries, procs: Procs, n: nat) {
    n in q.active || n in q.suspended || BeingSuspended(procs, n)
  }

  /** How a pull request can leave the two sets, and how it can get into them. */
  predicate SettledMove(s: State, a: Action, t: State, n: nat) {
    && (Settled(s.q, s.procs, n) && !Settled(t.q, t.procs, n) ==>
          || (a.Remove? && a.pr == n && !a.suspending)
          || (a.ResumeTake? && ProcOf(t.procs, a.agent) == InFlight(n)))
    && (!Settled(s.q, s.procs, n) && Settled(t.q, t.procs, n) ==>
          || (a.Enqueue? && a.pr == n)
          || (a.ResumePut? && ProcOf(s.procs, a.agent) == InFlight(n)))
  }

  lemma ActiveAfterFiling(s: State, a: Action, n: nat)
    requires OfFiling(a) && FilingEnabled(s, a)
    ensures var t := NextFiling(s, a);
            && (n in t.q.active <==>
                || n in s.q.active
                || (a.Enqueue? && n == a.pr)
                || (a.ResumeAll? && n in s.q.suspended)
                || (a.ResumePut? && n == ProcOf(s.procs, a.agent).pr && n !in s.q.suspended))
            && (n in t.q.suspended <==> n in s.q.suspended && !a.ResumeAll? && !(a.ResumeTake? && n == a.pr))
  {
    hide Size;
    if a.Enqueue? {
      InsertMembers(s.q.active, a.at, a.pr);
    } else if a.ResumePut? {
      InsertMembers(s.q.active, a.at, ProcOf(s.procs, a.agent).pr);
    }
    hide InsertAt;
    hide Distinct;
  }

  lemma SettledFiling(s: State, a: Action, n: nat)
    requires Inv(s) && OfFiling(a) && FilingEnabled(s, a)
    ensures SettledMove(s, a, NextFiling(s, a), n)
  {
    hide Locks;
    hide Gauged;
    hide Owed;
    hide Epochs;
    hide Gone;
    hide Barred;
    hide Quiet;
    ActiveAfterFiling(s, a, n);
    FilingFrame(s, a);
    hide NextFiling;
  }

  lemma SettledControl(s: State, a: Action, n: nat)
    requires Inv(s) && OfControl(a) && ControlEnabled(s, a)
    ensures SettledMove(s, a, NextControl(s, a), n)
  {
    hide Locks;
    hide Gauged;
    hide Owed;
    hide Epochs;
    hide Gone;
    hide Barred;
    hide Quiet;
  }

  lemma SettledRemoveSection(s: State, g: Agent, n: nat, report: bool, suspending: bool, m: nat)
    requires !s.mutexHeld && ProcOf(s.procs, g) == Free && (suspending ==> g == TheWorker)
    requires Sets(s.q, s.procs, s.mutexHeld)
    requires s.mutexHeld <==> ProcOf(s.procs, TheWorker).Removal? && ProcOf(s.procs, TheWorker).suspending
    ensures var t := RemoveSection(s, g, n, report, suspending);
            Settled(t.q, t.procs, m) <==>
              Settled(s.q, s.procs, m)
              && !(m == n && !suspending && (n in s.q.suspended || ProcOf(t.procs, g).Removal?))
  {
    WithoutMembers(s.q.active, n);
    SetActiveKeeps(s.q, Without(s.q.active, n));
    hide SetActive;
    hide Without;
    hide Distinct;
  }

  lemma SettledCancelSection(s: State, g: Agent, m: nat)
    requires ProcOf(s.procs, g).Removal? && ProcOf(s.procs, g).stage.Loaded?
    requires ProcOf(s.procs, g).suspending ==> g == TheWorker
    ensures var t := CancelSection(s, g);
            Settled(t.q, t.procs, m) <==> Settled(s.q, s.procs, m)
  {
  }

  lemma SettledScheduleNewFirst(s: State, g: Agent, m: nat)
    requires ProcOf(s.procs, g).Removal?
    requires ProcOf(s.procs, g).suspending ==> g == TheWorker && ProcOf(s.procs, g).pr in s.q.suspended
    ensures var t := ScheduleNewFirst(s, g);
            Settled(t.q, t.procs, m) <==> Settled(s.q, s.procs, m)
  {
  }

  lemma SettledRemoval(s: State, a: Action, n: nat)
    requires Inv(s) && OfRemoval(a) && RemovalEnabled(s, a)
    ensures SettledMove(s, a, NextRemoval(s, a), n)
  {
    assert LockOk(s.st, ProcOf(s.procs, a.agent), a.agent);
    hide Locks;
    hide Gauged;
    hide Owed;
    hide Epochs;
    hide Gone;
    hide Barred;
    hide Quiet;
    hide RemoveSection;
    hide CancelSection;
    hide ScheduleNewFirst;
    match a
    case Remove(g, m, report, suspending) => SettledRemoveSection(s, g, m, report, suspending, n);
    case Cancel(g) => SettledCancelSection(s, g, n);
    case ScheduleNew(g) => SettledScheduleNewFirst(s, g, n);
    case _ =>
  }

  lemma SettledLabel(s: State, a: Action, n: nat)
    requires Inv(s) && OfLabel(a) && LabelEnabled(s, a)
    ensures SettledMove(s, a, NextLabel(s, a), n)
  {
    LabelFrame(s, a);
    hide NextLabel;
    hide LabelEnabled;
    hide Locks;
    hide Gauged;
    hide Owed;
    hide Epochs;
    hide Gone;
    hide Barred;
    hide Quiet;
  }

  lemma SettledPending(s: State, a: Action, n: nat)
    requires Inv(s) && OfPending(a) && PendingEnabled(s, a)
    ensures SettledMove(s, a, NextPending(s, a), n)
  {
    hide Locks;
    hide Gauged;
    hide Owed;
    hide Epochs;
    hide Gone;
    hide Barred;
    hide Quiet;
  }

  lemma SettledWorker(s: State, a: Action, n: nat)
    requires Inv(s) && OfWorker(a) && WorkerEnabled(s, a)
    ensures SettledMove(s, a, NextWorker(s, a), n)
  {
    hide Locks;
    hide Gauged;
    hide Owed;
    hide Epochs;
    hide Gone;
    hide Barred;
    hide Quiet;
  }

  lemma SettledSuccess(s: State, a: Action, n: nat)
    requires Inv(s) && OfSuccess(a) && SuccessEnabled(s, a)
    ensures SettledMove(s, a, NextSuccess(s, a), n)
  {
    hide Locks;
    hide Gauged;
    hide Owed;
    hide Epochs;
    hide Gone;
    hide Barred;
    hide Quiet;
  }

  lemma SettledHead(s: State, a: Action, n: nat)
    requires OfHead(a) && HeadEnabled(s, a)
    ensures SettledMove(s, a, NextHead(s, a), n)
  {
    HeadFrame(s, a);
    hide NextHead;
    hide HeadEnabled;
  }

  lemma SettledForeign(s: State, a: Action, n: nat)
    requires OfForeign(a) && ForeignEnabled(s, a)
    ensures SettledMove(s, a, NextForeign(s, a), n)
  {
    ForeignFrame(s, a);
    hide NextForeign;
    hide ForeignEnabled;
  }

  lemma NextSettled(s: State, a: Action, n: nat)
    requires Inv(s) && Enabled(s, a)
    ensures SettledMove(s, a, Next(s, a), n)
  {
    hide Inv;
    hide SettledMove;
    hide NextFiling;
    hide NextControl;
    hide NextRemoval;
    hide NextLabel;
    hide NextPending;
    hide NextWorker;
    hide NextSuccess;
    hide NextHead;
    hide NextForeign;
    hide FilingEnabled;
    hide ControlEnabled;
    hide RemovalEnabled;
    hide LabelEnabled;
    hide PendingEnabled;
    hide WorkerEnabled;
    hide SuccessEnabled;
    hide HeadEnabled;
    hide ForeignEnabled;
    if OfFiling(a) {
      SettledFiling(s, a, n);
    } else if OfControl(a) {
      SettledControl(s, a, n);
    } else if OfRemoval(a) {
      SettledRemoval(s, a, n);
    } else if OfLabel(a) {
      SettledLabel(s, a, n);
    } else if OfPending(a) {
      SettledPending(s, a, n);
    } else if OfHead(a) {
      SettledHead(s, a, n);
    } else if OfForeign(a) {
      SettledForeign(s, a, n);
    } else if OfWorker(a) {
      SettledWorker(s, a, n);
    } else {
      SettledSuccess(s, a, n);
    }
  }

  lemma NextMove(s: State, a: Action)
    requires Enabled(s, a)
    ensures Move(s, a, Next(s, a))
  {
    hide Move;
    hide NextFiling;
    hide NextControl;
    hide NextRemoval;
    hide NextLabel;
    hide NextPending;
    hide NextWorker;
    hide NextSuccess;
    hide NextHead;
    hide NextForeign;
    hide FilingEnabled;
    hide ControlEnabled;
    hide RemovalEnabled;
    hide LabelEnabled;
    hide PendingEnabled;
    hide WorkerEnabled;
    hide SuccessEnabled;
    hide HeadEnabled;
    hide ForeignEnabled;
    if OfFiling(a) {
      if a.ResumeTake? {
        MoveResumeTake(s, a);
      } else if a.ResumePut? {
        MoveResumePut(s, a);
      } else {
        MoveEntering(s, a);
      }
    } else if OfControl(a) {
      MoveControl(s, a);
    } else if OfRemoval(a) {
      if a.Remove? { MoveRemove(s, a); } else { MoveAfterRemove(s, a); }
    } else if OfLabel(a) {
      MoveLabel(s, a);
    } else if OfPending(a) {
      MovePending(s, a);
    } else if OfHead(a) {
      MoveHead(s, a);
    } else if OfForeign(a) {
      MoveForeign(s, a);
    } else if OfWorker(a) {
      MoveWorker(s, a);
    } else {
      MoveSuccess(s, a);
    }
  }

  /** The invariant holds in every state of every run. */
  lemma {:induction false} TraceInv(tr: seq<State>, acts: seq<Action>, k: nat)
    requires IsTrace(tr, acts) && k <= |acts|
    ensures Inv(tr[k])
  {
    hide Inv;
    hide Enabled;
    hide Next;
    if k == 0 {
      InitInv();
    } else {
      TraceInv(tr, acts, k - 1);
      NextInv(tr[k - 1], acts[k - 1]);
    }
  }

  lemma TraceMove(tr: seq<State>, acts: seq<Action>, k: nat)
    requires IsTrace(tr, acts) && k < |acts|
    ensures Move(tr[k], acts[k], tr[k + 1])
  {
    NextMove(tr[k], acts[k]);
  }

  // ---------------------------------------------------------------------
  // The cancel handshake
  // ---------------------------------------------------------------------

  /** Agent g removes n from the active queue at step i. */
  ghost predicate RemovesAt(tr: seq<State>, acts: seq<Action>, i: nat, g: Agent, n: nat)
    requires |tr| == |acts| + 1
  {
    i < |acts| && acts[i].Remove? && acts[i].agent == g && acts[i].pr == n && n in tr[i].q.active
  }

  /** n is not first in any state after step i up to state k. */
  ghost predicate NeverFirst(tr: seq<State>, i: nat, k: nat, n: nat)
    requires k < |tr|
  {
    forall m :: i < m <= k ==> Head(tr[m].q.active) != Some(n)
  }

  /** The removal that g started in the given epoch is the one it is in, if it is in one. */
  predicate SameRemoval(s: State, g: Agent, n: nat, epoch: nat) {
    var p := ProcOf(s.procs, g);
    && !FirstAfter(s.q.lastFirst, n, epoch)
    && (p.Removal? ==> p.pr == n && p.since == epoch)
  }

  lemma RemovalBegins(s: State, a: Action)
    requires Inv(s) && Enabled(s, a) && a.Remove? && a.pr in s.q.active
    ensures SameRemoval(Next(s, a), a.agent, a.pr, Next(s, a).q.epoch)
  {
    NextInv(s, a);
  }

  lemma RemovalMove(s: State, a: Action, t: State, g: Agent, n: nat, epoch: nat)
    requires Move(s, a, t) && SameRemoval(s, g, n, epoch)
    requires !(a.Remove? && a.agent == g) && Head(t.q.active) != Some(n)
    ensures SameRemoval(t, g, n, epoch)
  {
    hide ControlMove;
    assert ProcMove(a, g, ProcOf(s.procs, g), ProcOf(t.procs, g));
  }

  lemma {:induction false} RemovalPersists(tr: seq<State>, acts: seq<Action>, i: nat, k: nat, g: Agent, n: nat)
    requires IsTrace(tr, acts) && RemovesAt(tr, acts, i, g, n) && i < k <= |acts|
    requires forall m :: i < m < k ==> !(acts[m].Remove? && acts[m].agent == g)
    requires NeverFirst(tr, i, k, n)
    ensures SameRemoval(tr[k], g, n, tr[i + 1].q.epoch)
  {
    hide Enabled;
    hide Next;
    hide Move;
    if k == i + 1 {
      TraceInv(tr, acts, i);
      RemovalBegins(tr[i], acts[i]);
    } else {
      RemovalPersists(tr, acts, i, k - 1, g, n);
      TraceMove(tr, acts, k - 1);
      RemovalMove(tr[k - 1], acts[k - 1], tr[k], g, n, tr[i + 1].q.epoch);
    }
  }

  lemma {:induction false} BarPersists(tr: seq<State>, acts: seq<Action>, i: nat, k: nat, n: nat)
    requires IsTrace(tr, acts) && i <= k <= |acts| && n in tr[i].q.barred
    requires NeverFirst(tr, i, k, n)
    ensures n in tr[k].q.barred
  {
    if k > i {
      BarPersists(tr, acts, i, k - 1, n);
      TraceMove(tr, acts, k - 1);
    }
  }

  lemma PendingBars(s: State, a: Action, n: nat, epoch: nat)
    requires Enabled(s, a) && (a.PendingOk? || a.PendingSkip?) && SameRemoval(s, a.agent, n, epoch)
    ensures n in Next(s, a).q.barred
  {
  }

  lemma BarredCannotSucceed(s: State, n: nat)
    requires Inv(s) && n in s.q.barred && s.worker.Reporting? && s.worker.pr == n
    ensures !Enabled(s, SuccessOk)
  {
    assert BarredOk(s.q, s.c, s.worker, n);
  }

  /**
   The cancel handshake, in every interleaving.  Agent g removes n from the
   active queue at step i and the pending report of that removal succeeds at
   step j.  If a success report for n succeeds at a later step k, then n was first
   in the active queue again in between.
   */
  lemma CancelHandshake(tr: seq<State>, acts: seq<Action>, i: nat, j: nat, k: nat, g: Agent, n: nat)
    requires IsTrace(tr, acts) && i < j < k < |acts|
    requires RemovesAt(tr, acts, i, g, n)
    requires forall m :: i < m < j ==> !(acts[m].Remove? && acts[m].agent == g)
    requires acts[j] == PendingOk(g) || acts[j] == PendingSkip(g)
    requires acts[k] == SuccessOk && tr[k].worker.Reporting? && tr[k].worker.pr == n
    ensures exists m :: i < m <= k && Head(tr[m].q.active) == Some(n)
  {
    if NeverFirst(tr, i, k, n) {
      RemovalPersists(tr, acts, i, j, g, n);
      PendingBars(tr[j], acts[j], n, tr[i + 1].q.epoch);
      BarPersists(tr, acts, j + 1, k, n);
      TraceInv(tr, acts, k);
      BarredCannotSucceed(tr[k], n);
    }
  }

  // ---------------------------------------------------------------------
  // The pause handshake
  // ---------------------------------------------------------------------

  predicate InPause(s: State, id: nat, gen: nat) {
    var p := ProcOf(s.procs, Caller(id));
    s.c.resumes == gen && (p.PauseStored? || p.PauseLoaded? ==> p.gen == gen)
  }

  lemma PauseStores(s: State, id: nat)
    requires Enabled(s, PauseStore(id))
    ensures InPause(Next(s, PauseStore(id)), id, s.c.resumes)
  {
  }

  lemma PauseMove(s: State, a: Action, t: State, id: nat, gen: nat)
    requires Move(s, a, t) && InPause(s, id, gen) && a != PauseStore(id) && !a.Unpause?
    ensures InPause(t, id, gen)
  {
    assert ProcMove(a, Caller(id), ProcOf(s.procs, Caller(id)), ProcOf(t.procs, Caller(id)));
    hide EntriesMove;
  }

  lemma {:induction false} PausePersists(tr: seq<State>, acts: seq<Action>, i: nat, k: nat, id: nat)
    requires IsTrace(tr, acts) && i < k <= |acts| && acts[i] == PauseStore(id)
    requires forall m :: i < m < k ==> acts[m] != PauseStore(id) && !acts[m].Unpause?
    ensures InPause(tr[k], id, tr[i].c.resumes)
  {
    hide Enabled;
    hide Next;
    hide Move;
    if k == i + 1 {
      PauseStores(tr[i], id);
    } else {
      PausePersists(tr, acts, i, k - 1, id);
      TraceMove(tr, acts, k - 1);
      PauseMove(tr[k - 1], acts[k - 1], tr[k], id, tr[i].c.resumes);
    }
  }

  /**
   When Pause returns and nobody has resumed the queue since its store, the queue
   is paused, and a run that is past its check of that has a cancelled context.
   */
  lemma PauseReturns(s: State, id: nat, gen: nat)
    requires Inv(s) && Enabled(s, PauseCancel(id)) && InPause(s, id, gen)
    ensures var t := Next(s, PauseCancel(id));
            t.c.quiet && t.c.paused && !Unstopped(t.c, t.worker)
  {
    NextInv(s, PauseCancel(id));
    hide Shape;
    hide Locks;
    hide Sets;
    hide Gauged;
    hide Owed;
    hide Epochs;
    hide Gone;
    hide Barred;
  }

  lemma {:induction false} QuietPersists(tr: seq<State>, acts: seq<Action>, i: nat, k: nat)
    requires IsTrace(tr, acts) && i <= k <= |acts| && tr[i].c.quiet
    requires forall m :: i <= m < k ==> !acts[m].Unpause?
    ensures tr[k].c.quiet
  {
    if k > i {
      QuietPersists(tr, acts, i, k - 1);
      TraceMove(tr, acts, k - 1);
    }
  }

  /** An API call of a processPR run, under the context of the run, starts. */
  predicate RunCallStarts(s: State, a: Action) {
    (a.CallStart? && s.worker.Acting? && s.worker.isRun) || a.SuccessCall? || a.HeadCall?
  }

  lemma QuietCallIsDead(s: State, a: Action)
    requires Inv(s) && s.c.quiet && Enabled(s, a) && RunCallStarts(s, a)
    ensures NoLiveCall(Next(s, a).worker)
  {
  }

  lemma {:induction false} DeadPersists(tr: seq<State>, acts: seq<Action>, i: nat, k: nat)
    requires IsTrace(tr, acts) && i <= k <= |acts| && NoLiveCall(tr[i].worker)
    requires forall m :: i <= m < k ==> !AnyCallStarts(acts[m])
    ensures NoLiveCall(tr[k].worker)
  {
    if k > i {
      DeadPersists(tr, acts, i, k - 1);
      TraceMove(tr, acts, k - 1);
    }
  }

  lemma DeadCannotSucceed(s: State, a: Action)
    requires NoLiveCall(s.worker) && Enabled(s, a)
    ensures !a.CallOk? && !a.SuccessOk? && !a.HeadOk?
  {
  }

  /**
   The pause handshake, in every interleaving.  Pause stores at step i and returns
   with step j, and `paused` is not cleared before step k.  An API call that a
   processPR run starts at step k under its own context does not succeed: at no
   later step e that could end this call.
   */
  lemma PauseHandshake(tr: seq<State>, acts: seq<Action>, i: nat, j: nat, k: nat, e: nat, id: nat)
    requires IsTrace(tr, acts) && i < j < k < e < |acts|
    requires acts[i] == PauseStore(id) && acts[j] == PauseCancel(id)
    requires forall m :: i < m < j ==> acts[m] != PauseStore(id)
    requires forall m :: i < m < k ==> !acts[m].Unpause?
    requires RunCallStarts(tr[k], acts[k])
    requires forall m :: k < m < e ==> !AnyCallStarts(acts[m])
    ensures !acts[e].CallOk? && !acts[e].SuccessOk? && !acts[e].HeadOk?
  {
    hide Next;
    hide Enabled;
    hide Inv;
    PausePersists(tr, acts, i, j, id);
    TraceInv(tr, acts, j);
    PauseReturns(tr[j], id, tr[i].c.resumes);
    QuietPersists(tr, acts, j + 1, k);
    TraceInv(tr, acts, k);
    QuietCallIsDead(tr[k], acts[k]);
    DeadPersists(tr, acts, k + 1, e);
    DeadCannotSucceed(tr[e], acts[e]);
  }

  /** A removal starts a call under a background context. */
  predicate BackgroundCallStarts(a: Action) {
    a.UnlabelCall? || a.PendingCall? || a.LabelCall?
  }

  /** The call that a has started succeeds with this step. */
  function BackgroundSuccess(a: Action): Action
    requires BackgroundCallStarts(a)
  {
    match a
    case UnlabelCall(g) => UnlabelOk(g)
    case PendingCall(g) => PendingOk(g)
    case LabelCall(g) => LabelOk(g)
  }

  /**
   Exactly which calls that start under a pause can still succeed.  Those of a
   processPR run under its own context cannot.  Those of a status check can, unless
   their own context is over.  And those a removal makes under a background context
   always can, also when it is a run itself that dequeues or suspends: it removes
   the label, reports pending, and labels the new first one.
   */
  lemma CallsUnderPause(s: State, a: Action)
    requires Inv(s) && s.c.quiet && Enabled(s, a)
    ensures RunCallStarts(s, a) ==> NoLiveCall(Next(s, a).worker)
    ensures a.CallStart? && !s.worker.isRun ==> (Enabled(Next(s, a), CallOk) <==> s.worker.ctx !in s.c.cancelled)
    ensures BackgroundCallStarts(a) ==> Enabled(Next(s, a), BackgroundSuccess(a))
  {
    if RunCallStarts(s, a) {
      QuietCallIsDead(s, a);
    }
    hide Inv;
    if BackgroundCallStarts(a) {
      BackgroundCallsLive(s, a);
    } else if a.CallStart? {
      OwnCallsLive(s);
    }
    hide Enabled;
    hide Next;
  }

  lemma BackgroundCallsLive(s: State, a: Action)
    requires Enabled(s, a) && BackgroundCallStarts(a)
    ensures Enabled(Next(s, a), BackgroundSuccess(a))
  {
  }

  lemma OwnCallsLive(s: State)
    requires Enabled(s, CallStart)
    ensures Enabled(Next(s, CallStart), CallOk) <==> s.worker.ctx !in s.c.cancelled
  {
  }

  // ---------------------------------------------------------------------
  // The tasks
  // ---------------------------------------------------------------------

  /** The task the worker has in hands, if it has one. */
  function Busy(w: Worker): seq<Task> {
    match w
    case Resting => []
    case Begun(task, _) => [task]
    case AtGate(n, _, _) => [Process(n)]
    case Acting(n, _, isRun) => [if isRun then Process(n) else CheckStatus(n)]
    case Calling(n, _, isRun, _) => [if isRun then Process(n) else CheckStatus(n)]
    case WantsStatus(n, _) => [Process(n)]
    case HoldsStatus(n, _) => [Process(n)]
    case Reporting(n, _, _) => [Process(n)]
    case AddsLabel(n, _, _) => [Process(n)]
    case Ending(_, _, task) => [task]
  }

  /** The tasks of the queue, as a user of a pool with one worker sees them. */
  function Served(s: State): Pool.Server<Task> {
    Pool.Server(s.tasks, Busy(s.worker), s.ended)
  }

  lemma ServedFiling(s: State, a: Action)
    requires OfFiling(a) && FilingEnabled(s, a)
    ensures Pool.ServerStep(Served(s), Served(NextFiling(s, a)))
  {
    hide SetActive;
    hide InsertAt;
    hide Size;
    hide Rearranges;
    hide Busy;
  }

  lemma ServedControl(s: State, a: Action)
    requires OfControl(a) && ControlEnabled(s, a)
    ensures Pool.ServerStep(Served(s), Served(NextControl(s, a)))
  {
    hide Busy;
  }

  lemma ServedRemoval(s: State, a: Action)
    requires OfRemoval(a) && RemovalEnabled(s, a)
    ensures Pool.ServerStep(Served(s), Served(NextRemoval(s, a)))
  {
    hide SetActive;
    hide Without;
    hide Busy;
  }

  lemma ServedPending(s: State, a: Action)
    requires OfPending(a) && PendingEnabled(s, a)
    ensures Served(NextPending(s, a)) == Served(s)
  {
    hide FirstAfter;
    hide Busy;
  }

  lemma ServedWorker(s: State, a: Action)
    requires OfWorker(a) && WorkerEnabled(s, a)
    ensures Pool.ServerStep(Served(s), Served(NextWorker(s, a)))
  {
  }

  lemma ServedSuccess(s: State, a: Action)
    requires OfSuccess(a) && SuccessEnabled(s, a)
    ensures Served(NextSuccess(s, a)) == Served(s)
  {
  }

  lemma ServedHead(s: State, a: Action)
    requires OfHead(a) && HeadEnabled(s, a)
    ensures Served(NextHead(s, a)) == Served(s)
  {
  }

  /** Every step treats the tasks as the pool with one worker does. */
  lemma NextServed(s: State, a: Action)
    requires Enabled(s, a)
    ensures Pool.ServerStep(Served(s), Served(Next(s, a)))
  {
    hide NextFiling;
    hide NextControl;
    hide NextRemoval;
    hide NextLabel;
    hide NextPending;
    hide NextSuccess;
    hide NextHead;
    hide NextForeign;
    hide NextWorker;
    hide FilingEnabled;
    hide ControlEnabled;
    hide RemovalEnabled;
    hide LabelEnabled;
    hide PendingEnabled;
    hide SuccessEnabled;
    hide HeadEnabled;
    hide ForeignEnabled;
    hide WorkerEnabled;
    hide Busy;
    if OfFiling(a) {
      ServedFiling(s, a);
    } else if OfControl(a) {
      ServedControl(s, a);
    } else if OfRemoval(a) {
      ServedRemoval(s, a);
    } else if OfLabel(a) {
      LabelFrame(s, a);
    } else if OfPending(a) {
      ServedPending(s, a);
    } else if OfSuccess(a) {
      ServedSuccess(s, a);
    } else if OfHead(a) {
      ServedHead(s, a);
    } else if OfForeign(a) {
      ForeignFrame(s, a);
    } else {
      ServedWorker(s, a);
    }
    hide Pool.ServerStep;
  }

  /** All tasks so far, in the order in which they were queued. */
  function Log(p: Pool.Server<Task>): seq<Task> {
    p.done + p.busy + p.pending
  }

  /** A task keeps its place, and one that has ended has. */
  lemma ServerStepKeeps(p: Pool.Server<Task>, q: Pool.Server<Task>)
    requires Pool.ServerStep(p, q) && |p.busy| <= 1
    ensures Log(p) <= Log(q) && p.done <= q.done
    ensures forall task :: q.pending == p.pending + [task] ==> Log(q) == Log(p) + [task]
  {
    if p.busy == [] && p.pending != [] && q == p.(pending := p.pending[1..], busy := [p.pending[0]]) {
      assert p.pending == [p.pending[0]] + p.pending[1..];
    }
  }

  // ---------------------------------------------------------------------
  // The first pull request is scheduled, or somebody owes it
  // ---------------------------------------------------------------------

  lemma {:induction false} LogGrows(tr: seq<State>, acts: seq<Action>, i: nat, k: nat)
    requires IsTrace(tr, acts) && i <= k <= |acts|
    ensures Log(Served(tr[i])) <= Log(Served(tr[k])) && tr[i].ended <= tr[k].ended
  {
    hide Enabled;
    hide Next;
    hide Log;
    if k > i {
      LogGrows(tr, acts, i, k - 1);
      NextServed(tr[k - 1], acts[k - 1]);
      ServerStepKeeps(Served(tr[k - 1]), Served(tr[k]));
    }
  }

  /** The p-th task of all has ended, is in the hands of the worker, or waits, and it is this one. */
  predicate InPlace(s: State, p: nat, task: Task) {
    p < |Log(Served(s))| && Log(Served(s))[p] == task
  }

  /** What is queued is not lost: it keeps its place behind all that was queued before it. */
  lemma QueuedStays(tr: seq<State>, acts: seq<Action>, i: nat, k: nat, task: Task)
    requires IsTrace(tr, acts) && i < k <= |acts| && tr[i + 1].tasks == tr[i].tasks + [task]
    ensures InPlace(tr[k], |Log(Served(tr[i]))|, task)
  {
    hide Enabled;
    hide Next;
    NextServed(tr[i], acts[i]);
    ServerStepKeeps(Served(tr[i]), Served(tr[i + 1]));
    LogGrows(tr, acts, i + 1, k);
    hide Log;
    hide Served;
    assert Log(Served(tr[i + 1]))[|Log(Served(tr[i]))|] == task;
  }

  /** At step i processPR was queued for h, and h has been first ever since. */
  ghost predicate ScheduledSince(tr: seq<State>, i: nat, k: nat, h: nat)
    requires i < k < |tr|
  {
    && tr[i + 1].tasks == tr[i].tasks + [Process(h)]
    && forall m :: i < m <= k ==> Head(tr[m].q.active) == Some(h)
  }

  lemma {:induction false} ScheduledMeaning(tr: seq<State>, acts: seq<Action>, k: nat, h: nat) returns (i: nat)
    requires IsTrace(tr, acts) && k <= |acts|
    requires tr[k].q.headScheduled && Head(tr[k].q.active) == Some(h)
    ensures i < k && ScheduledSince(tr, i, k, h)
  {
    hide Next;
    hide Enabled;
    hide ControlMove;
    hide ProcMove;
    assert k > 0 by {
      assert tr[0] == Init();
    }
    TraceMove(tr, acts, k - 1);
    if tr[k].tasks == tr[k - 1].tasks + [Process(h)] {
      i := k - 1;
    } else {
      i := ScheduledMeaning(tr, acts, k - 1, h);
    }
  }

  /** Agent g is in a removal past its section and is going to schedule h. */
  predicate Owes(s: State, g: Agent, h: nat) {
    ProcOf(s.procs, g).Removal? && ProcOf(s.procs, g).newFirst == Some(h)
  }

  /**
   In every state of every run: for the first pull request processPR has been
   queued while it was first, and that task has run, runs or waits in its place; or
   a Dequeue or suspend past its removal still owes that.
   */
  lemma HeadScheduledOrOwed(tr: seq<State>, acts: seq<Action>, k: nat, h: nat)
    requires IsTrace(tr, acts) && k <= |acts| && Head(tr[k].q.active) == Some(h)
    ensures || (exists i: nat ::
                i < k && ScheduledSince(tr, i, k, h) && InPlace(tr[k], |Log(Served(tr[i]))|, Process(h)))
            || (exists g :: Owes(tr[k], g, h))
  {
    TraceInv(tr, acts, k);
    if tr[k].q.headScheduled {
      var i := ScheduledMeaning(tr, acts, k, h);
      QueuedStays(tr, acts, i, k, Process(h));
    } else {
      assert Owes(tr[k], tr[k].q.debtor, h);
    }
  }

  // ---------------------------------------------------------------------
  // The debt is paid
  // ---------------------------------------------------------------------

  /** A step with which agent g gets on with its removal. */
  predicate OwnStep(a: Action, g: Agent) {
    ((OfRemoval(a) && !a.Remove?) || OfLabel(a) || OfPending(a)) && a.agent == g
  }

  /** How many steps a removal has before it at most, when its report is not retried. */
  function StepsLeft(p: Proc): nat {
    if !p.Removal? then 0
    else
      match p.stage
      case Unlocked => 10
      case Loaded(_) => 9
      case Cancelled => 8
      case Unlabelling => 7
      case Unlabelled => 6
      case Holding => 5
      case InCall => 4
      case Reported => 3
      case Labelling => 2
      case Labelled => 1
  }

  lemma OthersLeaveRemovals(s: State, a: Action, g: Agent)
    requires Enabled(s, a) && ProcOf(s.procs, g).Removal? && !OwnStep(a, g)
    ensures ProcOf(Next(s, a).procs, g) == ProcOf(s.procs, g)
  {
    hide RemovalEnabled;
    hide LabelEnabled;
    hide PendingEnabled;
    hide WorkerEnabled;
    hide SuccessEnabled;
    hide FilingEnabled;
    hide ControlEnabled;
    hide NextFiling;
    hide NextControl;
    hide NextRemoval;
    hide NextLabel;
    hide NextPending;
    hide NextWorker;
    hide NextSuccess;
    hide HeadEnabled;
    hide ForeignEnabled;
    hide NextHead;
    hide NextForeign;
    if OfFiling(a) {
      FilingLeavesRemovals(s, a, g);
    } else if OfControl(a) {
      ControlLeavesRemovals(s, a, g);
    } else if OfRemoval(a) {
      RemovalLeavesOthers(s, a, g);
    } else if OfLabel(a) {
      LabelLeavesOthers(s, a, g);
    } else if OfPending(a) {
      PendingLeavesOthers(s, a, g);
    } else if OfSuccess(a) {
      SuccessLeavesAgents(s, a);
    } else if OfHead(a) {
      HeadFrame(s, a);
    } else if OfForeign(a) {
      ForeignFrame(s, a);
    } else {
      WorkerLeavesAgents(s, a);
    }
    hide Enabled;
  }

  lemma FilingLeavesRemovals(s: State, a: Action, g: Agent)
    requires OfFiling(a) && FilingEnabled(s, a) && ProcOf(s.procs, g).Removal?
    ensures ProcOf(NextFiling(s, a).procs, g) == ProcOf(s.procs, g)
  {
    FilingFrame(s, a);
    hide NextFiling;
  }

  lemma ControlLeavesRemovals(s: State, a: Action, g: Agent)
    requires OfControl(a) && ControlEnabled(s, a) && ProcOf(s.procs, g).Removal?
    ensures ProcOf(NextControl(s, a).procs, g) == ProcOf(s.procs, g)
  {
    ControlFrame(s, a);
    hide NextControl;
  }

  lemma PendingLeavesOthers(s: State, a: Action, g: Agent)
    requires OfPending(a) && PendingEnabled(s, a) && a.agent != g
    ensures ProcOf(NextPending(s, a).procs, g) == ProcOf(s.procs, g)
  {
    PendingFrame(s, a);
    hide NextPending;
    hide PendingEnabled;
  }

  lemma SuccessLeavesAgents(s: State, a: Action)
    requires OfSuccess(a) && SuccessEnabled(s, a)
    ensures NextSuccess(s, a).procs == s.procs
  {
    SuccessFrame(s, a);
    hide NextSuccess;
  }

  lemma RemovalLeavesOthers(s: State, a: Action, g: Agent)
    requires OfRemoval(a) && RemovalEnabled(s, a) && ProcOf(s.procs, g).Removal? && (a.Remove? || a.agent != g)
    ensures ProcOf(NextRemoval(s, a).procs, g) == ProcOf(s.procs, g)
  {
    hide SetActive;
    hide Without;
  }

  lemma LabelLeavesOthers(s: State, a: Action, g: Agent)
    requires OfLabel(a) && LabelEnabled(s, a) && a.agent != g
    ensures ProcOf(NextLabel(s, a).procs, g) == ProcOf(s.procs, g)
  {
    LabelFrame(s, a);
    hide NextLabel;
    hide LabelEnabled;
  }

  lemma WorkerLeavesAgents(s: State, a: Action)
    requires OfWorker(a) && WorkerEnabled(s, a)
    ensures NextWorker(s, a).procs == s.procs
  {
  }

  /** What an own step makes of a removal: p before, q after it. */
  predicate GetsOn(s: State, a: Action, t: State, g: Agent) {
    var p, q := ProcOf(s.procs, g), ProcOf(t.procs, g);
    && p.Removal?
    && (a.PendingFail? ==> StepsLeft(q) == StepsLeft(p) + 1)
    && (!a.PendingFail? ==> StepsLeft(q) < StepsLeft(p))
    && (!a.ScheduleNew? ==> q.Removal? && q.newFirst == p.newFirst)
    && (a.ScheduleNew? && p.newFirst.Some? ==> t.tasks == s.tasks + [Process(p.newFirst.value)])
  }

  lemma RemovalGetsOn(s: State, a: Action)
    requires OfRemoval(a) && !a.Remove? && RemovalEnabled(s, a)
    ensures GetsOn(s, a, NextRemoval(s, a), a.agent)
  {
  }

  lemma LabelGetsOn(s: State, a: Action)
    requires OfLabel(a) && LabelEnabled(s, a)
    ensures GetsOn(s, a, NextLabel(s, a), a.agent)
  {
  }

  lemma PendingGetsOn(s: State, a: Action)
    requires OfPending(a) && PendingEnabled(s, a)
    ensures GetsOn(s, a, NextPending(s, a), a.agent)
  {
    hide FirstAfter;
  }

  /**
   An own step brings a removal closer to its end, which is the schedule; only
   a failed report takes it back, to its next try.
   */
  lemma OwnStepsGetOn(s: State, a: Action, g: Agent)
    requires Enabled(s, a) && OwnStep(a, g)
    ensures GetsOn(s, a, Next(s, a), g)
  {
    hide RemovalEnabled;
    hide LabelEnabled;
    hide PendingEnabled;
    hide WorkerEnabled;
    hide SuccessEnabled;
    hide NextRemoval;
    hide NextLabel;
    hide NextPending;
    hide NextFiling;
    hide NextControl;
    hide NextSuccess;
    hide NextHead;
    hide NextForeign;
    hide NextWorker;
    hide GetsOn;
    if OfRemoval(a) {
      RemovalGetsOn(s, a);
    } else if OfLabel(a) {
      LabelGetsOn(s, a);
    } else {
      PendingGetsOn(s, a);
    }
  }

  /** The step a removal takes next, where its calls succeed. */
  function OwnNext(lb: Labels, g: Agent, p: Proc): Action
    requires p.Removal?
  {
    match p.stage
    case Unlocked => Load(g)
    case Loaded(_) => Cancel(g)
    case Cancelled => UnlabelCall(g)
    case Unlabelling => UnlabelOk(g)
    case Unlabelled => PendingLock(g)
    case Holding => PendingGiveUp(g)
    case InCall => PendingOk(g)
    case Reported =>
      if !LabelsNewFirst(p) then ScheduleNew(g)
      else if p.newFirst.value in lb.flagged then LabelSkip(g)
      else LabelCall(g)
    case Labelling => LabelOk(g)
    case Labelled => ScheduleNew(g)
  }

  lemma LabelledByDequeue(s: State, g: Agent)
    requires Inv(s) && ProcOf(s.procs, g).Removal?
    requires ProcOf(s.procs, g).stage == Labelling || ProcOf(s.procs, g).stage == Labelled
    ensures LabelsNewFirst(ProcOf(s.procs, g))
  {
    hide Sets;
    hide Gauged;
    hide Owed;
    hide Epochs;
    hide Gone;
    hide Barred;
    hide Quiet;
    assert LockOk(s.st, ProcOf(s.procs, g), g);
  }

  /** The pull request whose label mutex a removal wants now. */
  function LabelWanted(p: Proc): Option<nat> {
    if AtStage(p, Cancelled) then Some(p.pr)
    else if AtStage(p, Reported) && LabelsNewFirst(p) then p.newFirst
    else None
  }

  /** A removal waits for a status mutex or a label mutex. */
  predicate Waits(s: State, p: Proc) {
    || (AtStage(p, Unlabelled) && p.pr in s.st.holder)
    || (LabelWanted(p).Some? && LabelWanted(p).value in s.lb.holder)
  }

  lemma OwnNextEnabled(s: State, g: Agent)
    requires ProcOf(s.procs, g).Removal? && !Waits(s, ProcOf(s.procs, g))
    requires var stage := ProcOf(s.procs, g).stage;
             stage == Labelling || stage == Labelled ==> LabelsNewFirst(ProcOf(s.procs, g))
    ensures var a := OwnNext(s.lb, g, ProcOf(s.procs, g)); OwnStep(a, g) && !a.PendingFail? && Enabled(s, a)
  {
  }

  /** A removal can step, unless it waits for a mutex. */
  lemma RemovalSteps(s: State, g: Agent)
    requires Inv(s) && ProcOf(s.procs, g).Removal? && !Waits(s, ProcOf(s.procs, g))
    ensures exists a :: OwnStep(a, g) && !a.PendingFail? && Enabled(s, a)
  {
    var p := ProcOf(s.procs, g);
    if p.stage == Labelling || p.stage == Labelled {
      LabelledByDequeue(s, g);
    }
    OwnNextEnabled(s, g);
    hide Inv;
    hide Enabled;
  }

  /** Whoever has the status mutex of n can give it back, at once or with the step after the next. */
  ghost predicate CanRelease(s: State, n: nat) {
    exists a :: Enabled(s, a) &&
      (n !in Next(s, a).st.holder || exists b :: Enabled(Next(s, a), b) && n !in Next(Next(s, a), b).st.holder)
  }

  lemma HolderCanRelease(s: State, n: nat)
    requires Locks(s.st, s.worker, s.procs) && n in s.st.holder
    ensures CanRelease(s, n)
  {
    assert HolderOk(s.st, s.worker, s.procs, n);
    var h := s.st.holder[n];
    hide Locks;
    if h.Foreign? {
      ForeignCanRelease(s, n);
    } else {
      var p := ProcOf(s.procs, h.agent);
      if p.Removal? && (p.stage == Holding || p.stage == InCall) && p.pr == n {
        RemovalCanRelease(s, h.agent);
      } else {
        WorkerCanRelease(s);
      }
    }
  }

  lemma ForeignCanRelease(s: State, n: nat)
    requires n in s.st.holder && s.st.holder[n] == Foreign
    ensures CanRelease(s, n)
  {
    var a := ForeignUnlock(n, None);
    assert Enabled(s, a) && n !in Next(s, a).st.holder;
    hide Enabled;
    hide Next;
  }

  lemma RemovalCanRelease(s: State, h: Agent)
    requires ProcOf(s.procs, h).Removal? && (ProcOf(s.procs, h).stage == Holding || ProcOf(s.procs, h).stage == InCall)
    ensures CanRelease(s, ProcOf(s.procs, h).pr)
  {
    var a := if ProcOf(s.procs, h).stage == Holding then PendingGiveUp(h) else PendingOk(h);
    assert Enabled(s, a) && ProcOf(s.procs, h).pr !in Next(s, a).st.holder;
    hide Enabled;
    hide Next;
  }

  lemma WorkerCanRelease(s: State)
    requires StatusPhase(s.worker)
    ensures CanRelease(s, s.worker.pr)
  {
    if s.worker.HoldsStatus? {
      assert Enabled(s, SuccessGiveUp) && s.worker.pr !in Next(s, SuccessGiveUp).st.holder;
    } else {
      var t := Next(s, SuccessFail);
      assert Enabled(s, SuccessFail) && Enabled(t, SuccessGiveUp) && s.worker.pr !in Next(t, SuccessGiveUp).st.holder;
    }
    hide Enabled;
    hide Next;
  }

  /** How many of the steps i up to k are own steps of g. */
  function OwnSteps(acts: seq<Action>, i: nat, k: nat, g: Agent): nat
    requires i <= k <= |acts|
  {
    if k == i then 0 else OwnSteps(acts, i, k - 1, g) + if OwnStep(acts[k - 1], g) then 1 else 0
  }

  /** Between i and k agent g has scheduled h. */
  ghost predicate PaidBetween(tr: seq<State>, acts: seq<Action>, i: nat, k: nat, g: Agent, h: nat)
    requires |tr| == |acts| + 1 && k <= |acts|
  {
    exists m :: i <= m < k && acts[m] == ScheduleNew(g) && tr[m + 1].tasks == tr[m].tasks + [Process(h)]
  }

  /** A step pays the debt, or leaves less to do if it is one of the debtor. */
  lemma DebtStep(s: State, a: Action, g: Agent, h: nat)
    requires Enabled(s, a) && Owes(s, g, h) && a != PendingFail(g)
    ensures var t := Next(s, a);
            || (a == ScheduleNew(g) && t.tasks == s.tasks + [Process(h)])
            || (Owes(t, g, h)
                && StepsLeft(ProcOf(t.procs, g)) + (if OwnStep(a, g) then 1 else 0) <= StepsLeft(ProcOf(s.procs, g)))
  {
    hide Enabled;
    hide Next;
    hide StepsLeft;
    if OwnStep(a, g) {
      OwnStepsGetOn(s, a, g);
    } else {
      OthersLeaveRemovals(s, a, g);
    }
  }

  lemma {:induction false} DebtShrinks(tr: seq<State>, acts: seq<Action>, i: nat, k: nat, g: Agent, h: nat)
    requires IsTrace(tr, acts) && i <= k <= |acts| && Owes(tr[i], g, h)
    requires forall m :: i <= m < k ==> acts[m] != PendingFail(g)
    ensures || PaidBetween(tr, acts, i, k, g, h)
            || (Owes(tr[k], g, h)
                && StepsLeft(ProcOf(tr[k].procs, g)) + OwnSteps(acts, i, k, g) <= StepsLeft(ProcOf(tr[i].procs, g)))
  {
    hide Enabled;
    hide Next;
    hide StepsLeft;
    hide Owes;
    hide OwnStep;
    if k > i {
      DebtShrinks(tr, acts, i, k - 1, g, h);
      if !PaidBetween(tr, acts, i, k - 1, g, h) {
        DebtStep(tr[k - 1], acts[k - 1], g, h);
      }
    }
  }

  /**
   The debt is paid: in every run a removal that owes a schedule for the new first
   one has paid it after at most ten steps of its own, once its pending report is
   not retried any more.
   */
  lemma DebtIsPaid(tr: seq<State>, acts: seq<Action>, i: nat, k: nat, g: Agent, h: nat)
    requires IsTrace(tr, acts) && i <= k <= |acts| && Owes(tr[i], g, h)
    requires forall m :: i <= m < k ==> acts[m] != PendingFail(g)
    requires OwnSteps(acts, i, k, g) >= 10
    ensures PaidBetween(tr, acts, i, k, g, h)
  {
    hide Enabled;
    hide Next;
    hide OwnSteps;
    DebtShrinks(tr, acts, i, k, g, h);
  }

  // ---------------------------------------------------------------------
  // Conservation
  // ---------------------------------------------------------------------

  /** The queue knows n: active, suspended, or on the way between the two. */
  ghost predicate Tracked(s: State, n: nat) {
    Settled(s.q, s.procs, n) || exists g :: ProcOf(s.procs, g) == InFlight(n)
  }

  lemma InFlightStays(s: State, a: Action, n: nat, g: Agent)
    requires Inv(s) && Enabled(s, a) && ProcOf(s.procs, g) == InFlight(n)
    ensures Tracked(Next(s, a), n)
  {
    NextMove(s, a);
    assert ProcMove(a, g, ProcOf(s.procs, g), ProcOf(Next(s, a).procs, g));
    if a.ResumePut? && a.agent == g {
      InsertMembers(s.q.active, a.at, n);
    } else {
      assert ProcOf(Next(s, a).procs, g) == InFlight(n);
    }
  }

  lemma InFlightCame(s: State, a: Action, n: nat, g: Agent)
    requires Inv(s) && Enabled(s, a) && ProcOf(Next(s, a).procs, g) == InFlight(n)
    ensures Tracked(s, n)
  {
    NextMove(s, a);
    assert ProcMove(a, g, ProcOf(s.procs, g), ProcOf(Next(s, a).procs, g));
    if ProcOf(s.procs, g) != InFlight(n) {
      assert a.ResumeTake? && a.agent == g;
      assert n in s.q.suspended;
    }
  }

  /** The numbers the queue knows change only by a successful Enqueue, and by a Dequeue. */
  lemma NextTracked(s: State, a: Action, n: nat)
    requires Inv(s) && Enabled(s, a)
    ensures Tracked(s, n) && !Tracked(Next(s, a), n) ==> a.Remove? && a.pr == n && !a.suspending
    ensures !Tracked(s, n) && Tracked(Next(s, a), n) ==> a.Enqueue? && a.pr == n
    ensures a.Enqueue? && a.pr == n ==> !Settled(s.q, s.procs, n) && Tracked(Next(s, a), n)
  {
    NextSettled(s, a, n);
    if g :| ProcOf(s.procs, g) == InFlight(n) {
      InFlightStays(s, a, n, g);
    }
    if g :| ProcOf(Next(s, a).procs, g) == InFlight(n) {
      InFlightCame(s, a, n, g);
    }
    if a.Enqueue? {
      InsertMembers(s.q.active, a.at, a.pr);
    }
  }

  /**
   Conservation: in every interleaving the numbers the queue knows change only by
   a successful Enqueue, which adds its own, and a Dequeue, which takes its own.
   */
  lemma Conservation(tr: seq<State>, acts: seq<Action>, k: nat, n: nat)
    requires IsTrace(tr, acts) && k < |acts|
    ensures Tracked(tr[k], n) && !Tracked(tr[k + 1], n) ==>
              acts[k].Remove? && acts[k].pr == n && !acts[k].suspending
    ensures !Tracked(tr[k], n) && Tracked(tr[k + 1], n) ==>
              acts[k].Enqueue? && acts[k].pr == n
    ensures acts[k].Enqueue? && acts[k].pr == n ==> !Settled(tr[k].q, tr[k].procs, n) && Tracked(tr[k + 1], n)
  {
    hide Tracked;
    hide Settled;
    hide Inv;
    hide Next;
    hide Enabled;
    TraceInv(tr, acts, k);
    NextTracked(tr[k], acts[k], n);
  }

  /**
   In every state of every run a pull request is in at most one of the two
   sets, once, and the gauges are their sizes.
   */
  lemma SetDiscipline(tr: seq<State>, acts: seq<Action>, k: nat, n: nat)
    requires IsTrace(tr, acts) && k <= |acts|
    ensures Distinct(tr[k].q.active)
    ensures !(n in tr[k].q.active && n in tr[k].q.suspended)
    ensures tr[k].q.activeGauge == |tr[k].q.active| && tr[k].q.suspendedGauge == |tr[k].q.suspended|
  {
    TraceInv(tr, acts, k);
  }
}
