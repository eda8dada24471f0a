/**
 The merge queue of one base branch under concurrency, beside other queues.

 Webhook handlers, HTTP handlers and the single worker of the action pool run
 at the same time.  A step is a section under the queue mutex, an atomic load or
 store, the taking or releasing of a pull request's status mutex, or the start
 or the end of an API call.  `suspend` keeps the queue mutex while it calls the
 API, so it is cut into steps with the mutex held.

 Pull requests are identified by their numbers.  The pool is the one-server
 queue that module Pool shows it to be.  Steps of other queues are visible as
 what they do to the status mutexes, which pull requests take along when their
 base branch changes.
 */
module QueueProtocol {
  import opened LinkedList

  datatype Option<T> = None | Some(value: T)

  type Ctx = nat

  /** What the `executing` pointer refers to: a pull request and the context of its task. */
  datatype Operation = Operation(pr: nat, ctx: Ctx)

  datatype Task = Process(pr: nat) | CheckStatus(pr: nat)

  datatype Agent = TheWorker | Caller(id: nat)

  /** How far a removal from the active queue has got. */
  datatype Stage =
    | Unlocked                               // removed from the queue
    | Loaded(running: Option<Operation>)     // has read `executing`
    | Cancelled                              // has cancelled the running task
    | Unlabelling                            // is removing the head label of the removed one
    | Unlabelled                             // wants the status mutex
    | Holding                                // has the status mutex
    | InCall                                 // is reporting the pending status
    | Reported                               // is done with the removed one
    | Labelling                              // is adding the head label to the new first
    | Labelled                               // is about to schedule the new first

  /** What an agent is in the middle of, besides the task the worker executes. */
  datatype Proc =
    | Free
    | Removal(pr: nat, report: bool, suspending: bool, newFirst: Option<nat>, since: nat, stage: Stage)
    | InFlight(pr: nat)                      // ResumePR between its two sections
    | Scheduling(pr: nat)                    // ScheduleProcessPR, has read the first pull request
    | PauseStored(gen: nat)                  // Pause after the store
    | PauseLoaded(gen: nat, running: Option<Operation>)

  type Procs = map<Agent, Proc>

  datatype Gate = Paused | Context | First

  datatype Worker =
    | Resting
    | Begun(task: Task, ctx: Ctx)
    | AtGate(pr: nat, ctx: Ctx, gate: Gate)
    | Acting(pr: nat, ctx: Ctx, isRun: bool)                // isRun: processPR past its checks
    | Calling(pr: nat, ctx: Ctx, isRun: bool, dead: bool)   // dead: the call started with a cancelled context
    | WantsStatus(pr: nat, ctx: Ctx)
    | HoldsStatus(pr: nat, ctx: Ctx)
    | Reporting(pr: nat, ctx: Ctx, dead: bool)              // the success report is under way
    | AddsLabel(pr: nat, ctx: Ctx, dead: bool)              // has the label mutex and adds the head label
    | Ending(pr: nat, ctx: Ctx, task: Task)

  /** What the queue mutex protects, with the history of who was first. */
  datatype Entries = Entries(
    active: seq<nat>,
    suspended: set<nat>,
    activeGauge: int,
    suspendedGauge: int,
    epoch: nat,                     // number of changes of the first pull request
    lastFirst: map<nat, nat>,       // epoch in which a pull request last became first
    barred: set<nat>,               // removed, pending reported, and not been first since
    remover: map<nat, Agent>,       // who last removed a pull request while it was first
    headScheduled: bool,            // processPR was queued for the first since it became first
    debtor: Agent)                  // otherwise: who still owes that

  datatype Control = Control(
    paused: bool,
    resumes: nat,                   // number of times `paused` was cleared
    quiet: bool,                    // a Pause has returned and `paused` was not cleared since its store
    executing: Option<Operation>,
    cancelled: set<Ctx>,
    nextCtx: Ctx)

  /** Who has a status mutex: an agent of this queue, or of another one. */
  datatype Holder = Local(agent: Agent) | Foreign

  datatype Statuses = Statuses(
    holder: map<nat, Holder>,       // who has the status mutex of a pull request
    lastPending: set<nat>)          // pull requests whose last reported status is pending

  datatype Labels = Labels(
    holder: map<nat, Agent>,        // who has the label mutex of a pull request
    flagged: set<nat>,              // pull requests with the flag of the head label
    stray: set<nat>)                // labelled as the new first when not first any more, and not unlabelled since

  datatype State = State(
    q: Entries,
    c: Control,
    st: Statuses,
    lb: Labels,
    tasks: seq<Task>,
    worker: Worker,
    procs: Procs,
    mutexHeld: bool,                // the queue mutex outlasts a step: suspend has it
    ended: seq<Task>)               // the tasks the worker is done with

  function Init(): State {
    State(Entries([], {}, 0, 0, 0, map[], {}, map[], false, TheWorker),
          Control(false, 0, false, None, {}, 0),
          Statuses(map[], {}), Labels(map[], {}, {}), [], Resting, map[], false, [])
  }

  function ProcOf(procs: Procs, g: Agent): Proc {
    if g in procs then procs[g] else Free
  }

  function Head(active: seq<nat>): Option<nat> {
    if active == [] then None else Some(active[0])
  }

  /** Replaces the active queue and records when the first pull request changes. */
  function SetActive(q: Entries, active: seq<nat>): Entries {
    if Head(active) == Head(q.active) then q.(active := active)
    else if active == [] then
      q.(active := active, epoch := q.epoch + 1, headScheduled := false)
    else
      q.(active := active, epoch := q.epoch + 1, headScheduled := false,
         lastFirst := q.lastFirst[active[0] := q.epoch + 1],
         barred := q.barred - {active[0]})
  }

  function AppendTask(s: State, t: Task): State {
    if t.Process? && Head(s.q.active) == Some(t.pr) then
      s.(tasks := s.tasks + [t], q := s.q.(headScheduled := true))
    else
      s.(tasks := s.tasks + [t])
  }

  function Without(a: seq<nat>, n: nat): seq<nat> {
    if a == [] then [] else if a[0] == n then Without(a[1..], n) else [a[0]] + Without(a[1..], n)
  }

  /** b lists the members of a and of extra, with the first of a still first. */
  ghost predicate Rearranges(a: seq<nat>, extra: set<nat>, b: seq<nat>) {
    && Distinct(b)
    && (forall n :: n in b <==> n in a || n in extra)
    && (a != [] ==> b != [] && b[0] == a[0])
  }

  // ---------------------------------------------------------------------
  // Steps
  // ---------------------------------------------------------------------

  datatype Action =
    // entries come into the active queue, or go around
    | Enqueue(pr: nat, at: nat)
    | ResumeAll(arranged: seq<nat>)
    | Sort(arranged: seq<nat>)
    | ResumeTake(agent: Agent, pr: nat)
    | ResumePut(agent: Agent, at: nat)
    // scheduling, Pause and Resume, contexts that expire
    | QueueCheck(pr: nat)
    | ReadFirst(id: nat)
    | ScheduleFirst(id: nat)
    | PauseStore(id: nat)
    | PauseLoad(id: nat)
    | PauseCancel(id: nat)
    | Unpause
    | Expire(ctx: Ctx)
    // Dequeue and suspend
    | Remove(agent: Agent, pr: nat, report: bool, suspending: bool)
    | Load(agent: Agent)
    | Cancel(agent: Agent)
    | ScheduleNew(agent: Agent)
    // their calls that move the head label, under a background context
    | UnlabelCall(agent: Agent)
    | UnlabelOk(agent: Agent)
    | UnlabelFail(agent: Agent)
    | LabelSkip(agent: Agent)
    | LabelCall(agent: Agent)
    | LabelOk(agent: Agent)
    | LabelFail(agent: Agent)
    // their report of the pending status, under a background context
    | PendingLock(agent: Agent)
    | PendingSkip(agent: Agent)
    | PendingCall(agent: Agent)
    | PendingOk(agent: Agent)
    | PendingFail(agent: Agent)
    | PendingGiveUp(agent: Agent)
    // the worker
    | TakeTask
    | SetExecuting
    | CheckPaused
    | CheckContext
    | CheckFirst
    | CallStart
    | CallOk
    | CallFail
    | EndRun
    | ClearExecuting
    // its report of success
    | SuccessWant
    | SuccessLock
    | SuccessSkip
    | SuccessCall
    | SuccessOk
    | SuccessFail
    | SuccessGiveUp
    // its call that adds the head label
    | HeadSkip
    | HeadCall
    | HeadOk
    | HeadFail
    // steps of other queues
    | ForeignLock(pr: nat)
    | ForeignUnlock(pr: nat, reported: Option<bool>)   // after reporting pending (true), success (false) or nothing
    | ForeignStep

  predicate OfFiling(a: Action) {
    a.Enqueue? || a.ResumeAll? || a.Sort? || a.ResumeTake? || a.ResumePut?
  }

  predicate OfControl(a: Action) {
    || a.QueueCheck? || a.ReadFirst? || a.ScheduleFirst?
    || a.PauseStore? || a.PauseLoad? || a.PauseCancel? || a.Unpause? || a.Expire?
  }

  predicate OfRemoval(a: Action) {
    a.Remove? || a.Load? || a.Cancel? || a.ScheduleNew?
  }

  predicate OfLabel(a: Action) {
    || a.UnlabelCall? || a.UnlabelOk? || a.UnlabelFail?
    || a.LabelSkip? || a.LabelCall? || a.LabelOk? || a.LabelFail?
  }

  predicate OfPending(a: Action) {
    || a.PendingLock? || a.PendingSkip? || a.PendingCall?
    || a.PendingOk? || a.PendingFail? || a.PendingGiveUp?
  }

  predicate OfSuccess(a: Action) {
    || a.SuccessWant? || a.SuccessLock? || a.SuccessSkip? || a.SuccessCall?
    || a.SuccessOk? || a.SuccessFail? || a.SuccessGiveUp?
  }

  predicate OfHead(a: Action) {
    a.HeadSkip? || a.HeadCall? || a.HeadOk? || a.HeadFail?
  }

  predicate OfForeign(a: Action) {
    a.ForeignLock? || a.ForeignUnlock? || a.ForeignStep?
  }

  predicate OfWorker(a: Action) {
    && !OfFiling(a) && !OfControl(a) && !OfRemoval(a) && !OfLabel(a) && !OfPending(a)
    && !OfSuccess(a) && !OfHead(a) && !OfForeign(a)
  }

  /** The agent can start something: a caller that is free, the worker while it acts on a task. */
  predicate CanStart(s: State, g: Agent) {
    ProcOf(s.procs, g) == Free && (g == TheWorker ==> s.worker.Acting?)
  }

  predicate AtStage(p: Proc, stage: Stage) {
    p.Removal? && p.stage == stage
  }

  /** Where a new entry may be placed: at the front only in an empty queue. */
  predicate PlaceOk(active: seq<nat>, at: nat) {
    at <= |active| && (active != [] ==> at > 0)
  }

  ghost predicate FilingEnabled(s: State, a: Action)
    requires OfFiling(a)
  {
    !s.mutexHeld &&
    match a
    case Enqueue(n, at) => n !in s.q.suspended && n !in s.q.active && PlaceOk(s.q.active, at)
    case ResumeAll(b) => Rearranges(s.q.active, s.q.suspended, b)
    case Sort(b) => Rearranges(s.q.active, {}, b)
    case ResumeTake(g, n) => CanStart(s, g) && (g == TheWorker ==> !s.worker.isRun)
    case ResumePut(g, at) => ProcOf(s.procs, g).InFlight? && PlaceOk(s.q.active, at)
  }

  predicate ControlEnabled(s: State, a: Action)
    requires OfControl(a)
  {
    match a
    case QueueCheck(_) => true
    case ReadFirst(id) => !s.mutexHeld && CanStart(s, Caller(id)) && s.q.active != []
    case ScheduleFirst(id) => ProcOf(s.procs, Caller(id)).Scheduling?
    case PauseStore(id) => CanStart(s, Caller(id))
    case PauseLoad(id) => ProcOf(s.procs, Caller(id)).PauseStored?
    case PauseCancel(id) => ProcOf(s.procs, Caller(id)).PauseLoaded?
    case Unpause => true
    case Expire(ctx) => ctx < s.c.nextCtx
  }

  predicate RemovalEnabled(s: State, a: Action)
    requires OfRemoval(a)
  {
    match a
    case Remove(g, n, report, suspending) =>
      && !s.mutexHeld && CanStart(s, g)
      && (suspending ==> g == TheWorker && report)
      && (g == TheWorker ==> s.worker.isRun && n == s.worker.pr)
    case Load(g) => AtStage(ProcOf(s.procs, g), Unlocked)
    case Cancel(g) => ProcOf(s.procs, g).Removal? && ProcOf(s.procs, g).stage.Loaded?
    case ScheduleNew(g) =>
      AtStage(ProcOf(s.procs, g), if LabelsNewFirst(ProcOf(s.procs, g)) then Labelled else Reported)
  }

  /** Dequeue labels the new first one; suspend leaves that to the run it schedules. */
  predicate LabelsNewFirst(p: Proc) {
    p.Removal? && !p.suspending && p.newFirst.Some?
  }

  predicate MayLabel(lb: Labels, p: Proc) {
    AtStage(p, Reported) && LabelsNewFirst(p) && p.newFirst.value !in lb.holder
  }

  predicate LabelEnabled(s: State, a: Action)
    requires OfLabel(a)
  {
    var p := ProcOf(s.procs, a.agent);
    match a
    case UnlabelCall(_) => AtStage(p, Cancelled) && p.pr !in s.lb.holder
    case UnlabelOk(_) => AtStage(p, Unlabelling)
    case UnlabelFail(_) => AtStage(p, Unlabelling)
    case LabelSkip(_) => MayLabel(s.lb, p) && p.newFirst.value in s.lb.flagged
    case LabelCall(_) => MayLabel(s.lb, p) && p.newFirst.value !in s.lb.flagged
    case LabelOk(_) => AtStage(p, Labelling) && LabelsNewFirst(p)
    case LabelFail(_) => AtStage(p, Labelling) && LabelsNewFirst(p)
  }

  predicate PendingEnabled(s: State, a: Action)
    requires OfPending(a)
  {
    match a
    case PendingLock(g) => AtStage(ProcOf(s.procs, g), Unlabelled) && ProcOf(s.procs, g).pr !in s.st.holder
    case PendingSkip(g) => AtStage(ProcOf(s.procs, g), Holding) && ProcOf(s.procs, g).pr in s.st.lastPending
    case PendingCall(g) => AtStage(ProcOf(s.procs, g), Holding) && ProcOf(s.procs, g).pr !in s.st.lastPending
    case PendingOk(g) => AtStage(ProcOf(s.procs, g), InCall)
    case PendingFail(g) => AtStage(ProcOf(s.procs, g), InCall)
    case PendingGiveUp(g) => AtStage(ProcOf(s.procs, g), Holding)
  }

  predicate WorkerEnabled(s: State, a: Action)
    requires OfWorker(a)
  {
    match a
    case TakeTask => s.worker.Resting? && s.tasks != []
    case SetExecuting => s.worker.Begun?
    case CheckPaused => s.worker.AtGate? && s.worker.gate == Paused
    case CheckContext => s.worker.AtGate? && s.worker.gate == Context
    case CheckFirst => s.worker.AtGate? && s.worker.gate == First && !s.mutexHeld
    case CallStart => s.worker.Acting? && ProcOf(s.procs, TheWorker) == Free
    case CallOk => s.worker.Calling? && !s.worker.dead
    case CallFail => s.worker.Calling?
    case EndRun => s.worker.Acting? && ProcOf(s.procs, TheWorker) == Free
    case ClearExecuting => s.worker.Ending?
  }

  predicate SuccessEnabled(s: State, a: Action)
    requires OfSuccess(a)
  {
    match a
    case SuccessWant => s.worker.Acting? && s.worker.isRun && ProcOf(s.procs, TheWorker) == Free
    case SuccessLock => s.worker.WantsStatus? && s.worker.pr !in s.st.holder
    case SuccessSkip => s.worker.HoldsStatus? && s.worker.pr !in s.st.lastPending
    case SuccessCall => s.worker.HoldsStatus?
    case SuccessOk => s.worker.Reporting? && !s.worker.dead
    case SuccessFail => s.worker.Reporting?
    case SuccessGiveUp => s.worker.HoldsStatus?
  }

  predicate HeadEnabled(s: State, a: Action)
    requires OfHead(a)
  {
    match a
    case HeadSkip => MayAddLabel(s) && s.worker.pr in s.lb.flagged
    case HeadCall => MayAddLabel(s) && s.worker.pr !in s.lb.flagged
    case HeadOk => s.worker.AddsLabel? && !s.worker.dead
    case HeadFail => s.worker.AddsLabel?
  }

  predicate MayAddLabel(s: State) {
    s.worker.Acting? && s.worker.isRun && ProcOf(s.procs, TheWorker) == Free && s.worker.pr !in s.lb.holder
  }

  predicate ForeignEnabled(s: State, a: Action)
    requires OfForeign(a)
  {
    match a
    case ForeignLock(n) => n !in s.st.holder
    case ForeignUnlock(n, _) => n in s.st.holder && s.st.holder[n] == Foreign
    case ForeignStep => true
  }

  ghost predicate Enabled(s: State, a: Action) {
    if OfFiling(a) then FilingEnabled(s, a)
    else if OfControl(a) then ControlEnabled(s, a)
    else if OfRemoval(a) then RemovalEnabled(s, a)
    else if OfLabel(a) then LabelEnabled(s, a)
    else if OfPending(a) then PendingEnabled(s, a)
    else if OfSuccess(a) then SuccessEnabled(s, a)
    else if OfHead(a) then HeadEnabled(s, a)
    else if OfForeign(a) then ForeignEnabled(s, a)
    else WorkerEnabled(s, a)
  }

  /** _enqueueActive: schedules processPR when the entry became the first one. */
  function EnqueueActive(s: State, n: nat, at: nat): State
    requires at <= |s.q.active|
  {
    var t := s.(q := SetActive(s.q, InsertAt(s.q.active, at, n)).(activeGauge := s.q.activeGauge + 1));
    if s.q.active == [] then AppendTask(t, Process(n)) else t
  }

  /** _dequeueSuspended, for a suspended pull request. */
  function TakeSuspended(q: Entries, n: nat): Entries {
    q.(suspended := q.suspended - {n}, suspendedGauge := q.suspendedGauge - 1)
  }

  function Size(s: set<nat>): nat {
    |s|
  }

  ghost function NextFiling(s: State, a: Action): State
    requires OfFiling(a) && FilingEnabled(s, a)
  {
    match a
    case Enqueue(n, at) => EnqueueActive(s, n, at)
    case ResumeAll(b) =>
      var t := s.(q := SetActive(s.q, b).(suspended := {},
                                          activeGauge := s.q.activeGauge + Size(s.q.suspended),
                                          suspendedGauge := s.q.suspendedGauge - Size(s.q.suspended)));
      if s.q.active == [] && b != [] then AppendTask(t, Process(b[0])) else t
    case Sort(b) => s.(q := SetActive(s.q, b))
    case ResumeTake(g, n) =>
      if n in s.q.suspended then
        s.(q := TakeSuspended(s.q, n), procs := s.procs[g := InFlight(n)])
      else s
    case ResumePut(g, at) =>
      var n := ProcOf(s.procs, g).pr;
      var t := s.(procs := s.procs[g := Free]);
      if n in s.q.suspended || n in s.q.active then t else EnqueueActive(t, n, at)
  }

  function NextControl(s: State, a: Action): State
    requires OfControl(a) && ControlEnabled(s, a)
  {
    match a
    case QueueCheck(n) => AppendTask(s, CheckStatus(n))
    case ReadFirst(id) => s.(procs := s.procs[Caller(id) := Scheduling(s.q.active[0])])
    case ScheduleFirst(id) =>
      AppendTask(s, Process(ProcOf(s.procs, Caller(id)).pr)).(procs := s.procs[Caller(id) := Free])
    case PauseStore(id) =>
      s.(procs := s.procs[Caller(id) := PauseStored(s.c.resumes)], c := s.c.(paused := true))
    case PauseLoad(id) =>
      s.(procs := s.procs[Caller(id) := PauseLoaded(ProcOf(s.procs, Caller(id)).gen, s.c.executing)])
    case PauseCancel(id) =>
      var p := ProcOf(s.procs, Caller(id));
      s.(procs := s.procs[Caller(id) := Free],
         c := s.c.(cancelled := if p.running.Some? then s.c.cancelled + {p.running.value.ctx} else s.c.cancelled,
                   quiet := s.c.quiet || p.gen == s.c.resumes))
    case Unpause => s.(c := s.c.(paused := false, resumes := s.c.resumes + 1, quiet := false))
    case Expire(ctx) => s.(c := s.c.(cancelled := s.c.cancelled + {ctx}))
  }

  /** The removal has cancelled what it read; suspend also files the pull request now. */
  function CancelSection(s: State, g: Agent): State
    requires ProcOf(s.procs, g).Removal? && ProcOf(s.procs, g).stage.Loaded?
  {
    var p := ProcOf(s.procs, g);
    var hit := p.stage.running.Some? && p.stage.running.value.pr == p.pr;
    s.(procs := s.procs[g := p.(stage := Cancelled)],
       c := if hit then s.c.(cancelled := s.c.cancelled + {p.stage.running.value.ctx}) else s.c,
       q := if p.suspending then
              s.q.(suspended := s.q.suspended + {p.pr}, suspendedGauge := s.q.suspendedGauge + 1)
            else s.q)
  }

  /** The section of Dequeue or suspend that takes n out of the queue. */
  function RemoveSection(s: State, g: Agent, n: nat, report: bool, suspending: bool): State {
    if !suspending && n in s.q.suspended then s.(q := TakeSuspended(s.q, n))
    else if n !in s.q.active then s
    else
      var rest := SetActive(s.q, Without(s.q.active, n)).(activeGauge := s.q.activeGauge - 1);
      var newFirst := if Head(rest.active) != Head(s.q.active) then Head(rest.active) else None;
      var removed := if Head(s.q.active) == Some(n) then rest.(remover := s.q.remover[n := g]) else rest;
      s.(q := if newFirst.Some? then removed.(debtor := g) else removed,
         procs := s.procs[g := Removal(n, report, suspending, newFirst, rest.epoch, Unlocked)],
         mutexHeld := suspending)
  }

  function ScheduleNewFirst(s: State, g: Agent): State
    requires ProcOf(s.procs, g).Removal?
  {
    var p := ProcOf(s.procs, g);
    var t := if p.newFirst.Some? then AppendTask(s, Process(p.newFirst.value)) else s;
    t.(procs := s.procs[g := Free], mutexHeld := s.mutexHeld && !p.suspending)
  }

  function NextRemoval(s: State, a: Action): State
    requires OfRemoval(a) && RemovalEnabled(s, a)
  {
    match a
    case Remove(g, n, report, suspending) => RemoveSection(s, g, n, report, suspending)
    case Load(g) => s.(procs := s.procs[g := ProcOf(s.procs, g).(stage := Loaded(s.c.executing))])
    case Cancel(g) => CancelSection(s, g)
    case ScheduleNew(g) => ScheduleNewFirst(s, g)
  }

  function AfterLabel(p: Proc, a: Action): Stage
    requires OfLabel(a) && p.Removal?
  {
    match a
    case UnlabelCall(_) => Unlabelling
    case UnlabelOk(_) => if p.report then Unlabelled else Reported
    case UnlabelFail(_) => if p.report then Unlabelled else Reported
    case LabelSkip(_) => Labelled
    case LabelCall(_) => Labelling
    case LabelOk(_) => Labelled
    case LabelFail(_) => Labelled
  }

  /** The flag is cleared before the label is removed, and set after it was added. */
  function LabelsAfter(lb: Labels, p: Proc, head: Option<nat>, a: Action): Labels
    requires OfLabel(a) && p.Removal? && (a.LabelCall? || a.LabelOk? || a.LabelFail? ==> p.newFirst.Some?)
  {
    match a
    case UnlabelCall(g) => Labels(lb.holder[p.pr := g], lb.flagged - {p.pr}, lb.stray - {p.pr})
    case UnlabelOk(_) => lb.(holder := lb.holder - {p.pr})
    case UnlabelFail(_) => lb.(holder := lb.holder - {p.pr})
    case LabelSkip(_) => lb
    case LabelCall(g) => lb.(holder := lb.holder[p.newFirst.value := g])
    case LabelOk(_) =>
      var n := p.newFirst.value;
      Labels(lb.holder - {n}, lb.flagged + {n}, if head == Some(n) then lb.stray else lb.stray + {n})
    case LabelFail(_) => lb.(holder := lb.holder - {p.newFirst.value})
  }

  /** A step of a removal on the head labels; whether a call succeeds makes no difference to its next step. */
  function NextLabel(s: State, a: Action): State
    requires OfLabel(a) && LabelEnabled(s, a)
  {
    var p := ProcOf(s.procs, a.agent);
    s.(procs := s.procs[a.agent := p.(stage := AfterLabel(p, a))], lb := LabelsAfter(s.lb, p, Head(s.q.active), a))
  }

  /** n has been first after the given epoch. */
  predicate FirstAfter(lastFirst: map<nat, nat>, n: nat, epoch: nat) {
    n in lastFirst && lastFirst[n] > epoch
  }

  /** The pending status of the removed pull request is reported; the status mutex is released. */
  function PendingDone(s: State, g: Agent): State
    requires ProcOf(s.procs, g).Removal?
  {
    var p := ProcOf(s.procs, g);
    s.(procs := s.procs[g := p.(stage := Reported)],
       st := Statuses(s.st.holder - {p.pr}, s.st.lastPending + {p.pr}),
       q := if FirstAfter(s.q.lastFirst, p.pr, p.since) then s.q else s.q.(barred := s.q.barred + {p.pr}))
  }

  function NextPending(s: State, a: Action): State
    requires OfPending(a) && PendingEnabled(s, a)
  {
    var p := ProcOf(s.procs, a.agent);
    match a
    case PendingLock(g) =>
      s.(procs := s.procs[g := p.(stage := Holding)], st := s.st.(holder := s.st.holder[p.pr := Local(g)]))
    case PendingSkip(g) => PendingDone(s, g)
    case PendingCall(g) => s.(procs := s.procs[g := p.(stage := InCall)])
    case PendingOk(g) => PendingDone(s, g)
    case PendingFail(g) => s.(procs := s.procs[g := p.(stage := Holding)])
    case PendingGiveUp(g) =>
      s.(procs := s.procs[g := p.(stage := Reported)], st := s.st.(holder := s.st.holder - {p.pr}))
  }

  function NextWorker(s: State, a: Action): State
    requires OfWorker(a) && WorkerEnabled(s, a)
  {
    var w := s.worker;
    match a
    case TakeTask =>
      s.(tasks := s.tasks[1..], worker := Begun(s.tasks[0], s.c.nextCtx), c := s.c.(nextCtx := s.c.nextCtx + 1))
    case SetExecuting =>
      s.(c := s.c.(executing := Some(Operation(w.task.pr, w.ctx))),
         worker := if w.task.Process? then AtGate(w.task.pr, w.ctx, Paused) else Acting(w.task.pr, w.ctx, false))
    case CheckPaused =>
      s.(worker := if s.c.paused then Ending(w.pr, w.ctx, Process(w.pr)) else w.(gate := Context))
    case CheckContext =>
      s.(worker := if w.ctx in s.c.cancelled then Ending(w.pr, w.ctx, Process(w.pr)) else w.(gate := First))
    case CheckFirst =>
      s.(worker := if Head(s.q.active) == Some(w.pr) then Acting(w.pr, w.ctx, true)
                   else Ending(w.pr, w.ctx, Process(w.pr)))
    case CallStart => s.(worker := Calling(w.pr, w.ctx, w.isRun, w.ctx in s.c.cancelled))
    case CallOk => s.(worker := Acting(w.pr, w.ctx, w.isRun))
    case CallFail => s.(worker := Acting(w.pr, w.ctx, w.isRun))
    case EndRun => s.(worker := Ending(w.pr, w.ctx, if w.isRun then Process(w.pr) else CheckStatus(w.pr)))
    case ClearExecuting => s.(worker := Resting, c := s.c.(executing := None), ended := s.ended + [w.task])
  }

  function NextSuccess(s: State, a: Action): State
    requires OfSuccess(a) && SuccessEnabled(s, a)
  {
    var w := s.worker;
    match a
    case SuccessWant => s.(worker := WantsStatus(w.pr, w.ctx))
    case SuccessLock =>
      s.(worker := HoldsStatus(w.pr, w.ctx), st := s.st.(holder := s.st.holder[w.pr := Local(TheWorker)]))
    case SuccessSkip => s.(worker := Acting(w.pr, w.ctx, true), st := s.st.(holder := s.st.holder - {w.pr}))
    case SuccessCall => s.(worker := Reporting(w.pr, w.ctx, w.ctx in s.c.cancelled))
    case SuccessOk =>
      s.(worker := Acting(w.pr, w.ctx, true), st := Statuses(s.st.holder - {w.pr}, s.st.lastPending - {w.pr}))
    case SuccessFail => s.(worker := HoldsStatus(w.pr, w.ctx))
    case SuccessGiveUp => s.(worker := Acting(w.pr, w.ctx, true), st := s.st.(holder := s.st.holder - {w.pr}))
  }

  function NextHead(s: State, a: Action): State
    requires OfHead(a) && HeadEnabled(s, a)
  {
    var w := s.worker;
    match a
    case HeadSkip => s
    case HeadCall =>
      s.(worker := AddsLabel(w.pr, w.ctx, w.ctx in s.c.cancelled),
         lb := s.lb.(holder := s.lb.holder[w.pr := TheWorker]))
    case HeadOk =>
      s.(worker := Acting(w.pr, w.ctx, true),
         lb := s.lb.(holder := s.lb.holder - {w.pr}, flagged := s.lb.flagged + {w.pr}))
    case HeadFail => s.(worker := Acting(w.pr, w.ctx, true), lb := s.lb.(holder := s.lb.holder - {w.pr}))
  }

  /** The status mutex of n is released, after reporting pending (true), success (false) or nothing. */
  function Release(st: Statuses, n: nat, reported: Option<bool>): Statuses {
    Statuses(st.holder - {n},
             match reported
             case None => st.lastPending
             case Some(pending) => if pending then st.lastPending + {n} else st.lastPending - {n})
  }

  /** What a step of another queue does to the statuses. */
  function NextForeign(s: State, a: Action): State
    requires OfForeign(a) && ForeignEnabled(s, a)
  {
    match a
    case ForeignLock(n) => s.(st := s.st.(holder := s.st.holder[n := Foreign]))
    case ForeignUnlock(n, reported) => s.(st := Release(s.st, n, reported))
    case ForeignStep => s
  }

  ghost function Next(s: State, a: Action): State
    requires Enabled(s, a)
  {
    if OfFiling(a) then NextFiling(s, a)
    else if OfControl(a) then NextControl(s, a)
    else if OfRemoval(a) then NextRemoval(s, a)
    else if OfLabel(a) then NextLabel(s, a)
    else if OfPending(a) then NextPending(s, a)
    else if OfSuccess(a) then NextSuccess(s, a)
    else if OfHead(a) then NextHead(s, a)
    else if OfForeign(a) then NextForeign(s, a)
    else NextWorker(s, a)
  }

  /** A run from the start: the states it passes and the steps between them. */
  ghost predicate IsTrace(tr: seq<State>, acts: seq<Action>) {
    && |tr| == |acts| + 1 && tr[0] == Init()
    && forall i {:trigger acts[i]} :: 0 <= i < |acts| ==> Enabled(tr[i], acts[i]) && tr[i + 1] == Next(tr[i], acts[i])
  }
}
