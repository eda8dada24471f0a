/**
 One run of processPR for the first pull request of a queue: what it asks GitHub,
 what it decides, and what it does.

 The outside world is a value: what the checks before the run see, the answers
 of every API call, and whether each action succeeds.  Everything is proved for
 all worlds.
 */
module ProcessPR {
  import opened PullRequests
  import opened Retry
  import CIStatus

  datatype Review = Approved | ChangesRequested | ReviewRequired | OtherReview(name: string)

  /** The overall CI status as fetched; the code has a branch for values it does not know. */
  datatype CIValue = Known(status: CIStatus.Status) | Unexpected(name: string)

  datatype ReadyStatus = ReadyStatus(review: Review, ci: CIValue, statuses: seq<CIStatus.JobStatus>, commit: string)

  /** An error that is not retried can still be, or wrap, the cancellation of the context. */
  datatype ReadyResponse = Ready(status: ReadyStatus) | ReadyRetryable | ReadyFailed(isCancel: bool)

  datatype UpdateResponse =
    | UpdateResult(scheduled: bool, changed: bool, headCommit: string)
    | NilResult
    | UpdateRetryable
    | PullRequestClosed
    | MergeConflict
    | UpdateFailed(isCancel: bool)

  datatype Task = TaskNone | TaskTriggerCI

  /** All a run meets. */
  datatype World = World(
    paused: bool,
    contextOver: bool,                    // before the run starts
    first: bool,                          // the pull request is first in the active queue
    ready: seq<Event<ReadyResponse>>,
    update: seq<Event<UpdateResponse>>,
    cancelled: bool,                      // a context that ends during a call was cancelled, not timed out
    stale: bool,
    parse: map<string, Build>,            // job URLs that parse as build URLs
    suspendOk: bool,
    dequeueOk: bool,
    ciOk: bool,
    builds: map<string, Build>)           // what a CI run has started

  // ---------------------------------------------------------------------
  // Fetching, through the retry loop
  // ---------------------------------------------------------------------

  function ReadyOutcome(r: ReadyResponse): Outcome {
    match r
    case Ready(_) => Done
    case ReadyRetryable => Again
    case ReadyFailed(_) => GiveUp
  }

  /** A scheduled update is polled: it counts as an error to retry. */
  function UpdateOutcome(r: UpdateResponse): Outcome {
    match r
    case UpdateResult(scheduled, _, _) => if scheduled then Again else Done
    case UpdateRetryable => Again
    case _ => GiveUp
  }

  datatype UpdateEnd =
    | Updated(changed: bool, headCommit: string)
    | Closed
    | Conflict
    | ContextOver
    | OtherFailure(isCancel: bool)

  predicate WasScheduled(r: UpdateResponse) {
    r.UpdateResult? && r.scheduled
  }

  /** The update attempts the retry loop makes: up to the first that is not retried. */
  predicate Attempted(trace: seq<Event<UpdateResponse>>, i: nat) {
    i < |trace| && i <= Tries(trace, UpdateOutcome) && trace[i].TimerFired?
  }

  ghost predicate SomeScheduled(trace: seq<Event<UpdateResponse>>) {
    exists i: nat :: Attempted(trace, i) && WasScheduled(trace[i].response)
  }

  /** What updatePRWithBase returns. */
  ghost function UpdateEndOf(trace: seq<Event<UpdateResponse>>): UpdateEnd {
    match ResultOf(trace, UpdateOutcome)
    case Succeeded(r) => Updated(SomeScheduled(trace) || r.changed, r.headCommit)
    case Failed(r) =>
      if r.PullRequestClosed? then Closed
      else if r.MergeConflict? then Conflict
      else OtherFailure(r == UpdateFailed(true))
    case ContextEnded => ContextOver
    case Stopped => OtherFailure(false)
  }

  /** updatePRWithBase: the variables the closure captures are updated attempt by attempt. */
  method UpdateWithBase(trace: seq<Event<UpdateResponse>>) returns (end: UpdateEnd)
    ensures end == UpdateEndOf(trace)
  {
    var result, asked := Run(trace, UpdateOutcome);
    var changed, headCommit := false, "";
    TriesMeaning(trace, UpdateOutcome);
    for i := 0 to |asked|
      invariant changed <==> exists j: nat ::
                j < i && asked[j].UpdateResult? && (asked[j].scheduled || asked[j].changed)
      invariant i > 0 && asked[i - 1].UpdateResult? && !asked[i - 1].scheduled ==> headCommit == asked[i - 1].headCommit
    {
      if asked[i].UpdateResult? {
        if asked[i].scheduled {
          changed := true;
        } else {
          if !changed {
            changed := asked[i].changed;
          }
          headCommit := asked[i].headCommit;
        }
      }
    }
    match result {
      case Succeeded(r) =>
        ChangedMeaning(trace, asked, r);
        assert headCommit == r.headCommit;
        end := Updated(changed, headCommit);
      case Failed(r) =>
        end := if r.PullRequestClosed? then Closed
               else if r.MergeConflict? then Conflict
               else OtherFailure(r == UpdateFailed(true));
      case ContextEnded => end := ContextOver;
      case Stopped => end := OtherFailure(false);
    }
  }

  lemma ChangedMeaning(trace: seq<Event<UpdateResponse>>, asked: seq<UpdateResponse>, r: UpdateResponse)
    requires ResultOf(trace, UpdateOutcome) == Succeeded(r)
    requires |asked| == Tries(trace, UpdateOutcome) + 1
    requires forall i :: 0 <= i < |asked| ==> trace[i] == TimerFired(asked[i])
    ensures asked[|asked| - 1] == r && r.UpdateResult? && !r.scheduled
    ensures (exists j: nat :: j < |asked| && asked[j].UpdateResult? && (asked[j].scheduled || asked[j].changed))
            <==> SomeScheduled(trace) || r.changed
  {
    var n := |asked| - 1;
    TriesMeaning(trace, UpdateOutcome);
    assert trace[n] == TimerFired(r);
    forall j: nat | j < n
      ensures asked[j].UpdateResult? ==> asked[j].scheduled
    {
      assert Continues(trace[j], UpdateOutcome);
    }
    forall j: nat | j < |asked|
      ensures Attempted(trace, j) && trace[j].response == asked[j]
    {
    }
    if SomeScheduled(trace) {
      var i: nat :| Attempted(trace, i) && WasScheduled(trace[i].response);
      assert asked[i].scheduled;
    }
  }

  // ---------------------------------------------------------------------
  // Deciding
  // ---------------------------------------------------------------------

  datatype Action =
    | NoAction
    | Suspend
    | Dequeue
    | CreateComment
    | UpdateStateUnchanged
    | CreateSuccessStatus
    | WaitForMerge
    | AddHeadLabel
    | TriggerCIJobs

  datatype Decision =
    | Decided(actions: seq<Action>, headCommit: string, ciJobs: seq<string>)
    | EvalFailed(isCancel: bool)

  /** failedRequiredStatuses. */
  method FailedRequired(statuses: seq<CIStatus.JobStatus>) returns (r: seq<CIStatus.JobStatus>)
    ensures r == FailedRequiredOf(statuses)
  {
    r := [];
    for i := 0 to |statuses|
      invariant r == FailedRequiredOf(statuses[..i])
    {
      assert statuses[..i + 1] == statuses[..i] + [statuses[i]];
      if statuses[i].required && statuses[i].status == CIStatus.Failure {
        r := r + [statuses[i]];
      }
    }
    assert statuses[..|statuses|] == statuses;
  }

  function FailedRequiredOf(statuses: seq<CIStatus.JobStatus>): seq<CIStatus.JobStatus> {
    if statuses == [] then []
    else
      var last := statuses[|statuses| - 1];
      FailedRequiredOf(statuses[..|statuses| - 1])
      + if last.required && last.status == CIStatus.Failure then [last] else []
  }

  /** expectedCIJobs. */
  method ExpectedJobs(statuses: seq<CIStatus.JobStatus>) returns (r: seq<string>)
    ensures r == ExpectedJobsOf(statuses)
  {
    r := [];
    for i := 0 to |statuses|
      invariant r == ExpectedJobsOf(statuses[..i])
    {
      assert statuses[..i + 1] == statuses[..i] + [statuses[i]];
      if statuses[i].status == CIStatus.Expected {
        r := r + [statuses[i].name];
      }
    }
    assert statuses[..|statuses|] == statuses;
  }

  function ExpectedJobsOf(statuses: seq<CIStatus.JobStatus>): seq<string> {
    if statuses == [] then []
    else
      var last := statuses[|statuses| - 1];
      ExpectedJobsOf(statuses[..|statuses| - 1]) + if last.status == CIStatus.Expected then [last.name] else []
  }

  lemma {:induction false} FailedRequiredMembers(statuses: seq<CIStatus.JobStatus>)
    ensures forall s :: s in FailedRequiredOf(statuses) <==> s in statuses && s.required && s.status == CIStatus.Failure
  {
    if statuses != [] {
      FailedRequiredMembers(statuses[..|statuses| - 1]);
      assert statuses == statuses[..|statuses| - 1] + [statuses[|statuses| - 1]];
    }
  }

  lemma {:induction false} ExpectedJobsMembers(statuses: seq<CIStatus.JobStatus>)
    ensures forall name :: name in ExpectedJobsOf(statuses) <==>
            exists s :: s in statuses && s.status == CIStatus.Expected && s.name == name
  {
    if statuses != [] {
      ExpectedJobsMembers(statuses[..|statuses| - 1]);
      assert statuses == statuses[..|statuses| - 1] + [statuses[|statuses| - 1]];
    }
  }

  datatype Obsolete = AllObsolete | NotObsolete | Unparsable

  /** A failed status is obsolete when a later build of its job has been started since. */
  predicate Superseded(s: CIStatus.JobStatus, parse: map<string, Build>, started: map<string, Build>) {
    && s.jobURL in parse
    && parse[s.jobURL].jobName in started
    && parse[s.jobURL].number < started[parse[s.jobURL].jobName].number
  }

  /** failedRequiredCIStatusesAreObsolete: the loop stops at the first status that decides. */
  method AreObsolete(statuses: seq<CIStatus.JobStatus>, parse: map<string, Build>, started: map<string, Build>)
      returns (r: Obsolete)
    ensures r == ObsoleteOf(statuses, parse, started)
  {
    for i := 0 to |statuses|
      invariant ObsoleteOf(statuses, parse, started) == ObsoleteOf(statuses[i..], parse, started)
    {
      var url := statuses[i].jobURL;
      if url !in parse {
        return Unparsable;
      }
      var failed := parse[url];
      if failed.jobName !in started {
        return NotObsolete;
      }
      if failed.number >= started[failed.jobName].number {
        return NotObsolete;
      }
      assert statuses[i..][1..] == statuses[i + 1..];
    }
    r := AllObsolete;
  }

  function ObsoleteOf(statuses: seq<CIStatus.JobStatus>, parse: map<string, Build>,
                      started: map<string, Build>): Obsolete {
    if statuses == [] then AllObsolete
    else if Superseded(statuses[0], parse, started) then ObsoleteOf(statuses[1..], parse, started)
    else if statuses[0].jobURL !in parse then Unparsable
    else NotObsolete
  }

  lemma {:induction false} ObsoleteExactly(statuses: seq<CIStatus.JobStatus>, parse: map<string, Build>,
                                           started: map<string, Build>)
    ensures ObsoleteOf(statuses, parse, started) == AllObsolete <==>
            forall s :: s in statuses ==>
              && s.jobURL in parse && parse[s.jobURL].jobName in started
              && started[parse[s.jobURL].jobName].number > parse[s.jobURL].number
  {
    if statuses != [] {
      assert statuses[0] in statuses;
      if Superseded(statuses[0], parse, started) {
        ObsoleteExactly(statuses[1..], parse, started);
        assert statuses == [statuses[0]] + statuses[1..];
      }
    }
  }

  /** What is decided from a fetched status once the branch is up to date and the pull request is not stale. */
  function DecideByCI(ready: ReadyStatus, head: string, parse: map<string, Build>,
                      started: map<string, Build>): Decision {
    match ready.ci
    case Unexpected(_) => EvalFailed(false)
    case Known(status) =>
      match status
      case Success => Decided([CreateSuccessStatus, NoAction], head, [])
      case Pending => Decided([AddHeadLabel, CreateSuccessStatus], head, [])
      case Expected => Decided([AddHeadLabel, TriggerCIJobs, CreateSuccessStatus], head, ExpectedJobsOf(ready.statuses))
      case Failure =>
        var failed := FailedRequiredOf(ready.statuses);
        if failed == [] then EvalFailed(false)
        else
          match ObsoleteOf(failed, parse, started)
          case Unparsable => EvalFailed(false)
          case AllObsolete => Decided([NoAction], head, [])
          case NotObsolete => Decided([Suspend], head, [])
  }

  /** evalPRAction. */
  ghost function Decide(w: World, started: map<string, Build>): Decision {
    match ResultOf(w.ready, ReadyOutcome)
    case ContextEnded => EvalFailed(w.cancelled)
    case Stopped => EvalFailed(false)
    case Failed(r) => EvalFailed(r == ReadyFailed(true))
    case Succeeded(r) =>
      if !r.Ready? then EvalFailed(false)
      else if r.status.review != Approved then Decided([Suspend], "", [])
      else
        match UpdateEndOf(w.update)
        case Closed => Decided([Dequeue], "", [])
        case Conflict => Decided([CreateComment, Suspend], r.status.commit, [])
        case ContextOver => EvalFailed(w.cancelled)
        case OtherFailure(isCancel) => EvalFailed(isCancel)
        case Updated(changed, head) =>
          if changed then Decided([UpdateStateUnchanged], head, [])
          else if w.stale then Decided([Suspend], r.status.commit, [])
          else DecideByCI(r.status, head, w.parse, started)
  }

  method EvalPRAction(w: World, started: map<string, Build>) returns (d: Decision)
    ensures d == Decide(w, started)
  {
    var ready, _ := Run(w.ready, ReadyOutcome);
    TriesMeaning(w.ready, ReadyOutcome);
    match ready {
      case ContextEnded => return EvalFailed(w.cancelled);
      case Stopped => return EvalFailed(false);
      case Failed(r) => return EvalFailed(r == ReadyFailed(true));
      case Succeeded(_) =>
    }
    if !ready.response.Ready? {
      return EvalFailed(false);
    }
    var status := ready.response.status;
    if status.review != Approved {
      return Decided([Suspend], "", []);
    }
    var end := UpdateWithBase(w.update);
    match end {
      case Closed => return Decided([Dequeue], "", []);
      case Conflict => return Decided([CreateComment, Suspend], status.commit, []);
      case ContextOver => return EvalFailed(w.cancelled);
      case OtherFailure(isCancel) => return EvalFailed(isCancel);
      case Updated(_, _) =>
    }
    if end.changed {
      return Decided([UpdateStateUnchanged], end.headCommit, []);
    }
    if w.stale {
      return Decided([Suspend], status.commit, []);
    }
    match status.ci
    case Unexpected(_) => return EvalFailed(false);
    case Known(Success) => return Decided([CreateSuccessStatus, NoAction], end.headCommit, []);
    case Known(Pending) => return Decided([AddHeadLabel, CreateSuccessStatus], end.headCommit, []);
    case Known(Expected) =>
      var jobs := ExpectedJobs(status.statuses);
      return Decided([AddHeadLabel, TriggerCIJobs, CreateSuccessStatus], end.headCommit, jobs);
    case Known(Failure) =>
      if |status.statuses| == 0 {
        return EvalFailed(false);
      }
      var failed := FailedRequired(status.statuses);
      if |failed| == 0 {
        return EvalFailed(false);
      }
      var obsolete := AreObsolete(failed, w.parse, started);
      match obsolete {
        case Unparsable => return EvalFailed(false);
        case AllObsolete => return Decided([NoAction], end.headCommit, []);
        case NotObsolete => return Decided([Suspend], end.headCommit, []);
      }
  }

  // ---------------------------------------------------------------------
  // Acting
  // ---------------------------------------------------------------------

  /** What a run does that can be seen outside it. */
  datatype Effect =
    | StateTouched
    | SuspendTried(ok: bool)
    | DequeueTried(ok: bool)
    | Commented
    | HeadLabelAdded
    | SuccessReported(commit: string)
    | CITried(commit: string, jobs: seq<string>, ok: bool)

  function CITriggerNeeded(task: Task, headCommit: string, triggeredCommit: string): bool {
    if headCommit == "" then task == TaskTriggerCI else headCommit != triggeredCommit
  }

  /** What a pull request remembers between runs. */
  datatype Memory = Memory(triggeredCommit: string, started: map<string, Build>)

  datatype RunResult = RunResult(effects: seq<Effect>, memory: Memory)

  /** What one action does: what is seen of it, what is remembered, and whether the run stops. */
  datatype ActionResult = ActionResult(effects: seq<Effect>, memory: Memory, stop: bool)

  function PerformOne(a: Action, d: Decision, w: World, task: Task, m: Memory): ActionResult
    requires d.Decided?
  {
    match a
    case UpdateStateUnchanged => ActionResult([StateTouched], m, false)
    case Suspend =>
      ActionResult([SuspendTried(w.suspendOk)], if w.suspendOk then m.(triggeredCommit := "") else m, false)
    case Dequeue => ActionResult([DequeueTried(w.dequeueOk)], m, false)
    case CreateComment => ActionResult([Commented], m, false)
    case AddHeadLabel => ActionResult([HeadLabelAdded], m, false)
    case CreateSuccessStatus => ActionResult([SuccessReported(d.headCommit)], m, false)
    case TriggerCIJobs =>
      if !CITriggerNeeded(task, d.headCommit, m.triggeredCommit) then ActionResult([], m, false)
      else if !w.ciOk then ActionResult([CITried(d.headCommit, d.ciJobs, false)], m.(started := w.builds), true)
      else ActionResult([CITried(d.headCommit, d.ciJobs, true)], Memory(d.headCommit, w.builds), false)
    case NoAction => ActionResult([], m, false)
    case WaitForMerge => ActionResult([], m, false)
  }

  /** Performs actions from left to right; a failed CI run ends the run. */
  function Perform(actions: seq<Action>, d: Decision, w: World, task: Task, m: Memory): RunResult
    requires d.Decided?
  {
    if actions == [] then RunResult([], m)
    else
      var r := PerformOne(actions[0], d, w, task, m);
      if r.stop then RunResult(r.effects, r.memory)
      else Prepend(r.effects, Perform(actions[1..], d, w, task, r.memory))
  }

  function Prepend(effects: seq<Effect>, r: RunResult): RunResult {
    r.(effects := effects + r.effects)
  }

  lemma PrependTwice(a: seq<Effect>, b: seq<Effect>, r: RunResult)
    ensures Prepend(a, Prepend(b, r)) == Prepend(a + b, r)
  {
    assert a + (b + r.effects) == (a + b) + r.effects;
  }

  /** What one run does and leaves behind. */
  ghost function RunOf(w: World, task: Task, m: Memory): RunResult {
    if w.paused || w.contextOver || !w.first then RunResult([], m)
    else
      match Decide(w, m.started)
      case EvalFailed(isCancel) =>
        if isCancel then RunResult([], m)
        else RunResult([SuspendTried(w.suspendOk)], if w.suspendOk then m.(triggeredCommit := "") else m)
      case Decided(actions, _, _) => Perform(actions, Decide(w, m.started), w, task, m)
  }

  function Remembers(pr: PullRequest): Memory
    reads pr
  {
    Memory(pr.ciTriggeredCommit, pr.lastStartedCIBuilds)
  }

  /** The part of queue.suspend that concerns what the pull request remembers. */
  method ForgetTrigger(pr: PullRequest, w: World) returns (e: Effect)
    modifies pr`ciTriggeredCommit
    ensures e == SuspendTried(w.suspendOk)
    ensures pr.ciTriggeredCommit == if w.suspendOk then "" else old(pr.ciTriggeredCommit)
  {
    if w.suspendOk {
      pr.ciTriggeredCommit := "";
    }
    e := SuspendTried(w.suspendOk);
  }

  /** One action of the loop of processPR. */
  method PerformAction(pr: PullRequest, a: Action, d: Decision, w: World, task: Task)
      returns (effects: seq<Effect>, stop: bool)
    requires d.Decided?
    modifies pr`ciTriggeredCommit, pr`lastStartedCIBuilds
    ensures ActionResult(effects, Remembers(pr), stop) == PerformOne(a, d, w, task, old(Remembers(pr)))
  {
    effects, stop := [], false;
    match a {
      case UpdateStateUnchanged => effects := [StateTouched];
      case Suspend =>
        var e := ForgetTrigger(pr, w);
        effects := [e];
      case Dequeue => effects := [DequeueTried(w.dequeueOk)];
      case CreateComment => effects := [Commented];
      case AddHeadLabel => effects := [HeadLabelAdded];
      case CreateSuccessStatus => effects := [SuccessReported(d.headCommit)];
      case TriggerCIJobs =>
        if CITriggerNeeded(task, d.headCommit, pr.ciTriggeredCommit) {
          pr.lastStartedCIBuilds := w.builds;
          effects := [CITried(d.headCommit, d.ciJobs, w.ciOk)];
          if w.ciOk {
            pr.ciTriggeredCommit := d.headCommit;
          } else {
            stop := true;
          }
        }
      case NoAction =>
      case WaitForMerge =>
    }
  }

  /** The loop of processPR over the decided actions. */
  method PerformActions(pr: PullRequest, d: Decision, w: World, task: Task) returns (effects: seq<Effect>)
    requires d.Decided?
    modifies pr`ciTriggeredCommit, pr`lastStartedCIBuilds
    ensures RunResult(effects, Remembers(pr)) == Perform(d.actions, d, w, task, old(Remembers(pr)))
  {
    effects := [];
    for i := 0 to |d.actions|
      invariant Prepend(effects, Perform(d.actions[i..], d, w, task, Remembers(pr))) ==
                Perform(d.actions, d, w, task, old(Remembers(pr)))
    {
      assert d.actions[i..][1..] == d.actions[i + 1..];
      var more, stop := PerformAction(pr, d.actions[i], d, w, task);
      if stop {
        return effects + more;
      }
      PrependTwice(effects, more, Perform(d.actions[i + 1..], d, w, task, Remembers(pr)));
      effects := effects + more;
    }
  }

  /** processPR. */
  method Process(pr: PullRequest, w: World, task: Task) returns (effects: seq<Effect>)
    modifies pr`ciTriggeredCommit, pr`lastStartedCIBuilds
    ensures RunResult(effects, Remembers(pr)) == RunOf(w, task, old(Remembers(pr)))
  {
    effects := [];
    if w.paused {
      return;
    }
    if w.contextOver {
      return;
    }
    if !w.first {
      return;
    }
    var d := EvalPRAction(w, pr.lastStartedCIBuilds);
    if d.EvalFailed? {
      if d.isCancel {
        return;
      }
      var e := ForgetTrigger(pr, w);
      return [e];
    }
    effects := PerformActions(pr, d, w, task);
  }

  // ---------------------------------------------------------------------
  // What the answers come to
  // ---------------------------------------------------------------------

  /** After this event the status is asked for again. */
  predicate ReadyAgain(e: Event<ReadyResponse>) {
    e == TimerFired(ReadyRetryable)
  }

  /** After this event the update is tried again: it failed for now, or is only scheduled. */
  predicate UpdateAgain(e: Event<UpdateResponse>) {
    e == TimerFired(UpdateRetryable) || (e.TimerFired? && e.response.UpdateResult? && e.response.scheduled)
  }

  /** Asking for the status ends with e, after tries that were all repeated. */
  ghost predicate ReadyEnds(trace: seq<Event<ReadyResponse>>, e: Event<ReadyResponse>) {
    !ReadyAgain(e) && exists n: nat :: n < |trace| && trace[n] == e && forall i :: 0 <= i < n ==> ReadyAgain(trace[i])
  }

  ghost predicate ReadyExpires(trace: seq<Event<ReadyResponse>>) {
    ReadyEnds(trace, ContextDone) || forall i :: 0 <= i < |trace| ==> ReadyAgain(trace[i])
  }

  /** Updating ends with e, after tries that were all repeated. */
  ghost predicate UpdateEnds(trace: seq<Event<UpdateResponse>>, e: Event<UpdateResponse>) {
    && !UpdateAgain(e)
    && exists n: nat :: n < |trace| && trace[n] == e && forall i :: 0 <= i < n ==> UpdateAgain(trace[i])
  }

  ghost predicate UpdateExpires(trace: seq<Event<UpdateResponse>>) {
    UpdateEnds(trace, ContextDone) || forall i :: 0 <= i < |trace| ==> UpdateAgain(trace[i])
  }

  /** The branch was up to date all along, with the given head. */
  ghost predicate WasUpToDate(trace: seq<Event<UpdateResponse>>, head: string) {
    exists n: nat ::
      && n < |trace| && trace[n] == TimerFired(UpdateResult(false, false, head))
      && forall i :: 0 <= i < n ==> trace[i] == TimerFired(UpdateRetryable)
  }

  /** The branch is up to date, but something changed it: the last update, or one that was scheduled before. */
  ghost predicate WasChanged(trace: seq<Event<UpdateResponse>>) {
    exists n: nat ::
      && n < |trace| && trace[n].TimerFired? && trace[n].response.UpdateResult? && !trace[n].response.scheduled
      && (forall i :: 0 <= i < n ==> UpdateAgain(trace[i]))
      && (trace[n].response.changed || exists i :: 0 <= i < n && trace[i] != TimerFired(UpdateRetryable))
  }

  lemma ReadyEnding(trace: seq<Event<ReadyResponse>>, e: Event<ReadyResponse>)
    ensures EndsWith(trace, ReadyOutcome, e) <==> ReadyEnds(trace, e)
  {
    assert forall x: Event<ReadyResponse> :: Continues(x, ReadyOutcome) <==> ReadyAgain(x);
    if n: nat :| EndsAt(trace, ReadyOutcome, n, e) {
      assert trace[n] == e && forall i :: 0 <= i < n ==> ReadyAgain(trace[i]);
    }
    if ReadyEnds(trace, e) {
      var n: nat :| n < |trace| && trace[n] == e && forall i :: 0 <= i < n ==> ReadyAgain(trace[i]);
      assert EndsAt(trace, ReadyOutcome, n, e);
    }
  }

  lemma UpdateEnding(trace: seq<Event<UpdateResponse>>, e: Event<UpdateResponse>)
    ensures EndsWith(trace, UpdateOutcome, e) <==> UpdateEnds(trace, e)
  {
    assert forall x: Event<UpdateResponse> :: Continues(x, UpdateOutcome) <==> UpdateAgain(x);
    if n: nat :| EndsAt(trace, UpdateOutcome, n, e) {
      assert trace[n] == e && forall i :: 0 <= i < n ==> UpdateAgain(trace[i]);
    }
    if UpdateEnds(trace, e) {
      var n: nat :| n < |trace| && trace[n] == e && forall i :: 0 <= i < n ==> UpdateAgain(trace[i]);
      assert EndsAt(trace, UpdateOutcome, n, e);
    }
  }

  /** How asking for the status ends, by the answers. */
  lemma ReadyMeaning(trace: seq<Event<ReadyResponse>>)
    ensures var r := ResultOf(trace, ReadyOutcome);
            && (r.Succeeded? ==> r.response.Ready?) && (r.Failed? ==> r.response.ReadyFailed?)
            && (forall status :: r == Succeeded(Ready(status)) <==> ReadyEnds(trace, TimerFired(Ready(status))))
            && (forall c :: r == Failed(ReadyFailed(c)) <==> ReadyEnds(trace, TimerFired(ReadyFailed(c))))
            && (r == Stopped <==> ReadyEnds(trace, Shutdown))
            && (r == ContextEnded <==> ReadyExpires(trace))
  {
    TriesMeaning(trace, ReadyOutcome);
    forall status
      ensures ResultOf(trace, ReadyOutcome) == Succeeded(Ready(status)) <==> ReadyEnds(trace, TimerFired(Ready(status)))
    {
      SuccessMeaning(trace, ReadyOutcome, Ready(status));
      ReadyEnding(trace, TimerFired(Ready(status)));
    }
    forall c
      ensures ResultOf(trace, ReadyOutcome) == Failed(ReadyFailed(c)) <==>
              ReadyEnds(trace, TimerFired(ReadyFailed(c)))
    {
      FailureMeaning(trace, ReadyOutcome, ReadyFailed(c));
      ReadyEnding(trace, TimerFired(ReadyFailed(c)));
    }
    StoppedMeaning(trace, ReadyOutcome);
    ReadyEnding(trace, Shutdown);
    ContextEndedMeaning(trace, ReadyOutcome);
    ReadyEnding(trace, ContextDone);
    assert forall x: Event<ReadyResponse> :: Continues(x, ReadyOutcome) <==> ReadyAgain(x);
  }

  /** How updating ends in an error, by the answers. */
  lemma UpdateFailureMeaning(trace: seq<Event<UpdateResponse>>)
    ensures var end := UpdateEndOf(trace);
            && (end == Closed <==> UpdateEnds(trace, TimerFired(PullRequestClosed)))
            && (end == Conflict <==> UpdateEnds(trace, TimerFired(MergeConflict)))
            && (end == ContextOver <==> UpdateExpires(trace))
            && (end == OtherFailure(true) <==> UpdateEnds(trace, TimerFired(UpdateFailed(true))))
            && (end == OtherFailure(false) <==>
                  || UpdateEnds(trace, TimerFired(UpdateFailed(false))) || UpdateEnds(trace, TimerFired(NilResult))
                  || UpdateEnds(trace, Shutdown))
  {
    TriesMeaning(trace, UpdateOutcome);
    forall r
      ensures ResultOf(trace, UpdateOutcome) == Failed(r) <==>
              UpdateOutcome(r) == GiveUp && UpdateEnds(trace, TimerFired(r))
    {
      FailureMeaning(trace, UpdateOutcome, r);
      UpdateEnding(trace, TimerFired(r));
    }
    StoppedMeaning(trace, UpdateOutcome);
    UpdateEnding(trace, Shutdown);
    ContextEndedMeaning(trace, UpdateOutcome);
    UpdateEnding(trace, ContextDone);
    assert forall x: Event<UpdateResponse> :: Continues(x, UpdateOutcome) <==> UpdateAgain(x);
    hide UpdateEnds;
    hide SomeScheduled;
    hide Tries;
  }

  lemma SucceededUpdate(trace: seq<Event<UpdateResponse>>)
    ensures var r, n := ResultOf(trace, UpdateOutcome), Tries(trace, UpdateOutcome);
            r.Succeeded? <==>
              && n < |trace| && trace[n].TimerFired? && trace[n].response.UpdateResult? && !trace[n].response.scheduled
    ensures var r, n := ResultOf(trace, UpdateOutcome), Tries(trace, UpdateOutcome);
            r.Succeeded? ==> r.response == trace[n].response
    ensures var n := Tries(trace, UpdateOutcome);
            (forall i :: 0 <= i < n ==> UpdateAgain(trace[i])) && (n < |trace| ==> !UpdateAgain(trace[n]))
  {
    TriesMeaning(trace, UpdateOutcome);
    assert forall x: Event<UpdateResponse> :: Continues(x, UpdateOutcome) <==> UpdateAgain(x);
  }

  /** The first event after which the update is not tried again is the one where the tries end. */
  lemma SameEnd(trace: seq<Event<UpdateResponse>>, n: nat)
    requires n < |trace| && !UpdateAgain(trace[n]) && forall i :: 0 <= i < n ==> UpdateAgain(trace[i])
    ensures n == Tries(trace, UpdateOutcome)
  {
    SucceededUpdate(trace);
    var t := Tries(trace, UpdateOutcome);
    assert t >= n;
  }

  lemma ScheduledMeaning(trace: seq<Event<UpdateResponse>>)
    requires ResultOf(trace, UpdateOutcome).Succeeded?
    ensures var n := Tries(trace, UpdateOutcome);
            SomeScheduled(trace) <==> exists i :: 0 <= i < n && trace[i] != TimerFired(UpdateRetryable)
  {
    SucceededUpdate(trace);
    var n := Tries(trace, UpdateOutcome);
    if SomeScheduled(trace) {
      var i: nat :| Attempted(trace, i) && WasScheduled(trace[i].response);
      assert i < n && trace[i] != TimerFired(UpdateRetryable);
    }
    if i :| 0 <= i < n && trace[i] != TimerFired(UpdateRetryable) {
      assert UpdateAgain(trace[i]);
      assert Attempted(trace, i) && WasScheduled(trace[i].response);
    }
  }

  /** How updating ends well, by the answers. */
  lemma UpdatedMeaning(trace: seq<Event<UpdateResponse>>)
    ensures var end := UpdateEndOf(trace);
            && (forall head :: end == Updated(false, head) <==> WasUpToDate(trace, head))
            && (end.Updated? && end.changed <==> WasChanged(trace))
  {
    SucceededUpdate(trace);
    var n := Tries(trace, UpdateOutcome);
    var end := UpdateEndOf(trace);
    if end.Updated? {
      ScheduledMeaning(trace);
      if end.changed {
        assert WasChanged(trace);
      } else {
        assert forall i :: 0 <= i < n ==> trace[i] == TimerFired(UpdateRetryable);
        assert WasUpToDate(trace, end.headCommit);
      }
    }
    hide SomeScheduled;
    hide Tries;
    forall head | WasUpToDate(trace, head)
      ensures end == Updated(false, head)
    {
      var k: nat :| && k < |trace| && trace[k] == TimerFired(UpdateResult(false, false, head))
                    && forall i :: 0 <= i < k ==> trace[i] == TimerFired(UpdateRetryable);
      SameEnd(trace, k);
    }
    if WasChanged(trace) {
      var k: nat :| && k < |trace| && trace[k].TimerFired? && trace[k].response.UpdateResult?
                    && !trace[k].response.scheduled && (forall i :: 0 <= i < k ==> UpdateAgain(trace[i]))
                    && (trace[k].response.changed || exists i :: 0 <= i < k && trace[i] != TimerFired(UpdateRetryable));
      SameEnd(trace, k);
    }
  }

  // ---------------------------------------------------------------------
  // What the decisions come to
  // ---------------------------------------------------------------------

  lemma PerformEnd(actions: seq<Action>, a: Action, d: Decision, w: World, task: Task, m: Memory)
    requires d.Decided? && actions == [a]
    ensures var r := PerformOne(a, d, w, task, m);
            Perform(actions, d, w, task, m) == RunResult(r.effects, r.memory)
  {
    assert actions[1..] == [];
    hide PerformOne;
  }

  lemma PerformTwo(actions: seq<Action>, a: Action, b: Action, d: Decision, w: World, task: Task, m: Memory)
    requires d.Decided? && actions == [a, b] && !PerformOne(a, d, w, task, m).stop
    ensures var r0 := PerformOne(a, d, w, task, m);
            var r1 := PerformOne(b, d, w, task, r0.memory);
            Perform(actions, d, w, task, m) == RunResult(r0.effects + r1.effects, r1.memory)
  {
    hide PerformOne;
    assert actions[1..] == [b];
    PerformEnd([b], b, d, w, task, PerformOne(a, d, w, task, m).memory);
  }

  lemma TriggerPerform(d: Decision, w: World, task: Task, m: Memory)
    requires d.Decided? && d.actions == [AddHeadLabel, TriggerCIJobs, CreateSuccessStatus]
    ensures Perform(d.actions, d, w, task, m) ==
            if !CITriggerNeeded(task, d.headCommit, m.triggeredCommit) then
              RunResult([HeadLabelAdded, SuccessReported(d.headCommit)], m)
            else if w.ciOk then
              RunResult([HeadLabelAdded, CITried(d.headCommit, d.ciJobs, true), SuccessReported(d.headCommit)],
                        Memory(d.headCommit, w.builds))
            else
              RunResult([HeadLabelAdded, CITried(d.headCommit, d.ciJobs, false)], m.(started := w.builds))
  {
    var a := d.actions;
    var rest := a[1..];
    assert rest == [TriggerCIJobs, CreateSuccessStatus] && rest[1..] == [CreateSuccessStatus];
    PerformEnd(rest[1..], CreateSuccessStatus, d, w, task, m);
    PerformEnd(rest[1..], CreateSuccessStatus, d, w, task, Memory(d.headCommit, w.builds));
  }

  function Suspended(w: World, m: Memory): RunResult {
    RunResult([SuspendTried(w.suspendOk)], if w.suspendOk then m.(triggeredCommit := "") else m)
  }

  /** What each of the decisions there are comes to. */
  lemma DecisionRuns(d: Decision, w: World, task: Task, m: Memory)
    requires d.Decided?
    ensures var r := Perform(d.actions, d, w, task, m);
            && (d.actions == [NoAction] ==> r == RunResult([], m))
            && (d.actions == [Suspend] ==> r == Suspended(w, m))
            && (d.actions == [Dequeue] ==> r == RunResult([DequeueTried(w.dequeueOk)], m))
            && (d.actions == [CreateComment, Suspend] ==> r == Prepend([Commented], Suspended(w, m)))
            && (d.actions == [UpdateStateUnchanged] ==> r == RunResult([StateTouched], m))
            && (d.actions == [CreateSuccessStatus, NoAction] ==> r == RunResult([SuccessReported(d.headCommit)], m))
            && (d.actions == [AddHeadLabel, CreateSuccessStatus] ==>
                  r == RunResult([HeadLabelAdded, SuccessReported(d.headCommit)], m))
  {
    if |d.actions| == 1 {
      PerformEnd(d.actions, d.actions[0], d, w, task, m);
    } else if |d.actions| == 2 && !PerformOne(d.actions[0], d, w, task, m).stop {
      PerformTwo(d.actions, d.actions[0], d.actions[1], d, w, task, m);
    }
    hide Perform;
  }

  /** A decision is one of eight. */
  predicate Shaped(actions: seq<Action>) {
    || actions == [NoAction] || actions == [Suspend] || actions == [Dequeue] || actions == [CreateComment, Suspend]
    || actions == [UpdateStateUnchanged] || actions == [CreateSuccessStatus, NoAction]
    || actions == [AddHeadLabel, CreateSuccessStatus] || actions == [AddHeadLabel, TriggerCIJobs, CreateSuccessStatus]
  }

  lemma DecidedShape(w: World, started: map<string, Build>)
    requires Decide(w, started).Decided?
    ensures Shaped(Decide(w, started).actions)
  {
    hide FailedRequiredOf;
    hide ObsoleteOf;
    hide ExpectedJobsOf;
    hide UpdateEndOf;
    hide ResultOf;
  }

  /** The run gets past its checks. */
  predicate Runs(w: World) {
    !w.paused && !w.contextOver && w.first
  }

  /** The decision puts the pull request among the suspended ones, directly or because evaluating failed. */
  predicate LeadsToSuspend(d: Decision) {
    (d.EvalFailed? && !d.isCancel) || (d.Decided? && Suspend in d.actions)
  }

  predicate Decides(d: Decision, a: Action) {
    d.Decided? && a in d.actions
  }

  predicate TriggersNow(d: Decision, task: Task, m: Memory) {
    Decides(d, TriggerCIJobs) && CITriggerNeeded(task, d.headCommit, m.triggeredCommit)
  }

  /** A run has the effect, by what was decided. */
  predicate Follows(e: Effect, d: Decision, w: World, task: Task, m: Memory) {
    match e
    case SuspendTried(ok) => LeadsToSuspend(d) && ok == w.suspendOk
    case DequeueTried(ok) => Decides(d, Dequeue) && ok == w.dequeueOk
    case Commented => Decides(d, CreateComment)
    case StateTouched => Decides(d, UpdateStateUnchanged)
    case HeadLabelAdded => Decides(d, AddHeadLabel)
    case SuccessReported(c) => Decides(d, CreateSuccessStatus) && c == d.headCommit
      && (TriggersNow(d, task, m) ==> w.ciOk)
    case CITried(c, jobs, ok) => TriggersNow(d, task, m) && c == d.headCommit && jobs == d.ciJobs && ok == w.ciOk
  }

  lemma TriggerFollows(d: Decision, w: World, task: Task, m: Memory, e: Effect)
    requires d.Decided? && d.actions == [AddHeadLabel, TriggerCIJobs, CreateSuccessStatus]
    ensures e in Perform(d.actions, d, w, task, m).effects <==> Follows(e, d, w, task, m)
  {
    TriggerPerform(d, w, task, m);
    hide Perform;
    hide CITriggerNeeded;
  }

  lemma PerformFollows(d: Decision, w: World, task: Task, m: Memory, e: Effect)
    requires d.Decided? && Shaped(d.actions)
    ensures e in Perform(d.actions, d, w, task, m).effects <==> Follows(e, d, w, task, m)
  {
    hide Perform;
    hide CITriggerNeeded;
    if TriggerCIJobs in d.actions {
      TriggerFollows(d, w, task, m, e);
      hide Follows;
    } else {
      DecisionRuns(d, w, task, m);
    }
  }

  lemma RunFollows(w: World, task: Task, m: Memory, e: Effect)
    ensures e in RunOf(w, task, m).effects <==> Runs(w) && Follows(e, Decide(w, m.started), w, task, m)
  {
    var d := Decide(w, m.started);
    if !Runs(w) {
      assert RunOf(w, task, m).effects == [];
    } else if d.Decided? {
      DecidedShape(w, m.started);
      hide Decide;
      hide Shaped;
      PerformFollows(d, w, task, m, e);
      hide Follows;
    } else {
      hide Decide;
    }
  }

  // ---------------------------------------------------------------------
  // Exactly when a run does what
  // ---------------------------------------------------------------------

  /** The fetched status says that the pull request is approved. */
  ghost predicate WasApproved(w: World, status: ReadyStatus) {
    ReadyEnds(w.ready, TimerFired(Ready(status))) && status.review == Approved
  }

  /** The fetched status says that it is not. */
  ghost predicate Unapproved(w: World) {
    exists status :: ReadyEnds(w.ready, TimerFired(Ready(status))) && status.review != Approved
  }

  /** The fetches: approved, up to date with the given head without any scheduled update, not stale. */
  ghost predicate Fetched(w: World, status: ReadyStatus, head: string) {
    WasApproved(w, status) && WasUpToDate(w.update, head) && !w.stale
  }

  /** Asking for the status ended in an error that is no cancellation. */
  ghost predicate FetchErred(w: World) {
    || ReadyEnds(w.ready, TimerFired(ReadyFailed(false))) || ReadyEnds(w.ready, Shutdown)
    || (ReadyExpires(w.ready) && !w.cancelled)
  }

  /** So did the update, other than with a closed pull request or a merge conflict. */
  ghost predicate UpdateErred(w: World) {
    || UpdateEnds(w.update, TimerFired(UpdateFailed(false))) || UpdateEnds(w.update, TimerFired(NilResult))
    || UpdateEnds(w.update, Shutdown) || (UpdateExpires(w.update) && !w.cancelled)
  }

  predicate RequiredFailed(s: CIStatus.JobStatus) {
    s.required && s.status == CIStatus.Failure
  }

  /** CI failed for no required status, or for one that no later build has superseded. */
  ghost predicate CIGaveUp(statuses: seq<CIStatus.JobStatus>, parse: map<string, Build>, started: map<string, Build>) {
    || (forall s :: s in statuses ==> !RequiredFailed(s))
    || (exists s :: s in statuses && RequiredFailed(s) && !Superseded(s, parse, started))
  }

  /** An approved and fresh pull request that is up to date cannot go on with this CI status. */
  ghost predicate CIStops(status: ReadyStatus, parse: map<string, Build>, started: map<string, Build>) {
    status.ci.Unexpected? || (status.ci == Known(CIStatus.Failure) && CIGaveUp(status.statuses, parse, started))
  }

  /** What makes a run suspend the pull request. */
  ghost predicate MustSuspend(w: World, started: map<string, Build>) {
    || FetchErred(w)
    || Unapproved(w)
    || (exists status :: WasApproved(w, status) && (UpdateEnds(w.update, TimerFired(MergeConflict)) || UpdateErred(w)))
    || (exists status, head :: WasApproved(w, status) && WasUpToDate(w.update, head)
                               && (w.stale || CIStops(status, w.parse, started)))
  }

  lemma CIGaveUpMeaning(statuses: seq<CIStatus.JobStatus>, parse: map<string, Build>, started: map<string, Build>)
    ensures var failed := FailedRequiredOf(statuses);
            CIGaveUp(statuses, parse, started) <==> failed == [] || ObsoleteOf(failed, parse, started) != AllObsolete
  {
    var failed := FailedRequiredOf(statuses);
    FailedRequiredMembers(statuses);
    ObsoleteExactly(failed, parse, started);
    if failed != [] {
      assert failed[0] in failed;
    }
    hide FailedRequiredOf;
    hide ObsoleteOf;
    hide Superseded;
  }

  lemma CIStopsMeaning(status: ReadyStatus, head: string, parse: map<string, Build>, started: map<string, Build>)
    ensures LeadsToSuspend(DecideByCI(status, head, parse, started)) <==> CIStops(status, parse, started)
  {
    CIGaveUpMeaning(status.statuses, parse, started);
    hide FailedRequiredOf;
    hide ObsoleteOf;
    hide ExpectedJobsOf;
    hide CIGaveUp;
  }

  /** The fetches, by what the retry loops return. */
  lemma FetchMeaning(w: World)
    ensures var got, end := ResultOf(w.ready, ReadyOutcome), UpdateEndOf(w.update);
            && (got.Succeeded? ==> got.response.Ready?) && (got.Failed? ==> got.response.ReadyFailed?)
            && (forall status :: WasApproved(w, status) <==>
                got == Succeeded(Ready(status)) && status.review == Approved)
            && (Unapproved(w) <==> got.Succeeded? && got.response.status.review != Approved)
            && (FetchErred(w) <==>
                  got == Failed(ReadyFailed(false)) || got == Stopped || (got == ContextEnded && !w.cancelled))
            && (UpdateErred(w) <==> end == OtherFailure(false) || (end == ContextOver && !w.cancelled))
  {
    ReadyMeaning(w.ready);
    UpdateFailureMeaning(w.update);
    var got := ResultOf(w.ready, ReadyOutcome);
    hide ResultOf;
    hide UpdateEndOf;
    if got.Succeeded? {
      assert ReadyEnds(w.ready, TimerFired(Ready(got.response.status)));
    }
  }

  /** The decision leads to a suspend exactly where a run must. */
  lemma DecidesToSuspend(w: World, started: map<string, Build>)
    ensures LeadsToSuspend(Decide(w, started)) <==> MustSuspend(w, started)
  {
    FetchMeaning(w);
    UpdateFailureMeaning(w.update);
    UpdatedMeaning(w.update);
    var got, end := ResultOf(w.ready, ReadyOutcome), UpdateEndOf(w.update);
    hide ReadyEnds;
    hide UpdateEnds;
    hide UpdateExpires;
    hide WasUpToDate;
    hide WasChanged;
    hide WasApproved;
    hide Unapproved;
    hide FetchErred;
    hide UpdateErred;
    hide UpdateEndOf;
    hide ResultOf;
    if got.Succeeded? {
      var status := got.response.status;
      assert status.review == Approved ==> WasApproved(w, status);
      if end.Updated? {
        CIStopsMeaning(status, end.headCommit, w.parse, started);
        assert !end.changed ==> WasUpToDate(w.update, end.headCommit);
      }
    }
    hide DecideByCI;
    hide CIStops;
  }

  /**
   A run suspends the pull request exactly when it must: the review does not
   approve it, its update meets a conflict, it is stale, CI gave up, or something
   fails that is no cancellation.
   */
  lemma SuspendExactly(w: World, task: Task, m: Memory, ok: bool)
    ensures SuspendTried(ok) in RunOf(w, task, m).effects <==>
            Runs(w) && MustSuspend(w, m.started) && ok == w.suspendOk
  {
    hide MustSuspend;
    hide RunOf;
    hide Decide;
    RunFollows(w, task, m, SuspendTried(ok));
    DecidesToSuspend(w, m.started);
  }

  /** A decision contains what only an approved pull request can lead to. */
  lemma DecidesApproved(w: World, started: map<string, Build>)
    ensures var d := Decide(w, started);
            && (Decides(d, Dequeue) <==>
                  exists status :: WasApproved(w, status) && UpdateEnds(w.update, TimerFired(PullRequestClosed)))
            && (Decides(d, CreateComment) <==>
                  exists status :: WasApproved(w, status) && UpdateEnds(w.update, TimerFired(MergeConflict)))
            && (Decides(d, CreateComment) ==> d.actions == [CreateComment, Suspend])
            && (Decides(d, UpdateStateUnchanged) <==>
                  exists status :: WasApproved(w, status) && WasChanged(w.update))
  {
    FetchMeaning(w);
    UpdateFailureMeaning(w.update);
    UpdatedMeaning(w.update);
    var got, end := ResultOf(w.ready, ReadyOutcome), UpdateEndOf(w.update);
    hide ReadyEnds;
    hide UpdateEnds;
    hide UpdateExpires;
    hide WasUpToDate;
    hide WasChanged;
    hide WasApproved;
    hide FailedRequiredOf;
    hide ObsoleteOf;
    hide ExpectedJobsOf;
    hide UpdateEndOf;
    hide ResultOf;
    if got.Succeeded? {
      assert got.response.status.review == Approved ==> WasApproved(w, got.response.status);
      assert end.Updated? && !end.changed ==> WasUpToDate(w.update, end.headCommit);
    }
  }

  /**
   A run tries to dequeue exactly when the approved pull request turns
   out to be closed in the update of its branch.
   */
  lemma DequeueExactly(w: World, task: Task, m: Memory, ok: bool)
    ensures DequeueTried(ok) in RunOf(w, task, m).effects <==>
            && Runs(w) && ok == w.dequeueOk
            && exists status :: WasApproved(w, status) && UpdateEnds(w.update, TimerFired(PullRequestClosed))
  {
    hide WasApproved;
    hide RunOf;
    hide Decide;
    RunFollows(w, task, m, DequeueTried(ok));
    DecidesApproved(w, m.started);
  }

  /**
   It comments exactly when that update ended in a merge conflict, and then
   suspends the pull request and does nothing else.
   */
  lemma ConflictExactly(w: World, task: Task, m: Memory)
    ensures Commented in RunOf(w, task, m).effects <==>
            && Runs(w)
            && exists status :: WasApproved(w, status) && UpdateEnds(w.update, TimerFired(MergeConflict))
    ensures Commented in RunOf(w, task, m).effects ==>
            RunOf(w, task, m).effects == [Commented, SuspendTried(w.suspendOk)]
  {
    hide WasApproved;
    hide Decide;
    var d := Decide(w, m.started);
    RunFollows(w, task, m, Commented);
    DecidesApproved(w, m.started);
    if Decides(d, CreateComment) {
      DecisionRuns(d, w, task, m);
    }
  }

  /** It takes the branch as changed exactly when an update of the approved pull request changed it. */
  lemma ChangeExactly(w: World, task: Task, m: Memory)
    ensures StateTouched in RunOf(w, task, m).effects <==>
            Runs(w) && exists status :: WasApproved(w, status) && WasChanged(w.update)
  {
    hide WasApproved;
    hide RunOf;
    hide Decide;
    RunFollows(w, task, m, StateTouched);
    DecidesApproved(w, m.started);
  }

  /** What is decided for an approved, fresh pull request whose branch is up to date. */
  lemma DecidesByCI(w: World, started: map<string, Build>, a: Action)
    requires a == CreateSuccessStatus || a == AddHeadLabel || a == TriggerCIJobs
    ensures var d := Decide(w, started);
            && (Decides(d, a) <==> exists status, head :: Fetched(w, status, head) && CalledFor(status.ci, a))
            && (forall status, head :: Fetched(w, status, head) && Decides(d, a) ==> d.headCommit == head)
            && (forall status, head :: Fetched(w, status, head) && Decides(d, TriggerCIJobs) ==>
                  d.ciJobs == ExpectedJobsOf(status.statuses))
            && (forall status, head, other, h :: Fetched(w, status, head) && Fetched(w, other, h) ==>
                  status == other && head == h)
  {
    FetchMeaning(w);
    UpdateFailureMeaning(w.update);
    UpdatedMeaning(w.update);
    var got, end := ResultOf(w.ready, ReadyOutcome), UpdateEndOf(w.update);
    hide ReadyEnds;
    hide UpdateEnds;
    hide UpdateExpires;
    hide WasUpToDate;
    hide WasChanged;
    hide WasApproved;
    hide FailedRequiredOf;
    hide ObsoleteOf;
    hide ExpectedJobsOf;
    hide UpdateEndOf;
    hide ResultOf;
    if got.Succeeded? {
      assert got.response.status.review == Approved ==> WasApproved(w, got.response.status);
      assert end.Updated? && !end.changed ==> WasUpToDate(w.update, end.headCommit);
      assert got.response.status.review == Approved && end.Updated? && !end.changed && !w.stale ==>
          Fetched(w, got.response.status, end.headCommit);
    }
  }

  /** For which CI status an action is called for. */
  predicate CalledFor(ci: CIValue, a: Action) {
    match a
    case CreateSuccessStatus => ci in [Known(CIStatus.Success), Known(CIStatus.Pending), Known(CIStatus.Expected)]
    case AddHeadLabel => ci in [Known(CIStatus.Pending), Known(CIStatus.Expected)]
    case TriggerCIJobs => ci == Known(CIStatus.Expected)
    case _ => false
  }

  /** CI allows the report: it succeeded or runs, or was expected and could be triggered if that was needed. */
  predicate CIAllows(w: World, task: Task, m: Memory, status: ReadyStatus, head: string) {
    && CalledFor(status.ci, CreateSuccessStatus)
    && (status.ci == Known(CIStatus.Expected) && CITriggerNeeded(task, head, m.triggeredCommit) ==> w.ciOk)
  }

  /**
   A run reports success for commit c exactly when the pull request was first and
   approved, no update attempt in the retry loop was scheduled, the last attempt
   returned unchanged with head c, the pull request was not stale, and CI did not
   stand in the way.
   */
  lemma SuccessGating(w: World, task: Task, m: Memory, c: string)
    ensures SuccessReported(c) in RunOf(w, task, m).effects <==>
            Runs(w) && exists status :: Fetched(w, status, c) && CIAllows(w, task, m, status, c)
  {
    RunFollows(w, task, m, SuccessReported(c));
    DecidesByCI(w, m.started, CreateSuccessStatus);
    DecidesByCI(w, m.started, TriggerCIJobs);
    hide RunOf;
    hide Decide;
    hide Fetched;
    hide CITriggerNeeded;
  }

  /** It adds the head label exactly to such a pull request whose CI runs or is to be started. */
  lemma HeadLabelExactly(w: World, task: Task, m: Memory)
    ensures HeadLabelAdded in RunOf(w, task, m).effects <==>
            && Runs(w)
            && exists status, head ::
                 Fetched(w, status, head) && status.ci in [Known(CIStatus.Pending), Known(CIStatus.Expected)]
  {
    RunFollows(w, task, m, HeadLabelAdded);
    DecidesByCI(w, m.started, AddHeadLabel);
    hide RunOf;
    hide Decide;
    hide Fetched;
  }

  /** CI is to be triggered for the head: it is another than the last one, or it is unknown and the task asks for it. */
  predicate CIDue(task: Task, head: string, triggeredCommit: string) {
    || (head != "" && head != triggeredCommit)
    || (head == "" && task == TaskTriggerCI)
  }

  /**
   It triggers CI exactly for such a pull request whose CI is expected, when that is
   due: for its head, and for the jobs that are expected.
   */
  lemma CITriggerExactly(w: World, task: Task, m: Memory, c: string, jobs: seq<string>, ok: bool)
    ensures CITried(c, jobs, ok) in RunOf(w, task, m).effects <==>
            && Runs(w) && ok == w.ciOk && CIDue(task, c, m.triggeredCommit)
            && exists status ::
                 Fetched(w, status, c) && status.ci == Known(CIStatus.Expected)
                   && jobs == ExpectedJobsOf(status.statuses)
  {
    RunFollows(w, task, m, CITried(c, jobs, ok));
    DecidesByCI(w, m.started, TriggerCIJobs);
    hide RunOf;
    hide Decide;
    hide Fetched;
    hide ExpectedJobsOf;
  }

  // ---------------------------------------------------------------------
  // Nothing after the cancellation
  // ---------------------------------------------------------------------

  /** suspend and Dequeue cancel the context of the run. */
  predicate Cancels(e: Effect) {
    e.SuspendTried? || e.DequeueTried?
  }

  /** In every run nothing follows a suspend or a Dequeue, least of all an API call under the cancelled context. */
  lemma NothingAfterCancel(w: World, task: Task, m: Memory, i: nat)
    requires i < |RunOf(w, task, m).effects|
    ensures Cancels(RunOf(w, task, m).effects[i]) ==> i == |RunOf(w, task, m).effects| - 1
  {
    var d := Decide(w, m.started);
    if d.Decided? && Runs(w) {
      DecidedShape(w, m.started);
      if TriggerCIJobs in d.actions {
        TriggerPerform(d, w, task, m);
      } else {
        DecisionRuns(d, w, task, m);
      }
      hide Perform;
      hide CITriggerNeeded;
    }
    hide Decide;
  }

  /** CI is tried before success is reported, and the label is asked for before both. */
  lemma LabelThenCIThenReport(w: World, task: Task, m: Memory, i: nat, j: nat)
    requires i < j < |RunOf(w, task, m).effects|
    ensures var effects := RunOf(w, task, m).effects;
            !effects[j].HeadLabelAdded? && !effects[i].SuccessReported? && !(effects[i].CITried? && effects[j].CITried?)
  {
    var d := Decide(w, m.started);
    if d.Decided? {
      DecidedShape(w, m.started);
      if TriggerCIJobs in d.actions {
        TriggerPerform(d, w, task, m);
      } else {
        DecisionRuns(d, w, task, m);
      }
      hide Perform;
      hide CITriggerNeeded;
    }
    hide Decide;
  }

  // ---------------------------------------------------------------------
  // CI once per head commit
  // ---------------------------------------------------------------------

  ghost predicate HasTrigger(effects: seq<Effect>, c: string) {
    exists e :: e in effects && e.CITried? && e.ok && e.commit == c
  }

  /** The run triggers CI successfully for commit c. */
  ghost predicate Triggers(w: World, task: Task, m: Memory, c: string) {
    HasTrigger(RunOf(w, task, m).effects, c)
  }

  /** The run suspends the pull request, or triggers CI successfully for another commit than c. */
  ghost predicate Separates(w: World, task: Task, m: Memory, c: string) {
    || SuspendTried(true) in RunOf(w, task, m).effects
    || exists other :: other != c && Triggers(w, task, m, other)
  }

  /** What a run leaves behind, by what was decided. */
  lemma RunRemembers(w: World, task: Task, m: Memory)
    ensures var d := Decide(w, m.started);
            RunOf(w, task, m).memory ==
              if Runs(w) && LeadsToSuspend(d) && w.suspendOk then m.(triggeredCommit := "")
              else if Runs(w) && TriggersNow(d, task, m) then
                if w.ciOk then Memory(d.headCommit, w.builds) else m.(started := w.builds)
              else m
  {
    var d := Decide(w, m.started);
    if d.Decided? && Runs(w) {
      DecidedShape(w, m.started);
      if TriggerCIJobs in d.actions {
        TriggerPerform(d, w, task, m);
      } else {
        DecisionRuns(d, w, task, m);
      }
    }
    hide Perform;
    hide Decide;
    hide CITriggerNeeded;
  }

  /** The run has triggered CI, or tried to. */
  ghost predicate TriedCI(effects: seq<Effect>) {
    exists e :: e in effects && e.CITried?
  }

  lemma TriesFollow(w: World, task: Task, m: Memory)
    ensures var effects, d := RunOf(w, task, m).effects, Decide(w, m.started);
            && (TriedCI(effects) <==> Runs(w) && TriggersNow(d, task, m))
            && (forall c :: HasTrigger(effects, c) <==> TriedCI(effects) && w.ciOk && c == d.headCommit)
  {
    var effects, d := RunOf(w, task, m).effects, Decide(w, m.started);
    hide RunOf;
    hide Decide;
    if Runs(w) && TriggersNow(d, task, m) {
      RunFollows(w, task, m, CITried(d.headCommit, d.ciJobs, w.ciOk));
      assert CITried(d.headCommit, d.ciJobs, w.ciOk) in effects;
    }
    forall e | e in effects && e.CITried?
      ensures Runs(w) && TriggersNow(d, task, m) && e.commit == d.headCommit && e.ok == w.ciOk
    {
      RunFollows(w, task, m, e);
    }
  }

  /**
   What a run leaves behind: a suspend forgets the commit, a successful trigger
   remembers its own, which is a new one if it is known, and what CI has started is
   remembered whenever it was tried.
   */
  lemma RunMemory(w: World, task: Task, m: Memory)
    ensures var r := RunOf(w, task, m);
            && (forall c :: HasTrigger(r.effects, c) ==>
                r.memory.triggeredCommit == c && (c != "" ==> m.triggeredCommit != c))
            && (SuspendTried(true) in r.effects ==> r.memory.triggeredCommit == "")
            && (SuspendTried(true) !in r.effects && (forall c :: !HasTrigger(r.effects, c)) ==>
                  r.memory.triggeredCommit == m.triggeredCommit)
            && r.memory.started == if TriedCI(r.effects) then w.builds else m.started
  {
    RunRemembers(w, task, m);
    TriesFollow(w, task, m);
    RunFollows(w, task, m, SuspendTried(true));
    var effects, d := RunOf(w, task, m).effects, Decide(w, m.started);
    SuspendsOrTriggers(w, m.started);
    assert TriedCI(effects) && w.ciOk ==> HasTrigger(effects, d.headCommit);
    hide RunOf;
    hide Decide;
    hide HasTrigger;
    hide TriedCI;
  }

  lemma SuspendsOrTriggers(w: World, started: map<string, Build>)
    ensures !(LeadsToSuspend(Decide(w, started)) && Decides(Decide(w, started), TriggerCIJobs))
  {
    if Decide(w, started).Decided? {
      DecidedShape(w, started);
    }
    hide Decide;
  }

  /** A sequence of runs for one pull request: run i finds the memory that run i - 1 left. */
  ghost predicate IsHistory(ws: seq<World>, tasks: seq<Task>, ms: seq<Memory>) {
    && |tasks| == |ws| && |ms| == |ws| + 1
    && forall i {:trigger ws[i]} :: 0 <= i < |ws| ==> ms[i + 1] == RunOf(ws[i], tasks[i], ms[i]).memory
  }

  lemma RememberedThrough(w: World, task: Task, m: Memory)
    requires !Separates(w, task, m, m.triggeredCommit)
    ensures RunOf(w, task, m).memory.triggeredCommit == m.triggeredCommit
  {
    RunMemory(w, task, m);
    var after := RunOf(w, task, m).memory.triggeredCommit;
    assert after != m.triggeredCommit ==> !Triggers(w, task, m, after);
  }

  lemma TriggerRemembered(w: World, task: Task, m: Memory, c: string)
    requires Triggers(w, task, m, c)
    ensures RunOf(w, task, m).memory.triggeredCommit == c
  {
    RunMemory(w, task, m);
  }

  lemma {:induction false} CommitRemembered(ws: seq<World>, tasks: seq<Task>, ms: seq<Memory>, i: nat, k: nat,
                                            c: string)
    requires IsHistory(ws, tasks, ms) && i < k <= |ws| && Triggers(ws[i], tasks[i], ms[i], c)
    requires forall n :: i < n < k ==> !Separates(ws[n], tasks[n], ms[n], c)
    ensures ms[k].triggeredCommit == c
  {
    hide RunOf;
    hide Triggers;
    hide Separates;
    if k == i + 1 {
      TriggerRemembered(ws[i], tasks[i], ms[i], c);
    } else {
      CommitRemembered(ws, tasks, ms, i, k - 1, c);
      RememberedThrough(ws[k - 1], tasks[k - 1], ms[k - 1]);
    }
  }

  /**
   CI is triggered once per head: between two successful triggers for the same
   known commit the pull request was suspended, or CI was triggered for another.
   */
  lemma CIOncePerHead(ws: seq<World>, tasks: seq<Task>, ms: seq<Memory>, i: nat, j: nat, c: string)
    requires |tasks| == |ws| && |ms| == |ws| + 1 && i < j < |ws| && c != ""
    ensures IsHistory(ws, tasks, ms) && Triggers(ws[i], tasks[i], ms[i], c) && Triggers(ws[j], tasks[j], ms[j], c) ==>
      exists k :: i < k < j && Separates(ws[k], tasks[k], ms[k], c)
  {
    if && IsHistory(ws, tasks, ms) && Triggers(ws[i], tasks[i], ms[i], c) && Triggers(ws[j], tasks[j], ms[j], c)
       && forall k :: i < k < j ==> !Separates(ws[k], tasks[k], ms[k], c)
    {
      CommitRemembered(ws, tasks, ms, i, j, c);
      RunMemory(ws[j], tasks[j], ms[j]);
    }
  }

  // ---------------------------------------------------------------------
  // The order of the statuses
  // ---------------------------------------------------------------------

  /**
   The statuses come out of a hash map in any order.  Whether the pull request is
   suspended and which jobs are triggered does not depend on it, although which
   of an error and a negative answer is found first does.
   */
  lemma StatusOrderIrrelevant(ready: ReadyStatus, other: seq<CIStatus.JobStatus>, head: string,
                              parse: map<string, Build>, started: map<string, Build>)
    requires forall s :: s in ready.statuses <==> s in other
    ensures var d, e := DecideByCI(ready, head, parse, started),
                        DecideByCI(ready.(statuses := other), head, parse, started);
            && (LeadsToSuspend(d) <==> LeadsToSuspend(e))
            && (d.Decided? && e.Decided? ==>
                  d.actions == e.actions && forall name :: name in d.ciJobs <==> name in e.ciJobs)
  {
    FailedOrderIrrelevant(ready.statuses, other, parse, started);
    JobsOrderIrrelevant(ready.statuses, other);
    hide FailedRequiredOf;
    hide ObsoleteOf;
    hide ExpectedJobsOf;
  }

  lemma JobsOrderIrrelevant(one: seq<CIStatus.JobStatus>, other: seq<CIStatus.JobStatus>)
    requires forall s :: s in one <==> s in other
    ensures forall name :: name in ExpectedJobsOf(one) <==> name in ExpectedJobsOf(other)
  {
    ExpectedJobsMembers(one);
    ExpectedJobsMembers(other);
    hide ExpectedJobsOf;
  }

  lemma FailedOrderIrrelevant(one: seq<CIStatus.JobStatus>, other: seq<CIStatus.JobStatus>, parse: map<string, Build>,
                              started: map<string, Build>)
    requires forall s :: s in one <==> s in other
    ensures FailedRequiredOf(one) == [] <==> FailedRequiredOf(other) == []
    ensures ObsoleteOf(FailedRequiredOf(one), parse, started) == AllObsolete <==>
            ObsoleteOf(FailedRequiredOf(other), parse, started) == AllObsolete
  {
    FailedRequiredMembers(one);
    FailedRequiredMembers(other);
    var f, g := FailedRequiredOf(one), FailedRequiredOf(other);
    ObsoleteExactly(f, parse, started);
    ObsoleteExactly(g, parse, started);
    assert f != [] ==> f[0] in g;
    assert g != [] ==> g[0] in f;
  }
}
