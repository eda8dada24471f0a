/**
 How the check runs and commit statuses of a pull request become one CI status.

 The statuses are collected in a hash map and come out of it in no particular
 order; everything here holds for every order.
 */
module CIStatus {

  datatype Result<T> = Ok(value: T) | Err(error: string)

  /** The status of a job, and of the whole pull request. */
  datatype Status = Expected | Pending | Success | Failure

  /** GitHub's state of a check run. */
  datatype CheckState =
    | InProgress | CheckPending | Queued | Requested | Waiting | Completed
    | OtherCheckState(name: string)

  datatype Conclusion =
    | ActionRequired | ConclusionCancelled | ConclusionFailure | Neutral | Skipped | Stale | StartupFailure
    | ConclusionSuccess | TimedOut | OtherConclusion(name: string)

  /** GitHub's state of a commit status and of the status check rollup. */
  datatype StatusState =
    | StateError | StateExpected | StateFailure | StatePending | StateSuccess
    | OtherState(name: string)

  datatype CheckRun = CheckRun(name: string, status: CheckState, conclusion: Conclusion, detailsURL: string)

  datatype StatusContext = StatusContext(context: string, state: StatusState, targetURL: string)

  datatype JobStatus = JobStatus(name: string, status: Status, required: bool, jobURL: string)

  function ConclusionStatus(c: Conclusion): Result<Status> {
    match c
    case ConclusionCancelled | ConclusionFailure | Stale | StartupFailure | TimedOut => Ok(Failure)
    case ActionRequired => Ok(Pending)
    case Neutral | Skipped | ConclusionSuccess => Ok(Success)
    case OtherConclusion(name) => Err("unsupported conclusion value: " + name)
  }

  function CheckRunStatus(s: CheckState, c: Conclusion): Result<Status> {
    match s
    case InProgress | CheckPending | Queued | Requested | Waiting => Ok(Pending)
    case Completed => ConclusionStatus(c)
    case OtherCheckState(name) => Err("unsupported status value: " + name)
  }

  function ContextStatus(s: StatusState): Result<Status> {
    match s
    case StateError | StateFailure => Ok(Failure)
    case StateExpected => Ok(Expected)
    case StatePending => Ok(Pending)
    case StateSuccess => Ok(Success)
    case OtherState(name) => Err("unsupported status state value: " + name)
  }

  // ---------------------------------------------------------------------
  // Collecting
  // ---------------------------------------------------------------------

  /** What a check run or a commit status reports for its name; check runs are written first. */
  datatype Report = Report(name: string, status: Result<Status>, url: string)

  function Reports(runs: seq<CheckRun>, contexts: seq<StatusContext>): (r: seq<Report>)
    ensures |r| == |runs| + |contexts|
  {
    seq(|runs|, i requires 0 <= i < |runs| =>
      Report(runs[i].name, CheckRunStatus(runs[i].status, runs[i].conclusion), runs[i].detailsURL)) +
    seq(|contexts|, i requires 0 <= i < |contexts| =>
      Report(contexts[i].context, ContextStatus(contexts[i].state), contexts[i].targetURL))
  }

  predicate Unique(names: seq<string>) {
    forall i, j :: 0 <= i < j < |names| ==> names[i] != names[j]
  }

  predicate AllConvert(reports: seq<Report>) {
    forall i :: 0 <= i < |reports| ==> reports[i].status.Ok?
  }

  /** The last report for a name, if there is one. */
  ghost predicate LastFor(reports: seq<Report>, name: string, i: nat) {
    i < |reports| && reports[i].name == name && forall j :: i < j < |reports| ==> reports[j].name != name
  }

  ghost predicate Mentioned(reports: seq<Report>, name: string) {
    exists i :: 0 <= i < |reports| && reports[i].name == name
  }

  /** The map holds, for every name, what its last report says; required names without one are expected. */
  ghost predicate Collected(m: map<string, JobStatus>, required: seq<string>, reports: seq<Report>)
    requires AllConvert(reports)
  {
    && (forall name :: name in m <==> name in required || Mentioned(reports, name))
    && (forall name :: name in m ==> m[name].name == name && (m[name].required <==> name in required))
    && (forall name, i: nat :: name in m && LastFor(reports, name, i) ==>
          m[name].status == reports[i].status.value && m[name].jobURL == reports[i].url)
    && (forall name :: name in m && !Mentioned(reports, name) ==>
          m[name].status == Expected && m[name].jobURL == "")
  }

  lemma CollectedExtends(m: map<string, JobStatus>, required: seq<string>, reports: seq<Report>, r: Report,
                         e: JobStatus)
    requires AllConvert(reports) && r.status.Ok? && Collected(m, required, reports)
    requires e == JobStatus(r.name, r.status.value, r.name in required, r.url)
    ensures AllConvert(reports + [r]) && Collected(m[r.name := e], required, reports + [r])
  {
    var all := reports + [r];
    assert all[|reports|] == r;
    forall name
      ensures Mentioned(all, name) <==> Mentioned(reports, name) || name == r.name
    {
      if Mentioned(reports, name) {
        var i :| 0 <= i < |reports| && reports[i].name == name;
        assert all[i].name == name;
      }
    }
    forall name, i: nat | LastFor(all, name, i)
      ensures if name == r.name then i == |reports| else LastFor(reports, name, i)
    {
      assert forall j :: i < j < |all| ==> all[j].name != name;
      if name != r.name {
        assert forall j :: i < j < |reports| ==> reports[j].name == all[j].name;
      }
    }
  }

  /** Writes what a report says over the entry of its name, or adds an entry that is not required. */
  method Overwrite(m: map<string, JobStatus>, name: string, status: Status, url: string, ghost required: seq<string>,
                   ghost reports: seq<Report>)
    returns (r: map<string, JobStatus>)
    requires AllConvert(reports) && Collected(m, required, reports)
    ensures AllConvert(reports + [Report(name, Ok(status), url)])
    ensures Collected(r, required, reports + [Report(name, Ok(status), url)])
  {
    CollectedExtends(m, required, reports, Report(name, Ok(status), url),
                     JobStatus(name, status, name in required, url));
    if name in m {
      r := m[name := m[name].(status := status, jobURL := url)];
    } else {
      r := m[name := JobStatus(name, status, false, url)];
    }
  }

  /** Every required context starts out as expected. */
  method ExpectRequired(required: seq<string>) returns (r: Result<map<string, JobStatus>>)
    ensures r.Ok? <==> Unique(required)
    ensures r.Ok? ==> Collected(r.value, required, [])
  {
    var m: map<string, JobStatus> := map[];
    for i := 0 to |required|
      invariant Unique(required[..i])
      invariant Collected(m, required[..i], [])
    {
      if required[i] in m {
        assert !Unique(required);
        return Err("found 2 required status with the same context values: " + required[i]);
      }
      m := m[required[i] := JobStatus(required[i], Expected, true, "")];
      assert required[..i + 1] == required[..i] + [required[i]];
    }
    assert required[..|required|] == required;
    r := Ok(m);
  }

  method AddCheckRuns(start: map<string, JobStatus>, runs: seq<CheckRun>, ghost required: seq<string>)
    returns (r: Result<map<string, JobStatus>>)
    requires Collected(start, required, [])
    ensures r.Ok? <==> AllConvert(Reports(runs, []))
    ensures r.Ok? ==> Collected(r.value, required, Reports(runs, []))
  {
    var m := start;
    ghost var all := Reports(runs, []);
    for i := 0 to |runs|
      invariant AllConvert(all[..i]) && Collected(m, required, all[..i])
    {
      var status := CheckRunStatus(runs[i].status, runs[i].conclusion);
      assert all[i] == Report(runs[i].name, status, runs[i].detailsURL);
      if status.Err? {
        return Err("converting checkRun failed: " + status.error);
      }
      m := Overwrite(m, runs[i].name, status.value, runs[i].detailsURL, required, all[..i]);
      assert all[..i + 1] == all[..i] + [all[i]];
    }
    assert all[..|all|] == all;
    r := Ok(m);
  }

  method AddContexts(start: map<string, JobStatus>, contexts: seq<StatusContext>, ghost required: seq<string>,
                     ghost runs: seq<CheckRun>)
    returns (r: Result<map<string, JobStatus>>)
    requires AllConvert(Reports(runs, [])) && Collected(start, required, Reports(runs, []))
    ensures r.Ok? <==> AllConvert(Reports(runs, contexts))
    ensures r.Ok? ==> Collected(r.value, required, Reports(runs, contexts))
  {
    var m := start;
    ghost var all, n := Reports(runs, contexts), |runs|;
    assert all[..n] == Reports(runs, []);
    for i := 0 to |contexts|
      invariant AllConvert(all[..n + i]) && Collected(m, required, all[..n + i])
    {
      var status := ContextStatus(contexts[i].state);
      assert all[n + i] == Report(contexts[i].context, status, contexts[i].targetURL);
      if status.Err? {
        return Err("converting status context failed: " + status.error);
      }
      m := Overwrite(m, contexts[i].context, status.value, contexts[i].targetURL, required, all[..n + i]);
      assert all[..n + i + 1] == all[..n + i] + [all[n + i]];
    }
    assert all[..|all|] == all;
    r := Ok(m);
  }

  lemma ConvertBoth(runs: seq<CheckRun>, contexts: seq<StatusContext>)
    requires AllConvert(Reports(runs, contexts))
    ensures AllConvert(Reports(runs, []))
  {
    assert forall i :: 0 <= i < |runs| ==> Reports(runs, [])[i] == Reports(runs, contexts)[i];
  }

  /** s lists the values of m, each key once, in whatever order the map was iterated. */
  ghost predicate Listing(s: seq<JobStatus>, m: map<string, JobStatus>) {
    && (forall i :: 0 <= i < |s| ==> s[i].name in m && m[s[i].name] == s[i])
    && (forall i, j :: 0 <= i < j < |s| ==> s[i].name != s[j].name)
    && (forall name :: name in m ==> m[name] in s)
  }

  /** toCIJobStatuses. */
  method ToJobStatuses(required: seq<string>, runs: seq<CheckRun>, contexts: seq<StatusContext>)
    returns (r: Result<seq<JobStatus>>, ghost m: map<string, JobStatus>)
    ensures r.Ok? <==> Unique(required) && AllConvert(Reports(runs, contexts))
    ensures r.Ok? ==> Collected(m, required, Reports(runs, contexts)) && Listing(r.value, m)
  {
    m := map[];
    var expected := ExpectRequired(required);
    if expected.Err? {
      return Err(expected.error), m;
    }
    var withRuns := AddCheckRuns(expected.value, runs, required);
    if withRuns.Err? {
      if AllConvert(Reports(runs, contexts)) {
        ConvertBoth(runs, contexts);
      }
      return Err(withRuns.error), m;
    }
    var collected := AddContexts(withRuns.value, contexts, required, runs);
    if collected.Err? {
      return Err(collected.error), m;
    }
    m := collected.value;
    var list := ListValues(collected.value);
    r := Ok(list);
  }

  method ListValues(m: map<string, JobStatus>) returns (s: seq<JobStatus>)
    requires forall name :: name in m ==> m[name].name == name
    ensures Listing(s, m)
  {
    s := [];
    var left := m.Keys;
    while left != {}
      invariant left <= m.Keys
      invariant forall i :: 0 <= i < |s| ==> s[i].name in m && s[i].name !in left && m[s[i].name] == s[i]
      invariant forall i, j :: 0 <= i < j < |s| ==> s[i].name != s[j].name
      invariant forall name :: name in m && name !in left ==> m[name] in s
      decreases left
    {
      var name :| name in left;
      left := left - {name};
      s := s + [m[name]];
    }
  }

  // ---------------------------------------------------------------------
  // Aggregating
  // ---------------------------------------------------------------------

  ghost predicate SomeRequired(statuses: seq<JobStatus>, status: Status) {
    exists s :: s in statuses && s.required && s.status == status
  }

  /** The verdict on the required statuses, without looking at their order. */
  ghost function Verdict(statuses: seq<JobStatus>): Status {
    if SomeRequired(statuses, Failure) then Failure
    else if SomeRequired(statuses, Expected) then Expected
    else if SomeRequired(statuses, Pending) then Pending
    else Success
  }

  /** requiredCIStatus: the loop over the list, which stops at the first failure. */
  method RequiredStatus(statuses: seq<JobStatus>) returns (result: Status)
    ensures result == Verdict(statuses)
  {
    result := Success;
    for i := 0 to |statuses|
      invariant result == Verdict(statuses[..i]) && result != Failure
    {
      var s := statuses[i];
      assert statuses[..i + 1] == statuses[..i] + [s];
      VerdictExtends(statuses[..i], s);
      if s.required {
        match s.status
        case Expected => result := Expected;
        case Pending =>
          if result != Expected {
            result := Pending;
          }
        case Failure =>
          assert s in statuses;
          return Failure;
        case Success =>
      }
    }
    assert statuses[..|statuses|] == statuses;
  }

  lemma VerdictExtends(statuses: seq<JobStatus>, s: JobStatus)
    ensures forall status :: SomeRequired(statuses + [s], status) <==>
              SomeRequired(statuses, status) || (s.required && s.status == status)
  {
    forall status
      ensures SomeRequired(statuses + [s], status) <==>
              SomeRequired(statuses, status) || (s.required && s.status == status)
    {
      if SomeRequired(statuses, status) {
        var x :| x in statuses && x.required && x.status == status;
        assert x in statuses + [s];
      }
      if s.required && s.status == status {
        assert s in statuses + [s];
      }
    }
  }

  /** overallCIStatus. */
  method OverallStatus(rollup: StatusState, statuses: seq<JobStatus>) returns (r: Status)
    ensures r == Overall(rollup, Verdict(statuses))
  {
    var required := RequiredStatus(statuses);
    if required == Expected {
      return Expected;
    }
    match rollup
    case StatePending => return Pending;
    case StateExpected => return Expected;
    case _ => return required;
  }

  function Overall(rollup: StatusState, required: Status): Status {
    if required == Expected then Expected
    else if rollup == StatePending then Pending
    else if rollup == StateExpected then Expected
    else required
  }

  /** The verdict does not depend on the order in which the map was iterated. */
  lemma OrderIrrelevant(s: seq<JobStatus>, t: seq<JobStatus>, m: map<string, JobStatus>)
    requires Listing(s, m) && Listing(t, m)
    ensures Verdict(s) == Verdict(t)
  {
    assert forall x :: x in s ==> x in t by {
      forall x | x in s ensures x in t { assert m[x.name] in t; }
    }
    assert forall x :: x in t ==> x in s by {
      forall x | x in t ensures x in s { assert m[x.name] in s; }
    }
    assert forall status :: SomeRequired(s, status) <==> SomeRequired(t, status);
  }

  // ---------------------------------------------------------------------
  // What GitHub's values come to
  // ---------------------------------------------------------------------

  lemma {:induction false} LastExists(reports: seq<Report>, name: string) returns (i: nat)
    requires Mentioned(reports, name)
    ensures LastFor(reports, name, i)
  {
    i := |reports| - 1;
    if reports[i].name != name {
      var k :| 0 <= k < |reports| && reports[k].name == name;
      assert reports[..|reports| - 1][k].name == name;
      i := LastExists(reports[..|reports| - 1], name);
    }
  }

  /** Check run i has the last word on the name: no commit status and no later check run has it. */
  ghost predicate LastRun(runs: seq<CheckRun>, contexts: seq<StatusContext>, name: string, i: nat) {
    && i < |runs| && runs[i].name == name && (forall j :: i < j < |runs| ==> runs[j].name != name)
    && forall j :: 0 <= j < |contexts| ==> contexts[j].context != name
  }

  /** Commit status i has the last word on the name. */
  ghost predicate LastContext(contexts: seq<StatusContext>, name: string, i: nat) {
    i < |contexts| && contexts[i].context == name && forall j :: i < j < |contexts| ==> contexts[j].context != name
  }

  ghost predicate SaysSuccess(runs: seq<CheckRun>, contexts: seq<StatusContext>, name: string) {
    || (exists i: nat :: LastContext(contexts, name, i) && contexts[i].state == StateSuccess)
    || (exists i: nat :: LastRun(runs, contexts, name, i) && runs[i].status == Completed
                         && runs[i].conclusion in [ConclusionSuccess, Neutral, Skipped])
  }

  ghost predicate SaysFailure(runs: seq<CheckRun>, contexts: seq<StatusContext>, name: string) {
    || (exists i: nat :: LastContext(contexts, name, i) && contexts[i].state in [StateError, StateFailure])
    || (exists i: nat :: LastRun(runs, contexts, name, i) && runs[i].status == Completed
                         && runs[i].conclusion in [ConclusionCancelled, ConclusionFailure, Stale, StartupFailure,
                                                   TimedOut])
  }

  ghost predicate SaysPending(runs: seq<CheckRun>, contexts: seq<StatusContext>, name: string) {
    || (exists i: nat :: LastContext(contexts, name, i) && contexts[i].state == StatePending)
    || (exists i: nat :: LastRun(runs, contexts, name, i)
                         && (runs[i].status in [InProgress, CheckPending, Queued, Requested, Waiting]
                             || (runs[i].status == Completed && runs[i].conclusion == ActionRequired)))
  }

  /** The name is reported as expected, or not at all. */
  ghost predicate SaysExpected(runs: seq<CheckRun>, contexts: seq<StatusContext>, name: string) {
    || (exists i: nat :: LastContext(contexts, name, i) && contexts[i].state == StateExpected)
    || ((forall i :: 0 <= i < |runs| ==> runs[i].name != name)
        && forall i :: 0 <= i < |contexts| ==> contexts[i].context != name)
  }

  /** A value the program does not know. */
  predicate UnknownRun(r: CheckRun) {
    r.status.OtherCheckState? || (r.status == Completed && r.conclusion.OtherConclusion?)
  }

  /** The conversion fails exactly for a value the program does not know. */
  lemma ConvertExactly(runs: seq<CheckRun>, contexts: seq<StatusContext>)
    ensures AllConvert(Reports(runs, contexts)) <==>
            && (forall i :: 0 <= i < |runs| ==> !UnknownRun(runs[i]))
            && (forall i :: 0 <= i < |contexts| ==> !contexts[i].state.OtherState?)
  {
    var all := Reports(runs, contexts);
    forall i | 0 <= i < |runs|
      ensures all[i].status.Ok? <==> !UnknownRun(runs[i])
    {
    }
    forall i | 0 <= i < |contexts|
      ensures all[|runs| + i].status.Ok? <==> !contexts[i].state.OtherState?
    {
    }
    hide Reports;
    if AllConvert(all) {
      forall i | 0 <= i < |contexts|
        ensures !contexts[i].state.OtherState?
      {
        assert all[|runs| + i].status.Ok?;
      }
    }
  }

  /** The last report for a name is the last commit status for it, or else the last check run. */
  lemma LastReport(runs: seq<CheckRun>, contexts: seq<StatusContext>, name: string, i: nat)
    ensures LastFor(Reports(runs, contexts), name, i) <==>
            if i < |runs| then LastRun(runs, contexts, name, i) else LastContext(contexts, name, i - |runs|)
  {
    var all := Reports(runs, contexts);
    assert forall j :: 0 <= j < |runs| ==> all[j].name == runs[j].name;
    assert forall j :: 0 <= j < |contexts| ==> all[|runs| + j].name == contexts[j].context;
    hide Reports;
    if LastFor(all, name, i) && i < |runs| {
      forall j | 0 <= j < |contexts|
        ensures contexts[j].context != name
      {
        assert all[|runs| + j].name != name;
      }
    }
    if LastFor(all, name, i) && i >= |runs| {
      forall j | i - |runs| < j < |contexts|
        ensures contexts[j].context != name
      {
        assert all[|runs| + j].name != name;
      }
    }
  }

  lemma RunSays(r: CheckRun)
    ensures var status := CheckRunStatus(r.status, r.conclusion);
            && (status == Ok(Success) <==>
                  r.status == Completed && r.conclusion in [ConclusionSuccess, Neutral, Skipped])
            && (status == Ok(Failure) <==>
                  r.status == Completed
                  && r.conclusion in [ConclusionCancelled, ConclusionFailure, Stale, StartupFailure, TimedOut])
            && (status == Ok(Pending) <==>
                  || r.status in [InProgress, CheckPending, Queued, Requested, Waiting]
                  || (r.status == Completed && r.conclusion == ActionRequired))
            && status != Ok(Expected)
  {
  }

  lemma ContextSays(c: StatusContext)
    ensures var status := ContextStatus(c.state);
            && (status == Ok(Success) <==> c.state == StateSuccess)
            && (status == Ok(Failure) <==> c.state in [StateError, StateFailure])
            && (status == Ok(Pending) <==> c.state == StatePending)
            && (status == Ok(Expected) <==> c.state == StateExpected)
  {
  }

  /** What is said of a name, in GitHub's own values. */
  ghost predicate Says(runs: seq<CheckRun>, contexts: seq<StatusContext>, name: string, status: Status) {
    match status
    case Success => SaysSuccess(runs, contexts, name)
    case Failure => SaysFailure(runs, contexts, name)
    case Pending => SaysPending(runs, contexts, name)
    case Expected => SaysExpected(runs, contexts, name)
  }

  /** The entry of a name has the status its last writer says, and its address. */
  lemma CollectedSays(m: map<string, JobStatus>, required: seq<string>, runs: seq<CheckRun>,
                      contexts: seq<StatusContext>, name: string)
    requires AllConvert(Reports(runs, contexts)) && Collected(m, required, Reports(runs, contexts)) && name in m
    ensures forall status :: m[name].status == status <==> Says(runs, contexts, name, status)
    ensures m[name].jobURL == LastURL(runs, contexts, name)
  {
    hide Says;
    hide LastURL;
    hide CheckRunStatus;
    hide ContextStatus;
    var all := Reports(runs, contexts);
    if Mentioned(all, name) {
      var i := LastExists(all, name);
      LastReport(runs, contexts, name, i);
      if i < |runs| {
        assert all[i] == Report(name, CheckRunStatus(runs[i].status, runs[i].conclusion), runs[i].detailsURL);
        RunHasLastWord(runs, contexts, name, i);
      } else {
        var c := contexts[i - |runs|];
        assert all[i] == Report(name, ContextStatus(c.state), c.targetURL);
        ContextHasLastWord(runs, contexts, name, i - |runs|);
      }
    } else {
      assert forall j :: 0 <= j < |runs| ==> all[j].name == runs[j].name;
      assert forall j :: 0 <= j < |contexts| ==> all[|runs| + j].name == contexts[j].context;
      NobodyHasLastWord(runs, contexts, name);
    }
  }

  /** The address the last writer of a name gives for the job, if there is one. */
  ghost function LastURL(runs: seq<CheckRun>, contexts: seq<StatusContext>, name: string): string {
    if exists i: nat :: LastContext(contexts, name, i) then
      var i: nat :| LastContext(contexts, name, i); contexts[i].targetURL
    else if exists i: nat :: LastRun(runs, contexts, name, i) then
      var i: nat :| LastRun(runs, contexts, name, i); runs[i].detailsURL
    else ""
  }

  lemma RunHasLastWord(runs: seq<CheckRun>, contexts: seq<StatusContext>, name: string, i: nat)
    requires LastRun(runs, contexts, name, i)
    ensures forall status :: CheckRunStatus(runs[i].status, runs[i].conclusion) == Ok(status) ==>
              forall other :: other == status <==> Says(runs, contexts, name, other)
    ensures LastURL(runs, contexts, name) == runs[i].detailsURL
  {
    RunSays(runs[i]);
    hide CheckRunStatus;
    assert forall j: nat :: !LastContext(contexts, name, j);
    assert forall j: nat :: LastRun(runs, contexts, name, j) ==> j == i;
  }

  lemma ContextHasLastWord(runs: seq<CheckRun>, contexts: seq<StatusContext>, name: string, i: nat)
    requires LastContext(contexts, name, i)
    ensures forall status :: ContextStatus(contexts[i].state) == Ok(status) ==>
              forall other :: other == status <==> Says(runs, contexts, name, other)
    ensures LastURL(runs, contexts, name) == contexts[i].targetURL
  {
    ContextSays(contexts[i]);
    hide ContextStatus;
    assert forall j: nat :: !LastRun(runs, contexts, name, j);
    assert forall j: nat :: LastContext(contexts, name, j) ==> j == i;
  }

  lemma NobodyHasLastWord(runs: seq<CheckRun>, contexts: seq<StatusContext>, name: string)
    requires forall i :: 0 <= i < |runs| ==> runs[i].name != name
    requires forall i :: 0 <= i < |contexts| ==> contexts[i].context != name
    ensures forall status :: status == Expected <==> Says(runs, contexts, name, status)
    ensures LastURL(runs, contexts, name) == ""
  {
    assert forall j: nat :: !LastContext(contexts, name, j) && !LastRun(runs, contexts, name, j);
  }

  /** For some required name the last writer says so. */
  ghost predicate SomeSays(required: seq<string>, runs: seq<CheckRun>, contexts: seq<StatusContext>, status: Status) {
    exists name :: name in required && Says(runs, contexts, name, status)
  }

  lemma SomeRequiredSays(m: map<string, JobStatus>, s: seq<JobStatus>, required: seq<string>, runs: seq<CheckRun>,
                         contexts: seq<StatusContext>, status: Status)
    requires AllConvert(Reports(runs, contexts)) && Collected(m, required, Reports(runs, contexts)) && Listing(s, m)
    ensures SomeRequired(s, status) <==> SomeSays(required, runs, contexts, status)
  {
    forall name | name in required
      ensures m[name] in s && m[name].required
      ensures m[name].status == status <==> Says(runs, contexts, name, status)
    {
      CollectedSays(m, required, runs, contexts, name);
    }
    hide Says;
    hide Reports;
    if SomeRequired(s, status) {
      var x :| x in s && x.required && x.status == status;
      assert m[x.name] == x && x.name in required;
    }
    if SomeSays(required, runs, contexts, status) {
      var name :| name in required && Says(runs, contexts, name, status);
      assert m[name] in s;
    }
  }

  lemma SomethingSaid(required: seq<string>, runs: seq<CheckRun>, contexts: seq<StatusContext>,
                      m: map<string, JobStatus>)
    requires AllConvert(Reports(runs, contexts)) && Collected(m, required, Reports(runs, contexts))
    ensures (forall name :: name in required ==> SaysSuccess(runs, contexts, name)) <==>
            && !SomeSays(required, runs, contexts, Failure) && !SomeSays(required, runs, contexts, Expected)
            && !SomeSays(required, runs, contexts, Pending)
  {
    forall name | name in required
      ensures forall status :: m[name].status == status <==> Says(runs, contexts, name, status)
      ensures Says(runs, contexts, name, Success) <==> SaysSuccess(runs, contexts, name)
    {
      CollectedSays(m, required, runs, contexts, name);
    }
    hide Says;
    hide Reports;
    hide SaysSuccess;
    if !(forall name :: name in required ==> SaysSuccess(runs, contexts, name)) {
      var name :| name in required && !SaysSuccess(runs, contexts, name);
      assert Says(runs, contexts, name, m[name].status);
    }
    if status :| status != Success && SomeSays(required, runs, contexts, status) {
      var name :| name in required && Says(runs, contexts, name, status);
      assert m[name].status == status && !Says(runs, contexts, name, Success);
    }
  }

  /**
   Exactly what the overall status is, in GitHub's own values: for each required
   name the last commit status, or else the last check run, has the word, and the
   rollup covers what is not expected among them.
   */
  lemma OverallExactly(m: map<string, JobStatus>, s: seq<JobStatus>, required: seq<string>, runs: seq<CheckRun>,
                       contexts: seq<StatusContext>, rollup: StatusState)
    requires AllConvert(Reports(runs, contexts)) && Collected(m, required, Reports(runs, contexts)) && Listing(s, m)
    ensures OverallIs(required, runs, contexts, rollup, Overall(rollup, Verdict(s)))
  {
    forall status
      ensures SomeRequired(s, status) <==> SomeSays(required, runs, contexts, status)
    {
      SomeRequiredSays(m, s, required, runs, contexts, status);
    }
    SomethingSaid(required, runs, contexts, m);
    hide SomeRequired;
    hide SomeSays;
    hide SaysSuccess;
    hide Reports;
    hide Collected;
    hide Listing;
  }

  /** When the overall status is what. */
  ghost predicate OverallIs(required: seq<string>, runs: seq<CheckRun>, contexts: seq<StatusContext>,
                            rollup: StatusState, overall: Status)
  {
    var failed := SomeSays(required, runs, contexts, Failure);
    var expected := SomeSays(required, runs, contexts, Expected);
    var pending := SomeSays(required, runs, contexts, Pending);
    && (overall == Success <==>
          && (forall name :: name in required ==> SaysSuccess(runs, contexts, name))
          && rollup != StatePending && rollup != StateExpected)
    && (overall == Failure <==> failed && rollup != StatePending && rollup != StateExpected)
    && (overall == Expected <==> (expected && !failed) || rollup == StateExpected)
    && (overall == Pending <==>
          && !(expected && !failed)
          && (rollup == StatePending || (rollup != StateExpected && pending && !failed)))
  }

  datatype Checked = Checked(overall: Status, statuses: seq<JobStatus>)

  /** The names that are required or have a writer. */
  ghost predicate Known(required: seq<string>, runs: seq<CheckRun>, contexts: seq<StatusContext>, name: string) {
    || name in required
    || (exists i :: 0 <= i < |runs| && runs[i].name == name)
    || (exists i :: 0 <= i < |contexts| && contexts[i].context == name)
  }

  /** The statuses are those of the known names, each once, as the last writers have it. */
  ghost predicate StatusesAre(required: seq<string>, runs: seq<CheckRun>, contexts: seq<StatusContext>,
                              s: seq<JobStatus>)
  {
    && (forall i, j :: 0 <= i < j < |s| ==> s[i].name != s[j].name)
    && (forall name :: Known(required, runs, contexts, name) <==> exists x :: x in s && x.name == name)
    && forall x :: x in s ==>
      && (x.required <==> x.name in required)
      && (forall status :: x.status == status <==> Says(runs, contexts, x.name, status))
      && x.jobURL == LastURL(runs, contexts, x.name)
  }

  lemma StatusesExactly(m: map<string, JobStatus>, s: seq<JobStatus>, required: seq<string>, runs: seq<CheckRun>,
                        contexts: seq<StatusContext>)
    requires AllConvert(Reports(runs, contexts)) && Collected(m, required, Reports(runs, contexts)) && Listing(s, m)
    ensures StatusesAre(required, runs, contexts, s)
  {
    var all := Reports(runs, contexts);
    forall x | x in s
      ensures x.name in m && m[x.name] == x
      ensures forall status :: x.status == status <==> Says(runs, contexts, x.name, status)
      ensures x.jobURL == LastURL(runs, contexts, x.name)
    {
      CollectedSays(m, required, runs, contexts, x.name);
    }
    forall name
      ensures Known(required, runs, contexts, name) <==> name in m
    {
      MentionedExactly(runs, contexts, name);
      hide Reports;
    }
    hide Says;
    hide LastURL;
    hide Known;
    hide Reports;
    forall name
      ensures name in m <==> exists x :: x in s && x.name == name
    {
      if name in m {
        assert m[name] in s && m[name].name == name;
      }
    }
  }

  lemma MentionedExactly(runs: seq<CheckRun>, contexts: seq<StatusContext>, name: string)
    ensures Mentioned(Reports(runs, contexts), name) <==>
            || (exists i :: 0 <= i < |runs| && runs[i].name == name)
            || (exists i :: 0 <= i < |contexts| && contexts[i].context == name)
  {
    var all := Reports(runs, contexts);
    assert forall j :: 0 <= j < |runs| ==> all[j].name == runs[j].name;
    assert forall j :: 0 <= j < |contexts| ==> all[|runs| + j].name == contexts[j].context;
    hide Reports;
    if i :| 0 <= i < |contexts| && contexts[i].context == name {
      assert all[|runs| + i].name == name;
    }
    if i :| 0 <= i < |runs| && runs[i].name == name {
      assert all[i].name == name;
    }
    if i :| 0 <= i < |all| && all[i].name == name {
      assert i < |runs| || contexts[i - |runs|].context == name;
    }
  }

  /** ReadyForMerge, from what was fetched on: in GitHub's own values, what it makes of them. */
  method ReadyForMerge(required: seq<string>, runs: seq<CheckRun>, contexts: seq<StatusContext>, rollup: StatusState)
    returns (r: Result<Checked>)
    ensures r.Ok? <==>
            && Unique(required) && (forall i :: 0 <= i < |runs| ==> !UnknownRun(runs[i]))
            && forall i :: 0 <= i < |contexts| ==> !contexts[i].state.OtherState?
    ensures r.Ok? ==> OverallIs(required, runs, contexts, rollup, r.value.overall)
    ensures r.Ok? ==> StatusesAre(required, runs, contexts, r.value.statuses)
  {
    ConvertExactly(runs, contexts);
    var collected, m := ToJobStatuses(required, runs, contexts);
    if collected.Err? {
      return Err(collected.error);
    }
    OverallExactly(m, collected.value, required, runs, contexts, rollup);
    StatusesExactly(m, collected.value, required, runs, contexts);
    hide OverallIs;
    hide StatusesAre;
    var overall := OverallStatus(rollup, collected.value);
    r := Ok(Checked(overall, collected.value));
  }

  /**
   The documentation of ReadyForMerge promises failure when a required check
   failed.  The code does not: a pending rollup hides the failure.
   */
  lemma FailureCanBeHidden()
    ensures exists rollup, s: seq<JobStatus> ::
              SomeRequired(s, Failure) && Overall(rollup, Verdict(s)) == Pending
  {
    var job := JobStatus("build", Failure, true, "");
    assert job in [job];
    assert SomeRequired([job], Failure) && Overall(StatePending, Verdict([job])) == Pending;
  }
}
