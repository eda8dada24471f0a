/** What the merge queue keeps about a pull request. */
module PullRequests {
  import Order = PullRequestOrder

  /** A started build of a CI job. */
  datatype Build = Build(jobName: string, number: int)

  /** The state last reported to GitHub, with the commit it was reported for ("" for the head). */
  datatype Reported = NotReported | PendingFor(commit: string) | SuccessFor(commit: string)

  class PullRequest {
    const number: int
    const branch: string
    const enqueuedAt: int
    var priority: int
    var suspendCount: nat
    var activeSince: Order.Since
    var ciTriggeredCommit: string
    var lastStartedCIBuilds: map<string, Build>
    var lastReported: Reported
    var hasHeadLabel: bool

    constructor (number: int, branch: string, enqueuedAt: int)
      ensures this.number == number && this.branch == branch && this.enqueuedAt == enqueuedAt
      ensures !hasHeadLabel && lastReported == NotReported && suspendCount == 0
    {
      this.number, this.branch, this.enqueuedAt := number, branch, enqueuedAt;
      priority, suspendCount, activeSince := 0, 0, Order.ZeroTime;
      ciTriggeredCommit, lastStartedCIBuilds := "", map[];
      lastReported, hasHeadLabel := NotReported, false;
    }

    /** The fields the processing order looks at. */
    function Snapshot(): Order.PR
      reads this
    {
      Order.PR(number, priority, suspendCount, activeSince, enqueuedAt)
    }

    /** It was reported as successful, or carries the queue head label: GitHub may merge it. */
    predicate Winner()
      reads this
    {
      lastReported.SuccessFor? || hasHeadLabel
    }

    /** prAddQueueHeadLabel: a label that is there is not added again; the call may fail. */
    method AddHeadLabel(ok: bool) returns (called: bool)
      modifies this`hasHeadLabel
      ensures called <==> !old(hasHeadLabel)
      ensures hasHeadLabel <==> called ==> ok
    {
      called := !hasHeadLabel;
      if called && ok {
        hasHeadLabel := true;
      }
    }

    /** prRemoveQueueHeadLabel: the flag is cleared whatever the call comes to. */
    method RemoveHeadLabel()
      modifies this`hasHeadLabel
      ensures !hasHeadLabel
    {
      hasHeadLabel := false;
    }

    /** createCommitStatus: a state that was already reported is not reported again; the call may fail. */
    method Report(state: Reported, ok: bool) returns (called: bool)
      modifies this`lastReported
      ensures called <==> old(lastReported) != state
      ensures lastReported == if ok then state else old(lastReported)
    {
      called := lastReported != state;
      if called && ok {
        lastReported := state;
      }
    }
  }
}
