/**
 The synchronisation at start-up, which fills empty queues from the pull requests
 GitHub lists and keeps the queue heads of before.
 */
module Sync {
  import opened LinkedList
  import opened MergeQueue
  import opened PullRequests
  import opened Coordinator
  import OrderedMap

  const APP_NAME := "directorius"

  datatype Status = Status(context: string, pending: bool)

  datatype GithubPR = GithubPR(
    number: int,
    branch: string,
    base: Branch,
    headCommit: string,
    labels: seq<string>,
    autoMerge: bool,
    statuses: seq<Status>)

  datatype Config = Config(headLabel: string, triggerLabels: set<string>, onAutoMerge: bool) {
    /** The pull request is to be enqueued. */
    predicate Triggers(pr: GithubPR) {
      || (exists l :: l in pr.labels && l != headLabel && l in triggerLabels)
      || (pr.autoMerge && onAutoMerge)
    }

    /** The pull request carries the queue head label. */
    predicate Labelled(pr: GithubPR) {
      headLabel in pr.labels
    }

    /** It has a status of the program that is not pending. */
    predicate Reports(pr: GithubPR) {
      exists s :: s in pr.statuses && s.context == APP_NAME && !s.pending
    }

    predicate Head(pr: GithubPR) {
      Triggers(pr) && Labelled(pr)
    }
  }

  datatype Action = Enqueue | Unlabel | ResetStatus

  datatype Item = Item(pr: GithubPR, actions: seq<Action>) {
    predicate IsQueuedHead() {
      Enqueue in actions && Unlabel in actions
    }

    /** The actions are those the pull request calls for. */
    predicate Fits(cfg: Config) {
      && (Enqueue in actions <==> cfg.Triggers(pr))
      && (Unlabel in actions <==> cfg.Labelled(pr))
      && (ResetStatus in actions <==> cfg.Reports(pr))
    }
  }

  /** evaluateActions. */
  method EvaluateActions(cfg: Config, pr: GithubPR) returns (actions: seq<Action>)
    ensures Item(pr, actions).Fits(cfg)
    ensures Enqueue in actions <==>
      || (exists j :: 0 <= j < |pr.labels| && pr.labels[j] != cfg.headLabel && pr.labels[j] in cfg.triggerLabels)
      || (pr.autoMerge && cfg.onAutoMerge)
    ensures Unlabel in actions <==> exists j :: 0 <= j < |pr.labels| && pr.labels[j] == cfg.headLabel
    ensures ResetStatus in actions <==>
      exists j :: 0 <= j < |pr.statuses| && pr.statuses[j].context == APP_NAME && !pr.statuses[j].pending
  {
    actions := [];
    for i := 0 to |pr.labels|
      invariant Enqueue in actions <==>
        exists j :: 0 <= j < i && pr.labels[j] != cfg.headLabel && pr.labels[j] in cfg.triggerLabels
      invariant Unlabel in actions <==> exists j :: 0 <= j < i && pr.labels[j] == cfg.headLabel
      invariant ResetStatus !in actions
    {
      if pr.labels[i] == cfg.headLabel {
        actions := actions + [Unlabel];
      } else if pr.labels[i] in cfg.triggerLabels {
        actions := actions + [Enqueue];
      }
    }
    if pr.autoMerge && cfg.onAutoMerge {
      actions := actions + [Enqueue];
    }
    ghost var called := actions;
    for i := 0 to |pr.statuses|
      invariant Enqueue in actions <==> Enqueue in called
      invariant Unlabel in actions <==> Unlabel in called
      invariant ResetStatus in actions <==>
        exists j :: 0 <= j < i && pr.statuses[j].context == APP_NAME && !pr.statuses[j].pending
    {
      if pr.statuses[i].context == APP_NAME && !pr.statuses[i].pending {
        actions := actions + [ResetStatus];
      }
    }
  }

  // ---------------------------------------------------------------------
  // What the queues are to be
  // ---------------------------------------------------------------------

  /** The numbers to be queued for base. */
  function Wanted(cfg: Config, s: seq<GithubPR>, base: Branch): set<int> {
    if s == [] then {}
    else
      Wanted(cfg, s[..|s| - 1], base)
      + if cfg.Triggers(s[|s| - 1]) && s[|s| - 1].base == base then {s[|s| - 1].number} else {}
  }

  /** The numbers of the queue heads of before for base, in the order they are listed. */
  function Heads(cfg: Config, s: seq<GithubPR>, base: Branch): seq<int> {
    if s == [] then []
    else
      Heads(cfg, s[..|s| - 1], base)
      + if cfg.Head(s[|s| - 1]) && s[|s| - 1].base == base then [s[|s| - 1].number] else []
  }

  ghost predicate NumbersDiffer(s: seq<GithubPR>) {
    forall i, j :: 0 <= i < j < |s| ==> s[i].number != s[j].number
  }

  lemma {:induction false} WantedMeaning(cfg: Config, s: seq<GithubPR>, base: Branch, n: int)
    ensures n in Wanted(cfg, s, base) <==> exists pr :: pr in s && cfg.Triggers(pr) && pr.base == base && pr.number == n
  {
    if s != [] {
      var last := s[|s| - 1];
      assert s == s[..|s| - 1] + [last];
      WantedMeaning(cfg, s[..|s| - 1], base, n);
    }
  }

  lemma {:induction false} HeadsMeaning(cfg: Config, s: seq<GithubPR>, base: Branch, n: int)
    ensures n in Heads(cfg, s, base) <==> exists pr :: pr in s && cfg.Head(pr) && pr.base == base && pr.number == n
  {
    if s != [] {
      var last := s[|s| - 1];
      assert s == s[..|s| - 1] + [last];
      HeadsMeaning(cfg, s[..|s| - 1], base, n);
    }
  }

  // ---------------------------------------------------------------------
  // Queue heads first
  // ---------------------------------------------------------------------

  function HeadFirst(x: Item, y: Item): int {
    if x.IsQueuedHead() == y.IsQueuedHead() then 0 else if x.IsQueuedHead() then -1 else 1
  }

  /** The items that are queued heads (or are not), in their order. */
  function Those(items: seq<Item>, head: bool): seq<Item> {
    if items == [] then []
    else
      Those(items[..|items| - 1], head)
      + if items[|items| - 1].IsQueuedHead() == head then [items[|items| - 1]] else []
  }

  lemma {:induction false} ThoseAre(items: seq<Item>, head: bool)
    ensures forall x :: x in Those(items, head) <==> x in items && x.IsQueuedHead() == head
  {
    if items != [] {
      assert items == items[..|items| - 1] + [items[|items| - 1]];
      ThoseAre(items[..|items| - 1], head);
    }
  }

  lemma {:induction false} HeadPassesOthers(heads: seq<Item>, others: seq<Item>, x: Item)
    requires x.IsQueuedHead()
    requires (forall y :: y in heads ==> y.IsQueuedHead()) && forall y :: y in others ==> !y.IsQueuedHead()
    ensures OrderedMap.InsertFromRight(heads + others, x, HeadFirst) == heads + [x] + others
  {
    if others == [] {
      assert heads + others == heads;
    } else {
      var last := others[|others| - 1];
      assert (heads + others)[..|heads + others| - 1] == heads + others[..|others| - 1];
      HeadPassesOthers(heads, others[..|others| - 1], x);
      assert heads + [x] + others == heads + [x] + others[..|others| - 1] + [last];
    }
  }

  lemma ThoseAndMore(front: seq<Item>, x: Item, head: bool)
    ensures Those(front + [x], head) == Those(front, head) + if x.IsQueuedHead() == head then [x] else []
  {
    assert (front + [x])[..|front + [x]| - 1] == front;
  }

  /** One item more: a queued head passes the others, another item stays behind. */
  lemma SortOneMore(front: seq<Item>, x: Item)
    requires OrderedMap.InsertionSort(front, HeadFirst) == Those(front, true) + Those(front, false)
    ensures OrderedMap.InsertionSort(front + [x], HeadFirst) ==
            if x.IsQueuedHead() then Those(front, true) + [x] + Those(front, false)
            else Those(front, true) + Those(front, false) + [x]
  {
    ThoseAre(front, true);
    ThoseAre(front, false);
    assert (front + [x])[..|front + [x]| - 1] == front;
    if x.IsQueuedHead() {
      HeadPassesOthers(Those(front, true), Those(front, false), x);
    }
  }

  /** The stable sort puts the queued heads first and keeps the order of both kinds. */
  lemma {:induction false} SortIsPartition(items: seq<Item>)
    ensures OrderedMap.InsertionSort(items, HeadFirst) == Those(items, true) + Those(items, false)
  {
    if items != [] {
      var front, x := items[..|items| - 1], items[|items| - 1];
      assert items == front + [x];
      SortIsPartition(front);
      SortOneMore(front, x);
      ThoseAndMore(front, x, true);
      ThoseAndMore(front, x, false);
      hide OrderedMap.InsertionSort;
      hide Those;
      hide Item.IsQueuedHead;
      assert Those(front, true) + Those(front, false) + [x] == Those(front, true) + (Those(front, false) + [x]);
    }
  }

  function PRs(items: seq<Item>): (r: seq<GithubPR>)
    ensures |r| == |items| && forall i :: 0 <= i < |items| ==> r[i] == items[i].pr
  {
    seq(|items|, i requires 0 <= i < |items| => items[i].pr)
  }

  lemma PRsOfConcat(s: seq<Item>, t: seq<Item>)
    ensures PRs(s + t) == PRs(s) + PRs(t)
  {
  }

  /** Dropping the items that are not queued heads loses no head. */
  lemma {:induction false} HeadsOfThose(cfg: Config, items: seq<Item>, base: Branch)
    requires forall x :: x in items ==> x.Fits(cfg)
    ensures Heads(cfg, PRs(Those(items, true)), base) == Heads(cfg, PRs(items), base)
  {
    if items != [] {
      var front, x := items[..|items| - 1], items[|items| - 1];
      assert items == front + [x] && x in items;
      HeadsOfThose(cfg, front, base);
      HeadsOfOneMore(cfg, front, x, base);
      hide Heads;
      hide Those;
      hide PRs;
      hide Item.Fits;
    }
  }

  lemma HeadsOfOneMore(cfg: Config, front: seq<Item>, x: Item, base: Branch)
    requires x.Fits(cfg) && Heads(cfg, PRs(Those(front, true)), base) == Heads(cfg, PRs(front), base)
    ensures Heads(cfg, PRs(Those(front + [x], true)), base) == Heads(cfg, PRs(front + [x]), base)
  {
    assert cfg.Head(x.pr) <==> x.IsQueuedHead();
    hide Item.Fits;
    hide Item.IsQueuedHead;
    hide Config.Head;
    ThoseAndMore(front, x, true);
    assert Those(front, true) + [] == Those(front, true);
    PRsOfConcat(front, [x]);
    PRsOfConcat(Those(front, true), [x]);
    assert PRs([x]) == [x.pr];
    Append(cfg, PRs(front), x.pr, base);
    Append(cfg, PRs(Those(front, true)), x.pr, base);
    hide Heads;
    hide Those;
    hide PRs;
  }

  lemma {:induction false} NoMoreHeads(cfg: Config, s: seq<GithubPR>, t: seq<GithubPR>, base: Branch)
    requires forall pr :: pr in t ==> !cfg.Head(pr)
    ensures Heads(cfg, s + t, base) == Heads(cfg, s, base)
  {
    if t == [] {
      assert s + t == s;
    } else {
      assert (s + t)[..|s + t| - 1] == s + t[..|t| - 1];
      NoMoreHeads(cfg, s, t[..|t| - 1], base);
    }
  }

  /** Sorting changes no branch's list of queue heads. */
  lemma SortKeepsHeads(cfg: Config, items: seq<Item>, base: Branch)
    requires forall x :: x in items ==> x.Fits(cfg)
    ensures Heads(cfg, PRs(OrderedMap.InsertionSort(items, HeadFirst)), base) == Heads(cfg, PRs(items), base)
  {
    SortIsPartition(items);
    ThoseAre(items, true);
    ThoseAre(items, false);
    PRsOfConcat(Those(items, true), Those(items, false));
    forall pr | pr in PRs(Those(items, false))
      ensures !cfg.Head(pr)
    {
      var i := Index(PRs(Those(items, false)), pr);
      assert Those(items, false)[i] in items;
    }
    NoMoreHeads(cfg, PRs(Those(items, true)), PRs(Those(items, false)), base);
    HeadsOfThose(cfg, items, base);
  }

  // ---------------------------------------------------------------------
  // One item
  // ---------------------------------------------------------------------

  /** The numbers of a line. */
  function NumberSet(line: seq<PullRequest>): set<int> {
    set p | p in line :: p.number
  }

  /** after is before with pr in the queue of base, unless its number was queued there. */
  ghost predicate Filed(before: map<Branch, Content>, after: map<Branch, Content>, base: Branch, pr: PullRequest) {
    && base in after && after == before[base := after[base]]
    && if pr.number in Tracked(before, base) then after == before else Gains(At(before, base), after[base], pr)
  }

  lemma FiledMeans(before: map<Branch, Content>, after: map<Branch, Content>, base: Branch, pr: PullRequest)
    requires Filed(before, after, base, pr)
    ensures Tracked(after, base) == Tracked(before, base) + {pr.number}
    ensures pr.number !in Tracked(before, base) ==>
      && Line(after, base) != []
      && Line(after, base)[0] == (if Line(before, base) == [] then pr else Line(before, base)[0])
      && NumberSet(Line(after, base)) == NumberSet(Line(before, base)) + {pr.number}
      && forall p :: p in Line(after, base) <==> p in Line(before, base) || p == pr
  {
    if pr.number !in Tracked(before, base) {
      GainsMeans(At(before, base), after[base], pr);
      JoinedMembers(Line(before, base), Line(after, base), pr);
    }
  }

  /** enqueuePR, for a base branch with a name; done again, it changes nothing. */
  method EnqueuePR(c: Coordinator, base: Branch, pr: PullRequest, now: int, ghost before: map<Branch, Content>)
    requires c.Valid() && (c.contents == before || Filed(before, c.contents, base, pr))
    modifies c, (if base in c.queues then {c.queues[base]} else {}), pr`activeSince
    ensures c.Valid() && Filed(before, c.contents, base, pr)
    ensures forall q :: q in c.queues.Values ==> q in old(c.queues.Values) || fresh(q)
    ensures old(c.Primed()) ==> c.Primed()
  {
    hide Holds;
    hide OneWinnerEach;
    if c.contents != before {
      FiledMeans(before, c.contents, base, pr);
    }
    hide Gains;
    hide Content.Known;
    var _ := c.Enqueue(base, pr, now);
  }

  /**
   The actions of an item, for its new pull request.  keep says that its head label is to
   be preserved; headPreserved are the branches for which one was.  The requests are the
   calls that remove the head label; whether they succeed makes no difference here.  reset
   says that the own status was to be reported as pending.
   */
  method Perform(c: Coordinator, item: Item, pr: PullRequest, keep: bool, headPreserved: set<Branch>, now: int,
                 statusOk: bool)
    returns (kept: bool, preserved: set<Branch>, requests: nat, reset: bool)
    requires c.Valid() && pr.number == item.pr.number && pr.hasHeadLabel == keep
    requires keep ==> item.IsQueuedHead()
    modifies c, c.queues.Values, pr
    ensures c.Valid() && pr.hasHeadLabel == kept
    ensures kept == (keep && item.pr.base != "")
    ensures preserved == headPreserved + if kept then {item.pr.base} else {}
    ensures requests > 0 <==> Unlabel in item.actions && !kept
    ensures reset <==> ResetStatus in item.actions
    ensures pr.lastReported == if reset && statusOk then PendingFor(item.pr.headCommit) else old(pr.lastReported)
    ensures Enqueue in item.actions && item.pr.base != "" ==> Filed(old(c.contents), c.contents, item.pr.base, pr)
    ensures Enqueue !in item.actions || item.pr.base == "" ==> c.contents == old(c.contents)
    ensures forall q :: q in c.queues.Values ==> q in old(c.queues.Values) || fresh(q)
    ensures old(c.Primed()) ==> c.Primed()
  {
    hide Coordinator.Primed;
    hide Holds;
    hide Filed;
    hide OneWinnerEach;
    hide Content.Known;
    var base := item.pr.base;
    kept, preserved, requests, reset := keep, headPreserved, 0, false;
    ghost var enqueued, unlabelled := false, false;
    for j := 0 to |item.actions|
      invariant c.Valid() && pr.hasHeadLabel == kept
      invariant enqueued <==> Enqueue in item.actions[..j]
      invariant unlabelled <==> Unlabel in item.actions[..j]
      invariant reset <==> ResetStatus in item.actions[..j]
      invariant pr.lastReported == if reset && statusOk then PendingFor(item.pr.headCommit) else old(pr.lastReported)
      invariant kept == (keep && (base != "" || !enqueued))
      invariant preserved == headPreserved + if kept && enqueued then {base} else {}
      invariant requests > 0 <==> (unlabelled && !keep) || (keep && !kept)
      invariant if enqueued && base != "" then Filed(old(c.contents), c.contents, base, pr)
                else c.contents == old(c.contents)
      invariant forall q :: q in c.queues.Values ==> q in old(c.queues.Values) || fresh(q)
      invariant old(c.Primed()) ==> c.Primed()
    {
      assert item.actions[..j + 1] == item.actions[..j] + [item.actions[j]];
      match item.actions[j]
      case Unlabel =>
        unlabelled := true;
        if !kept {
          requests := requests + 1;
        }
      case Enqueue =>
        enqueued := true;
        if base == "" {
          if kept {
            kept, pr.hasHeadLabel := false, false;
            requests := requests + 1;
          }
        } else {
          EnqueuePR(c, base, pr, now, old(c.contents));
          if kept {
            preserved := preserved + {base};
          }
        }
      case ResetStatus =>
        reset := true;
        var _ := pr.Report(PendingFor(item.pr.headCommit), statusOk);
    }
  }

  // ---------------------------------------------------------------------
  // All items
  // ---------------------------------------------------------------------

  /** The number is that of the earliest queue head listed for base. */
  predicate Leads(cfg: Config, s: seq<GithubPR>, base: Branch, n: int) {
    var heads := Heads(cfg, s, base);
    heads != [] && heads[0] == n
  }

  /** The queue of base is what s calls for. */
  predicate Matches(cfg: Config, s: seq<GithubPR>, contents: map<Branch, Content>, base: Branch) {
    var line := Line(contents, base);
    && Tracked(contents, base) == NumberSet(line) == Wanted(cfg, s, base)
    && (Heads(cfg, s, base) != [] ==> line != [] && Leads(cfg, s, base, line[0].number))
  }

  /** The head label was to be removed from just those that carry it and are not kept. */
  ghost predicate Unlabelled(cfg: Config, s: seq<GithubPR>, removed: set<int>) {
    && (forall pr :: pr in s ==> (pr.number in removed <==> cfg.Labelled(pr) && !Leads(cfg, s, pr.base, pr.number)))
    && (forall n :: n in removed ==> exists pr :: pr in s && pr.number == n)
  }

  lemma HeadsAreWanted(cfg: Config, s: seq<GithubPR>, base: Branch)
    ensures forall n :: n in Heads(cfg, s, base) ==> n in Wanted(cfg, s, base)
    ensures Wanted(cfg, s, base) == {} ==> Heads(cfg, s, base) == []
  {
    forall n | n in Heads(cfg, s, base)
      ensures n in Wanted(cfg, s, base)
    {
      HeadsMeaning(cfg, s, base, n);
      WantedMeaning(cfg, s, base, n);
    }
    if Heads(cfg, s, base) != [] {
      assert Heads(cfg, s, base)[0] in Wanted(cfg, s, base);
    }
  }

  lemma NumberSetOfSome(line: seq<PullRequest>)
    ensures line != [] ==> line[0].number in NumberSet(line)
    ensures NumberSet(line) == {} ==> line == []
  {
  }

  lemma WantedAreHeads(cfg: Config, s: seq<GithubPR>, base: Branch)
    requires forall pr :: pr in s ==> cfg.Head(pr)
    requires Heads(cfg, s, base) == []
    ensures Wanted(cfg, s, base) == {}
  {
    forall n
      ensures n !in Wanted(cfg, s, base)
    {
      HeadsMeaning(cfg, s, base, n);
      WantedMeaning(cfg, s, base, n);
    }
  }

  /** Appending a pull request changes the wish list of its own branch only. */
  lemma Append(cfg: Config, s: seq<GithubPR>, x: GithubPR, base: Branch)
    ensures Wanted(cfg, s + [x], base) ==
            Wanted(cfg, s, base) + if cfg.Triggers(x) && x.base == base then {x.number} else {}
    ensures Heads(cfg, s + [x], base) ==
            Heads(cfg, s, base) + if cfg.Head(x) && x.base == base then [x.number] else []
  {
    assert (s + [x])[..|s + [x]| - 1] == s;
  }

  /** A new number, no less a head than those before it, keeps every queue what it is to be. */
  lemma MatchesStep(cfg: Config, s: seq<GithubPR>, x: GithubPR, before: map<Branch, Content>,
                    after: map<Branch, Content>,
                    pr: PullRequest, base: Branch)
    requires pr.number == x.number && (forall y :: y in s ==> y.number != x.number)
    requires cfg.Head(x) ==> forall y :: y in s ==> cfg.Head(y)
    requires if cfg.Triggers(x) then Filed(before, after, x.base, pr) else after == before
    requires Matches(cfg, s, before, base)
    ensures Matches(cfg, s + [x], after, base)
    ensures base == x.base && cfg.Head(x) && Heads(cfg, s, base) == [] ==> Line(before, base) == []
    ensures forall p :: p in Line(after, base) ==>
            p in Line(before, base) || (p == pr && base == x.base && cfg.Triggers(x))
  {
    Append(cfg, s, x, base);
    if base == x.base && cfg.Triggers(x) {
      WantedMeaning(cfg, s, base, x.number);
      HeadsAreWanted(cfg, s, base);
      NumberSetOfSome(Line(before, base));
      FiledMeans(before, after, base, pr);
      if cfg.Head(x) && Heads(cfg, s, base) == [] {
        WantedAreHeads(cfg, s, base);
      }
    }
  }

  /** A new pull request leads exactly when it is the first queue head for its branch. */
  lemma LeadsIffKept(cfg: Config, s: seq<GithubPR>, x: GithubPR, kept: bool)
    requires forall y :: y in s ==> y.number != x.number
    requires kept == (cfg.Head(x) && Heads(cfg, s, x.base) == [])
    ensures Leads(cfg, s + [x], x.base, x.number) <==> kept
  {
    Append(cfg, s, x, x.base);
    if Heads(cfg, s, x.base) != [] {
      HeadsMeaning(cfg, s, x.base, Heads(cfg, s, x.base)[0]);
    }
  }

  lemma UnlabelledStep(cfg: Config, s: seq<GithubPR>, x: GithubPR, removed: set<int>, kept: bool)
    requires Unlabelled(cfg, s, removed) && forall y :: y in s ==> y.number != x.number
    requires kept == (cfg.Head(x) && Heads(cfg, s, x.base) == [])
    ensures Unlabelled(cfg, s + [x], removed + if cfg.Labelled(x) && !kept then {x.number} else {})
  {
    LeadsIffKept(cfg, s, x, kept);
    assert x in s + [x];
    forall y | y in s
      ensures Leads(cfg, s + [x], y.base, y.number) <==> Leads(cfg, s, y.base, y.number)
    {
      Append(cfg, s, x, y.base);
    }
    forall n | n in removed
      ensures exists y :: y in s + [x] && y.number == n
    {
      var y :| y in s && y.number == n;
      assert y in s + [x];
    }
  }

  predicate Complete(pr: GithubPR) {
    pr.number > 0 && pr.branch != ""
  }

  /** What was done for the new pull request of an item. */
  ghost predicate Acted(item: Item, pr: PullRequest, before: map<Branch, Content>, after: map<Branch, Content>,
                        headPreserved: set<Branch>, preserved: set<Branch>, requests: nat, reset: bool, statusOk: bool)
    reads pr
  {
    && pr.number == item.pr.number
    && pr.hasHeadLabel == (item.IsQueuedHead() && item.pr.base !in headPreserved && item.pr.base != "")
    && pr.lastReported == (if reset && statusOk then PendingFor(item.pr.headCommit) else NotReported)
    && preserved == headPreserved + (if pr.hasHeadLabel then {item.pr.base} else {})
    && (requests > 0 <==> Unlabel in item.actions && !pr.hasHeadLabel)
    && (reset <==> ResetStatus in item.actions)
    && if Enqueue in item.actions && item.pr.base != "" then Filed(before, after, item.pr.base, pr) else after == before
  }

  /** Every branch with a pull request in its line has had its head preserved. */
  ghost predicate LinesAreLed(contents: map<Branch, Content>, preserved: set<Branch>) {
    forall b :: Line(contents, b) != [] ==> b in preserved
  }

  /** One item; an incomplete pull request ends the synchronisation.  No queue gets a second winner. */
  method SyncItem(c: Coordinator, item: Item, headPreserved: set<Branch>, now: int, statusOk: bool)
    returns (pr: PullRequest?, preserved: set<Branch>, requests: nat, reset: bool)
    requires c.Valid()
    modifies c, c.queues.Values
    ensures c.Valid() && (forall q :: q in c.queues.Values ==> q in old(c.queues.Values) || fresh(q))
    ensures old(c.Primed()) ==> c.Primed()
    ensures pr == null <==> item.pr.number <= 0 || item.pr.branch == ""
    ensures if pr == null then c.contents == old(c.contents) && preserved == headPreserved
      else fresh(pr) && Acted(item, pr, old(c.contents), c.contents, headPreserved, preserved, requests, reset,
                              statusOk)
    ensures old(OneWinnerEach(c.contents)) && (item.IsQueuedHead() ==> LinesAreLed(old(c.contents), headPreserved)) ==>
      OneWinnerEach(c.contents) && (item.IsQueuedHead() ==> LinesAreLed(c.contents, preserved))
  {
    hide Holds;
    hide Acted;
    hide LinesAreLed;
    ghost var before := c.contents;
    if !Complete(item.pr) {
      return null, headPreserved, 0, false;
    }
    pr, preserved, requests, reset := Act(c, item, headPreserved, now, statusOk);
    forall b | b in before && old(OneWinnerEach(c.contents))
      ensures OneWinner(before[b])
    {
      WinnersStay(before[b]);
    }
    hide FlagsStay;
    hide OneWinner;
    assert Outside(before, pr);
    hide Outside;
    if old(OneWinnerEach(c.contents)) && (item.IsQueuedHead() ==> LinesAreLed(before, headPreserved)) {
      WinnersAfterItem(item, pr, before, c.contents, headPreserved, preserved, requests, reset, statusOk);
    }
  }

  method Act(c: Coordinator, item: Item, headPreserved: set<Branch>, now: int, statusOk: bool)
    returns (pr: PullRequest, preserved: set<Branch>, requests: nat, reset: bool)
    requires c.Valid()
    modifies c, c.queues.Values
    ensures c.Valid() && (forall q :: q in c.queues.Values ==> q in old(c.queues.Values) || fresh(q))
    ensures old(c.Primed()) ==> c.Primed()
    ensures fresh(pr) && Acted(item, pr, old(c.contents), c.contents, headPreserved, preserved, requests, reset,
                               statusOk)
  {
    hide Holds;
    hide Filed;
    pr := new PullRequest(item.pr.number, item.pr.branch, now);
    var kept := item.IsQueuedHead() && item.pr.base !in headPreserved;
    if kept {
      pr.hasHeadLabel := true;
    }
    kept, preserved, requests, reset := Perform(c, item, pr, kept, headPreserved, now, statusOk);
  }

  /**
   A new pull request keeps every queue at one winner when it is none, or
   its branch has not had its head preserved.
   */
  lemma WinnersAfterItem(item: Item, pr: PullRequest, before: map<Branch, Content>, after: map<Branch, Content>,
                         headPreserved: set<Branch>, preserved: set<Branch>, requests: nat, reset: bool, statusOk: bool)
    requires Acted(item, pr, before, after, headPreserved, preserved, requests, reset, statusOk)
    requires OneWinnerEach(before) && Outside(before, pr)
             && (item.IsQueuedHead() ==> LinesAreLed(before, headPreserved))
    ensures OneWinnerEach(after) && (item.IsQueuedHead() ==> LinesAreLed(after, preserved))
  {
    hide OneWinnerEach;
    hide Outside;
    if after != before {
      WinnersAfterEnqueue(before, after, item.pr.base, pr);
      assert forall b :: b != item.pr.base ==> Line(after, b) == Line(before, b);
    }
  }

  /** The queued heads come first. */
  ghost predicate HeadsLead(items: seq<Item>) {
    forall i, j :: 0 <= i < j < |items| && items[j].IsQueuedHead() ==> items[i].IsQueuedHead()
  }

  ghost predicate InShape(items: seq<Item>) {
    && NumbersDiffer(PRs(items)) && HeadsLead(items)
    && forall i :: 0 <= i < |items| ==> Complete(items[i].pr) && items[i].pr.base != ""
  }

  /** A member of the new queue of b is the new one, or was a member and leads as before. */
  lemma FlagStep(cfg: Config, s: seq<GithubPR>, x: GithubPR, before: map<Branch, Content>, after: map<Branch, Content>,
                 pr: PullRequest, kept: bool, b: Branch, p: PullRequest)
    requires Follows(cfg, s, x) && pr.number == x.number && p in Line(after, b)
    requires if cfg.Triggers(x) then Filed(before, after, x.base, pr) else after == before
    requires Matches(cfg, s, before, b)
    requires kept == (cfg.Head(x) && Heads(cfg, s, x.base) == [])
    ensures if p == pr && b == x.base then Leads(cfg, s + [x], b, p.number) == kept
            else p in Line(before, b) && Leads(cfg, s + [x], b, p.number) == Leads(cfg, s, b, p.number)
  {
    Append(cfg, s, x, b);
    MatchesStep(cfg, s, x, before, after, pr, b);
    if p == pr && b == x.base {
      LeadsIffKept(cfg, s, x, kept);
    }
  }

  /** The branches for which a queue head is kept. */
  ghost predicate KeepsOneFor(cfg: Config, s: seq<GithubPR>, preserved: set<Branch>) {
    forall b :: b in preserved <==> Heads(cfg, s, b) != []
  }

  lemma KeepsStep(cfg: Config, s: seq<GithubPR>, x: GithubPR, preserved: set<Branch>, kept: bool)
    requires KeepsOneFor(cfg, s, preserved) && kept == (cfg.Head(x) && x.base !in preserved)
    ensures KeepsOneFor(cfg, s + [x], preserved + if kept then {x.base} else {})
  {
    forall b
      ensures Heads(cfg, s + [x], b) == Heads(cfg, s, b) + if cfg.Head(x) && x.base == b then [x.number] else []
    {
      Append(cfg, s, x, b);
    }
  }

  /** x can follow s: its number is new, and it is a queue head only if all of s are. */
  ghost predicate Follows(cfg: Config, s: seq<GithubPR>, x: GithubPR) {
    && Complete(x) && x.base != ""
    && (forall y :: y in s ==> y.number != x.number && (cfg.Head(x) ==> cfg.Head(y)))
  }

  /**
   The queues are what s calls for, one queue head is kept per branch, the label goes
   from the others, and just the kept ones have their flag set.
   */
  ghost predicate Synced(cfg: Config, s: seq<GithubPR>, contents: map<Branch, Content>, preserved: set<Branch>,
                         removed: set<int>)
    reads set b, p | b in contents && p in contents[b].active :: p
  {
    && (forall b :: Matches(cfg, s, contents, b))
    && KeepsOneFor(cfg, s, preserved)
    && Unlabelled(cfg, s, removed)
    && (forall b, p :: b in contents && p in contents[b].active ==> p.hasHeadLabel == Leads(cfg, s, b, p.number))
  }

  method Advance(c: Coordinator, cfg: Config, item: Item, headPreserved: set<Branch>, unlabelled: set<int>,
                 now: int, statusOk: bool, ghost s: seq<GithubPR>)
    returns (ok: bool, preserved: set<Branch>, removed: set<int>, reset: bool)
    requires c.Valid() && item.Fits(cfg)
    modifies c, c.queues.Values
    ensures c.Valid() && (forall q :: q in c.queues.Values ==> q in old(c.queues.Values) || fresh(q))
    ensures old(c.Primed()) ==> c.Primed()
    ensures ok <==> Complete(item.pr)
    ensures ok ==> (reset <==> ResetStatus in item.actions)
    ensures Follows(cfg, s, item.pr) && old(Synced(cfg, s, c.contents, headPreserved, unlabelled)) ==>
      Synced(cfg, s + [item.pr], c.contents, preserved, removed)
    ensures old(OneWinnerEach(c.contents)) && (item.IsQueuedHead() ==> LinesAreLed(old(c.contents), headPreserved)) ==>
      OneWinnerEach(c.contents) && (item.IsQueuedHead() ==> LinesAreLed(c.contents, preserved))
    ensures forall p :: Outside(old(c.contents), p) && !fresh(p) ==> Outside(c.contents, p)
  {
    hide LinesAreLed;
    hide OneWinnerEach;
    hide Holds;
    hide Filed;
    hide Item.IsQueuedHead;
    hide Item.Fits;
    var pr, requests;
    ghost var before := c.contents;
    hide Acted;
    pr, preserved, requests, reset := SyncItem(c, item, headPreserved, now, statusOk);
    removed := if requests > 0 then unlabelled + {item.pr.number} else unlabelled;
    ok := pr != null;
    if pr != null {
      OneComes(item, pr, before, c.contents, headPreserved, preserved, requests, reset, statusOk);
    }
    hide Outside;
    if Follows(cfg, s, item.pr) && old(Synced(cfg, s, c.contents, headPreserved, unlabelled)) {
      forall b, p | b in before && p in before[b].active
        ensures p.hasHeadLabel == Leads(cfg, s, b, p.number)
      {
      }
      hide Leads;
      SyncedStep(cfg, s, item, before, c.contents, pr, headPreserved, preserved, unlabelled, removed, requests, reset,
                 statusOk);
    }
  }

  lemma OneComes(item: Item, pr: PullRequest, before: map<Branch, Content>, after: map<Branch, Content>,
                 headPreserved: set<Branch>, preserved: set<Branch>, requests: nat, reset: bool, statusOk: bool)
    requires Acted(item, pr, before, after, headPreserved, preserved, requests, reset, statusOk)
    ensures forall p :: p != pr && Outside(before, p) ==> Outside(after, p)
  {
    if after != before {
      AfterInsertion(before, after, item.pr.base, pr);
    }
  }

  lemma SyncedStep(cfg: Config, s: seq<GithubPR>, item: Item, before: map<Branch, Content>, after: map<Branch, Content>,
                   pr: PullRequest, headPreserved: set<Branch>, preserved: set<Branch>, unlabelled: set<int>,
                   removed: set<int>, requests: nat, reset: bool, statusOk: bool)
    requires item.Fits(cfg) && Follows(cfg, s, item.pr) && Synced(cfg, s, before, headPreserved, unlabelled)
    requires Acted(item, pr, before, after, headPreserved, preserved, requests, reset, statusOk)
    requires removed == if requests > 0 then unlabelled + {item.pr.number} else unlabelled
    ensures Synced(cfg, s + [item.pr], after, preserved, removed)
  {
    hide Filed;
    hide Heads;
    hide Wanted;
    var x := item.pr;
    forall b
      ensures Matches(cfg, s + [x], after, b)
    {
      MatchesStep(cfg, s, x, before, after, pr, b);
    }
    KeepsStep(cfg, s, x, headPreserved, pr.hasHeadLabel);
    UnlabelledStep(cfg, s, x, unlabelled, pr.hasHeadLabel);
    forall b, p | b in after && p in after[b].active
      ensures p.hasHeadLabel == Leads(cfg, s + [x], b, p.number)
    {
      FlagStep(cfg, s, x, before, after, pr, pr.hasHeadLabel, b, p);
    }
  }

  /** The numbers of the items whose status is to be reported as pending. */
  function ResetNumbers(items: seq<Item>): set<int> {
    set x | x in items && ResetStatus in x.actions :: x.pr.number
  }

  /** What the first k items have come to. */
  ghost predicate Progress(cfg: Config, items: seq<Item>, k: nat, contents: map<Branch, Content>,
                           preserved: set<Branch>, removed: set<int>)
    requires k <= |items|
    reads set b, p | b in contents && p in contents[b].Members() :: p
    reads set b, p | b in contents && p in contents[b].active :: p
  {
    && (InShape(items) ==> Synced(cfg, PRs(items[..k]), contents, preserved, removed))
    && (HeadsLead(items) ==>
      && OneWinnerEach(contents)
      && (k == 0 || items[k - 1].IsQueuedHead() ==> LinesAreLed(contents, preserved)))
  }

  lemma ProgressAtFirst(cfg: Config, items: seq<Item>)
    ensures Progress(cfg, items, 0, map[], {}, {})
  {
  }

  /** The k-th item. */
  method ApplyOne(c: Coordinator, cfg: Config, items: seq<Item>, k: nat, headPreserved: set<Branch>,
                  unlabelled: set<int>,
                  now: int, statusOk: bool)
    returns (ok: bool, preserved: set<Branch>, removed: set<int>, reset: bool)
    requires c.Valid() && k < |items| && forall i :: 0 <= i < |items| ==> items[i].Fits(cfg)
    requires Progress(cfg, items, k, c.contents, headPreserved, unlabelled)
    modifies c, c.queues.Values
    ensures c.Valid() && (forall q :: q in c.queues.Values ==> q in old(c.queues.Values) || fresh(q))
    ensures old(c.Primed()) ==> c.Primed()
    ensures ok <==> Complete(items[k].pr)
    ensures ok ==>
              && Progress(cfg, items, k + 1, c.contents, preserved, removed)
              && (reset <==> ResetStatus in items[k].actions)
    ensures HeadsLead(items) ==> OneWinnerEach(c.contents)
    ensures forall p :: Outside(old(c.contents), p) && !fresh(p) ==> Outside(c.contents, p)
  {
    hide Holds;
    hide Outside;
    InShapeFollows(cfg, items, k);
    hide InShape;
    hide Follows;
    hide OneWinnerEach;
    hide Synced;
    hide LinesAreLed;
    assert items[..k + 1] == items[..k] + [items[k]];
    ok, preserved, removed, reset :=
      Advance(c, cfg, items[k], headPreserved, unlabelled, now, statusOk, PRs(items[..k]));
    assert PRs(items[..k + 1]) == PRs(items[..k]) + [items[k].pr];
  }

  /** The items in order: the queues end up as their pull requests call for. */
  method Apply(c: Coordinator, cfg: Config, items: seq<Item>, clock: nat -> int, statusOk: int -> bool)
    returns (ok: bool, ghost preserved: set<Branch>, removed: set<int>, resets: set<int>)
    requires c.Valid() && c.queues == map[] && c.contents == map[]
    requires forall i :: 0 <= i < |items| ==> items[i].Fits(cfg)
    modifies c
    ensures c.Valid()
    ensures ok <==> forall i :: 0 <= i < |items| ==> Complete(items[i].pr)
    ensures InShape(items) ==> Synced(cfg, PRs(items), c.contents, preserved, removed)
    ensures ok ==> resets == ResetNumbers(items)
    ensures HeadsLead(items) ==> OneWinnerEach(c.contents)
    ensures c.Primed()
    ensures (forall q :: q in c.queues.Values ==> fresh(q)) && (forall p :: Outside(c.contents, p) || fresh(p))
  {
    var headPreserved: set<Branch> := {};
    removed, resets := {}, {};
    ok := true;
    ProgressAtFirst(cfg, items);
    hide Holds;
    hide Synced;
    hide OneWinnerEach;
    hide Progress;
    assert forall p :: Outside(c.contents, p);
    hide Outside;
    for k := 0 to |items|
      invariant c.Valid() && c.Primed() && forall q :: q in c.queues.Values ==> fresh(q)
      invariant forall p :: Outside(c.contents, p) || fresh(p)
      invariant forall i :: 0 <= i < k ==> Complete(items[i].pr)
      invariant resets == ResetNumbers(items[..k])
      invariant Progress(cfg, items, k, c.contents, headPreserved, removed)
    {
      assert items[..k + 1] == items[..k] + [items[k]];
      var reset;
      ok, headPreserved, removed, reset := ApplyOne(c, cfg, items, k, headPreserved, removed, clock(k), statusOk(k));
      if !ok {
        preserved := headPreserved;
        return;
      }
      if reset {
        resets := resets + {items[k].pr.number};
      }
    }
    preserved := headPreserved;
    assert items[..|items|] == items;
    ProgressAtLast(cfg, items, c.contents, preserved, removed);
  }

  lemma ProgressAtLast(cfg: Config, items: seq<Item>, contents: map<Branch, Content>, preserved: set<Branch>,
                       removed: set<int>)
    requires Progress(cfg, items, |items|, contents, preserved, removed)
    ensures InShape(items) ==> Synced(cfg, PRs(items), contents, preserved, removed)
    ensures HeadsLead(items) ==> OneWinnerEach(contents)
  {
    assert items[..|items|] == items;
  }

  lemma InShapeFollows(cfg: Config, items: seq<Item>, k: nat)
    requires k < |items| && forall i :: 0 <= i < |items| ==> items[i].Fits(cfg)
    ensures InShape(items) ==> Follows(cfg, PRs(items[..k]), items[k].pr)
  {
    if InShape(items) {
      var s := PRs(items[..k]);
      forall y | y in s
        ensures y.number != items[k].pr.number && (cfg.Head(items[k].pr) ==> cfg.Head(y))
      {
        var i := Index(s, y);
        assert items[i].Fits(cfg) && items[k].Fits(cfg) && PRs(items)[i] == y && PRs(items)[k] == items[k].pr;
      }
    }
  }

  // ---------------------------------------------------------------------
  // The whole synchronisation
  // ---------------------------------------------------------------------

  predicate OutOfSync(cfg: Config, pr: GithubPR) {
    cfg.Triggers(pr) || cfg.Labelled(pr) || cfg.Reports(pr)
  }

  /** The items are those of s that call for an action. */
  ghost predicate Collected(cfg: Config, s: seq<GithubPR>, items: seq<Item>) {
    && (forall i :: 0 <= i < |items| ==> items[i].Fits(cfg) && items[i].pr in s && OutOfSync(cfg, items[i].pr))
    && (forall pr :: pr in s && OutOfSync(cfg, pr) ==> pr in PRs(items))
    && (forall b :: Heads(cfg, PRs(items), b) == Heads(cfg, s, b))
    && (NumbersDiffer(s) ==> NumbersDiffer(PRs(items)))
  }

  lemma ActionsWhenOutOfSync(cfg: Config, x: Item)
    requires x.Fits(cfg)
    ensures x.actions != [] <==> OutOfSync(cfg, x.pr)
  {
    if x.actions != [] {
      var a := x.actions[0];
      assert a in x.actions && (a == Enqueue || a == Unlabel || a == ResetStatus);
    }
  }

  lemma NumbersDifferAppend(s: seq<GithubPR>, x: GithubPR)
    ensures NumbersDiffer(s + [x]) <==> NumbersDiffer(s) && forall y :: y in s ==> y.number != x.number
  {
    var t := s + [x];
    if NumbersDiffer(t) {
      assert forall i, j :: 0 <= i < j < |s| ==> s[i] == t[i] && s[j] == t[j];
      forall y | y in s
        ensures y.number != x.number
      {
        assert t[Index(s, y)] == y && t[|s|] == x;
      }
    }
  }

  /** Dropping a pull request that calls for no action. */
  lemma CollectDrops(cfg: Config, s: seq<GithubPR>, items: seq<Item>, pr: GithubPR)
    requires Collected(cfg, s, items) && !OutOfSync(cfg, pr)
    ensures Collected(cfg, s + [pr], items)
  {
    forall b
      ensures Heads(cfg, s + [pr], b) == Heads(cfg, s, b)
    {
      Append(cfg, s, pr, b);
    }
    NumbersDifferAppend(s, pr);
    hide Heads;
    hide NumbersDiffer;
  }

  /** Taking in a pull request with its actions. */
  lemma CollectAdds(cfg: Config, s: seq<GithubPR>, items: seq<Item>, x: Item)
    requires Collected(cfg, s, items) && x.Fits(cfg) && OutOfSync(cfg, x.pr)
    ensures Collected(cfg, s + [x.pr], items + [x])
  {
    assert PRs(items + [x]) == PRs(items) + [x.pr];
    forall b
      ensures Heads(cfg, PRs(items) + [x.pr], b) == Heads(cfg, s + [x.pr], b)
    {
      Append(cfg, s, x.pr, b);
      Append(cfg, PRs(items), x.pr, b);
    }
    NumbersDifferAppend(s, x.pr);
    NumbersDifferAppend(PRs(items), x.pr);
    forall pr | pr in PRs(items)
      ensures pr in s
    {
      assert items[Index(PRs(items), pr)].pr in s;
    }
    hide Heads;
    hide NumbersDiffer;
    hide OutOfSync;
    hide Item.Fits;
  }

  /** The pull requests that call for an action, with their actions. */
  method Collect(cfg: Config, listing: seq<GithubPR>) returns (items: seq<Item>)
    ensures Collected(cfg, listing, items)
  {
    items := [];
    assert Collected(cfg, listing[..0], items);
    hide Collected;
    for k := 0 to |listing|
      invariant Collected(cfg, listing[..k], items)
    {
      assert listing[..k + 1] == listing[..k] + [listing[k]];
      var actions := EvaluateActions(cfg, listing[k]);
      ActionsWhenOutOfSync(cfg, Item(listing[k], actions));
      if |actions| != 0 {
        CollectAdds(cfg, listing[..k], items, Item(listing[k], actions));
        items := items + [Item(listing[k], actions)];
      } else {
        CollectDrops(cfg, listing[..k], items, listing[k]);
      }
    }
    assert listing[..|listing|] == listing;
  }

  // What a listing of complete pull requests with different numbers makes of empty queues.

  /** listing[i] is a queue head of before, and no earlier one has its base branch. */
  ghost predicate EarliestHead(cfg: Config, listing: seq<GithubPR>, i: nat) {
    && i < |listing| && cfg.Head(listing[i])
    && forall j :: 0 <= j < i && cfg.Head(listing[j]) ==> listing[j].base != listing[i].base
  }

  /** Each queue has just the pull requests that trigger for its branch, all of them active. */
  ghost predicate HoldsTheTriggering(cfg: Config, listing: seq<GithubPR>, contents: map<Branch, Content>) {
    forall b, n ::
      && (n in Tracked(contents, b) <==> n in NumberSet(Line(contents, b)))
      && (n in Tracked(contents, b) <==>
        exists pr :: pr in listing && cfg.Triggers(pr) && pr.base == b && pr.number == n)
  }

  /** The earliest listed queue head of a branch is first again. */
  ghost predicate EarliestIsFirst(cfg: Config, listing: seq<GithubPR>, contents: map<Branch, Content>) {
    forall i: nat :: EarliestHead(cfg, listing, i) ==>
      var line := Line(contents, listing[i].base);
      line != [] && line[0].number == listing[i].number
  }

  /** It has its flag set, and no other one has. */
  ghost predicate EarliestIsFlagged(cfg: Config, listing: seq<GithubPR>, contents: map<Branch, Content>)
    reads set b, p | b in contents && p in contents[b].active :: p
  {
    forall b, p :: b in contents && p in contents[b].active ==>
      (p.hasHeadLabel <==>
         exists i: nat :: EarliestHead(cfg, listing, i) && listing[i].base == b && listing[i].number == p.number)
  }

  /** It keeps its label; every other pull request with the head label loses it, and no others do. */
  ghost predicate UnlabelsTheOthers(cfg: Config, listing: seq<GithubPR>, removed: set<int>) {
    && (forall i: nat :: i < |listing| ==>
      (listing[i].number in removed <==> cfg.Labelled(listing[i]) && !EarliestHead(cfg, listing, i)))
    && (forall n :: n in removed ==> exists pr :: pr in listing && pr.number == n)
  }

  lemma {:induction false} LeadsMeansEarliest(cfg: Config, s: seq<GithubPR>, i: nat)
    requires i < |s| && NumbersDiffer(s) && cfg.Head(s[i])
    ensures Leads(cfg, s, s[i].base, s[i].number) <==> EarliestHead(cfg, s, i)
  {
    var front, last := s[..|s| - 1], s[|s| - 1];
    assert s == front + [last];
    Append(cfg, front, last, s[i].base);
    if i < |s| - 1 {
      LeadsMeansEarliest(cfg, front, i);
      HeadsMeaning(cfg, front, s[i].base, s[i].number);
      assert front[i] in front;
      assert EarliestHead(cfg, front, i) <==> EarliestHead(cfg, s, i);
    } else {
      LeadsIffKept(cfg, front, last, Heads(cfg, front, last.base) == []);
      if Heads(cfg, front, last.base) == [] {
        forall j | 0 <= j < i && cfg.Head(s[j])
          ensures s[j].base != s[i].base
        {
          HeadsMeaning(cfg, front, s[j].base, s[j].number);
          assert front[j] in front;
        }
      } else {
        HeadsMeaning(cfg, front, last.base, Heads(cfg, front, last.base)[0]);
      }
    }
  }

  /** Sorting keeps the items, and puts them in the order Apply needs. */
  lemma SortedInShape(items: seq<Item>)
    ensures forall x :: x in OrderedMap.InsertionSort(items, HeadFirst) <==> x in items
    ensures HeadsLead(OrderedMap.InsertionSort(items, HeadFirst))
  {
    SortIsPartition(items);
    ThoseAre(items, true);
    ThoseAre(items, false);
  }

  lemma SortedNumbers(items: seq<Item>)
    requires NumbersDiffer(PRs(items))
    ensures NumbersDiffer(PRs(OrderedMap.InsertionSort(items, HeadFirst)))
  {
    var sorted := OrderedMap.InsertionSort(items, HeadFirst);
    assert forall i, j :: 0 <= i < j < |items| ==> PRs(items)[i].number != PRs(items)[j].number;
    OrderedMap.SortLists(items, (set x | x in items), HeadFirst);
    forall i, j | 0 <= i < j < |sorted|
      ensures PRs(sorted)[i].number != PRs(sorted)[j].number
    {
      assert sorted[i] in items && sorted[j] in items && sorted[i] != sorted[j];
      var k, l := Index(items, sorted[i]), Index(items, sorted[j]);
      assert PRs(items)[k].number != PRs(items)[l].number;
    }
  }

  lemma InPRs(items: seq<Item>, pr: GithubPR)
    ensures pr in PRs(items) <==> exists x :: x in items && x.pr == pr
  {
    if pr in PRs(items) {
      assert items[Index(PRs(items), pr)].pr == pr;
    }
    if x :| x in items && x.pr == pr {
      assert PRs(items)[Index(items, x)] == pr;
    }
  }

  lemma SortedPRs(items: seq<Item>, pr: GithubPR)
    ensures pr in PRs(OrderedMap.InsertionSort(items, HeadFirst)) <==> pr in PRs(items)
  {
    SortedInShape(items);
    InPRs(items, pr);
    InPRs(OrderedMap.InsertionSort(items, HeadFirst), pr);
  }

  lemma TriggeringAreHeld(cfg: Config, listing: seq<GithubPR>, items: seq<Item>, contents: map<Branch, Content>)
    requires Collected(cfg, listing, items)
    requires forall b :: Matches(cfg, PRs(OrderedMap.InsertionSort(items, HeadFirst)), contents, b)
    ensures HoldsTheTriggering(cfg, listing, contents)
  {
    var s := PRs(OrderedMap.InsertionSort(items, HeadFirst));
    forall b, n
      ensures n in Tracked(contents, b) <==> n in NumberSet(Line(contents, b))
      ensures n in Tracked(contents, b) <==>
              exists pr :: pr in listing && cfg.Triggers(pr) && pr.base == b && pr.number == n
    {
      assert Matches(cfg, s, contents, b);
      WantedMeaning(cfg, s, b, n);
      forall pr | cfg.Triggers(pr)
        ensures pr in s <==> pr in listing
      {
        SortedPRs(items, pr);
        InPRs(items, pr);
      }
    }
  }

  lemma EarliestAreKept(cfg: Config, listing: seq<GithubPR>, items: seq<Item>, contents: map<Branch, Content>)
    requires Collected(cfg, listing, items) && NumbersDiffer(listing)
    requires forall b :: Matches(cfg, PRs(OrderedMap.InsertionSort(items, HeadFirst)), contents, b)
    ensures EarliestIsFirst(cfg, listing, contents)
  {
    forall i: nat | EarliestHead(cfg, listing, i)
      ensures var line := Line(contents, listing[i].base); line != [] && line[0].number == listing[i].number
    {
      assert Matches(cfg, PRs(OrderedMap.InsertionSort(items, HeadFirst)), contents, listing[i].base);
      LeadsMeansEarliest(cfg, listing, i);
      SameHeads(cfg, listing, items, listing[i].base);
    }
  }

  lemma SameNumber(s: seq<GithubPR>, x: GithubPR, y: GithubPR)
    requires NumbersDiffer(s) && x in s && y in s && x.number == y.number
    ensures x == y
  {
    var i, j := Index(s, x), Index(s, y);
    assert i == j;
  }

  lemma LeadsIffEarliest(cfg: Config, s: seq<GithubPR>, i: nat)
    requires i < |s| && NumbersDiffer(s)
    ensures Leads(cfg, s, s[i].base, s[i].number) <==> EarliestHead(cfg, s, i)
  {
    if cfg.Head(s[i]) {
      LeadsMeansEarliest(cfg, s, i);
    } else {
      HeadsMeaning(cfg, s, s[i].base, s[i].number);
      if y :| y in s && cfg.Head(y) && y.base == s[i].base && y.number == s[i].number {
        SameNumber(s, y, s[i]);
      }
    }
  }

  lemma SameHeads(cfg: Config, listing: seq<GithubPR>, items: seq<Item>, base: Branch)
    requires Collected(cfg, listing, items)
    ensures Heads(cfg, PRs(OrderedMap.InsertionSort(items, HeadFirst)), base) == Heads(cfg, listing, base)
  {
    forall x | x in items
      ensures x.Fits(cfg)
    {
      assert items[Index(items, x)].Fits(cfg);
    }
    SortKeepsHeads(cfg, items, base);
  }

  lemma LeadsExactlyEarliest(cfg: Config, listing: seq<GithubPR>, base: Branch, n: int)
    requires NumbersDiffer(listing)
    ensures Leads(cfg, listing, base, n) <==>
            exists i: nat :: EarliestHead(cfg, listing, i) && listing[i].base == base && listing[i].number == n
  {
    if Leads(cfg, listing, base, n) {
      HeadsMeaning(cfg, listing, base, n);
      var pr :| pr in listing && cfg.Head(pr) && pr.base == base && pr.number == n;
      LeadsMeansEarliest(cfg, listing, Index(listing, pr));
    }
    if i: nat :| EarliestHead(cfg, listing, i) && listing[i].base == base && listing[i].number == n {
      LeadsMeansEarliest(cfg, listing, i);
    }
  }

  lemma OthersAreUnlabelled(cfg: Config, listing: seq<GithubPR>, items: seq<Item>, removed: set<int>)
    requires Collected(cfg, listing, items) && NumbersDiffer(listing)
    requires Unlabelled(cfg, PRs(OrderedMap.InsertionSort(items, HeadFirst)), removed)
    ensures UnlabelsTheOthers(cfg, listing, removed)
  {
    var s := PRs(OrderedMap.InsertionSort(items, HeadFirst));
    forall pr
      ensures pr in s ==> pr in listing
      ensures pr in listing && OutOfSync(cfg, pr) ==> pr in s
    {
      SortedPRs(items, pr);
      InPRs(items, pr);
      if pr in s {
        assert items[Index(PRs(items), pr)].pr in listing;
      }
    }
    forall i: nat | i < |listing|
      ensures listing[i].number in removed <==> cfg.Labelled(listing[i]) && !EarliestHead(cfg, listing, i)
    {
      var pr := listing[i];
      SameHeads(cfg, listing, items, pr.base);
      LeadsIffEarliest(cfg, listing, i);
      if pr.number in removed {
        var y :| y in s && y.number == pr.number;
        SameNumber(listing, y, pr);
      }
    }
  }

  /** The pull requests that call for an action are complete. */
  ghost predicate AllComplete(cfg: Config, listing: seq<GithubPR>) {
    forall pr :: pr in listing && OutOfSync(cfg, pr) ==> Complete(pr)
  }

  /** They also name their base branches. */
  ghost predicate AllNamed(cfg: Config, listing: seq<GithubPR>) {
    forall pr :: pr in listing && OutOfSync(cfg, pr) ==> pr.base != ""
  }

  lemma SortedFit(cfg: Config, listing: seq<GithubPR>, items: seq<Item>, sorted: seq<Item>)
    requires Collected(cfg, listing, items) && sorted == OrderedMap.InsertionSort(items, HeadFirst)
    ensures forall i :: 0 <= i < |sorted| ==> sorted[i].Fits(cfg)
    ensures AllComplete(cfg, listing) <==> forall i :: 0 <= i < |sorted| ==> Complete(sorted[i].pr)
    ensures NumbersDiffer(listing) && AllComplete(cfg, listing) && AllNamed(cfg, listing) ==> InShape(sorted)
  {
    SortedInShape(items);
    if NumbersDiffer(listing) {
      SortedNumbers(items);
    }
    forall i | 0 <= i < |sorted|
      ensures sorted[i].Fits(cfg) && sorted[i].pr in listing && OutOfSync(cfg, sorted[i].pr)
    {
      assert items[Index(items, sorted[i])] == sorted[i];
    }
    if forall i :: 0 <= i < |sorted| ==> Complete(sorted[i].pr) {
      forall pr | pr in listing && OutOfSync(cfg, pr)
        ensures Complete(pr)
      {
        SortedPRs(items, pr);
        assert sorted[Index(PRs(sorted), pr)].pr == pr;
      }
    }
  }

  lemma ResetsMeaning(cfg: Config, listing: seq<GithubPR>, items: seq<Item>, sorted: seq<Item>)
    requires Collected(cfg, listing, items) && sorted == OrderedMap.InsertionSort(items, HeadFirst)
    ensures forall n :: n in ResetNumbers(sorted) <==> exists pr :: pr in listing && cfg.Reports(pr) && pr.number == n
  {
    SortedInShape(items);
    forall x | x in sorted
      ensures x.Fits(cfg) && x.pr in listing
    {
      assert items[Index(items, x)] == x;
    }
    forall pr | pr in listing && cfg.Reports(pr)
      ensures pr.number in ResetNumbers(sorted)
    {
      assert pr in PRs(items);
      InPRs(items, pr);
      var x :| x in items && x.pr == pr;
      assert x in sorted;
    }
  }

  lemma KeptAreFlagged(cfg: Config, listing: seq<GithubPR>, items: seq<Item>, contents: map<Branch, Content>)
    requires Collected(cfg, listing, items) && NumbersDiffer(listing)
    requires forall b, p :: b in contents && p in contents[b].active ==>
      p.hasHeadLabel == Leads(cfg, PRs(OrderedMap.InsertionSort(items, HeadFirst)), b, p.number)
    ensures EarliestIsFlagged(cfg, listing, contents)
  {
    forall b, p | b in contents && p in contents[b].active
      ensures p.hasHeadLabel <==>
        exists i: nat :: EarliestHead(cfg, listing, i) && listing[i].base == b && listing[i].number == p.number
    {
      SameHeads(cfg, listing, items, b);
      LeadsExactlyEarliest(cfg, listing, b, p.number);
    }
  }

  /**
   sync, for empty queues.  The calls to GitHub that remove labels and reset statuses may
   fail; the queues come out the same.
   */
  method Synchronise(c: Coordinator, cfg: Config, listing: seq<GithubPR>, clock: nat -> int, statusOk: int -> bool)
    returns (ok: bool, removed: set<int>, resets: set<int>)
    requires c.Valid() && c.queues == map[] && c.contents == map[]
    modifies c
    ensures c.Valid() && OneWinnerEach(c.contents) && c.Primed()
    ensures (forall q :: q in c.queues.Values ==> fresh(q)) && (forall p :: Outside(c.contents, p) || fresh(p))
    ensures ok ==> forall n :: n in resets <==> exists pr :: pr in listing && cfg.Reports(pr) && pr.number == n
    ensures ok <==> forall pr :: pr in listing && OutOfSync(cfg, pr) ==> pr.number > 0 && pr.branch != ""
    ensures NumbersDiffer(listing) && AllComplete(cfg, listing) && AllNamed(cfg, listing) ==>
      && HoldsTheTriggering(cfg, listing, c.contents)
      && EarliestIsFirst(cfg, listing, c.contents)
      && EarliestIsFlagged(cfg, listing, c.contents)
      && UnlabelsTheOthers(cfg, listing, removed)
  {
    hide OneWinnerEach;
    hide Holds;
    var items := Collect(cfg, listing);
    var sorted := OrderedMap.InsertionSort(items, HeadFirst);
    SortedInShape(items);
    SortedFit(cfg, listing, items, sorted);
    ghost var preserved;
    ok, preserved, removed, resets := Apply(c, cfg, sorted, clock, statusOk);
    ResetsMeaning(cfg, listing, items, sorted);
    if NumbersDiffer(listing) && AllComplete(cfg, listing) && AllNamed(cfg, listing) {
      TriggeringAreHeld(cfg, listing, items, c.contents);
      EarliestAreKept(cfg, listing, items, c.contents);
      KeptAreFlagged(cfg, listing, items, c.contents);
      OthersAreUnlabelled(cfg, listing, items, removed);
    }
  }
}
