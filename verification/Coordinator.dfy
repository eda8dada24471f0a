/** The merge queues of all base branches of a repository. */
module Coordinator {
  import opened LinkedList
  import opened MergeQueue
  import opened PullRequests
  import P = ProcessPR

  type Branch = string

  datatype Error = NoError | NotFound | AlreadyExists

  /** What is in a queue: the active pull requests in their order, the suspended ones by number. */
  datatype Content = Content(active: seq<PullRequest>, suspended: map<int, PullRequest>) {
    function Members(): set<PullRequest> {
      (set p | p in active) + suspended.Values
    }

    function Known(): set<int> {
      suspended.Keys + set n | n in Numbers(active)
    }

    /** The pull request with the number. */
    ghost function With(n: int): PullRequest
      requires n in Known()
    {
      if n in suspended then suspended[n] else active[Index(Numbers(active), n)]
    }

    /** What is left without the pull request with the number. */
    ghost function Without(n: int): Content {
      if n in suspended then Content(active, suspended - {n})
      else if n in Numbers(active) then Content(RemoveAt(active, Index(Numbers(active), n)), suspended)
      else this
    }

    ghost predicate Sound() {
      && Distinct(Numbers(active))
      && (forall n :: n in suspended ==> suspended[n].number == n)
      && (forall i :: 0 <= i < |active| ==> active[i].number !in suspended)
    }
  }

  /** What is queued for base. */
  function At(c: map<Branch, Content>, base: Branch): Content {
    if base in c then c[base] else Content([], map[])
  }

  /** The active pull requests for base, in their order. */
  function Line(c: map<Branch, Content>, base: Branch): seq<PullRequest> {
    At(c, base).active
  }

  /** The numbers that are queued for base. */
  function Tracked(c: map<Branch, Content>, base: Branch): set<int> {
    At(c, base).Known()
  }

  /** The pull requests queued for base. */
  function Members(c: map<Branch, Content>, base: Branch): set<PullRequest> {
    At(c, base).Members()
  }

  /** The number is queued for some base branch. */
  ghost predicate Anywhere(c: map<Branch, Content>, n: int) {
    exists b :: n in Tracked(c, b)
  }

  /** The pull request is in no queue. */
  ghost predicate Outside(c: map<Branch, Content>, pr: PullRequest) {
    forall b :: pr !in Members(c, b)
  }

  /** What is left without the pull request for base that has the number. */
  ghost function Left(c: map<Branch, Content>, base: Branch, n: int): map<Branch, Content> {
    if base in c then c[base := c[base].Without(n)] else c
  }

  /** What moving n from one set to another makes of one of them. */
  function Moved(known: set<int>, from: bool, to: bool, n: int): set<int> {
    (if from then known - {n} else known) + if to then {n} else {}
  }

  /** members, without the pull request that was removed, if one was. */
  function Except(members: set<PullRequest>, removed: PullRequest?): set<PullRequest> {
    set p | p in members && p != removed
  }

  ghost predicate Gains(before: Content, after: Content, pr: PullRequest) {
    && pr.number !in before.Known()
    && Joined(before.active, after.active, pr) && after.suspended == before.suspended
  }

  /** Nothing differs but what is queued for base. */
  ghost predicate SameBut(c: map<Branch, Content>, d: map<Branch, Content>, base: Branch) {
    forall b :: b != base ==> At(c, b) == At(d, b)
  }

  /** No pull request is in two queues. */
  ghost predicate Disjoint(c: map<Branch, Content>) {
    forall b, d :: b != d ==> Members(c, b) !! Members(c, d)
  }

  /** GitHub may merge none of the pull requests but the first active one. */
  ghost predicate OneWinner(c: Content)
    reads c.Members()
  {
    && !WinnerBehind(c.active)
    && (forall n :: n in c.suspended ==> !c.suspended[n].Winner())
  }

  /** Every queue has at most one winner, its first active pull request. */
  ghost predicate OneWinnerEach(c: map<Branch, Content>)
    reads set b, p | b in c && p in c[b].Members() :: p
  {
    Disjoint(c) && forall b :: b in c ==> OneWinner(c[b])
  }

  /** processPR is queued for a pull request that comes into an empty line. */
  function ForNewcomer(line: seq<PullRequest>, err: Error, n: int): seq<QueuedTask> {
    if err == NoError && line == [] then [QueuedTask(n, P.TaskTriggerCI)] else []
  }

  /** It is queued for the one that becomes first when n leaves. */
  function ForSuccessor(before: Content, after: Content, n: int): seq<QueuedTask> {
    if n !in before.suspended && before.active != [] && before.active[0].number == n then
      ForNewFirst(after.active, P.TaskNone)
    else []
  }

  /**
   The tasks of a queue when n has moved: was are those from before, and left is what
   is in the queue without n.  A queue that is left empty is removed with its tasks.
   */
  function MovedTasks(was: seq<QueuedTask>, before: Content, left: Content, from: bool, to: bool, err: Error, n: int)
    : seq<QueuedTask>
  {
    (if from && left == Content([], map[]) then [] else was)
    + (if from then ForSuccessor(before, left, n) else [])
    + (if to then ForNewcomer(left.active, err, n) else [])
  }

  lemma MovedOn(was: seq<QueuedTask>, before: Content, left: Content, from: bool, to: bool, err: Error, n: int)
    ensures MovedTasks(was, before, left, from, false, NotFound, n)
            + (if to then ForNewcomer(left.active, err, n) else [])
            == MovedTasks(was, before, left, from, to, err, n)
  {
  }

  lemma EmptySuccessor(before: Content, n: int)
    ensures ForSuccessor(before, Content([], map[]), n) == []
  {
  }

  ghost function View(q: Queue): Content
    reads q
  {
    Content(q.active, q.suspended)
  }

  /** The queue is in order and has just these pull requests. */
  ghost predicate Holds(q: Queue, c: Content)
    reads q
  {
    q.Valid() && q.GaugesRight() && View(q) == c
  }

  class Coordinator {
    var queues: map<Branch, Queue>
    ghost var contents: map<Branch, Content>

    /** The queues are separate objects, each in order. */
    ghost predicate Valid()
      reads this, queues.Values
    {
      Separate() && forall b :: b in queues ==> Holds(queues[b], contents[b])
    }

    ghost predicate Separate()
      reads this
    {
      && contents.Keys == queues.Keys
      && forall b, c :: b in queues && c in queues && b != c ==> queues[b] != queues[c]
    }

    /** The tasks queued for a branch; none without a queue. */
    function Tasks(base: Branch): seq<QueuedTask>
      reads this, queues.Values
    {
      if base in queues then queues[base].tasks else []
    }

    /** processPR is queued for the first one of each queue, with CI, and nothing else is. */
    ghost predicate Primed()
      reads this, queues.Values
    {
      forall b :: b in queues ==> PrimedAt(b)
    }

    ghost predicate PrimedAt(base: Branch)
      requires base in queues
      reads this, queues[base]
    {
      base in contents && queues[base].tasks == ForNewFirst(contents[base].active, P.TaskTriggerCI)
    }

    /** The same, for all branches but one. */
    ghost predicate PrimedBut(base: Branch)
      reads this, queues.Values
    {
      forall b :: b in queues && b != base ==> PrimedAt(b)
    }

    constructor ()
      ensures Valid() && queues == map[] && contents == map[]
    {
      queues, contents := map[], map[];
    }

    /** The queue of a base branch is created when it is first needed. */
    method EnsureQueue(base: Branch)
      requires Valid()
      modifies this
      ensures Valid() && base in queues
      ensures base in old(queues) ==> queues == old(queues) && contents == old(contents)
      ensures base !in old(queues) ==>
        && queues == old(queues)[base := queues[base]] && fresh(queues[base]) && queues[base].tasks == []
        && contents == old(contents)[base := Content([], map[])]
      ensures old(Primed()) ==> Primed()
    {
      if base !in queues {
        CreateQueue(base);
      }
    }

    /** A new queue for base. */
    method CreateQueue(base: Branch)
      requires Valid() && base !in queues
      modifies this
      ensures Valid() && base in queues
      ensures queues == old(queues)[base := queues[base]] && fresh(queues[base]) && queues[base].tasks == []
      ensures contents == old(contents)[base := Content([], map[])]
      ensures old(Primed()) ==> Primed()
    {
      var q := new Queue();
      TakeOn(base, q);
    }

    /** A queue with nothing in it becomes that of base. */
    method TakeOn(base: Branch, q: Queue)
      requires Valid() && base !in queues && q !in queues.Values
      requires Holds(q, Content([], map[])) && q.tasks == []
      modifies this
      ensures Valid() && queues == old(queues)[base := q] && contents == old(contents)[base := Content([], map[])]
      ensures old(Primed()) ==> Primed()
    {
      hide Holds;
      queues, contents := queues[base := q], contents[base := Content([], map[])];
    }

    /** The queues but that of base are in order. */
    ghost predicate OthersHold(base: Branch)
      reads this, queues.Values
    {
      Separate() && forall b :: b in queues && b != base ==> Holds(queues[b], contents[b])
    }

    /** What is in the queue of base is put down anew. */
    ghost method Update(base: Branch)
      requires OthersHold(base) && base in queues && queues[base].Valid() && queues[base].GaugesRight()
      modifies this`contents
      ensures Valid() && contents == old(contents)[base := View(queues[base])]
      ensures old(PrimedBut(base)) ==> PrimedBut(base)
    {
      hide Queue.Valid;
      hide Queue.GaugesRight;
      contents := contents[base := View(queues[base])];
    }

    /** Enqueue on the queue of base. */
    method AddTo(base: Branch, pr: PullRequest, now: int) returns (err: Error)
      requires Valid() && base in queues
      modifies this`contents, queues[base], pr`activeSince
      ensures Valid()
      ensures err == if pr.number in old(contents)[base].Known() then AlreadyExists else NoError
      ensures base in contents && contents == old(contents)[base := contents[base]]
      ensures err == AlreadyExists ==> contents == old(contents)
      ensures err == NoError ==> Gains(old(contents)[base], contents[base], pr)
      ensures queues[base].tasks == old(queues[base].tasks) + ForNewcomer(old(contents)[base].active, err, pr.number)
      ensures old(Primed()) ==> Primed()
    {
      hide Content.Known;
      hide Gains;
      hide PrimedBut;
      hide Primed;
      err := FileAt(base, pr, now);
      hide Holds;
      Update(base);
      PrimedAgain(base);
    }

    /** The queue of base has got the pull request; what is in it is not put down yet. */
    method FileAt(base: Branch, pr: PullRequest, now: int) returns (err: Error)
      requires Valid() && base in queues
      modifies queues[base], pr`activeSince
      ensures OthersHold(base) && queues[base].Valid() && queues[base].GaugesRight()
      ensures err == if pr.number in contents[base].Known() then AlreadyExists else NoError
      ensures err == AlreadyExists ==> View(queues[base]) == contents[base]
      ensures err == NoError ==> Gains(contents[base], View(queues[base]), pr)
      ensures queues[base].tasks == old(queues[base].tasks) + ForNewcomer(contents[base].active, err, pr.number)
      ensures old(Primed()) ==>
        PrimedBut(base) && queues[base].tasks == ForNewFirst(View(queues[base]).active, P.TaskTriggerCI)
    {
      var q := queues[base];
      assert View(q) == contents[base];
      ghost var primed := Primed();
      assert primed ==> PrimedAt(base) && PrimedBut(base);
      hide Content.Known;
      hide Gains;
      err := File(q, pr, now);
      hide Queue.Valid;
      hide Queue.GaugesRight;
    }

    lemma PrimedAgain(base: Branch)
      requires Valid() && base in queues
      ensures PrimedBut(base) && queues[base].tasks == ForNewFirst(contents[base].active, P.TaskTriggerCI) ==> Primed()
    {
      hide Holds;
    }

    /** Dequeue on the queue of base. */
    method TakeFrom(base: Branch, n: int, setPending: bool, pendingOk: bool, labelOk: bool)
      returns (removed: PullRequest?)
      requires Valid() && base in queues
      modifies this`contents, queues[base]
      modifies contents[base].active`hasHeadLabel, contents[base].active`lastReported
      ensures Valid()
      ensures contents == old(contents)[base := old(contents)[base].Without(n)]
      ensures removed == if n in old(contents)[base].Known() then old(contents)[base].With(n) else null
      ensures queues[base].tasks == old(queues[base].tasks) + ForSuccessor(old(contents)[base], contents[base], n)
      ensures old(OneWinner(contents[base])) ==>
        && OneWinner(contents[base])
        && (removed != null ==>
          (removed.Winner() <==> old(contents[base].With(n).lastReported.SuccessFor?) && !(setPending && pendingOk)))
    {
      var q := queues[base];
      assert View(q) == contents[base];
      hide Content.Known;
      hide Content.With;
      hide Content.Without;
      hide PullRequest.Winner;
      hide OneWinner;
      ghost var one := OneWinner(contents[base]);
      removed := Unfile(q, n, setPending, pendingOk, labelOk);
      ghost var left := View(q);
      assert one ==> OneWinner(left);
      hide Holds;
      hide View;
      Update(base);
    }

    /** Enqueue. */
    method Enqueue(base: Branch, pr: PullRequest, now: int) returns (err: Error)
      requires Valid()
      modifies this, (if base in queues then {queues[base]} else {}), pr`activeSince
      ensures Valid()
      ensures err == if pr.number in Tracked(old(contents), base) then AlreadyExists else NoError
      ensures base in contents && contents == old(contents)[base := contents[base]]
      ensures if err == AlreadyExists then contents == old(contents)
              else Gains(At(old(contents), base), contents[base], pr)
      ensures base in old(queues) ==> queues == old(queues)
      ensures base !in old(queues) ==> queues == old(queues)[base := queues[base]] && fresh(queues[base])
      ensures base in queues && queues[base].tasks ==
        (if base in old(queues) then old(queues[base].tasks) else [])
        + ForNewcomer(Line(old(contents), base), err, pr.number)
      ensures forall b :: b != base ==> Tasks(b) == old(Tasks(b))
      ensures forall q :: q in queues.Values ==> q in old(queues.Values) || fresh(q)
      ensures old(Primed()) ==> Primed()
      ensures old(OneWinnerEach(contents)) && Outside(old(contents), pr) ==>
        (OneWinnerEach(contents) <==> err == AlreadyExists || Line(old(contents), base) == [] || !old(pr.Winner()))
    {
      ghost var before := contents;
      hide Gains;
      hide Holds;
      hide Content.Known;
      hide Tasks;
      hide ForNewcomer;
      hide Valid;
      hide Primed;
      err := EnqueueIn(base, pr, now);
      forall b | b in before
        ensures FlagsStay(before[b])
      {
      }
      hide FlagsStay;
      hide Content.Members;
      AllWinnersStay(before);
      if err == NoError && OneWinnerEach(before) && Outside(before, pr) {
        WinnersAfterEnqueue(before, contents, base, pr);
      }
      hide OneWinnerEach;
    }

    /** Enqueue, but for what it means for winners. */
    method EnqueueIn(base: Branch, pr: PullRequest, now: int) returns (err: Error)
      requires Valid()
      modifies this, (if base in queues then {queues[base]} else {}), pr`activeSince
      ensures Valid()
      ensures err == if pr.number in Tracked(old(contents), base) then AlreadyExists else NoError
      ensures base in contents && contents == old(contents)[base := contents[base]]
      ensures if err == AlreadyExists then contents == old(contents)
              else Gains(At(old(contents), base), contents[base], pr)
      ensures base in old(queues) ==> queues == old(queues)
      ensures base !in old(queues) ==> queues == old(queues)[base := queues[base]] && fresh(queues[base])
      ensures base in queues && queues[base].tasks ==
        (if base in old(queues) then old(queues[base].tasks) else [])
        + ForNewcomer(Line(old(contents), base), err, pr.number)
      ensures forall b :: b != base ==> Tasks(b) == old(Tasks(b))
      ensures forall q :: q in queues.Values ==> q in old(queues.Values) || fresh(q)
      ensures old(Primed()) ==> Primed()
    {
      hide Holds;
      hide Gains;
      hide Primed;
      ghost var before := contents;
      EnsureQueue(base);
      assert At(contents, base) == At(before, base);
      assert base in before || At(before, base).Known() == {};
      hide Content.Known;
      err := AddTo(base, pr, now);
    }

    /**
     Dequeue.  A queue that is empty afterwards is removed: its worker has nothing left
     to do, because a task for a pull request that is not first does nothing.
     */
    method Dequeue(base: Branch, n: int, setPending: bool, pendingOk: bool, labelOk: bool)
      returns (removed: PullRequest?, err: Error)
      requires Valid()
      modifies this, (if base in queues then {queues[base]} else {})
      modifies Line(contents, base)`hasHeadLabel, Line(contents, base)`lastReported
      ensures Valid()
      ensures err == if n in Tracked(old(contents), base) then NoError else NotFound
      ensures removed == if n in Tracked(old(contents), base) then At(old(contents), base).With(n) else null
      ensures SameBut(contents, old(contents), base) && At(contents, base) == At(old(contents), base).Without(n)
      ensures base in contents <==> At(contents, base) != Content([], map[])
      ensures queues == if base in contents then old(queues) else old(queues) - {base}
      ensures queues.Values <= old(queues.Values)
      ensures base in queues ==>
        queues[base].tasks == old(queues[base].tasks) + ForSuccessor(At(old(contents), base), At(contents, base), n)
      ensures forall b :: b != base ==> Tasks(b) == old(Tasks(b))
      ensures old(OneWinnerEach(contents)) ==>
        && OneWinnerEach(contents)
        && (removed != null ==>
          (removed.Winner() <==>
             old(At(contents, base).With(n).lastReported.SuccessFor?) && !(setPending && pendingOk)))
    {
      ghost var before := contents;
      hide Holds;
      hide Content.Sound;
      hide Content.Known;
      hide Content.With;
      hide Content.Without;
      hide OneWinner;
      hide PullRequest.Winner;
      hide Valid;
      hide Separate;
      hide SameBut;
      WinnerAt(contents, base);
      removed, err := DequeueIn(base, n, setPending, pendingOk, labelOk);
      forall b | b in before && Members(before, b) !! Members(before, base)
        ensures FlagsStay(before[b])
      {
      }
      forall b | b in before && b != base && old(OneWinnerEach(contents))
        ensures OneWinner(before[b])
      {
        WinnersStay(before[b]);
      }
      hide FlagsStay;
      hide OneWinnerEach;
      if old(OneWinnerEach(contents)) {
        WinnersAfterDequeue(before, contents, base, n);
      }
    }

    /** Dequeue, but for the winners of the other queues. */
    method DequeueIn(base: Branch, n: int, setPending: bool, pendingOk: bool, labelOk: bool)
      returns (removed: PullRequest?, err: Error)
      requires Valid()
      modifies this, (if base in queues then {queues[base]} else {})
      modifies Line(contents, base)`hasHeadLabel, Line(contents, base)`lastReported
      ensures Valid()
      ensures At(old(contents), base).Sound()
      ensures err == if n in Tracked(old(contents), base) then NoError else NotFound
      ensures removed == if n in Tracked(old(contents), base) then At(old(contents), base).With(n) else null
      ensures SameBut(contents, old(contents), base) && At(contents, base) == At(old(contents), base).Without(n)
      ensures base in contents <==> At(contents, base) != Content([], map[])
      ensures queues == if base in contents then old(queues) else old(queues) - {base}
      ensures queues.Values <= old(queues.Values)
      ensures base in queues ==>
        queues[base].tasks == old(queues[base].tasks) + ForSuccessor(At(old(contents), base), At(contents, base), n)
      ensures forall b :: b != base ==> Tasks(b) == old(Tasks(b))
      ensures old(OneWinner(At(contents, base))) ==>
        && OneWinner(At(contents, base))
        && (removed != null ==>
          (removed.Winner() <==>
             old(At(contents, base).With(n).lastReported.SuccessFor?) && !(setPending && pendingOk)))
    {
      NothingQueued(n);
      assert base in queues ==> Holds(queues[base], contents[base]) && contents[base].Sound();
      assert At(contents, base).Sound();
      hide Holds;
      hide Content.Sound;
      hide Content.Known;
      hide Content.With;
      hide Content.Without;
      hide OneWinner;
      if base !in queues {
        return null, NotFound;
      }
      removed := TakeOut(base, n, setPending, pendingOk, labelOk);
      err := if removed == null then NotFound else NoError;
    }

    /** Dequeue where there is a queue. */
    method TakeOut(base: Branch, n: int, setPending: bool, pendingOk: bool, labelOk: bool)
      returns (removed: PullRequest?)
      requires Valid() && base in queues
      modifies this, queues[base]
      modifies contents[base].active`hasHeadLabel, contents[base].active`lastReported
      ensures Valid()
      ensures removed == if n in old(contents)[base].Known() then old(contents)[base].With(n) else null
      ensures SameBut(contents, old(contents), base) && At(contents, base) == old(contents)[base].Without(n)
      ensures base in contents <==> At(contents, base) != Content([], map[])
      ensures queues == if base in contents then old(queues) else old(queues) - {base}
      ensures base in queues ==>
        queues[base].tasks == old(queues[base].tasks) + ForSuccessor(old(contents)[base], At(contents, base), n)
      ensures forall b :: b != base ==> Tasks(b) == old(Tasks(b))
      ensures old(OneWinner(contents[base])) ==>
        && OneWinner(At(contents, base))
        && (removed != null ==>
          (removed.Winner() <==> old(contents[base].With(n).lastReported.SuccessFor?) && !(setPending && pendingOk)))
    {
      hide Holds;
      hide Content.Known;
      hide Content.With;
      hide Content.Without;
      hide WinnerBehind;
      removed := TakeFrom(base, n, setPending, pendingOk, labelOk);
      DropIfEmpty(base);
    }

    /** An empty queue is removed. */
    method DropIfEmpty(base: Branch)
      requires Valid() && base in queues
      modifies this
      ensures Valid()
      ensures contents == if At(old(contents), base) == Content([], map[]) then old(contents) - {base}
              else old(contents)
      ensures queues == if base in contents then old(queues) else old(queues) - {base}
    {
      assert Holds(queues[base], contents[base]);
      EmptyView(queues[base]);
      assert Holds(queues[base], contents[base]);
      hide Holds;
      if queues[base].Empty() {
        Drop(base);
      }
    }

    /** The queue of base is removed. */
    method Drop(base: Branch)
      requires Valid() && base in queues
      modifies this
      ensures Valid() && contents == old(contents) - {base} && queues == old(queues) - {base}
    {
      hide Holds;
      queues, contents := queues - {base}, contents - {base};
    }

    /**
     ChangeBaseBranch, as one step: whatever it comes to, the repository tracks the
     numbers it tracked before.  A queue gets a second winner just when the pull request
     comes behind another one and was reported successful, and that could not be undone.
     */
    method ChangeBaseBranch(from: Branch, to: Branch, n: int, pendingOk: bool, labelOk: bool, now: int)
      returns (err: Error)
      requires Valid()
      modifies this, queues.Values, Members(contents, from)
      ensures Valid()
      ensures err ==
        if n !in Tracked(old(contents), from) then NotFound
        else if from != to && n in Tracked(old(contents), to) then AlreadyExists else NoError
      ensures err == NotFound ==> forall b :: At(contents, b) == At(old(contents), b)
      ensures err != NotFound ==>
        forall b :: Tracked(contents, b) == Moved(Tracked(old(contents), b), b == from, b == to, n)
      ensures forall m :: Anywhere(contents, m) <==> Anywhere(old(contents), m)
      ensures err != NotFound ==> forall b :: b != to || err == AlreadyExists ==>
        At(contents, b) == At(Left(old(contents), from, n), b)
      ensures err == NoError ==>
        Gains(At(Left(old(contents), from, n), to), At(contents, to), old(At(contents, from).With(n)))
      ensures forall p :: Outside(old(contents), p) ==> Outside(contents, p)
      ensures forall b ::
        Tasks(b) == MovedTasks(old(Tasks(b)), At(old(contents), b), At(Left(old(contents), from, n), b), b == from,
                               b == to, err, n)
      ensures forall q :: q in queues.Values ==> q in old(queues.Values) || fresh(q)
      ensures old(OneWinnerEach(contents)) ==>
        (OneWinnerEach(contents) <==>
          || err != NoError || pendingOk || !old(At(contents, from).With(n).lastReported.SuccessFor?)
          || Line(Left(old(contents), from, n), to) == [])
    {
      SoundAt(from);
      hide Valid;
      hide Separate;
      hide SameBut;
      hide Outside;
      hide Moved;
      hide PullRequest.Winner;
      hide Left;
      hide Holds;
      hide Content.Sound;
      hide Content.Without;
      hide Content.With;
      hide Content.Known;
      hide Gains;
      hide OneWinnerEach;
      hide Anywhere;
      hide ForNewcomer;
      hide ForSuccessor;
      ghost var before := contents;
      ghost var between;
      hide MovedTasks;
      err, between := Requeue(from, to, n, pendingOk, labelOk, now);
      BaseChanged(before, between, contents, from, to, n, err);
      AfterRemoval(before, between, from, n);
      forall b
        ensures Tasks(b) ==
          MovedTasks(old(Tasks(b)), At(before, b), At(Left(before, from, n), b), b == from, b == to, err, n)
      {
        MovedOn(old(Tasks(b)), At(before, b), At(between, b), b == from, b == to, err, n);
      }
      hide Tasks;
      hide At;
      hide Line;
    }

    /** The Dequeue and the Enqueue of ChangeBaseBranch, with what is between the two. */
    method Requeue(from: Branch, to: Branch, n: int, pendingOk: bool, labelOk: bool, now: int)
      returns (err: Error, ghost between: map<Branch, Content>)
      requires Valid()
      modifies this, queues.Values, Members(contents, from)
      ensures Valid()
      ensures At(old(contents), from).Sound()
      ensures SameBut(between, old(contents), from) && At(between, from) == At(old(contents), from).Without(n)
      ensures n !in Tracked(old(contents), from) ==> err == NotFound && contents == between
      ensures n in Tracked(old(contents), from) ==>
        && err == (if n in Tracked(between, to) then AlreadyExists else NoError)
        && to in contents && contents == between[to := contents[to]]
        && (if err == AlreadyExists then contents == between
            else Gains(At(between, to), contents[to], At(old(contents), from).With(n)))
      ensures forall b ::
        Tasks(b) == MovedTasks(old(Tasks(b)), At(old(contents), b), At(between, b), b == from, false, NotFound, n)
                    + if b == to then ForNewcomer(Line(between, to), err, n) else []
      ensures forall q :: q in queues.Values ==> q in old(queues.Values) || fresh(q)
      ensures old(OneWinnerEach(contents)) ==>
        (OneWinnerEach(contents) <==>
          || err != NoError || pendingOk || !old(At(contents, from).With(n).lastReported.SuccessFor?)
          || Line(Left(old(contents), from, n), to) == [])
    {
      SoundAt(from);
      hide Valid;
      hide Separate;
      hide SameBut;
      hide Outside;
      hide PullRequest.Winner;
      hide Left;
      hide Holds;
      hide Content.Sound;
      hide Content.Without;
      hide Content.With;
      hide Content.Known;
      hide Gains;
      hide OneWinner;
      hide Disjoint;
      hide OneWinnerEach;
      hide ForNewcomer;
      hide ForSuccessor;
      hide Tasks;
      hide MovedTasks;
      var pr;
      pr, err := TakeAway(from, n, pendingOk, labelOk);
      between := contents;
      if err == NoError {
        err := PutIn(to, pr, now);
      }
    }

    /** The Dequeue of ChangeBaseBranch. */
    method TakeAway(from: Branch, n: int, pendingOk: bool, labelOk: bool) returns (pr: PullRequest?, err: Error)
      requires Valid()
      modifies this, (if from in queues then {queues[from]} else {})
      modifies Line(contents, from)`hasHeadLabel, Line(contents, from)`lastReported
      ensures Valid()
      ensures err == if n in Tracked(old(contents), from) then NoError else NotFound
      ensures pr == if n in Tracked(old(contents), from) then At(old(contents), from).With(n) else null
      ensures SameBut(contents, old(contents), from) && At(contents, from) == At(old(contents), from).Without(n)
      ensures queues.Values <= old(queues.Values)
      ensures forall b ::
        Tasks(b) == MovedTasks(old(Tasks(b)), At(old(contents), b), At(contents, b), b == from, false, NotFound, n)
      ensures pr != null ==> pr.number == n && pr in Members(old(contents), from)
      ensures forall b :: At(contents, b) == At(Left(old(contents), from, n), b)
      ensures old(OneWinnerEach(contents)) ==>
        && OneWinnerEach(contents)
        && (pr != null ==>
          && Outside(contents, pr)
          && (pr.Winner() <==> old(At(contents, from).With(n).lastReported.SuccessFor?) && !pendingOk))
    {
      ghost var before := contents;
      SoundAt(from);
      WinnerAt(contents, from);
      hide Valid;
      hide Separate;
      hide OneWinnerEach;
      hide Holds;
      hide Content.Sound;
      hide Content.Without;
      hide Content.With;
      hide Content.Known;
      hide PullRequest.Winner;
      hide MovedTasks;
      hide Tasks;
      hide SameBut;
      hide Outside;
      hide Left;
      hide Members;
      hide Disjoint;
      pr, err := DequeueTasks(from, n, pendingOk, labelOk);
      AfterRemoval(before, contents, from, n);
    }

    /** The same, with what becomes of the tasks. */
    method DequeueTasks(from: Branch, n: int, pendingOk: bool, labelOk: bool) returns (pr: PullRequest?, err: Error)
      requires Valid()
      modifies this, (if from in queues then {queues[from]} else {})
      modifies Line(contents, from)`hasHeadLabel, Line(contents, from)`lastReported
      ensures Valid()
      ensures err == if n in Tracked(old(contents), from) then NoError else NotFound
      ensures pr == if n in Tracked(old(contents), from) then At(old(contents), from).With(n) else null
      ensures SameBut(contents, old(contents), from) && At(contents, from) == At(old(contents), from).Without(n)
      ensures queues.Values <= old(queues.Values)
      ensures forall b ::
        Tasks(b) == MovedTasks(old(Tasks(b)), At(old(contents), b), At(contents, b), b == from, false, NotFound, n)
      ensures old(OneWinnerEach(contents)) ==>
        && OneWinnerEach(contents)
        && (pr != null ==>
          (pr.Winner() <==> old(At(contents, from).With(n).lastReported.SuccessFor?) && !pendingOk))
    {
      hide OneWinnerEach;
      hide Holds;
      hide Content.Without;
      hide Content.With;
      hide Content.Known;
      hide PullRequest.Winner;
      hide ForSuccessor;
      pr, err := Dequeue(from, n, true, pendingOk, labelOk);
      hide SameBut;
      assert from !in queues ==> At(contents, from) == Content([], map[]);
      EmptySuccessor(At(old(contents), from), n);
    }

    /** The Enqueue of ChangeBaseBranch. */
    method PutIn(to: Branch, pr: PullRequest, now: int) returns (err: Error)
      requires Valid()
      modifies this, (if to in queues then {queues[to]} else {}), pr`activeSince
      ensures Valid()
      ensures err == if pr.number in Tracked(old(contents), to) then AlreadyExists else NoError
      ensures to in contents && contents == old(contents)[to := contents[to]]
      ensures if err == AlreadyExists then contents == old(contents)
              else Gains(At(old(contents), to), contents[to], pr)
      ensures forall q :: q in queues.Values ==> q in old(queues.Values) || fresh(q)
      ensures forall b ::
        Tasks(b) == old(Tasks(b)) + if b == to then ForNewcomer(Line(old(contents), to), err, pr.number) else []
      ensures old(OneWinnerEach(contents)) && Outside(old(contents), pr) ==>
        (OneWinnerEach(contents) <==> err == AlreadyExists || Line(old(contents), to) == [] || !old(pr.Winner()))
    {
      hide OneWinnerEach;
      hide Holds;
      hide Gains;
      hide Outside;
      hide Content.Known;
      hide PullRequest.Winner;
      hide ForNewcomer;
      err := Enqueue(to, pr, now);
    }

    /** A step of the queue of base by which no pull request comes. */
    method Turn(base: Branch, e: Event)
      requires Valid() && base in queues
      modifies this`contents, queues[base], Members(contents, base)
      ensures Valid()
      ensures SameBut(contents, old(contents), base) && contents.Keys == old(contents).Keys
      ensures Members(contents, base) <= Members(old(contents), base)
      ensures At(contents, base) == View(queues[base])
      ensures Stepped(e, old(queues[base].Holding()), queues[base].Holding())
      ensures forall b :: b != base ==> Tasks(b) == old(Tasks(b))
      ensures old(OneWinnerEach(contents)) ==> OneWinnerEach(contents)
    {
      ghost var before := contents;
      hide Holds;
      hide Content.Known;
      hide OneWinner;
      TurnIn(base, e);
      forall b | b in before && Members(before, b) !! Members(before, base)
        ensures FlagsStay(before[b])
      {
      }
      hide FlagsStay;
      forall b | b in before && b != base && old(OneWinnerEach(contents))
        ensures OneWinner(before[b])
      {
        WinnersStay(before[b]);
      }
      if old(OneWinnerEach(contents)) {
        assert old(OneWinner(contents[base]));
        FewerAt(before, contents, base);
      }
    }

    /** The step, but for the winners of the other queues. */
    method TurnIn(base: Branch, e: Event)
      requires Valid() && base in queues
      modifies this`contents, queues[base], Members(contents, base)
      ensures Valid()
      ensures base in contents && contents == old(contents)[base := contents[base]]
      ensures Members(contents, base) <= Members(old(contents), base)
      ensures contents[base] == View(queues[base])
      ensures Stepped(e, old(queues[base].Holding()), queues[base].Holding())
      ensures forall b :: b != base ==> Tasks(b) == old(Tasks(b))
      ensures old(OneWinner(contents[base])) ==> OneWinner(contents[base])
    {
      hide Holds;
      hide Stepped;
      StepAt(base, e);
      ghost var now := View(queues[base]);
      assert old(OneWinner(contents[base])) ==> OneWinner(now);
      hide OneWinner;
      hide Content.Members;
      hide View;
      Update(base);
    }

    /** The queue of base has taken the step; what is in it is not put down yet. */
    method StepAt(base: Branch, e: Event)
      requires Valid() && base in queues
      modifies queues[base], Members(contents, base)
      ensures OthersHold(base) && queues[base].Valid() && queues[base].GaugesRight()
      ensures View(queues[base]).Members() <= Members(contents, base)
      ensures Stepped(e, old(queues[base].Holding()), queues[base].Holding())
      ensures forall b :: b != base ==> Tasks(b) == old(Tasks(b))
      ensures old(OneWinner(contents[base])) ==> OneWinner(View(queues[base]))
    {
      var q := queues[base];
      assert View(q) == contents[base];
      hide Stepped;
      hide OneWinner;
      hide Content.Members;
      RunStep(q, e);
      hide Queue.Valid;
      hide Queue.GaugesRight;
    }

    /**
     The periodic trigger, for the queue of base: an empty queue is
     removed, the first of another one is processed.
     */
    method PeriodicTrigger(base: Branch)
      requires Valid() && base in queues
      modifies this, queues[base]
      ensures Valid()
      ensures contents == if At(old(contents), base) == Content([], map[]) then old(contents) - {base}
              else old(contents)
      ensures queues == if base in contents then old(queues) else old(queues) - {base}
      ensures Line(contents, base) != [] ==>
        queues[base].tasks == old(queues[base].tasks) + [QueuedTask(Line(contents, base)[0].number, P.TaskNone)]
      ensures forall b :: b != base ==> Tasks(b) == old(Tasks(b))
    {
      EmptyView(queues[base]);
      assert Holds(queues[base], contents[base]);
      if queues[base].Empty() {
        Drop(base);
      } else {
        TriggerFirst(base);
      }
    }

    /** The first pull request for base is processed. */
    method TriggerFirst(base: Branch)
      requires Valid() && base in queues
      modifies queues[base]
      ensures Valid()
      ensures queues[base].tasks == old(queues[base].tasks) +
        if contents[base].active == [] then [] else [QueuedTask(contents[base].active[0].number, P.TaskNone)]
    {
      assert Holds(queues[base], contents[base]);
      queues[base].ScheduleFirst(P.TaskNone);
      assert Holds(queues[base], contents[base]);
      hide Queue.Valid;
      hide Queue.GaugesRight;
    }

    /** What is queued for a branch has different numbers. */
    lemma SoundAt(base: Branch)
      requires Valid()
      ensures At(contents, base).Sound()
    {
      assert base in queues ==> Holds(queues[base], contents[base]);
    }
  }

  /** What a coordinator relies on about Enqueue of a queue. */
  method File(q: Queue, pr: PullRequest, now: int) returns (err: Error)
    requires q.Valid() && q.GaugesRight()
    modifies q, pr`activeSince
    ensures q.Valid() && q.GaugesRight()
    ensures err == if pr.number in old(View(q)).Known() then AlreadyExists else NoError
    ensures if err == AlreadyExists then View(q) == old(View(q)) else Gains(old(View(q)), View(q), pr)
    ensures q.tasks == old(q.tasks) + ForNewcomer(old(q.active), err, pr.number)
    ensures old(q.tasks == ForNewFirst(q.active, P.TaskTriggerCI)) ==> q.tasks == ForNewFirst(q.active, P.TaskTriggerCI)
  {
    hide Queue.GaugesRight;
    hide Queue.Valid;
    hide Queue.OneWinner;
    var ok := q.Enqueue(pr, now);
    err := if ok then NoError else AlreadyExists;
  }

  /** What a coordinator relies on about a step of a queue. */
  method RunStep(q: Queue, e: Event)
    requires q.Valid() && q.GaugesRight()
    modifies q, View(q).Members()
    ensures q.Valid() && q.GaugesRight()
    ensures View(q).Members() <= old(View(q).Members())
    ensures Stepped(e, old(q.Holding()), q.Holding())
    ensures old(OneWinner(View(q))) ==> OneWinner(View(q))
  {
    hide Queue.Valid;
    hide Queue.GaugesRight;
    hide WinnerBehind;
    hide Stepped;
    ghost var before := q.Members();
    assert View(q).Members() == before;
    q.Step(e);
    assert View(q).Members() == q.Members();
    hide Queue.Members;
    hide Content.Members;
    assert forall p :: p in View(q).Members() ==> p in before;
  }

  /** What a coordinator relies on about Dequeue of a queue. */
  method Unfile(q: Queue, n: int, setPending: bool, pendingOk: bool, labelOk: bool) returns (removed: PullRequest?)
    requires q.Valid() && q.GaugesRight()
    modifies q, q.active`hasHeadLabel, q.active`lastReported
    ensures q.Valid() && q.GaugesRight()
    ensures View(q) == old(View(q)).Without(n)
    ensures removed == if n in old(View(q)).Known() then old(View(q)).With(n) else null
    ensures q.tasks == old(q.tasks) + ForSuccessor(old(View(q)), View(q), n)
    ensures old(OneWinner(View(q))) ==>
      && OneWinner(View(q))
      && (removed != null ==>
        (removed.Winner() <==> old(View(q).With(n).lastReported.SuccessFor?) && !(setPending && pendingOk)))
  {
    if n in Numbers(q.active) {
      IndexOfFirst(q.active, n);
    }
    hide RemoveAt;
    hide Distinct;
    hide Queue.GaugesRight;
    hide WinnerBehind;
    assert n in q.suspended ==> n !in Numbers(q.active);
    ghost var was := View(q);
    removed := q.Dequeue(n, setPending, pendingOk, labelOk);
    assert n !in was.suspended ==> q.suspended == was.suspended;
    assert View(q) == was.Without(n);
    assert q.tasks == old(q.tasks) + ForSuccessor(was, View(q), n);
    hide Content.Without;
    hide ForSuccessor;
  }

  lemma IndexOfFirst(s: seq<PullRequest>, n: int)
    requires n in Numbers(s) && Distinct(Numbers(s))
    ensures Index(Numbers(s), n) == 0 <==> s[0].number == n
  {
  }

  lemma NothingQueued(n: int)
    ensures Content([], map[]).Sound() && Content([], map[]).Known() == {}
    ensures Content([], map[]).Without(n) == Content([], map[])
    ensures OneWinner(Content([], map[]))
  {
  }

  lemma EmptyView(q: Queue)
    ensures q.Empty() <==> View(q) == Content([], map[])
  {
  }

  lemma WithoutMeans(c: Content, n: int)
    requires c.Sound()
    ensures c.Without(n).Known() == c.Known() - {n}
    ensures c.Without(n).Members() == Except(c.Members(), if n in c.Known() then c.With(n) else null)
    ensures n in c.Known() ==> c.With(n).number == n && c.With(n) in c.Members()
  {
    if n in c.suspended {
      WithoutSuspended(c, n);
    } else if n in Numbers(c.active) {
      WithoutActive(c, Index(Numbers(c.active), n));
    }
  }

  lemma WithoutSuspended(c: Content, n: int)
    requires c.Sound() && n in c.suspended
    ensures c.Without(n).Known() == c.Known() - {n}
    ensures c.Without(n).Members() == Except(c.Members(), c.suspended[n])
    ensures c.suspended[n] in c.Members()
  {
    hide Distinct;
    assert forall i :: 0 <= i < |c.active| ==> Numbers(c.active)[i] != n && c.active[i] != c.suspended[n];
    var rest := c.suspended - {n};
    forall p | p in c.suspended.Values && p != c.suspended[n]
      ensures p in rest.Values
    {
      var m := KeyOf(c.suspended, p);
      assert rest[m] == p;
    }
    forall p | p in rest.Values
      ensures p in c.suspended.Values && p != c.suspended[n]
    {
      var m := KeyOf(rest, p);
      assert c.suspended[m] == p;
    }
  }

  lemma WithoutActive(c: Content, i: nat)
    requires c.Sound() && i < |c.active|
    ensures Content(RemoveAt(c.active, i), c.suspended).Known() == c.Known() - {c.active[i].number}
    ensures Content(RemoveAt(c.active, i), c.suspended).Members() == Except(c.Members(), c.active[i])
    ensures c.active[i] in c.Members()
  {
    var s := c.active;
    var r := RemoveAt(s, i);
    KnowsAfterRemove(s, i);
    forall p
      ensures p in r <==> p in s && p != s[i]
    {
      if p in s && p != s[i] {
        var k := Index(s, p);
        assert r[if k < i then k else k - 1] == p;
      }
    }
    hide RemoveAt;
    hide Distinct;
    if s[i] in c.suspended.Values {
      var m := KeyOf(c.suspended, s[i]);
      assert false;
    }
  }

  lemma AfterRemoval(before: map<Branch, Content>, between: map<Branch, Content>, from: Branch, n: int)
    requires At(before, from).Sound()
    requires SameBut(between, before, from) && At(between, from) == At(before, from).Without(n)
    ensures forall b :: At(between, b) == At(Left(before, from, n), b)
    ensures forall b :: Tracked(between, b) == if b == from then Tracked(before, b) - {n} else Tracked(before, b)
    ensures forall p :: Outside(before, p) ==> Outside(between, p)
    ensures n !in Tracked(before, from) ==> forall b :: At(between, b) == At(before, b)
    ensures n in Tracked(before, from) ==>
      && At(before, from).With(n).number == n && At(before, from).With(n) in Members(before, from)
      && !Outside(before, At(before, from).With(n))
      && (Disjoint(before) ==> Outside(between, At(before, from).With(n)))
  {
    WithoutMeans(At(before, from), n);
    NothingQueued(n);
    assert n !in Tracked(before, from) ==> At(before, from).Without(n) == At(before, from);
    hide Content.Sound;
    hide Content.Without;
    hide Content.Known;
    hide Content.With;
    hide Content.Members;
    forall p | Outside(before, p)
      ensures Outside(between, p)
    {
      forall b
        ensures p !in Members(between, b)
      {
        assert p !in Members(before, b);
      }
    }
    if n in Tracked(before, from) && Disjoint(before) {
      var pr := At(before, from).With(n);
      forall b
        ensures pr !in Members(between, b)
      {
        assert b != from ==> Members(before, b) !! Members(before, from);
      }
    }
  }

  lemma AfterInsertion(between: map<Branch, Content>, after: map<Branch, Content>, to: Branch, pr: PullRequest)
    requires to in after && after == between[to := after[to]]
    requires if pr.number in Tracked(between, to) then after == between else Gains(At(between, to), after[to], pr)
    ensures forall b :: Tracked(after, b) == Tracked(between, b) + if b == to then {pr.number} else {}
    ensures forall p :: p != pr && Outside(between, p) ==> Outside(after, p)
  {
    if pr.number !in Tracked(between, to) {
      GainsMeans(At(between, to), after[to], pr);
    }
    hide Content.Known;
    hide Content.Members;
    hide Gains;
    forall p | p != pr && Outside(between, p)
      ensures Outside(after, p)
    {
      forall b
        ensures p !in Members(after, b)
      {
        assert p !in Members(between, b);
      }
    }
  }

  lemma SameAnywhere(c: map<Branch, Content>, d: map<Branch, Content>)
    requires forall b :: At(c, b) == At(d, b)
    ensures forall m :: Anywhere(c, m) <==> Anywhere(d, m)
  {
    forall m
      ensures Anywhere(c, m) <==> Anywhere(d, m)
    {
      assert forall b :: m in Tracked(c, b) <==> m in Tracked(d, b);
    }
  }

  /** What ChangeBaseBranch makes of the contents. */
  lemma BaseChanged(before: map<Branch, Content>, between: map<Branch, Content>, after: map<Branch, Content>,
                    from: Branch, to: Branch, n: int, err: Error)
    requires At(before, from).Sound()
    requires SameBut(between, before, from) && At(between, from) == At(before, from).Without(n)
    requires n !in Tracked(before, from) ==> err == NotFound && after == between
    requires n in Tracked(before, from) ==>
      && err == (if n in Tracked(between, to) then AlreadyExists else NoError)
      && to in after && after == between[to := after[to]]
      && if err == AlreadyExists then after == between else Gains(At(between, to), after[to], At(before, from).With(n))
    ensures err ==
      if n !in Tracked(before, from) then NotFound
      else if from != to && n in Tracked(before, to) then AlreadyExists else NoError
    ensures err == NotFound ==> forall b :: At(after, b) == At(before, b)
    ensures err != NotFound ==> forall b :: Tracked(after, b) == Moved(Tracked(before, b), b == from, b == to, n)
    ensures err != NotFound ==>
      forall b :: b != to || err == AlreadyExists ==> At(after, b) == At(Left(before, from, n), b)
    ensures err == NoError ==>
      Gains(At(Left(before, from, n), to), At(after, to), At(before, from).With(n))
    ensures forall m :: Anywhere(after, m) <==> Anywhere(before, m)
    ensures forall p :: Outside(before, p) ==> Outside(after, p)
  {
    AfterRemoval(before, between, from, n);
    hide Content.Sound;
    hide Content.Without;
    hide Content.With;
    hide Content.Known;
    hide Content.Members;
    hide Gains;
    hide Anywhere;
    hide Moved;
    if n in Tracked(before, from) {
      AfterInsertion(between, after, to, At(before, from).With(n));
      MoveKeepsNumbers(before, between, after, from, to, n);
    } else {
      SameAnywhere(before, between);
    }
  }

  lemma MoveKeepsNumbers(before: map<Branch, Content>, between: map<Branch, Content>, after: map<Branch, Content>,
                         from: Branch, to: Branch, n: int)
    requires n in Tracked(before, from)
    requires forall b :: Tracked(between, b) == if b == from then Tracked(before, b) - {n} else Tracked(before, b)
    requires forall b :: Tracked(after, b) == Tracked(between, b) + if b == to then {n} else {}
    ensures forall b :: Tracked(after, b) == Moved(Tracked(before, b), b == from, b == to, n)
    ensures forall m :: Anywhere(after, m) <==> Anywhere(before, m)
  {
    hide Tracked;
    assert n in Tracked(after, to);
    forall m
      ensures Anywhere(after, m) <==> Anywhere(before, m)
    {
      if m != n {
        assert forall b :: m in Tracked(after, b) <==> m in Tracked(before, b);
      }
    }
  }

  lemma GainsMeans(before: Content, after: Content, pr: PullRequest)
    requires Gains(before, after, pr)
    ensures after.Known() == before.Known() + {pr.number}
    ensures after.Members() == before.Members() + {pr}
    ensures after.active != [] && after.active[0] == if before.active == [] then pr else before.active[0]
  {
    JoinedMembers(before.active, after.active, pr);
    var p: nat :| p <= |before.active| && after.active == InsertAt(before.active, p, pr);
    NumbersInsert(before.active, p, pr);
  }

  lemma JoinedMembers(before: seq<PullRequest>, after: seq<PullRequest>, pr: PullRequest)
    requires Joined(before, after, pr)
    ensures forall p :: p in after <==> p in before || p == pr
    ensures after != [] && after[0] == if before == [] then pr else before[0]
  {
    var p: nat :| p <= |before| && (p == 0 ==> before == []) && after == InsertAt(before, p, pr);
    assert after[p] == pr;
    forall q | q in before
      ensures q in after
    {
      var i := Index(before, q);
      assert after[if i < p then i else i + 1] == q;
    }
    forall q | q in after
      ensures q in before || q == pr
    {
      var i := Index(after, q);
      assert i != p ==> q == before[if i < p then i else i - 1];
    }
  }

  lemma WinnersAfterGain(before: Content, after: Content, pr: PullRequest)
    requires Gains(before, after, pr)
    ensures OneWinner(after) <==> OneWinner(before) && (before.active == [] || !pr.Winner())
  {
    var s, t := before.active, after.active;
    var p: nat :| p <= |s| && (p == 0 ==> s == []) && t == InsertAt(s, p, pr);
    if i :| 1 <= i < |s| && s[i].Winner() {
      assert t[if i < p then i else i + 1].Winner();
    }
    if s != [] && pr.Winner() {
      assert t[p].Winner();
    }
    if i :| 1 <= i < |t| && t[i].Winner() {
      assert i == p || s[if i < p then i else i - 1].Winner();
    }
  }

  /** The flags of the pull requests that count for winners are as they were. */
  twostate predicate FlagsStay(c: Content)
    reads c.Members()
  {
    forall p :: p in c.Members() ==> p.hasHeadLabel == old(p.hasHeadLabel) && p.lastReported == old(p.lastReported)
  }

  twostate lemma WinnersStay(c: Content)
    requires FlagsStay(c)
    ensures OneWinner(c) <==> old(OneWinner(c))
  {
  }

  twostate lemma AllWinnersStay(c: map<Branch, Content>)
    requires forall b :: b in c ==> FlagsStay(c[b])
    ensures OneWinnerEach(c) <==> old(OneWinnerEach(c))
  {
    forall b | b in c
      ensures OneWinner(c[b]) <==> old(OneWinner(c[b]))
    {
      WinnersStay(c[b]);
    }
    hide OneWinner;
  }

  lemma WinnersAfterEnqueue(before: map<Branch, Content>, after: map<Branch, Content>, base: Branch, pr: PullRequest)
    requires OneWinnerEach(before) && Outside(before, pr)
    requires base in after && after == before[base := after[base]]
    requires Gains(At(before, base), after[base], pr)
    ensures OneWinnerEach(after) <==> Line(before, base) == [] || !pr.Winner()
  {
    GainsMeans(At(before, base), after[base], pr);
    WinnersAfterGain(At(before, base), after[base], pr);
    assert OneWinner(At(before, base));
    hide OneWinner;
    hide Gains;
    forall b, d | b != d
      ensures Members(after, b) !! Members(after, d)
    {
      assert Members(before, b) !! Members(before, d);
    }
  }

  lemma WinnerAt(c: map<Branch, Content>, base: Branch)
    ensures OneWinnerEach(c) ==> OneWinner(At(c, base)) && Disjoint(c)
  {
    NothingQueued(0);
  }

  lemma FewerAt(before: map<Branch, Content>, after: map<Branch, Content>, base: Branch)
    requires Disjoint(before) && Members(after, base) <= Members(before, base) && SameBut(after, before, base)
    requires forall b :: b in before && b != base ==> OneWinner(before[b])
    requires OneWinner(At(after, base))
    ensures OneWinnerEach(after)
  {
    NothingQueued(0);
    hide OneWinner;
    hide Content.Members;
    forall b | b in after
      ensures OneWinner(after[b])
    {
      assert after[b] == At(after, b) && (b != base ==> after[b] == At(before, b));
    }
    forall b, d | b != d
      ensures Members(after, b) !! Members(after, d)
    {
      assert Members(before, b) !! Members(before, d);
    }
  }

  lemma WinnersAfterDequeue(before: map<Branch, Content>, after: map<Branch, Content>, base: Branch, n: int)
    requires Disjoint(before) && At(before, base).Sound()
    requires forall b :: b in before && b != base ==> OneWinner(before[b])
    requires SameBut(after, before, base) && At(after, base) == At(before, base).Without(n)
    requires OneWinner(At(after, base))
    ensures OneWinnerEach(after)
  {
    WithoutMeans(At(before, base), n);
    hide Disjoint;
    hide OneWinner;
    hide Content.Without;
    hide Content.Sound;
    FewerAt(before, after, base);
  }
}
