/** Safety of the job queue over whole runs: no job is duplicated, no job is lost. */
module JobSafety {
  import opened Lists
  import opened JobProtocol

  // ---- Counting the copies of one id --------------------------------------------------------

  function IsId(e: Entry, id: Id): nat {
    if e.Good? && e.job.id == id then 1 else 0
  }

  function Count(xs: seq<Entry>, id: Id): nat {
    if xs == [] then 0 else IsId(xs[0], id) + Count(xs[1..], id)
  }

  lemma CountCons(e: Entry, xs: seq<Entry>, id: Id)
    ensures Count([e] + xs, id) == IsId(e, id) + Count(xs, id)
  {
    assert ([e] + xs)[1..] == xs;
  }

  lemma {:induction false} CountSnoc(xs: seq<Entry>, e: Entry, id: Id)
    ensures Count(xs + [e], id) == Count(xs, id) + IsId(e, id)
  {
    if xs == [] {
      assert xs + [e] == [e];
    } else {
      assert (xs + [e])[1..] == xs[1..] + [e];
      CountSnoc(xs[1..], e, id);
    }
  }

  lemma {:induction false} CountRemove(xs: seq<Entry>, e: Entry, id: Id)
    requires e in xs
    ensures Count(xs, id) == Count(RemoveFirst(xs, e), id) + IsId(e, id)
  {
    if xs[0] != e {
      CountRemove(xs[1..], e, id);
      CountCons(xs[0], RemoveFirst(xs[1..], e), id);
    }
  }

  lemma {:induction false} CountMember(xs: seq<Entry>, e: Entry, id: Id)
    requires e in xs
    ensures IsId(e, id) <= Count(xs, id)
  {
    CountRemove(xs, e, id);
  }

  // ---- What the clients hold ----------------------------------------------------------------

  /** `Held`: the client runs the job, which sits in processing. `Hand`: the client alone has the
      job, between LREM and LPUSH. `Replaced`: the queue holds a copy the client will remove.
      `Grip`: as `Hand`, and still so after the client has crashed there. */
  datatype Part = Held | Hand | Replaced | Grip

  function One(c: Client, part: Part, id: Id): nat {
    match (c, part)
    case (Holding(job), Held) => if job.id == id then 1 else 0
    case (Completing(job, _), Held) => if job.id == id then 1 else 0
    case (Abandoning(job, _, _), Held) => if job.id == id then 1 else 0
    case (Returning(job, _), Hand) => if job.id == id then 1 else 0
    case (Resetting(job), Hand) => if job.id == id then 1 else 0
    case (Replacing(raw), Replaced) => IsId(raw, id)
    case (Returning(job, _), Grip) => if job.id == id then 1 else 0
    case (Resetting(job), Grip) => if job.id == id then 1 else 0
    case (Crashed(Returning(job, _)), Grip) => if job.id == id then 1 else 0
    case (Crashed(Resetting(job)), Grip) => if job.id == id then 1 else 0
    case _ => 0
  }

  function Total(clients: seq<Client>, part: Part, id: Id): nat {
    if clients == [] then 0 else One(clients[0], part, id) + Total(clients[1..], part, id)
  }

  lemma {:induction false} TotalUpdate(clients: seq<Client>, i: nat, c: Client, part: Part, id: Id)
    requires i < |clients|
    ensures Total(clients[i := c], part, id) + One(clients[i], part, id) == Total(clients, part, id) + One(c, part, id)
  {
    if i == 0 {
      assert clients[i := c][1..] == clients[1..];
    } else {
      TotalUpdate(clients[1..], i - 1, c, part, id);
      assert clients[i := c][1..] == clients[1..][i - 1 := c];
    }
  }

  lemma {:induction false} TotalMember(clients: seq<Client>, i: nat, part: Part, id: Id)
    requires i < |clients|
    ensures One(clients[i], part, id) <= Total(clients, part, id)
  {
    if i > 0 {
      TotalMember(clients[1..], i - 1, part, id);
    }
  }

  lemma {:induction false} TotalPair(clients: seq<Client>, i: nat, j: nat, part: Part, id: Id)
    requires i < j < |clients|
    ensures One(clients[i], part, id) + One(clients[j], part, id) <= Total(clients, part, id)
  {
    if i == 0 {
      TotalMember(clients[1..], j - 1, part, id);
    } else {
      TotalPair(clients[1..], i - 1, j - 1, part, id);
    }
  }

  lemma {:induction false} TotalWitness(clients: seq<Client>, part: Part, id: Id) returns (j: nat)
    requires Total(clients, part, id) > 0
    ensures j < |clients| && One(clients[j], part, id) > 0
  {
    if One(clients[0], part, id) > 0 {
      j := 0;
    } else {
      var k := TotalWitness(clients[1..], part, id);
      j := k + 1;
    }
  }

  lemma {:induction false} TotalIdle(n: nat, part: Part, id: Id)
    ensures Total(seq(n, _ => Idle), part, id) == 0
  {
    if n > 0 {
      assert seq(n, _ => Idle)[1..] == seq(n - 1, _ => Idle);
      TotalIdle(n - 1, part, id);
    }
  }

  // ---- The invariant of calm runs -----------------------------------------------------------

  /** The copies of `id`, counted over the five places a job can be in. */
  function Places(s: System, id: Id): nat {
    Count(s.queue, id) + Count(s.processing, id) + Count(s.dead, id) + Total(s.clients, Hand, id) + s.completed[id]
  }

  predicate Balanced(s: System, id: Id) {
    && Places(s, id) == (if id in s.enqueued then 1 else 0)
    && Count(s.processing, id) == Total(s.clients, Held, id)
    && Total(s.clients, Replaced, id) <= Count(s.queue, id)
  }

  predicate ClientOk(s: System, c: Client) {
    match c
    case Holding(job) => Good(job) in s.processing
    case Completing(job, item) => item == Good(job) && item in s.processing
    case Abandoning(job, _, item) => item == Good(job) && item in s.processing
    case Replacing(raw) => raw.Good? && raw in s.queue
    case DeadLettering(_) => false
    case Crashed(_) => false
    case _ => true
  }

  ghost predicate AllGood(s: System) {
    forall e :: e in s.queue || e in s.processing || e in s.dead ==> e.Good?
  }

  ghost predicate Tidy(s: System) {
    && AllGood(s)
    && (forall id :: Balanced(s, id))
    && (forall i | 0 <= i < |s.clients| :: ClientOk(s, s.clients[i]))
  }

  lemma TidyInit(n: nat)
    ensures Tidy(Init(n))
  {
    forall id ensures Balanced(Init(n), id) {
      TotalIdle(n, Held, id);
      TotalIdle(n, Hand, id);
      TotalIdle(n, Replaced, id);
    }
  }

  /** The totals for `id` when client `i` moves from its state to `c`. */
  lemma Moves(s: System, i: nat, c: Client, id: Id)
    requires i < |s.clients|
    ensures Total(s.clients[i := c], Held, id) + One(s.clients[i], Held, id) == Total(s.clients, Held, id) + One(c, Held, id)
    ensures Total(s.clients[i := c], Hand, id) + One(s.clients[i], Hand, id) == Total(s.clients, Hand, id) + One(c, Hand, id)
    ensures Total(s.clients[i := c], Replaced, id) + One(s.clients[i], Replaced, id) == Total(s.clients, Replaced, id) + One(c, Replaced, id)
  {
    TotalUpdate(s.clients, i, c, Held, id);
    TotalUpdate(s.clients, i, c, Hand, id);
    TotalUpdate(s.clients, i, c, Replaced, id);
  }

  /** `id` stays balanced when client `i` moves to `c` and the lists change to match. */
  lemma Rebalance(s: System, t: System, i: nat, c: Client, id: Id)
    requires Balanced(s, id) && i < |s.clients| && t.clients == s.clients[i := c]
    requires Count(t.queue, id) + Count(t.processing, id) + Count(t.dead, id) + One(c, Hand, id) + t.completed[id]
             + (if id in s.enqueued then 1 else 0)
          == Count(s.queue, id) + Count(s.processing, id) + Count(s.dead, id) + One(s.clients[i], Hand, id) + s.completed[id]
             + (if id in t.enqueued then 1 else 0)
    requires Count(t.processing, id) + One(s.clients[i], Held, id) == Count(s.processing, id) + One(c, Held, id)
    requires Total(s.clients, Replaced, id) + One(c, Replaced, id) <= Count(t.queue, id) + One(s.clients[i], Replaced, id)
    ensures Balanced(t, id)
  {
    Moves(s, i, c, id);
  }

  lemma TidyEnqueue(s: System, i: nat, job: Job)
    requires Tidy(s) && Allowed(Calm, s, i, Enqueue(job))
    ensures Tidy(Next(s, i, Enqueue(job)))
  {
    var t := Next(s, i, Enqueue(job));
    forall id ensures Balanced(t, id) {
      assert Balanced(s, id);
      CountCons(Good(job), s.queue, id);
    }
    forall j | 0 <= j < |t.clients| ensures ClientOk(t, t.clients[j]) {
      assert ClientOk(s, s.clients[j]);
    }
  }

  /** An entry nobody is replacing can leave the queue: every replaced entry keeps its copy. */
  lemma ReplacedStaysQueued(s: System, raw: Entry, id: Id)
    requires Tidy(s) && raw in s.queue && Replacing(raw) !in s.clients
    ensures Total(s.clients, Replaced, id) + IsId(raw, id) <= Count(s.queue, id)
  {
    assert Balanced(s, id);
    CountMember(s.queue, raw, id);
    if Total(s.clients, Replaced, id) > 0 && IsId(raw, id) == 1 {
      var j := TotalWitness(s.clients, Replaced, id);
      assert ClientOk(s, s.clients[j]);
      var other := s.clients[j].raw;
      TwoCopies(s.queue, raw, other, id);
      assert false;
    }
  }

  lemma {:induction false} TwoCopies(xs: seq<Entry>, a: Entry, b: Entry, id: Id)
    requires a in xs && b in xs && a != b && IsId(a, id) == 1 && IsId(b, id) == 1
    ensures Count(xs, id) >= 2
  {
    CountRemove(xs, a, id);
    RemoveFirstMultiset(xs, a);
    CountMember(RemoveFirst(xs, a), b, id);
  }

  lemma TidyDequeue(s: System, i: nat)
    requires Tidy(s) && Allowed(Calm, s, i, Dequeue) && s.queue != []
    ensures Tidy(Next(s, i, Dequeue))
  {
    hide Count, Total, RemoveFirst;
    var t := Next(s, i, Dequeue);
    var raw := s.queue[|s.queue| - 1];
    assert s.queue == t.queue + [raw];
    forall id ensures Balanced(t, id) {
      assert Balanced(s, id);
      CountSnoc(t.queue, raw, id);
      CountCons(raw, s.processing, id);
      ReplacedStaysQueued(s, raw, id);
      Rebalance(s, t, i, Holding(raw.job), id);
    }
    forall j | 0 <= j < |t.clients| ensures ClientOk(t, t.clients[j]) {
      assert ClientOk(s, s.clients[j]);
    }
  }

  /** Both scans find the very entry the client was handed. */
  lemma ScanFindsOwn(s: System, i: nat)
    requires Tidy(s) && i < |s.clients| && s.clients[i].Holding?
    ensures FindById(s.processing, s.clients[i].job.id) == Some(Good(s.clients[i].job))
  {
    var job := s.clients[i].job;
    assert ClientOk(s, s.clients[i]) && Balanced(s, job.id);
    var found := FindById(s.processing, job.id);
    if found != Some(Good(job)) {
      TwoCopies(s.processing, Good(job), found.value, job.id);
    }
  }

  lemma TidyScan(s: System, i: nat, a: Action)
    requires Tidy(s) && Allowed(Calm, s, i, a) && (a.ScanToComplete? || a.ScanToAbandon?)
    ensures Tidy(Next(s, i, a))
  {
    hide Count, Total, RemoveFirst;
    var t := Next(s, i, a);
    ScanFindsOwn(s, i);
    forall id ensures Balanced(t, id) {
      assert Balanced(s, id);
      Rebalance(s, t, i, t.clients[i], id);
    }
    forall j | 0 <= j < |t.clients| ensures ClientOk(t, t.clients[j]) {
      assert ClientOk(s, s.clients[j]);
    }
  }

  /** Two clients never hold, nor replace, the same id. */
  lemma NoSharing(s: System, i: nat, j: nat, part: Part, id: Id)
    requires Tidy(s) && i < |s.clients| && j < |s.clients| && i != j && (part == Held || part == Replaced)
    ensures One(s.clients[i], part, id) + One(s.clients[j], part, id) <= 1
  {
    assert Balanced(s, id);
    TotalPair(s.clients, if i < j then i else j, if i < j then j else i, part, id);
  }

  lemma TidyRemove(s: System, i: nat, a: Action)
    requires Tidy(s) && Allowed(Calm, s, i, a) && (a.RemoveCompleted? || a.RemoveAbandoned?)
    ensures Tidy(Next(s, i, a))
  {
    hide Count, Total, RemoveFirst;
    var t := Next(s, i, a);
    var item := s.clients[i].item;
    assert ClientOk(s, s.clients[i]);
    RemoveFirstMultiset(s.processing, item);
    forall id ensures Balanced(t, id) {
      assert Balanced(s, id);
      CountRemove(s.processing, item, id);
      Rebalance(s, t, i, t.clients[i], id);
    }
    forall j | 0 <= j < |t.clients| ensures ClientOk(t, t.clients[j]) {
      assert ClientOk(s, s.clients[j]);
      if j != i && One(s.clients[j], Held, item.job.id) > 0 {
        NoSharing(s, i, j, Held, item.job.id);
      }
    }
  }

  lemma TidyPushAbandoned(s: System, i: nat)
    requires Tidy(s) && Allowed(Calm, s, i, PushAbandoned)
    ensures Tidy(Next(s, i, PushAbandoned))
  {
    hide Count, Total, RemoveFirst;
    var t := Next(s, i, PushAbandoned);
    var updated := Good(Failed(s.clients[i].job, s.clients[i].error));
    forall id ensures Balanced(t, id) {
      assert Balanced(s, id);
      CountCons(updated, s.queue, id);
      CountCons(updated, s.dead, id);
      Rebalance(s, t, i, Idle, id);
    }
    forall j | 0 <= j < |t.clients| ensures ClientOk(t, t.clients[j]) {
      assert ClientOk(s, s.clients[j]);
    }
  }

  lemma TidyPopDead(s: System, i: nat)
    requires Tidy(s) && Allowed(Calm, s, i, PopDead) && s.dead != []
    ensures Tidy(Next(s, i, PopDead))
  {
    hide Count, Total, RemoveFirst;
    var t := Next(s, i, PopDead);
    var raw := s.dead[|s.dead| - 1];
    assert s.dead == t.dead + [raw];
    forall id ensures Balanced(t, id) {
      assert Balanced(s, id);
      CountSnoc(t.dead, raw, id);
      CountCons(raw, s.queue, id);
      Rebalance(s, t, i, Replacing(raw), id);
    }
    forall j | 0 <= j < |t.clients| ensures ClientOk(t, t.clients[j]) {
      assert ClientOk(s, s.clients[j]);
    }
  }

  lemma TidyRemoveDead(s: System, i: nat)
    requires Tidy(s) && Allowed(Calm, s, i, RemoveDead)
    ensures Tidy(Next(s, i, RemoveDead))
  {
    hide Count, Total, RemoveFirst;
    var t := Next(s, i, RemoveDead);
    var raw := s.clients[i].raw;
    assert ClientOk(s, s.clients[i]);
    RemoveFirstMultiset(s.queue, raw);
    forall id ensures Balanced(t, id) {
      assert Balanced(s, id);
      CountRemove(s.queue, raw, id);
      Rebalance(s, t, i, Resetting(raw.job), id);
    }
    forall j | 0 <= j < |t.clients| ensures ClientOk(t, t.clients[j]) {
      assert ClientOk(s, s.clients[j]);
      if j != i && s.clients[j].Replacing? {
        NoSharing(s, i, j, Replaced, raw.job.id);
      }
    }
  }

  lemma TidyPushReset(s: System, i: nat)
    requires Tidy(s) && Allowed(Calm, s, i, PushReset)
    ensures Tidy(Next(s, i, PushReset))
  {
    hide Count, Total, RemoveFirst;
    var t := Next(s, i, PushReset);
    forall id ensures Balanced(t, id) {
      assert Balanced(s, id);
      CountCons(Good(Reset(s.clients[i].job)), s.queue, id);
      Rebalance(s, t, i, Idle, id);
    }
    forall j | 0 <= j < |t.clients| ensures ClientOk(t, t.clients[j]) {
      assert ClientOk(s, s.clients[j]);
    }
  }

  lemma TidyStep(s: System, i: nat, a: Action)
    requires Tidy(s) && Allowed(Calm, s, i, a)
    ensures Tidy(Next(s, i, a))
  {
    assert ClientOk(s, s.clients[i]);
    match a
    case Enqueue(job) => TidyEnqueue(s, i, job);
    case Dequeue => if s.queue != [] { TidyDequeue(s, i); }
    case PushMalformed => assert false;
    case ScanToComplete => TidyScan(s, i, a);
    case ScanToAbandon(_) => TidyScan(s, i, a);
    case RemoveCompleted => TidyRemove(s, i, a);
    case RemoveAbandoned => TidyRemove(s, i, a);
    case PushAbandoned => TidyPushAbandoned(s, i);
    case PopDead => if s.dead != [] { TidyPopDead(s, i); }
    case RemoveDead => TidyRemoveDead(s, i);
    case PushReset => TidyPushReset(s, i);
  }

  lemma {:induction false} TidyRun(s: System, trace: seq<(nat, Action)>, t: System)
    requires Tidy(s) && Reaches(Calm, s, trace, t)
    ensures Tidy(t)
    decreases |trace|
  {
    if trace != [] {
      TidyStep(s, trace[0].0, trace[0].1);
      TidyRun(Next(s, trace[0].0, trace[0].1), trace[1..], t);
    }
  }

  /**
   * Main result: in every calm run of any number of clients, each enqueued id is in exactly one
   * place, and an entry in processing belongs to exactly one client that runs it.
   */
  lemma ExactlyOnePlace(n: nat, trace: seq<(nat, Action)>, t: System, id: Id)
    requires Reaches(Calm, Init(n), trace, t)
    ensures Places(t, id) == (if id in t.enqueued then 1 else 0)
    ensures Total(t.clients, Held, id) == Count(t.processing, id)
    ensures forall i, j | 0 <= i < |t.clients| && 0 <= j < |t.clients| && i != j ::
              One(t.clients[i], Held, id) + One(t.clients[j], Held, id) <= 1
  {
    TidyInit(n);
    TidyRun(Init(n), trace, t);
    assert Balanced(t, id);
    forall i, j | 0 <= i < |t.clients| && 0 <= j < |t.clients| && i != j
      ensures One(t.clients[i], Held, id) + One(t.clients[j], Held, id) <= 1
    {
      NoSharing(t, i, j, Held, id);
    }
  }

  /**
   * The one step that calm runs exclude does duplicate: from any tidy state, if client `j` dequeues
   * the entry client `i` is replacing, and `i` then finishes its iteration, the job is both in
   * processing, held by `j`, and in the queue again.
   */
  lemma PopInsideRequeueDuplicates(s: System, i: nat, j: nat, s1: System, s2: System, t: System)
    requires Tidy(s) && i < |s.clients| && j < |s.clients| && i != j
    requires s.clients[j].Idle? && s.queue != [] && s.clients[i] == Replacing(s.queue[|s.queue| - 1])
    requires s1 == Next(s, j, Dequeue)
    requires Enabled(s1, i, RemoveDead) && s2 == Next(s1, i, RemoveDead)
    requires Enabled(s2, i, PushReset) && t == Next(s2, i, PushReset)
    ensures var id := s.queue[|s.queue| - 1].job.id;
            && Count(t.queue, id) == 1 && Count(t.processing, id) == 1
            && t.clients[j] == Holding(s.queue[|s.queue| - 1].job)
  {
    var raw := s.queue[|s.queue| - 1];
    var rest := s.queue[..|s.queue| - 1];
    LastCopy(s, i, rest, raw);
    CountCons(raw, s.processing, raw.job.id);
    CountCons(Good(Reset(raw.job)), rest, raw.job.id);
  }

  lemma LastCopy(s: System, i: nat, rest: seq<Entry>, raw: Entry)
    requires Tidy(s) && i < |s.clients| && s.clients[i] == Replacing(raw) && s.queue == rest + [raw]
    ensures raw.Good? && Count(rest, raw.job.id) == 0 && Count(s.processing, raw.job.id) == 0
    ensures RemoveFirst(rest, raw) == rest
  {
    assert ClientOk(s, s.clients[i]) && Balanced(s, raw.job.id);
    CountSnoc(rest, raw, raw.job.id);
    if raw in rest {
      CountMember(rest, raw, raw.job.id);
      assert false;
    }
    RemoveAbsent(rest, raw);
  }

  lemma {:induction false} RemoveAbsent(xs: seq<Entry>, e: Entry)
    requires e !in xs
    ensures RemoveFirst(xs, e) == xs
  {
    if xs != [] {
      RemoveAbsent(xs[1..], e);
    }
  }

  /** From the pop of an entry that client `i` is replacing two commands lead to a duplicate. */
  lemma DuplicateReached(s: System, i: nat, j: nat, s1: System) returns (trace: seq<(nat, Action)>, t: System)
    requires Tidy(s) && i < |s.clients| && Enabled(s, j, Dequeue)
    requires s.queue != [] && s.clients[i] == Replacing(s.queue[|s.queue| - 1]) && s1 == Next(s, j, Dequeue)
    ensures Reaches(Calm, s1, trace, t) && s.queue[|s.queue| - 1].Good? && Places(t, s.queue[|s.queue| - 1].job.id) >= 2
  {
    assert ClientOk(s, s.clients[i]);
    assert Allowed(Calm, s1, i, RemoveDead);
    var s2 := Next(s1, i, RemoveDead);
    assert Allowed(Calm, s2, i, PushReset);
    t := Next(s2, i, PushReset);
    PopInsideRequeueDuplicates(s, i, j, s1, s2, t);
    trace := [(i, RemoveDead), (i, PushReset)];
    hide Next, Allowed;
    TwoSteps(s1, i, RemoveDead, s2, PushReset, t);
  }

  lemma TwoSteps(s: System, i: nat, a: Action, s1: System, b: Action, t: System)
    requires Allowed(Calm, s, i, a) && s1 == Next(s, i, a) && Allowed(Calm, s1, i, b) && t == Next(s1, i, b)
    ensures Reaches(Calm, s, [(i, a), (i, b)], t)
  {
    hide Next, Allowed;
    var trace: seq<(nat, Action)> := [(i, a), (i, b)];
    assert trace[1..] == [(i, b)] && |trace[1..][1..]| == 0;
    assert Reaches(Calm, s1, trace[1..], t);
  }

  lemma OneAtMost(t: System, id: Id)
    requires Tidy(t)
    ensures Places(t, id) <= 1
  {
    assert Balanced(t, id);
  }

  /**
   * The guard is exact. In a tidy system a pop leaves no way to a duplicate - no calm run from there ever has an id
   * in two places - exactly when no client is about to remove the popped entry inside requeueDeadJobs.
   */
  lemma PopIsSafeIff(s: System, j: nat)
    requires Tidy(s) && Enabled(s, j, Dequeue) && s.queue != []
    ensures (forall trace, t, id :: Reaches(Calm, Next(s, j, Dequeue), trace, t) ==> Places(t, id) <= 1)
            <==> Replacing(s.queue[|s.queue| - 1]) !in s.clients
  {
    hide Places, Reaches;
    var raw, u := s.queue[|s.queue| - 1], Next(s, j, Dequeue);
    if Replacing(raw) !in s.clients {
      TidyStep(s, j, Dequeue);
      forall trace, t, id | Reaches(Calm, u, trace, t) ensures Places(t, id) <= 1 {
        TidyRun(u, trace, t);
        OneAtMost(t, id);
      }
    } else {
      var i :| 0 <= i < |s.clients| && s.clients[i] == Replacing(raw);
      var trace, t := DuplicateReached(s, i, j, u);
    }
  }
}
