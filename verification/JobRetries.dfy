/** Retry accounting and first-in first-out order, with requeueDeadJobs left undisturbed. */
module JobRetries {
  import opened Lists
  import opened JobProtocol
  import opened JobSafety

  predicate Replacer(clients: seq<Client>) {
    exists i | 0 <= i < |clients| :: clients[i].Replacing?
  }

  /** The queue without the copy an iteration of requeueDeadJobs is about to remove. */
  function Waiting(s: System): seq<Entry> {
    if Replacer(s.clients) && s.queue != [] then s.queue[1..] else s.queue
  }

  /** The entry's retry count is the number of failures since its last reset, and not used up. */
  predicate Level(s: System, e: Entry) {
    e.Good? && e.job.retries == Fails(s, e.job.id) < MAX_RETRIES
  }

  predicate Spent(s: System, e: Entry) {
    e.Good? && e.job.retries == Fails(s, e.job.id) == MAX_RETRIES
  }

  predicate HandLevel(s: System, c: Client) {
    match c
    case Returning(job, _) => Level(s, Good(job))
    case Replacing(raw) => s.queue != [] && s.queue[0] == raw && Spent(s, raw)
    case _ => true
  }

  ghost predicate Paced(s: System) {
    && (forall e :: e in Waiting(s) || e in s.processing ==> Level(s, e))
    && (forall e :: e in s.dead ==> Spent(s, e))
    && (forall i | 0 <= i < |s.clients| :: HandLevel(s, s.clients[i]))
    && (forall i, j | 0 <= i < |s.clients| && 0 <= j < |s.clients| && MidRequeue(s.clients[i]) && MidRequeue(s.clients[j]) :: i == j)
    && s.pushed == s.popped + Reverse(Waiting(s))
  }

  lemma PacedInit(n: nat)
    ensures Paced(Init(n))
  {
  }

  /** While client `i` moves, nobody else replaces an entry. */
  lemma OnlyMover(s: System, i: nat, a: Action)
    requires Allowed(Exclusive, s, i, a)
    ensures Replacer(s.clients) <==> s.clients[i].Replacing?
    ensures Replacer(Next(s, i, a).clients) <==> Next(s, i, a).clients[i].Replacing?
  {
  }

  /** A job in one client's hands is nowhere else. */
  lemma InHandOnly(s: System, i: nat, id: Id)
    requires Tidy(s) && i < |s.clients| && One(s.clients[i], Hand, id) == 1
    ensures forall e :: e in s.queue || e in s.processing || e in s.dead ==> e.Good? && e.job.id != id
    ensures forall j | 0 <= j < |s.clients| && j != i :: One(s.clients[j], Hand, id) == 0
  {
    assert Balanced(s, id);
    TotalMember(s.clients, i, Hand, id);
    forall e | e in s.queue || e in s.processing || e in s.dead ensures e.Good? && e.job.id != id {
      Located(s, e, id);
    }
    forall j | 0 <= j < |s.clients| && j != i ensures One(s.clients[j], Hand, id) == 0 {
      TotalPair(s.clients, if i < j then i else j, if i < j then j else i, Hand, id);
    }
  }

  lemma Located(s: System, e: Entry, id: Id)
    requires e in s.queue || e in s.processing || e in s.dead
    ensures IsId(e, id) <= Count(s.queue, id) + Count(s.processing, id) + Count(s.dead, id)
  {
    if e in s.queue {
      CountMember(s.queue, e, id);
    } else if e in s.processing {
      CountMember(s.processing, e, id);
    } else {
      CountMember(s.dead, e, id);
    }
  }

  lemma {:induction false} ReverseCons(e: Entry, xs: seq<Entry>)
    ensures Reverse([e] + xs) == Reverse(xs) + [e]
  {
    assert ([e] + xs)[1..] == xs;
  }

  lemma PacedEnqueue(s: System, i: nat, job: Job)
    requires Tidy(s) && Paced(s) && Allowed(Exclusive, s, i, Enqueue(job))
    ensures Paced(Next(s, i, Enqueue(job)))
  {
    hide Count, Total, RemoveFirst, Reverse;
    var t := Next(s, i, Enqueue(job));
    OnlyMover(s, i, Enqueue(job));
    ReverseCons(Good(job), s.queue);
    assert Balanced(s, job.id);
    forall e | e in s.queue || e in s.processing || e in s.dead ensures e.Good? && e.job.id != job.id {
      Located(s, e, job.id);
    }
    forall j | 0 <= j < |t.clients| ensures HandLevel(t, t.clients[j]) {
      assert HandLevel(s, s.clients[j]);
      TotalMember(s.clients, j, Hand, job.id);
    }
  }

  /** While nobody replaces an entry the whole queue waits, before and after a pop. */
  lemma PoppedWaits(s: System, i: nat)
    requires Allowed(Exclusive, s, i, Dequeue) && s.queue != []
    ensures Waiting(s) == s.queue && Waiting(Next(s, i, Dequeue)) == s.queue[..|s.queue| - 1]
  {
    OnlyMover(s, i, Dequeue);
  }

  lemma PoppedLevels(s: System, i: nat)
    requires Paced(s) && Allowed(Exclusive, s, i, Dequeue) && s.queue != []
    ensures var t := Next(s, i, Dequeue);
            && (forall e :: e in Waiting(t) || e in t.processing ==> Level(t, e))
            && (forall e :: e in t.dead ==> Spent(t, e))
  {
    var t := Next(s, i, Dequeue);
    PoppedWaits(s, i);
    hide Waiting, HandLevel, Reverse;
    forall e | e in Waiting(t) || e in t.processing ensures Level(t, e) {
      assert e in Waiting(s) || e in s.processing;
      assert Level(s, e);
    }
  }

  lemma PoppedHands(s: System, i: nat)
    requires Paced(s) && Allowed(Exclusive, s, i, Dequeue) && s.queue != []
    ensures var t := Next(s, i, Dequeue);
            && (forall j | 0 <= j < |t.clients| :: HandLevel(t, t.clients[j]) && !MidRequeue(t.clients[j]))
  {
    var t := Next(s, i, Dequeue);
    hide Waiting, Reverse, Spent;
    forall j | 0 <= j < |t.clients| ensures HandLevel(t, t.clients[j]) && !MidRequeue(t.clients[j]) {
      assert HandLevel(s, s.clients[j]);
    }
  }

  lemma PacedDequeue(s: System, i: nat)
    requires Tidy(s) && Paced(s) && Allowed(Exclusive, s, i, Dequeue) && s.queue != []
    ensures Paced(Next(s, i, Dequeue))
  {
    var raw, rest := s.queue[|s.queue| - 1], s.queue[..|s.queue| - 1];
    PoppedWaits(s, i);
    PoppedLevels(s, i);
    PoppedHands(s, i);
    assert s.queue == rest + [raw];
    ReverseSnoc(rest, raw);
    assert s.pushed == s.popped + Reverse(s.queue);
    hide Tidy, Waiting, Reverse, HandLevel, MidRequeue, Level, Spent, Allowed;
  }

  lemma PacedLocal(s: System, i: nat, a: Action)
    requires Tidy(s) && Paced(s) && Allowed(Exclusive, s, i, a)
    requires a.ScanToComplete? || a.ScanToAbandon? || a.RemoveCompleted? || a.RemoveAbandoned?
    ensures Paced(Next(s, i, a))
  {
    var t := Next(s, i, a);
    OnlyMover(s, i, a);
    LocalHands(s, i, a);
    LocalTakes(s, i, a);
    assert Waiting(t) == Waiting(s);
    assert forall e :: (Level(t, e) <==> Level(s, e)) && (Spent(t, e) <==> Spent(s, e));
    hide Next, Tidy, Reverse, HandLevel, MidRequeue, Level, Spent, Waiting;
  }

  lemma LocalTakes(s: System, i: nat, a: Action)
    requires Tidy(s) && Enabled(s, i, a)
    requires a.ScanToComplete? || a.ScanToAbandon? || a.RemoveCompleted? || a.RemoveAbandoned?
    ensures var t := Next(s, i, a);
            && t.queue == s.queue && t.dead == s.dead && t.fails == s.fails && t.pushed == s.pushed && t.popped == s.popped
            && forall e :: e in t.processing ==> e in s.processing
  {
    hide Balanced, FindById, RemoveFirst;
    if a.RemoveCompleted? || a.RemoveAbandoned? {
      RemoveFirstMultiset(s.processing, s.clients[i].item);
    }
  }

  lemma LocalHands(s: System, i: nat, a: Action)
    requires Tidy(s) && Paced(s) && Allowed(Exclusive, s, i, a)
    requires a.ScanToComplete? || a.ScanToAbandon? || a.RemoveCompleted? || a.RemoveAbandoned?
    ensures var t := Next(s, i, a);
            forall j | 0 <= j < |t.clients| :: HandLevel(t, t.clients[j]) && !MidRequeue(t.clients[j])
  {
    var t := Next(s, i, a);
    assert ClientOk(s, s.clients[i]);
    if a.ScanToComplete? || a.ScanToAbandon? {
      ScanFindsOwn(s, i);
    }
    hide Tidy, RemoveFirst, Reverse, FindById, Waiting;
    forall j | 0 <= j < |t.clients| ensures HandLevel(t, t.clients[j]) && !MidRequeue(t.clients[j]) {
      assert HandLevel(s, s.clients[j]);
    }
  }

  /** After a push the counts of all other jobs are as they were. */
  lemma PushedLevels(s: System, i: nat)
    requires Tidy(s) && Paced(s) && Allowed(Exclusive, s, i, PushAbandoned)
    ensures var t := Next(s, i, PushAbandoned);
            && (forall e :: e in Waiting(s) || e in s.processing ==> Level(t, e))
            && (forall e :: e in s.dead ==> Spent(t, e))
            && (var again := Good(Failed(s.clients[i].job, s.clients[i].error));
                if again.job.retries >= MAX_RETRIES then Spent(t, again) else Level(t, again))
  {
    var t, job := Next(s, i, PushAbandoned), s.clients[i].job;
    InHandOnly(s, i, job.id);
    assert HandLevel(s, s.clients[i]);
    hide Tidy, Allowed, Reverse, HandLevel;
    assert forall e: Entry :: e.Good? && e.job.id != job.id ==> (Level(t, e) <==> Level(s, e)) && (Spent(t, e) <==> Spent(s, e));
    assert forall e :: e in Waiting(s) ==> e in s.queue;
    hide Waiting;
  }

  lemma PushedHands(s: System, i: nat)
    requires Tidy(s) && Paced(s) && Allowed(Exclusive, s, i, PushAbandoned)
    ensures var t := Next(s, i, PushAbandoned);
            forall j | 0 <= j < |t.clients| :: HandLevel(t, t.clients[j]) && !MidRequeue(t.clients[j])
  {
    var t, job := Next(s, i, PushAbandoned), s.clients[i].job;
    InHandOnly(s, i, job.id);
    hide Tidy, Reverse, Waiting;
    forall j | 0 <= j < |t.clients| ensures HandLevel(t, t.clients[j]) && !MidRequeue(t.clients[j]) {
      assert HandLevel(s, s.clients[j]);
    }
  }

  lemma PacedPushAbandoned(s: System, i: nat)
    requires Tidy(s) && Paced(s) && Allowed(Exclusive, s, i, PushAbandoned)
    ensures Paced(Next(s, i, PushAbandoned))
  {
    var t := Next(s, i, PushAbandoned);
    var updated := Good(Failed(s.clients[i].job, s.clients[i].error));
    OnlyMover(s, i, PushAbandoned);
    PushedLevels(s, i);
    PushedHands(s, i);
    ReverseCons(updated, s.queue);
    assert Waiting(s) == s.queue && Waiting(t) == t.queue;
    hide Tidy, Allowed, Reverse, Waiting, HandLevel, MidRequeue, Level, Spent, Failed;
  }

  lemma PacedPopDead(s: System, i: nat)
    requires Tidy(s) && Paced(s) && Allowed(Exclusive, s, i, PopDead) && s.dead != []
    ensures Paced(Next(s, i, PopDead))
  {
    var t := Next(s, i, PopDead);
    OnlyMover(s, i, PopDead);
    assert t.queue[1..] == s.queue;
    assert Spent(s, s.dead[|s.dead| - 1]);
    forall j | 0 <= j < |t.clients| ensures HandLevel(t, t.clients[j]) {
      assert HandLevel(s, s.clients[j]);
    }
  }

  lemma PacedRemoveDead(s: System, i: nat)
    requires Tidy(s) && Paced(s) && Allowed(Exclusive, s, i, RemoveDead)
    ensures Paced(Next(s, i, RemoveDead))
  {
    var t := Next(s, i, RemoveDead);
    OnlyMover(s, i, RemoveDead);
    assert HandLevel(s, s.clients[i]);
    assert t.queue == Waiting(s);
    forall j | 0 <= j < |t.clients| ensures HandLevel(t, t.clients[j]) {
      assert HandLevel(s, s.clients[j]);
    }
  }

  lemma PacedPushReset(s: System, i: nat)
    requires Tidy(s) && Paced(s) && Allowed(Exclusive, s, i, PushReset)
    ensures Paced(Next(s, i, PushReset))
  {
    hide Count, Total, RemoveFirst, Reverse;
    var t := Next(s, i, PushReset);
    OnlyMover(s, i, PushReset);
    InHandOnly(s, i, s.clients[i].job.id);
    ReverseCons(Good(Reset(s.clients[i].job)), s.queue);
    forall j | 0 <= j < |t.clients| ensures HandLevel(t, t.clients[j]) {
      assert HandLevel(s, s.clients[j]);
    }
  }

  lemma PacedStep(s: System, i: nat, a: Action)
    requires Tidy(s) && Paced(s) && Allowed(Exclusive, s, i, a)
    ensures Paced(Next(s, i, a))
  {
    assert ClientOk(s, s.clients[i]);
    match a
    case Enqueue(job) => PacedEnqueue(s, i, job);
    case Dequeue => if s.queue != [] { PacedDequeue(s, i); }
    case PushMalformed => assert false;
    case PushAbandoned => PacedPushAbandoned(s, i);
    case PopDead => if s.dead != [] { PacedPopDead(s, i); }
    case RemoveDead => PacedRemoveDead(s, i);
    case PushReset => PacedPushReset(s, i);
    case _ => PacedLocal(s, i, a);
  }

  lemma {:induction false} PacedRun(s: System, trace: seq<(nat, Action)>, t: System)
    requires Tidy(s) && Paced(s) && Reaches(Exclusive, s, trace, t)
    ensures Paced(t)
    decreases |trace|
  {
    if trace != [] {
      var s' := Next(s, trace[0].0, trace[0].1);
      TidyStep(s, trace[0].0, trace[0].1);
      PacedStep(s, trace[0].0, trace[0].1);
      PacedRun(s', trace[1..], t);
    }
  }

  /**
   * Main result: with iterations of requeueDeadJobs undisturbed, a waiting or processing job has
   * failed `retries` times since its last reset and fewer than MAX_RETRIES times; a dead job has
   * failed exactly MAX_RETRIES times; and jobs leave the queue in the very order they entered it.
   */
  lemma RetriesAndOrder(n: nat, trace: seq<(nat, Action)>, t: System)
    requires Reaches(Exclusive, Init(n), trace, t)
    ensures forall e :: e in Waiting(t) || e in t.processing ==>
              e.Good? && e.job.retries == Fails(t, e.job.id) && e.job.retries < MAX_RETRIES
    ensures forall e :: e in t.dead ==> e.Good? && e.job.retries == Fails(t, e.job.id) == MAX_RETRIES
    ensures t.popped <= t.pushed
    ensures t.pushed[|t.popped|..] == Reverse(Waiting(t))
  {
    TidyInit(n);
    PacedInit(n);
    PacedRun(Init(n), trace, t);
    forall e | e in Waiting(t) || e in t.processing
      ensures e.Good? && e.job.retries == Fails(t, e.job.id) && e.job.retries < MAX_RETRIES
    {
      assert Level(t, e);
    }
    forall e | e in t.dead ensures e.Good? && e.job.retries == Fails(t, e.job.id) == MAX_RETRIES {
      assert Spent(t, e);
    }
  }
}
