/** What the jobs of the queue carry: the payload they were submitted with and the error of their last failure. */
module JobContents {
  import opened Lists
  import opened JobProtocol
  import opened JobSafety
  import opened JobRetries

  /**
   * A job is the submitted one, or has its id and payload with no failure on record since a reset, or with an error
   * that was reported for it.
   */
  predicate Authentic(s: System, job: Job) {
    && job.id in s.enqueued
    && var first := s.enqueued[job.id];
       && job.id == first.id && job.payload == first.payload
       && if job.retries == 0 then job == first || job.lastError.None?
          else job.lastError.Some? && job.lastError.value in Errors(s, job.id)
  }

  predicate AuthenticEntry(s: System, e: Entry) {
    e.Good? ==> Authentic(s, e.job)
  }

  /** What a client has in its hands, or had when it crashed. */
  predicate InHands(s: System, c: Client) {
    match c
    case Idle => true
    case Holding(job) => Authentic(s, job)
    case Completing(job, item) => Authentic(s, job) && AuthenticEntry(s, item)
    case Abandoning(job, _, item) => Authentic(s, job) && AuthenticEntry(s, item)
    case Returning(job, _) => Authentic(s, job)
    case DeadLettering(raw) => AuthenticEntry(s, raw)
    case Replacing(raw) => AuthenticEntry(s, raw)
    case Resetting(job) => Authentic(s, job)
    case Crashed(at) => InHands(s, at)
  }

  ghost predicate AllAuthentic(s: System) {
    && (forall e :: e in s.queue || e in s.processing || e in s.dead ==> AuthenticEntry(s, e))
    && (forall i | 0 <= i < |s.clients| :: InHands(s, s.clients[i]))
  }

  /** The records only grow, and what was submitted stays so. */
  ghost predicate Records(s: System, t: System) {
    && (forall id :: id in s.enqueued ==> id in t.enqueued && t.enqueued[id] == s.enqueued[id])
    && (forall id :: Errors(s, id) <= Errors(t, id))
  }

  lemma Stays(s: System, t: System, job: Job)
    requires Records(s, t) && Authentic(s, job)
    ensures Authentic(t, job)
  {
    assert job.lastError.Some? && job.lastError.value in Errors(s, job.id) ==> job.lastError.value in Errors(t, job.id);
  }

  lemma {:induction false} HandsStay(s: System, t: System, c: Client)
    requires Records(s, t) && InHands(s, c)
    ensures InHands(t, c)
  {
    hide Records, Authentic;
    match c
    case Holding(job) => Stays(s, t, job);
    case Completing(job, item) =>
      Stays(s, t, job);
      EntryStays(s, t, item);
    case Abandoning(job, _, item) =>
      Stays(s, t, job);
      EntryStays(s, t, item);
    case Returning(job, _) => Stays(s, t, job);
    case DeadLettering(raw) => EntryStays(s, t, raw);
    case Replacing(raw) => EntryStays(s, t, raw);
    case Resetting(job) => Stays(s, t, job);
    case Crashed(at) => HandsStay(s, t, at);
    case Idle =>
  }

  lemma EntryStays(s: System, t: System, e: Entry)
    requires Records(s, t) && AuthenticEntry(s, e)
    ensures AuthenticEntry(t, e)
  {
    if e.Good? {
      Stays(s, t, e.job);
    }
  }

  lemma RecordsGrow(s: System, i: nat, a: Action)
    requires Enabled(s, i, a)
    ensures Records(s, Next(s, i, a))
  {
    var t := Next(s, i, a);
    if a.PushAbandoned? {
      var job := s.clients[i].job;
      assert forall id :: Errors(t, id) == if id == job.id then Errors(s, id) + [s.clients[i].error] else Errors(s, id);
      hide Next, Errors;
    } else {
      OnlyEnqueued(s, i, a);
      assert forall id :: Errors(t, id) == Errors(s, id);
      hide Next, Errors;
    }
  }

  lemma OnlyEnqueued(s: System, i: nat, a: Action)
    requires Enabled(s, i, a) && !a.PushAbandoned?
    ensures var t := Next(s, i, a);
            t.errors == s.errors && t.enqueued == if a.Enqueue? then s.enqueued[a.submitted.id := a.submitted] else s.enqueued
  {
    hide RemoveFirst, FindById;
  }

  /** What a step puts into a list or into the hands of the client that moves. */
  ghost predicate Brings(s: System, i: nat, t: System)
    requires i < |s.clients|
  {
    && |t.clients| == |s.clients| && (forall j | 0 <= j < |s.clients| && j != i :: t.clients[j] == s.clients[j])
    && InHands(t, t.clients[i])
    && (forall e :: e in t.queue || e in t.processing || e in t.dead ==>
          e in s.queue || e in s.processing || e in s.dead || AuthenticEntry(t, e))
  }

  lemma PopBrings(s: System, i: nat, a: Action)
    requires AllAuthentic(s) && Enabled(s, i, a) && (a.Dequeue? || a.PopDead?)
    ensures Brings(s, i, Next(s, i, a))
  {
    var t := Next(s, i, a);
    RecordsGrow(s, i, a);
    var from := if a.Dequeue? then s.queue else s.dead;
    assert InHands(s, s.clients[i]);
    hide Records, Authentic;
    if from != [] {
      EntryStays(s, t, from[|from| - 1]);
    } else {
      HandsStay(s, t, s.clients[i]);
    }
  }

  lemma RemoveBrings(s: System, i: nat, a: Action)
    requires AllAuthentic(s) && Enabled(s, i, a) && (a.RemoveCompleted? || a.RemoveAbandoned? || a.RemoveDead?)
    ensures Brings(s, i, Next(s, i, a))
  {
    var t, c := Next(s, i, a), s.clients[i];
    RecordsGrow(s, i, a);
    assert InHands(s, c);
    HandsStay(s, t, c);
    RemoveTakes(s, i, a);
    hide Records, Authentic, RemoveFirst, AllAuthentic;
    assert InHands(t, t.clients[i]);
    hide InHands, AuthenticEntry;
  }

  lemma RemoveTakes(s: System, i: nat, a: Action)
    requires Enabled(s, i, a) && (a.RemoveCompleted? || a.RemoveAbandoned? || a.RemoveDead?)
    ensures var t := Next(s, i, a);
            forall e :: e in t.queue || e in t.processing || e in t.dead ==> e in s.queue || e in s.processing || e in s.dead
  {
    hide RemoveFirst;
    var c := s.clients[i];
    if a.RemoveDead? {
      RemoveFirstMultiset(s.queue, c.raw);
    } else {
      RemoveFirstMultiset(s.processing, c.item);
    }
  }

  lemma PushBrings(s: System, i: nat, a: Action)
    requires AllAuthentic(s) && Enabled(s, i, a)
    requires a.PushAbandoned? || a.PushReset? || a.PushMalformed? || a.Enqueue? || a.InjectMalformed?
    ensures Brings(s, i, Next(s, i, a))
  {
    var t, c := Next(s, i, a), s.clients[i];
    RecordsGrow(s, i, a);
    assert InHands(s, c);
    HandsStay(s, t, c);
    hide Records;
    if a.PushAbandoned? {
      assert Errors(t, c.job.id) == Errors(s, c.job.id) + [c.error];
      assert Authentic(t, Failed(c.job, c.error));
    } else if a.PushReset? {
      assert Authentic(t, Reset(c.job));
    } else if a.Enqueue? {
      assert Authentic(t, a.submitted);
    }
    hide Authentic;
  }

  lemma LocalBrings(s: System, i: nat, a: Action)
    requires AllAuthentic(s) && Enabled(s, i, a) && (a.ScanToComplete? || a.ScanToAbandon? || a.Crash?)
    ensures Brings(s, i, Next(s, i, a))
  {
    var t, c := Next(s, i, a), s.clients[i];
    RecordsGrow(s, i, a);
    assert InHands(s, c);
    hide Records, Authentic, FindById;
    HandsStay(s, t, c);
    if !a.Crash? {
      ScannedAuthentic(s, t, c.job.id);
    }
  }

  lemma StepBrings(s: System, i: nat, a: Action)
    requires AllAuthentic(s) && Enabled(s, i, a)
    ensures Brings(s, i, Next(s, i, a))
  {
    hide Next, AllAuthentic, Brings;
    match a
    case Dequeue => PopBrings(s, i, a);
    case PopDead => PopBrings(s, i, a);
    case RemoveCompleted => RemoveBrings(s, i, a);
    case RemoveAbandoned => RemoveBrings(s, i, a);
    case RemoveDead => RemoveBrings(s, i, a);
    case ScanToComplete => LocalBrings(s, i, a);
    case ScanToAbandon(_) => LocalBrings(s, i, a);
    case Crash => LocalBrings(s, i, a);
    case _ => PushBrings(s, i, a);
  }

  lemma ScannedAuthentic(s: System, t: System, id: Id)
    requires AllAuthentic(s) && Records(s, t)
    ensures FindById(s.processing, id).Some? ==> AuthenticEntry(t, FindById(s.processing, id).value)
  {
    if FindById(s.processing, id).Some? {
      EntryStays(s, t, FindById(s.processing, id).value);
    }
  }

  lemma AuthenticStep(s: System, i: nat, a: Action)
    requires AllAuthentic(s) && Enabled(s, i, a)
    ensures AllAuthentic(Next(s, i, a))
  {
    var t := Next(s, i, a);
    RecordsGrow(s, i, a);
    StepBrings(s, i, a);
    hide Next, Records, AuthenticEntry, InHands;
    forall e | e in t.queue || e in t.processing || e in t.dead ensures AuthenticEntry(t, e) {
      if e in s.queue || e in s.processing || e in s.dead {
        EntryStays(s, t, e);
      }
    }
    forall j | 0 <= j < |t.clients| ensures InHands(t, t.clients[j]) {
      if j != i {
        HandsStay(s, t, s.clients[j]);
      }
    }
  }

  lemma {:induction false} AuthenticRun(s: System, trace: seq<(nat, Action)>, t: System)
    requires AllAuthentic(s) && Reaches(Any, s, trace, t)
    ensures AllAuthentic(t)
    decreases |trace|
  {
    hide Next, Enabled, AllAuthentic;
    if trace != [] {
      AuthenticStep(s, trace[0].0, trace[0].1);
      AuthenticRun(Next(s, trace[0].0, trace[0].1), trace[1..], t);
    }
  }

  /**
   * Main result, over every interleaving, with crashes and malformed text: a job in a list or in a client's hands has
   * the payload that was submitted with its id, and once it has been retried an error that was reported for it.
   */
  lemma JobsKeepPayload(n: nat, trace: seq<(nat, Action)>, t: System)
    requires Reaches(Any, Init(n), trace, t)
    ensures AllAuthentic(t)
    ensures forall job :: Good(job) in t.queue || Good(job) in t.processing || Good(job) in t.dead ==>
              && job.id in t.enqueued && job.payload == t.enqueued[job.id].payload
              && (job.retries > 0 ==> job.lastError.Some? && job.lastError.value in Errors(t, job.id))
  {
    AuthenticRun(Init(n), trace, t);
    forall job | Good(job) in t.queue || Good(job) in t.processing || Good(job) in t.dead ensures Authentic(t, job) {
      assert AuthenticEntry(t, Good(job));
    }
  }

  // ---- The last error -----------------------------------------------------------------------

  /** Once retried, a job carries the last error that was reported for its id. */
  predicate UpToDate(s: System, job: Job) {
    job.retries > 0 ==> Errors(s, job.id) != [] && job.lastError == Some(Errors(s, job.id)[|Errors(s, job.id)| - 1])
  }

  ghost predicate AllUpToDate(s: System) {
    && (forall e :: e in s.queue || e in s.processing || e in s.dead ==> EntryUpToDate(s, e))
    && (forall i | 0 <= i < |s.clients| && (s.clients[i].Returning? || s.clients[i].Resetting?) :: UpToDate(s, s.clients[i].job))
  }

  predicate EntryUpToDate(s: System, e: Entry) {
    e.Good? && UpToDate(s, e.job)
  }

  /** While no error is reported, it suffices that a step brings nothing new. */
  lemma NothingNew(s: System, t: System)
    requires AllUpToDate(s) && t.errors == s.errors
    requires forall e :: e in t.queue || e in t.processing || e in t.dead ==>
               e in s.queue || e in s.processing || e in s.dead || EntryUpToDate(s, e)
    requires forall i | 0 <= i < |t.clients| && (t.clients[i].Returning? || t.clients[i].Resetting?) ::
               (i < |s.clients| && t.clients[i] == s.clients[i]) || UpToDate(s, t.clients[i].job)
    ensures AllUpToDate(t)
  {
    assert forall job :: UpToDate(t, job) <==> UpToDate(s, job);
    hide UpToDate;
  }

  lemma UpToDatePush(s: System, i: nat)
    requires Tidy(s) && AllUpToDate(s) && Allowed(Calm, s, i, PushAbandoned)
    ensures AllUpToDate(Next(s, i, PushAbandoned))
  {
    var t, job := Next(s, i, PushAbandoned), s.clients[i].job;
    InHandOnly(s, i, job.id);
    hide Tidy, Allowed;
    assert Errors(t, job.id)[|Errors(t, job.id)| - 1] == s.clients[i].error;
    assert UpToDate(t, Failed(job, s.clients[i].error));
    forall other: Job | other.id != job.id && UpToDate(s, other) ensures UpToDate(t, other) {
      assert Errors(t, other.id) == Errors(s, other.id);
    }
    forall j | 0 <= j < |t.clients| && (t.clients[j].Returning? || t.clients[j].Resetting?)
      ensures UpToDate(t, t.clients[j].job)
    {
      assert t.clients[j] == s.clients[j] && One(s.clients[j], Hand, job.id) == 0;
    }
    hide UpToDate, One;
  }

  lemma UpToDateRemove(s: System, i: nat, a: Action)
    requires Tidy(s) && AllUpToDate(s) && Allowed(Calm, s, i, a)
    requires a.RemoveCompleted? || a.RemoveAbandoned? || a.RemoveDead?
    ensures AllUpToDate(Next(s, i, a))
  {
    assert ClientOk(s, s.clients[i]);
    RemoveTakes(s, i, a);
    hide Tidy, ClientOk, RemoveFirst, UpToDate;
    NothingNew(s, Next(s, i, a));
  }

  lemma UpToDatePop(s: System, i: nat, a: Action)
    requires AllUpToDate(s) && Allowed(Calm, s, i, a) && (a.Dequeue? || a.PopDead?)
    ensures AllUpToDate(Next(s, i, a))
  {
    hide UpToDate;
    NothingNew(s, Next(s, i, a));
  }

  lemma UpToDateOther(s: System, i: nat, a: Action)
    requires Tidy(s) && AllUpToDate(s) && Allowed(Calm, s, i, a)
    requires a.ScanToComplete? || a.ScanToAbandon? || a.PushReset? || a.Enqueue?
    ensures AllUpToDate(Next(s, i, a))
  {
    assert ClientOk(s, s.clients[i]);
    if a.PushReset? {
      assert UpToDate(s, Reset(s.clients[i].job));
    } else if a.Enqueue? {
      assert UpToDate(s, a.submitted);
    }
    hide Tidy, ClientOk, FindById, UpToDate;
    NothingNew(s, Next(s, i, a));
  }

  lemma UpToDateStep(s: System, i: nat, a: Action)
    requires Tidy(s) && AllUpToDate(s) && Allowed(Calm, s, i, a)
    ensures AllUpToDate(Next(s, i, a))
  {
    assert ClientOk(s, s.clients[i]);
    hide Next, Tidy, AllUpToDate;
    match a
    case PushAbandoned => UpToDatePush(s, i);
    case RemoveCompleted => UpToDateRemove(s, i, a);
    case RemoveAbandoned => UpToDateRemove(s, i, a);
    case RemoveDead => UpToDateRemove(s, i, a);
    case PushMalformed => assert false;
    case Dequeue => UpToDatePop(s, i, a);
    case PopDead => UpToDatePop(s, i, a);
    case _ => UpToDateOther(s, i, a);
  }

  lemma {:induction false} UpToDateRun(s: System, trace: seq<(nat, Action)>, t: System)
    requires Tidy(s) && AllUpToDate(s) && Reaches(Calm, s, trace, t)
    ensures AllUpToDate(t)
    decreases |trace|
  {
    hide Next, AllUpToDate, Tidy;
    if trace != [] {
      TidyStep(s, trace[0].0, trace[0].1);
      UpToDateStep(s, trace[0].0, trace[0].1);
      UpToDateRun(Next(s, trace[0].0, trace[0].1), trace[1..], t);
    }
  }

  /** In every calm run a job that was retried carries the very last error reported for it. */
  lemma LastErrorIsKept(n: nat, trace: seq<(nat, Action)>, t: System)
    requires Reaches(Calm, Init(n), trace, t)
    ensures forall e :: e in t.queue || e in t.processing || e in t.dead ==>
              && e.Good?
              && (e.job.retries > 0 ==>
                    && Errors(t, e.job.id) != []
                    && e.job.lastError == Some(Errors(t, e.job.id)[|Errors(t, e.job.id)| - 1]))
  {
    TidyInit(n);
    UpToDateRun(Init(n), trace, t);
  }
}
