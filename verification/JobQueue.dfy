/** The queue operations run without interference, and draining a queue with them. */
module JobQueue {
  import opened Lists
  import opened JobProtocol
  import opened JobSafety

  datatype Store = Store(queue: seq<Entry>, processing: seq<Entry>, dead: seq<Entry>)

  /** Drop the entry with this id nearest the head. */
  function DropId(xs: seq<Entry>, id: Id): seq<Entry> {
    if xs == [] then []
    else if IsId(xs[0], id) == 1 then xs[1..]
    else [xs[0]] + DropId(xs[1..], id)
  }

  lemma {:induction false} DropFound(xs: seq<Entry>, id: Id)
    ensures match FindById(xs, id)
            case Some(item) => RemoveFirst(xs, item) == DropId(xs, id)
            case None => DropId(xs, id) == xs
  {
    if xs != [] && IsId(xs[0], id) == 0 {
      DropFound(xs[1..], id);
    }
  }

  predicate HasAt(xs: seq<Entry>, id: Id, k: int) {
    0 <= k < |xs| && xs[k].Good? && xs[k].job.id == id
  }

  ghost predicate FirstAt(xs: seq<Entry>, id: Id, k: nat) {
    HasAt(xs, id, k) && forall j | 0 <= j < k :: !HasAt(xs, id, j)
  }

  /** `after` is `before` without its first job with the id, if it has one. */
  ghost predicate FirstDropped(before: seq<Entry>, after: seq<Entry>, id: Id) {
    || ((forall k :: !HasAt(before, id, k)) && after == before)
    || exists k: nat :: FirstAt(before, id, k) && after == before[..k] + before[k + 1..]
  }

  lemma {:induction false} DropsFirst(xs: seq<Entry>, id: Id)
    ensures FirstDropped(xs, DropId(xs, id), id)
  {
    if xs != [] {
      if IsId(xs[0], id) == 1 {
        assert FirstAt(xs, id, 0) && DropId(xs, id) == xs[..0] + xs[0 + 1..];
      } else {
        DropsFirst(xs[1..], id);
        FirstLater(xs, DropId(xs[1..], id), id);
      }
    }
  }

  lemma FirstLater(xs: seq<Entry>, after: seq<Entry>, id: Id)
    requires xs != [] && !HasAt(xs, id, 0) && FirstDropped(xs[1..], after, id)
    ensures FirstDropped(xs, [xs[0]] + after, id)
  {
    var rest := xs[1..];
    assert forall k :: HasAt(xs, id, k) <==> HasAt(rest, id, k - 1);
    if k: nat :| FirstAt(rest, id, k) && after == rest[..k] + rest[k + 1..] {
      assert FirstAt(xs, id, k + 1) && [xs[0]] + after == xs[..k + 1] + xs[k + 1 + 1..];
    }
  }

  function Claim(st: Store): (Store, Option<Job>) {
    if st.queue == [] then (st, None)
    else
      var raw := st.queue[|st.queue| - 1];
      var st' := st.(queue := st.queue[..|st.queue| - 1], processing := [raw] + st.processing);
      if raw.Good? then (st', Some(raw.job)) else (st'.(dead := [raw] + st.dead), None)
  }

  function Settle(st: Store, id: Id): Store {
    st.(processing := DropId(st.processing, id))
  }

  function Bounce(st: Store, job: Job, error: string): Store {
    var updated := Good(Failed(job, error));
    var st' := Settle(st, job.id);
    if job.retries + 1 >= MAX_RETRIES then st'.(dead := [updated] + st.dead)
    else st'.(queue := [updated] + st.queue)
  }

  function Renewed(e: Entry): Entry {
    if e.Good? then Good(Reset(e.job)) else e
  }

  /** Up to `count` dead entries return to the head of the queue, jobs with their retries reset. */
  function Revive(st: Store, count: nat): (Store, nat)
    decreases count
  {
    if count == 0 || st.dead == [] then (st, 0)
    else
      var raw := st.dead[|st.dead| - 1];
      var (st', n) := Revive(st.(dead := st.dead[..|st.dead| - 1], queue := [Renewed(raw)] + st.queue), count - 1);
      (st', if raw.Good? then n + 1 else n)
  }

  function RenewedAll(xs: seq<Entry>): seq<Entry> {
    if xs == [] then [] else RenewedAll(xs[..|xs| - 1]) + [Renewed(xs[|xs| - 1])]
  }

  function Jobs(xs: seq<Entry>): nat {
    if xs == [] then 0 else Jobs(xs[..|xs| - 1]) + (if xs[|xs| - 1].Good? then 1 else 0)
  }

  /** requeueDeadJobs brings back the `count` longest-dead entries in their order, in front of the
      queue, every job with fresh retries and malformed text as it is; it reports the jobs only. */
  lemma {:induction false} ReviveBringsBackOldest(st: Store, left: seq<Entry>, oldest: seq<Entry>, count: nat)
    requires st.dead == left + oldest && (count == |oldest| || (left == [] && count > |oldest|))
    ensures Revive(st, count) == (Store(RenewedAll(oldest) + st.queue, st.processing, left), Jobs(oldest))
    decreases |oldest|
  {
    if oldest == [] {
      assert st.dead == left;
      assert RenewedAll(oldest) + st.queue == st.queue;
    } else {
      var n := |oldest| - 1;
      var back := Renewed(oldest[n]);
      assert st.dead[..|st.dead| - 1] == left + oldest[..n];
      ReviveBringsBackOldest(Store([back] + st.queue, st.processing, left + oldest[..n]), left, oldest[..n], count - 1);
      assert RenewedAll(oldest[..n]) + ([back] + st.queue) == RenewedAll(oldest) + st.queue;
    }
  }

  /** A renewed job has its id and payload, no retries and no error; malformed text is as it was. */
  lemma {:induction false} RenewedEach(xs: seq<Entry>)
    ensures |RenewedAll(xs)| == |xs|
    ensures forall k | 0 <= k < |xs| ::
              RenewedAll(xs)[k] == match xs[k]
                                   case Good(job) => Good(Job(job.id, job.payload, 0, None))
                                   case Malformed(text) => Malformed(text)
  {
    if xs != [] {
      RenewedEach(xs[..|xs| - 1]);
    }
  }

  class JobQueue {
    var queue: seq<Entry>
    var processing: seq<Entry>
    var dead: seq<Entry>

    constructor ()
      ensures Contents() == Store([], [], [])
    {
      queue, processing, dead := [], [], [];
    }

    function Contents(): Store
      reads this
    {
      Store(queue, processing, dead)
    }

    /** `id` stands for the fresh random UUID. */
    method EnqueueJob(id: Id, payload: string) returns (job: Job)
      modifies this
      ensures job == Job(id, payload, 0, None)
      ensures Contents() == old(Contents()).(queue := [Good(job)] + old(queue))
    {
      job := Job(id, payload, 0, None);
      queue := [Good(job)] + queue;
    }

    /** The non-blocking form, timeout zero. */
    method DequeueJob() returns (job: Option<Job>)
      modifies this
      ensures (Contents(), job) == Claim(old(Contents()))
      ensures old(queue) == [] ==> job.None? && Contents() == old(Contents())
      ensures old(queue) != [] ==>
                var rest, raw := old(queue)[..|old(queue)| - 1], old(queue)[|old(queue)| - 1];
                && Contents() == Store(rest, [raw] + old(processing), if raw.Malformed? then [raw] + old(dead) else old(dead))
                && job == match raw case Good(j) => Some(j) case Malformed(_) => None
    {
      if queue == [] {
        return None;
      }
      var raw := queue[|queue| - 1];
      queue, processing := queue[..|queue| - 1], [raw] + processing;
      if raw.Malformed? {
        dead := [raw] + dead;
        return None;
      }
      return Some(raw.job);
    }

    method RemoveFromProcessing(id: Id)
      modifies this`processing
      ensures Contents() == Settle(old(Contents()), id)
    {
      var items := processing;
      DropFound(items, id);
      var k := 0;
      while k < |items|
        invariant 0 <= k <= |items|
        invariant processing == items
        invariant FindById(items, id) == FindById(items[k..], id)
      {
        assert items[k..][0] == items[k] && items[k..][1..] == items[k + 1..];
        if items[k].Good? && items[k].job.id == id {
          processing := RemoveFirst(processing, items[k]);
          return;
        }
        k := k + 1;
      }
    }

    method CompleteJob(id: Id)
      modifies this`processing
      ensures Contents() == Settle(old(Contents()), id)
      ensures FirstDropped(old(processing), processing, id)
    {
      DropsFirst(processing, id);
      RemoveFromProcessing(id);
    }

    method AbandonJob(job: Job, error: string)
      modifies this
      ensures Contents() == Bounce(old(Contents()), job, error)
      ensures FirstDropped(old(processing), processing, job.id)
      ensures var again := Good(Job(job.id, job.payload, job.retries + 1, Some(error)));
              if job.retries + 1 >= MAX_RETRIES then queue == old(queue) && dead == [again] + old(dead)
              else queue == [again] + old(queue) && dead == old(dead)
    {
      DropsFirst(processing, job.id);
      RemoveFromProcessing(job.id);
      var updated := Failed(job, error);
      if updated.retries >= MAX_RETRIES {
        dead := [Good(updated)] + dead;
      } else {
        queue := [Good(updated)] + queue;
      }
    }

    method RequeueDeadJobs(count: nat) returns (requeued: nat)
      modifies this
      ensures (Contents(), requeued) == Revive(old(Contents()), count)
    {
      requeued := 0;
      var i := 0;
      while i < count
        invariant 0 <= i <= count
        invariant processing == old(processing)
        invariant var (st, n) := Revive(Contents(), count - i);
                  (st, n + requeued) == Revive(old(Contents()), count)
      {
        if dead == [] {
          break;
        }
        var raw := dead[|dead| - 1];
        dead, queue := dead[..|dead| - 1], [raw] + queue;
        if raw.Good? {
          queue := RemoveFirst(queue, raw);
          queue := [Good(Reset(raw.job))] + queue;
          requeued := requeued + 1;
        }
        i := i + 1;
      }
    }
  }

  // ---- Undisturbed, the protocol steps add up to these operations ---------------------------

  function StoreOf(s: System): Store {
    Store(s.queue, s.processing, s.dead)
  }

  lemma SoloComplete(s: System, i: nat, s1: System, t: System)
    requires Enabled(s, i, ScanToComplete) && s1 == Next(s, i, ScanToComplete)
    requires t == if s1.clients[i].Completing? then Next(s1, i, RemoveCompleted) else s1
    ensures StoreOf(t) == Settle(StoreOf(s), s.clients[i].job.id) && t.clients[i].Idle?
  {
    DropFound(s.processing, s.clients[i].job.id);
  }

  lemma SoloAbandon(s: System, i: nat, error: string, s1: System, s2: System, t: System)
    requires Enabled(s, i, ScanToAbandon(error)) && s1 == Next(s, i, ScanToAbandon(error))
    requires s2 == if s1.clients[i].Abandoning? then Next(s1, i, RemoveAbandoned) else s1
    requires Enabled(s2, i, PushAbandoned) && t == Next(s2, i, PushAbandoned)
    ensures StoreOf(t) == Bounce(StoreOf(s), s.clients[i].job, error) && t.clients[i].Idle?
  {
    DropFound(s.processing, s.clients[i].job.id);
  }

  lemma SoloRequeue(s: System, i: nat, s1: System, s2: System, t: System)
    requires Enabled(s, i, PopDead) && s.dead != [] && s1 == Next(s, i, PopDead)
    requires s2 == if s1.clients[i].Replacing? then Next(s1, i, RemoveDead) else s1
    requires t == if s2.clients[i].Resetting? then Next(s2, i, PushReset) else s2
    ensures StoreOf(t) == Revive(StoreOf(s), 1).0 && t.clients[i].Idle?
  {
    var raw := s.dead[|s.dead| - 1];
    if raw.Good? {
      assert s2.queue == s.queue;
    }
    assert forall st :: Revive(st, 0) == (st, 0);
  }

  // ---- Draining -----------------------------------------------------------------------------

  /** How one job run ended: a good result, a bad result, or an exception. */
  datatype Outcome = Succeeded | FailedWith(error: string) | Threw(error: string)

  /** `completed` lists the ids handed to completeJob, in order. */
  datatype Drained = Drained(st: Store, processed: nat, completed: seq<Id>)

  function Drain(st: Store, outcome: nat -> Outcome, i: nat, maxJobs: nat): Drained
    decreases maxJobs - i
  {
    if i >= maxJobs then Drained(st, 0, [])
    else
      var (st1, claimed) := Claim(st);
      if claimed.None? then Drained(st1, 0, [])
      else
        var job := claimed.value;
        match outcome(i)
        case Succeeded =>
          var rest := Drain(Settle(st1, job.id), outcome, i + 1, maxJobs);
          Drained(rest.st, rest.processed + 1, [job.id] + rest.completed)
        case FailedWith(error) =>
          var rest := Drain(Bounce(st1, job, error), outcome, i + 1, maxJobs);
          rest.(processed := rest.processed + 1)
        case Threw(error) =>
          Drain(Bounce(st1, job, error), outcome, i + 1, maxJobs)
  }

  /** `outcome(i)` is how the job of iteration `i` ends. */
  method DrainQueueOnce(q: JobQueue, outcome: nat -> Outcome, maxJobs: nat) returns (processed: nat, completed: seq<Id>)
    modifies q
    ensures Drained(q.Contents(), processed, completed) == Drain(old(q.Contents()), outcome, 0, maxJobs)
  {
    hide Settle, Bounce, Claim;
    processed, completed := 0, [];
    var i := 0;
    while i < maxJobs
      invariant 0 <= i <= maxJobs
      invariant var rest := Drain(q.Contents(), outcome, i, maxJobs);
                Drained(rest.st, processed + rest.processed, completed + rest.completed)
                == Drain(old(q.Contents()), outcome, 0, maxJobs)
    {
      ghost var before := q.Contents();
      var claimed := q.DequeueJob();
      if claimed.None? {
        assert Drain(before, outcome, i, maxJobs) == Drained(q.Contents(), 0, []);
        assert completed + [] == completed;
        return;
      }
      var job := claimed.value;
      match outcome(i) {
        case Succeeded =>
          q.CompleteJob(job.id);
          ghost var rest := Drain(q.Contents(), outcome, i + 1, maxJobs);
          assert completed + ([job.id] + rest.completed) == (completed + [job.id]) + rest.completed;
          processed, completed := processed + 1, completed + [job.id];
        case FailedWith(error) =>
          q.AbandonJob(job, error);
          processed := processed + 1;
        case Threw(error) =>
          q.AbandonJob(job, error);
      }
      i := i + 1;
    }
    assert completed + [] == completed;
  }

  // ---- Which jobs ran, and how they ended ---------------------------------------------------

  datatype Ran = Ran(job: Job, outcome: Outcome)

  /** A job waits at the tail of the queue. */
  predicate Ready(st: Store) {
    st.queue != [] && st.queue[|st.queue| - 1].Good?
  }

  /** The lists once the job at the tail has run: gone if it succeeded, else dead or back at the head of the queue, with
      the error and one more retry. Processing is as it was. */
  function Ended(st: Store, outcome: Outcome): Store
    requires Ready(st)
  {
    var rest, job := st.queue[..|st.queue| - 1], st.queue[|st.queue| - 1].job;
    if outcome.Succeeded? then Store(rest, st.processing, st.dead)
    else
      var again := Good(Job(job.id, job.payload, job.retries + 1, Some(outcome.error)));
      if job.retries + 1 >= MAX_RETRIES then Store(rest, st.processing, [again] + st.dead)
      else Store([again] + rest, st.processing, st.dead)
  }

  lemma EndedIs(st: Store, outcome: Outcome)
    requires Ready(st)
    ensures var (st1, claimed) := Claim(st);
            && claimed == Some(st.queue[|st.queue| - 1].job)
            && Ended(st, outcome) == if outcome.Succeeded? then Settle(st1, claimed.value.id) else Bounce(st1, claimed.value, outcome.error)
  {
    assert ([st.queue[|st.queue| - 1]] + st.processing)[1..] == st.processing;
  }

  /** The runs of a drain, in order. */
  function DrainRuns(st: Store, outcome: nat -> Outcome, i: nat, maxJobs: nat): seq<Ran>
    decreases maxJobs - i
  {
    if i >= maxJobs || !Ready(st) then []
    else [Ran(st.queue[|st.queue| - 1].job, outcome(i))] + DrainRuns(Ended(st, outcome(i)), outcome, i + 1, maxJobs)
  }

  function SucceededIds(runs: seq<Ran>): seq<Id> {
    if runs == [] then []
    else (if runs[0].outcome.Succeeded? then [runs[0].job.id] else []) + SucceededIds(runs[1..])
  }

  function Returned(runs: seq<Ran>): nat {
    if runs == [] then 0 else (if runs[0].outcome.Threw? then 0 else 1) + Returned(runs[1..])
  }

  /** A drain hands exactly the jobs that succeeded to completeJob, and counts the runs that did not throw. */
  lemma {:induction false} DrainReports(st: Store, outcome: nat -> Outcome, i: nat, maxJobs: nat)
    ensures var end, runs := Drain(st, outcome, i, maxJobs), DrainRuns(st, outcome, i, maxJobs);
            end.completed == SucceededIds(runs) && end.processed == Returned(runs)
    decreases maxJobs - i
  {
    hide Settle, Bounce;
    if i < maxJobs && Ready(st) {
      EndedIs(st, outcome(i));
      DrainReports(Ended(st, outcome(i)), outcome, i + 1, maxJobs);
      var rest := DrainRuns(Ended(st, outcome(i)), outcome, i + 1, maxJobs);
      assert ([Ran(st.queue[|st.queue| - 1].job, outcome(i))] + rest)[1..] == rest;
    }
  }

  /** The lists left by a drain are those of its runs, and of the malformed text that ends it. */
  lemma {:induction false} DrainLeaves(st: Store, outcome: nat -> Outcome, i: nat, maxJobs: nat)
    ensures var end, runs := Drain(st, outcome, i, maxJobs), DrainRuns(st, outcome, i, maxJobs);
            end.st == if i + |runs| >= maxJobs then Replayed(st, runs) else Claim(Replayed(st, runs)).0
    decreases maxJobs - i
  {
    hide Settle, Bounce;
    if i < maxJobs && Ready(st) {
      EndedIs(st, outcome(i));
      DrainLeaves(Ended(st, outcome(i)), outcome, i + 1, maxJobs);
      var rest := DrainRuns(Ended(st, outcome(i)), outcome, i + 1, maxJobs);
      assert ([Ran(st.queue[|st.queue| - 1].job, outcome(i))] + rest)[1..] == rest;
    }
  }

  function Replayed(st: Store, runs: seq<Ran>): Store
    decreases |runs|
  {
    if runs == [] || !Ready(st) then st else Replayed(Ended(st, runs[0].outcome), runs[1..])
  }

  predicate WellFormed(queue: seq<Entry>) {
    forall e :: e in queue ==> e.Good?
  }

  /** How many runs the entry can still cause. */
  function Weight(e: Entry): nat {
    if e.Malformed? then 0
    else if e.job.retries + 1 >= MAX_RETRIES then 1
    else MAX_RETRIES - e.job.retries
  }

  function Effort(queue: seq<Entry>): nat {
    if queue == [] then 0 else Weight(queue[0]) + Effort(queue[1..])
  }

  lemma {:induction false} EffortSnoc(xs: seq<Entry>, e: Entry)
    ensures Effort(xs + [e]) == Effort(xs) + Weight(e)
  {
    if xs == [] {
      assert xs + [e] == [e];
    } else {
      assert (xs + [e])[1..] == xs[1..] + [e];
      EffortSnoc(xs[1..], e);
    }
  }

  /** One iteration on a well-formed queue: whatever the outcome, the effort left strictly decreases,
      by exactly one when the job fails, and processing is as it was. */
  lemma DrainStep(st: Store, error: string)
    requires WellFormed(st.queue) && st.queue != []
    ensures var (st1, claimed) := Claim(st);
            && claimed.Some?
            && var done, back := Settle(st1, claimed.value.id), Bounce(st1, claimed.value, error);
               && WellFormed(done.queue) && WellFormed(back.queue)
               && done.processing == st.processing && back.processing == st.processing
               && Effort(done.queue) < Effort(st.queue)
               && Effort(back.queue) == Effort(st.queue) - 1
  {
    var rest := st.queue[..|st.queue| - 1];
    var raw := st.queue[|st.queue| - 1];
    assert st.queue == rest + [raw];
    EffortSnoc(rest, raw);
    assert ([raw] + st.processing)[1..] == st.processing;
    var again := Good(Failed(raw.job, error));
    assert ([again] + rest)[1..] == rest;
  }

  /** Every id that was queued ends up dead or completed, no more and no less often. */
  lemma {:induction false} DrainConserves(st: Store, outcome: nat -> Outcome, i: nat, maxJobs: nat, id: Id)
    requires WellFormed(st.queue)
    ensures var r := Drain(st, outcome, i, maxJobs);
            && Count(r.st.queue, id) + Count(r.st.dead, id) + multiset(r.completed)[id] == Count(st.queue, id) + Count(st.dead, id)
            && r.st.processing == st.processing
            && WellFormed(r.st.queue)
    decreases maxJobs - i
  {
    if i < maxJobs && st.queue != [] {
      var (st1, claimed) := Claim(st);
      var job := claimed.value;
      assert st.queue == st1.queue + [Good(job)];
      CountSnoc(st1.queue, Good(job), id);
      var error := if outcome(i).Succeeded? then "" else outcome(i).error;
      DrainStep(st, error);
      if outcome(i).Succeeded? {
        DrainConserves(Settle(st1, job.id), outcome, i + 1, maxJobs, id);
      } else {
        var updated := Good(Failed(job, error));
        CountCons(updated, st.dead, id);
        CountCons(updated, st1.queue, id);
        DrainConserves(Bounce(st1, job, error), outcome, i + 1, maxJobs, id);
      }
    }
  }

  lemma {:induction false} DrainEmpties(st: Store, outcome: nat -> Outcome, i: nat, maxJobs: nat)
    requires WellFormed(st.queue) && i + Effort(st.queue) <= maxJobs
    ensures Drain(st, outcome, i, maxJobs).st.queue == []
    decreases maxJobs - i
  {
    if i < maxJobs && st.queue != [] {
      var (st1, claimed) := Claim(st);
      var error := if outcome(i).Succeeded? then "" else outcome(i).error;
      DrainStep(st, error);
      DrainEmpties(if outcome(i).Succeeded? then Settle(st1, claimed.value.id) else Bounce(st1, claimed.value, error),
                   outcome, i + 1, maxJobs);
    } else if st.queue != [] {
      NoEffort(st.queue);
    }
  }

  lemma NoEffort(queue: seq<Entry>)
    requires WellFormed(queue) && queue != []
    ensures Effort(queue) > 0
  {
    assert queue[0] in queue;
  }

  /** If every job fails, an iteration budget below the effort leaves something queued. */
  lemma {:induction false} DrainFallsShort(st: Store, error: string, i: nat, maxJobs: nat)
    requires WellFormed(st.queue) && i <= maxJobs < i + Effort(st.queue)
    ensures Drain(st, _ => FailedWith(error), i, maxJobs).st.queue != []
    decreases maxJobs - i
  {
    if i < maxJobs {
      var (st1, claimed) := Claim(st);
      DrainStep(st, error);
      DrainFallsShort(Bounce(st1, claimed.value, error), error, i + 1, maxJobs);
    }
  }

  /** Main result: a well-formed queue is emptied for every sequence of job outcomes exactly when the
      iteration budget covers the effort, and then each queued id is dead or completed. */
  lemma DrainTerminatesEmpty(st: Store, maxJobs: nat)
    requires WellFormed(st.queue)
    ensures (forall outcome :: Drain(st, outcome, 0, maxJobs).st.queue == []) <==> Effort(st.queue) <= maxJobs
    ensures Effort(st.queue) <= maxJobs ==> forall outcome, id ::
              Count(Drain(st, outcome, 0, maxJobs).st.dead, id) + multiset(Drain(st, outcome, 0, maxJobs).completed)[id]
              == Count(st.queue, id) + Count(st.dead, id)
  {
    if Effort(st.queue) <= maxJobs {
      forall outcome: nat -> Outcome ensures Drain(st, outcome, 0, maxJobs).st.queue == [] {
        DrainEmpties(st, outcome, 0, maxJobs);
      }
      forall outcome: nat -> Outcome, id
        ensures Count(Drain(st, outcome, 0, maxJobs).st.dead, id) + multiset(Drain(st, outcome, 0, maxJobs).completed)[id]
                == Count(st.queue, id) + Count(st.dead, id)
      {
        DrainEmpties(st, outcome, 0, maxJobs);
        DrainConserves(st, outcome, 0, maxJobs, id);
      }
    } else {
      DrainFallsShort(st, "", 0, maxJobs);
    }
  }

  /** One iteration that claims a job: at most that job is put back, at the head of the queue. */
  lemma ClaimedStep(st: Store, outcome: nat -> Outcome, i: nat, maxJobs: nat) returns (next: Store, kept: seq<Entry>)
    requires i < maxJobs && st.queue != [] && st.queue[|st.queue| - 1].Good?
    ensures Drain(st, outcome, i, maxJobs).st == Drain(next, outcome, i + 1, maxJobs).st
    ensures next.processing == st.processing && |kept| <= 1 && next.queue == kept + st.queue[..|st.queue| - 1]
    ensures outcome(i).Succeeded? ==> kept == [] && next.dead == st.dead
  {
    var (st1, claimed) := Claim(st);
    var raw := st.queue[|st.queue| - 1];
    assert ([raw] + st.processing)[1..] == st.processing;
    next := if outcome(i).Succeeded? then Settle(st1, raw.job.id) else Bounce(st1, raw.job, outcome(i).error);
    kept := next.queue[..|next.queue| - |st1.queue|];
  }

  /**
   * A malformed entry ends the drain early, whatever the outcomes: the entries behind it stay queued, with only
   * bounced jobs behind them, and the malformed entry is both dead and left in processing. When every job
   * succeeds nothing else is left.
   */
  lemma {:induction false} DrainStopsAtMalformed(behind: seq<Entry>, bad: Entry, right: seq<Entry>,
                                                 st: Store, outcome: nat -> Outcome, i: nat, maxJobs: nat)
    returns (bounced: seq<Entry>)
    requires bad.Malformed? && WellFormed(right) && st.queue == behind + [bad] + right && i + |right| < maxJobs
    ensures var end := Drain(st, outcome, i, maxJobs).st;
            && end.queue == bounced + behind && |bounced| <= |right|
            && end.processing == [bad] + st.processing && bad in end.dead
            && ((forall k :: outcome(k).Succeeded?) ==> |bounced| == 0 && end.dead == [bad] + st.dead)
    decreases |right|
  {
    hide Drain, Claim, WellFormed;
    if |right| == 0 {
      bounced := [];
      assert st.queue == behind + [bad] && bounced + behind == behind;
      Blocked(behind, bad, st, outcome, i, maxJobs);
    } else {
      var n := |right| - 1;
      LastGood(right);
      DropLast(behind + [bad], right);
      var next, kept := ClaimedStep(st, outcome, i, maxJobs);
      assert next.queue == (kept + behind) + [bad] + right[..n];
      var rest := DrainStopsAtMalformed(kept + behind, bad, right[..n], next, outcome, i + 1, maxJobs);
      bounced := rest + kept;
      assert rest + (kept + behind) == bounced + behind;
    }
  }

  lemma Blocked(behind: seq<Entry>, bad: Entry, st: Store, outcome: nat -> Outcome, i: nat, maxJobs: nat)
    requires bad.Malformed? && st.queue == behind + [bad] && i < maxJobs
    ensures Drain(st, outcome, i, maxJobs).st == Store(behind, [bad] + st.processing, [bad] + st.dead)
  {
    assert Claim(st).0.queue == behind;
  }

  lemma LastGood(right: seq<Entry>)
    requires |right| > 0 && WellFormed(right)
    ensures right[|right| - 1].Good? && WellFormed(right[..|right| - 1])
  {
    assert right[|right| - 1] in right;
  }

  lemma DropLast<T>(left: seq<T>, right: seq<T>)
    requires |right| > 0
    ensures (left + right)[|left + right| - 1] == right[|right| - 1]
    ensures (left + right)[..|left + right| - 1] == left + right[..|right| - 1]
  {
  }

  /** When a drain can be relied on: a well-formed queue within the budget; or one malformed entry, at the head, behind
      jobs at their last chance. */
  predicate Emptiable(queue: seq<Entry>, maxJobs: nat) {
    if WellFormed(queue) then Effort(queue) <= maxJobs
    else
      && queue != [] && queue[0].Malformed?
      && (forall k | 0 < k < |queue| :: queue[k].Good? && Weight(queue[k]) == 1)
      && |queue| <= maxJobs
  }

  lemma {:induction false} LastChancesEmpty(st: Store, outcome: nat -> Outcome, i: nat, maxJobs: nat)
    requires !WellFormed(st.queue) && i <= maxJobs && Emptiable(st.queue, maxJobs - i)
    ensures Drain(st, outcome, i, maxJobs).st.queue == []
    decreases |st.queue|
  {
    hide Effort;
    var (st1, claimed) := Claim(st);
    var n := |st.queue| - 1;
    if n > 0 {
      var job := claimed.value;
      var error := if outcome(i).Succeeded? then "" else outcome(i).error;
      var st2 := if outcome(i).Succeeded? then Settle(st1, job.id) else Bounce(st1, job, error);
      assert st2.queue == st.queue[..n];
      assert st2.queue[0] == st.queue[0];
      LastChancesEmpty(st2, outcome, i + 1, maxJobs);
    }
  }

  /** If every job fails, a queue that is not emptiable for its malformed text keeps something. */
  lemma {:induction false} MalformedLeavesSome(st: Store, error: string, i: nat, maxJobs: nat)
    requires !WellFormed(st.queue) && i <= maxJobs && !Emptiable(st.queue, maxJobs - i)
    ensures Drain(st, _ => FailedWith(error), i, maxJobs).st.queue != []
    decreases maxJobs - i
  {
    hide Effort;
    if i < maxJobs {
      var n := |st.queue| - 1;
      var raw, rest := st.queue[n], st.queue[..n];
      assert st.queue == rest + [raw];
      var (st1, claimed) := Claim(st);
      if raw.Malformed? {
        assert n > 0;
      } else {
        var st2 := Bounce(st1, raw.job, error);
        var bad :| bad in rest && bad.Malformed?;
        assert bad in st2.queue;
        assert Weight(raw) == 1 ==> st2.queue == rest;
        assert Weight(raw) != 1 ==> st2.queue[0].Good?;
        MalformedLeavesSome(st2, error, i + 1, maxJobs);
      }
    }
  }

  /** Main result: any queue is emptied for every sequence of job outcomes exactly when it is emptiable. */
  lemma DrainEmptiesIff(st: Store, maxJobs: nat)
    ensures (forall outcome :: Drain(st, outcome, 0, maxJobs).st.queue == []) <==> Emptiable(st.queue, maxJobs)
  {
    if WellFormed(st.queue) {
      DrainTerminatesEmpty(st, maxJobs);
    } else if Emptiable(st.queue, maxJobs) {
      forall outcome: nat -> Outcome ensures Drain(st, outcome, 0, maxJobs).st.queue == [] {
        LastChancesEmpty(st, outcome, 0, maxJobs);
      }
    } else {
      MalformedLeavesSome(st, "", 0, maxJobs);
    }
  }

  // ---- The worker ---------------------------------------------------------------------------

  /** One turn of the worker's main loop: whether the dequeue fails, how a job would end, and whether the stop
      signal arrives during it. */
  datatype Beat = Beat(dequeueFails: bool, outcome: Outcome, stops: bool)

  datatype Worked = Worked(st: Store, completed: seq<Id>)

  /** A claimed job is run to its end: completed, or abandoned with the error. */
  function Handled(w: Worked, job: Job, outcome: Outcome): Worked {
    match outcome
    case Succeeded => Worked(Settle(w.st, job.id), w.completed + [job.id])
    case FailedWith(error) => w.(st := Bounce(w.st, job, error))
    case Threw(error) => w.(st := Bounce(w.st, job, error))
  }

  function Turned(w: Worked, b: Beat): Worked {
    if b.dequeueFails then w
    else
      var (st1, claimed) := Claim(w.st);
      if claimed.None? then w.(st := st1) else Handled(w.(st := st1), claimed.value, b.outcome)
  }

  /** The main loop until the stop signal, or as far as `beats` goes. */
  function Work(w: Worked, beats: seq<Beat>): Worked
    decreases |beats|
  {
    if beats == [] then w
    else if beats[0].stops then Turned(w, beats[0])
    else Work(Turned(w, beats[0]), beats[1..])
  }

  method RunWorkerDaemon(q: JobQueue, beats: seq<Beat>) returns (completed: seq<Id>, currentJobId: Option<Id>)
    modifies q
    ensures Worked(q.Contents(), completed) == Work(Worked(old(q.Contents()), []), beats)
    ensures currentJobId.None?
  {
    hide Settle, Bounce, Claim;
    completed, currentJobId := [], None;
    var stop, i := false, 0;
    while !stop && i < |beats|
      invariant 0 <= i <= |beats| && currentJobId.None?
      invariant Work(Worked(old(q.Contents()), []), beats) ==
                if stop then Worked(q.Contents(), completed) else Work(Worked(q.Contents(), completed), beats[i..])
    {
      var b := beats[i];
      assert beats[i..][0] == b && beats[i..][1..] == beats[i + 1..];
      i, stop := i + 1, b.stops;
      if b.dequeueFails {
        continue;
      }
      var claimed := q.DequeueJob();
      if claimed.None? {
        continue;
      }
      var job := claimed.value;
      currentJobId := Some(job.id);
      match b.outcome {
        case Succeeded =>
          q.CompleteJob(job.id);
          completed := completed + [job.id];
        case FailedWith(error) =>
          q.AbandonJob(job, error);
        case Threw(error) =>
          q.AbandonJob(job, error);
      }
      currentJobId := None;
    }
  }

  /** The runs of a worker, in order. */
  function WorkRuns(st: Store, beats: seq<Beat>): seq<Ran>
    decreases |beats|
  {
    if beats == [] then []
    else BeatRuns(st, beats[0]) + (if beats[0].stops then [] else WorkRuns(Beaten(st, beats[0]), beats[1..]))
  }

  function BeatRuns(st: Store, b: Beat): seq<Ran> {
    if b.dequeueFails || !Ready(st) then [] else [Ran(st.queue[|st.queue| - 1].job, b.outcome)]
  }

  /** The lists after one turn: a job has run, malformed text has moved to processing and died, or nothing. */
  function Beaten(st: Store, b: Beat): Store {
    if b.dequeueFails || st.queue == [] then st
    else
      var rest, raw := st.queue[..|st.queue| - 1], st.queue[|st.queue| - 1];
      if raw.Good? then Ended(st, b.outcome) else Store(rest, [raw] + st.processing, [raw] + st.dead)
  }

  function AllBeaten(st: Store, beats: seq<Beat>): Store
    decreases |beats|
  {
    if beats == [] then st else if beats[0].stops then Beaten(st, beats[0]) else AllBeaten(Beaten(st, beats[0]), beats[1..])
  }

  /** A worker hands exactly the jobs that succeeded to completeJob, and leaves the lists that its turns add up to. */
  lemma {:induction false} WorkerReports(w: Worked, beats: seq<Beat>)
    ensures Work(w, beats).st == AllBeaten(w.st, beats)
    ensures Work(w, beats).completed == w.completed + SucceededIds(WorkRuns(w.st, beats))
    decreases |beats|
  {
    hide Turned, Ready, Beaten;
    if |beats| > 0 {
      TurnedIs(w, beats[0]);
      var t := Turned(w, beats[0]);
      if !beats[0].stops {
        WorkerReports(t, beats[1..]);
        SucceededBoth(BeatRuns(w.st, beats[0]), WorkRuns(t.st, beats[1..]));
      } else {
        SucceededBoth(BeatRuns(w.st, beats[0]), []);
      }
    }
  }

  lemma TurnedIs(w: Worked, b: Beat)
    ensures Turned(w, b) == Worked(Beaten(w.st, b), w.completed + SucceededIds(BeatRuns(w.st, b)))
  {
    hide Settle, Bounce;
    if !b.dequeueFails && Ready(w.st) {
      EndedIs(w.st, b.outcome);
    }
  }

  lemma {:induction false} SucceededBoth(a: seq<Ran>, b: seq<Ran>)
    ensures SucceededIds(a + b) == SucceededIds(a) + SucceededIds(b)
  {
    if a == [] {
      assert a + b == b;
    } else {
      assert (a + b)[1..] == a[1..] + b;
      SucceededBoth(a[1..], b);
    }
  }

  lemma TurnConserves(w: Worked, b: Beat, id: Id)
    ensures var t := Turned(w, b);
            && Count(t.st.processing, id) == Count(w.st.processing, id)
            && Count(t.st.queue, id) + Count(t.st.dead, id) + multiset(t.completed)[id] ==
               Count(w.st.queue, id) + Count(w.st.dead, id) + multiset(w.completed)[id]
  {
    var (st1, claimed) := Claim(w.st);
    if !b.dequeueFails && w.st.queue != [] {
      var raw := w.st.queue[|w.st.queue| - 1];
      assert w.st.queue == st1.queue + [raw];
      CountSnoc(st1.queue, raw, id);
      CountCons(raw, w.st.processing, id);
      if raw.Malformed? {
        CountCons(raw, w.st.dead, id);
      } else {
        assert ([raw] + w.st.processing)[1..] == w.st.processing;
        var updated := Good(Failed(raw.job, if b.outcome.Succeeded? then "" else b.outcome.error));
        CountCons(updated, w.st.dead, id);
        CountCons(updated, st1.queue, id);
      }
    }
  }

  /**
   * Whenever a lone worker stops, by signal or not, it holds no job: processing has every id as often as at the
   * start, and what it claimed is queued again, dead or completed - whatever text lies in the queue.
   */
  lemma {:induction false} WorkerStopsClean(w: Worked, beats: seq<Beat>, id: Id)
    ensures var t := Work(w, beats);
            && Count(t.st.processing, id) == Count(w.st.processing, id)
            && Count(t.st.queue, id) + Count(t.st.dead, id) + multiset(t.completed)[id] ==
               Count(w.st.queue, id) + Count(w.st.dead, id) + multiset(w.completed)[id]
    decreases |beats|
  {
    hide Turned;
    if beats != [] {
      TurnConserves(w, beats[0], id);
      if !beats[0].stops {
        WorkerStopsClean(Turned(w, beats[0]), beats[1..], id);
      }
    }
  }
}
