/** Durability of the job queue under crashes, malformed entries and every interleaving. */
module JobDurability {
  import opened Lists
  import opened JobProtocol
  import opened JobSafety

  /** The scanned item carries the id the client asked for; only jobs get replaced. */
  predicate ScanOk(c: Client) {
    match c
    case Completing(job, item) => item.Good? && item.job.id == job.id
    case Abandoning(job, _, item) => item.Good? && item.job.id == job.id
    case Replacing(raw) => raw.Good?
    case _ => true
  }

  /** `id` was completed, is in a list, or is in the grip of a client that may have crashed. */
  predicate Kept(s: System, id: Id) {
    id in s.enqueued ==>
      s.completed[id] + Count(s.queue, id) + Count(s.processing, id) + Count(s.dead, id) + Total(s.clients, Grip, id) > 0
  }

  ghost predicate Durable(s: System) {
    && (forall id :: Kept(s, id))
    && (forall i | 0 <= i < |s.clients| :: ScanOk(s.clients[i]))
  }

  /** LREM takes away at most one copy, and none when the element is gone already. */
  lemma CountRemoveAny(xs: seq<Entry>, e: Entry, id: Id)
    ensures Count(xs, id) == Count(RemoveFirst(xs, e), id) + (if e in xs then IsId(e, id) else 0)
  {
    if e in xs {
      CountRemove(xs, e, id);
    } else {
      RemoveAbsent(xs, e);
    }
  }

  lemma KeptByPop(s: System, i: nat, a: Action, id: Id)
    requires Durable(s) && Enabled(s, i, a) && (a.Dequeue? || a.PopDead?)
    ensures Kept(Next(s, i, a), id)
  {
    var t := Next(s, i, a);
    var from := if a.Dequeue? then s.queue else s.dead;
    if from != [] {
      var raw := from[|from| - 1];
      assert from == from[..|from| - 1] + [raw];
      CountSnoc(from[..|from| - 1], raw, id);
      CountCons(raw, if a.Dequeue? then s.processing else s.queue, id);
      TotalUpdate(s.clients, i, t.clients[i], Grip, id);
      assert Kept(s, id);
    }
  }

  lemma KeptByRemove(s: System, i: nat, a: Action, id: Id)
    requires Durable(s) && Enabled(s, i, a) && (a.RemoveCompleted? || a.RemoveAbandoned? || a.RemoveDead?)
    ensures Kept(Next(s, i, a), id)
  {
    var t := Next(s, i, a);
    assert Kept(s, id) && ScanOk(s.clients[i]);
    if a.RemoveDead? {
      CountRemoveAny(s.queue, s.clients[i].raw, id);
    } else {
      CountRemoveAny(s.processing, s.clients[i].item, id);
    }
    TotalUpdate(s.clients, i, t.clients[i], Grip, id);
  }

  lemma KeptByPush(s: System, i: nat, a: Action, id: Id)
    requires Durable(s) && Enabled(s, i, a)
    requires a.PushAbandoned? || a.PushReset? || a.PushMalformed? || a.Enqueue? || a.InjectMalformed?
    ensures Kept(Next(s, i, a), id)
  {
    var t := Next(s, i, a);
    assert Kept(s, id);
    if t.queue != s.queue {
      CountCons(t.queue[0], s.queue, id);
    } else {
      CountCons(t.dead[0], s.dead, id);
    }
    if a.PushAbandoned? || a.PushReset? || a.PushMalformed? {
      TotalUpdate(s.clients, i, Idle, Grip, id);
    }
  }

  lemma KeptByLocal(s: System, i: nat, a: Action, id: Id)
    requires Durable(s) && Enabled(s, i, a) && (a.ScanToComplete? || a.ScanToAbandon? || a.Crash?)
    ensures Kept(Next(s, i, a), id)
  {
    assert Kept(s, id);
    TotalUpdate(s.clients, i, Next(s, i, a).clients[i], Grip, id);
  }

  lemma DurableStep(s: System, i: nat, a: Action)
    requires Durable(s) && Enabled(s, i, a)
    ensures Durable(Next(s, i, a))
  {
    var t := Next(s, i, a);
    forall id ensures Kept(t, id) {
      match a
      case Dequeue => KeptByPop(s, i, a, id);
      case PopDead => KeptByPop(s, i, a, id);
      case RemoveCompleted => KeptByRemove(s, i, a, id);
      case RemoveAbandoned => KeptByRemove(s, i, a, id);
      case RemoveDead => KeptByRemove(s, i, a, id);
      case ScanToComplete => KeptByLocal(s, i, a, id);
      case ScanToAbandon(_) => KeptByLocal(s, i, a, id);
      case Crash => KeptByLocal(s, i, a, id);
      case _ => KeptByPush(s, i, a, id);
    }
    forall j | 0 <= j < |t.clients| ensures ScanOk(t.clients[j]) {
      assert ScanOk(s.clients[i]) && ScanOk(s.clients[j]);
    }
  }

  lemma {:induction false} DurableRun(s: System, trace: seq<(nat, Action)>, t: System)
    requires Durable(s) && Reaches(Any, s, trace, t)
    ensures Durable(t)
    decreases |trace|
  {
    if trace != [] {
      DurableStep(s, trace[0].0, trace[0].1);
      DurableRun(Next(s, trace[0].0, trace[0].1), trace[1..], t);
    }
  }

  /** The client is, or crashed, between the LREM and the LPUSH of abandonJob or requeueDeadJobs. */
  predicate BetweenRemAndPush(c: Client, id: Id) {
    match c
    case Returning(job, _) => job.id == id
    case Resetting(job) => job.id == id
    case Crashed(at) => !at.Crashed? && BetweenRemAndPush(at, id)
    case _ => false
  }

  /**
   * Main result: whatever the interleaving, wherever clients crash, and with malformed entries
   * around, a job that was never completed and is in none of the three lists is in the hands of a
   * client that is, or crashed, between LREM and LPUSH.
   */
  lemma LostOnlyBetweenRemAndPush(n: nat, trace: seq<(nat, Action)>, t: System, id: Id) returns (i: nat)
    requires Reaches(Any, Init(n), trace, t)
    requires id in t.enqueued && id !in t.completed
    requires Count(t.queue, id) == 0 && Count(t.processing, id) == 0 && Count(t.dead, id) == 0
    ensures i < |t.clients| && BetweenRemAndPush(t.clients[i], id)
  {
    DurableRun(Init(n), trace, t);
    assert Kept(t, id);
    i := TotalWitness(t.clients, Grip, id);
  }

  // ---- What a crash loses -------------------------------------------------------------------

  /** The job was not completed and is in no list. */
  predicate Missing(s: System, id: Id) {
    id !in s.completed && Count(s.queue, id) == 0 && Count(s.processing, id) == 0 && Count(s.dead, id) == 0
  }

  /** The client could still put the id into a list, or complete it. */
  predicate Handles(c: Client, id: Id) {
    match c
    case Holding(job) => job.id == id
    case Completing(job, item) => job.id == id || IsId(item, id) == 1
    case Abandoning(job, _, item) => job.id == id || IsId(item, id) == 1
    case Returning(job, _) => job.id == id
    case DeadLettering(raw) => IsId(raw, id) == 1
    case Replacing(raw) => IsId(raw, id) == 1
    case Resetting(job) => job.id == id
    case _ => false
  }

  predicate Gone(s: System, id: Id) {
    && id in s.enqueued && Missing(s, id)
    && forall i | 0 <= i < |s.clients| :: !Handles(s.clients[i], id)
  }

  lemma GoneStep(s: System, i: nat, a: Action, id: Id)
    requires Gone(s, id) && Enabled(s, i, a)
    ensures Gone(Next(s, i, a), id)
  {
    hide Next, Gone;
    if a.PushAbandoned? || a.PushReset? || a.PushMalformed? || a.Enqueue? || a.InjectMalformed? {
      GoneByPush(s, i, a, id);
    } else {
      GoneByOther(s, i, a, id);
    }
  }

  lemma GoneByPush(s: System, i: nat, a: Action, id: Id)
    requires Gone(s, id) && Enabled(s, i, a)
    requires a.PushAbandoned? || a.PushReset? || a.PushMalformed? || a.Enqueue? || a.InjectMalformed?
    ensures Gone(Next(s, i, a), id)
  {
    hide Count;
    var t := Next(s, i, a);
    assert !Handles(s.clients[i], id);
    if t.queue != s.queue {
      CountCons(t.queue[0], s.queue, id);
    } else {
      CountCons(t.dead[0], s.dead, id);
    }
  }

  lemma GoneByOther(s: System, i: nat, a: Action, id: Id)
    requires Gone(s, id) && Enabled(s, i, a)
    requires !(a.PushAbandoned? || a.PushReset? || a.PushMalformed? || a.Enqueue? || a.InjectMalformed?)
    ensures Gone(Next(s, i, a), id)
  {
    hide Count, RemoveFirst;
    var c := s.clients[i];
    assert !Handles(c, id);
    match a
    case Dequeue => if s.queue != [] { GonePop(s.queue, s.processing, id); }
    case PopDead => if s.dead != [] { GonePop(s.dead, s.queue, id); }
    case RemoveCompleted => CountRemoveAny(s.processing, c.item, id);
    case RemoveAbandoned => CountRemoveAny(s.processing, c.item, id);
    case RemoveDead => CountRemoveAny(s.queue, c.raw, id);
    case ScanToComplete => GoneScan(s.processing, c.job.id, id);
    case ScanToAbandon(_) => GoneScan(s.processing, c.job.id, id);
    case _ =>
  }

  lemma GonePop(from: seq<Entry>, onto: seq<Entry>, id: Id)
    requires from != [] && Count(from, id) == 0 && Count(onto, id) == 0
    ensures var raw := from[|from| - 1];
            IsId(raw, id) == 0 && Count(from[..|from| - 1], id) == 0 && Count([raw] + onto, id) == 0
  {
    hide Count;
    var raw := from[|from| - 1];
    assert from == from[..|from| - 1] + [raw];
    CountSnoc(from[..|from| - 1], raw, id);
    CountCons(raw, onto, id);
  }

  lemma GoneScan(xs: seq<Entry>, wanted: Id, id: Id)
    requires Count(xs, id) == 0
    ensures FindById(xs, wanted).Some? ==> IsId(FindById(xs, wanted).value, id) == 0
  {
    if FindById(xs, wanted).Some? {
      CountMember(xs, FindById(xs, wanted).value, id);
    }
  }

  lemma {:induction false} GoneForEver(s: System, trace: seq<(nat, Action)>, t: System, id: Id)
    requires Gone(s, id) && Reaches(Any, s, trace, t)
    ensures Missing(t, id)
    decreases |trace|
  {
    hide Next, Enabled;
    if trace != [] {
      GoneStep(s, trace[0].0, trace[0].1, id);
      GoneForEver(Next(s, trace[0].0, trace[0].1), trace[1..], t, id);
    }
  }

  /** In a tidy system a job in one client's hands is with nobody else. */
  lemma CrashInHand(s: System, i: nat, id: Id)
    requires Tidy(s) && Enabled(s, i, Crash) && BetweenRemAndPush(s.clients[i], id)
    ensures Gone(Next(s, i, Crash), id)
  {
    hide Count, Total;
    assert ClientOk(s, s.clients[i]) && Balanced(s, id);
    TotalMember(s.clients, i, Hand, id);
    forall j | 0 <= j < |s.clients| && j != i ensures !Handles(s.clients[j], id) {
      assert ClientOk(s, s.clients[j]);
      TotalMember(s.clients, j, Held, id);
      TotalMember(s.clients, j, Replaced, id);
      TotalPair(s.clients, if i < j then i else j, if i < j then j else i, Hand, id);
    }
  }

  /** A job that no list has, and that client `i` does not have, comes back with one command of its holder. */
  lemma HolderPutsBack(s: System, i: nat, id: Id) returns (j: nat, a: Action)
    requires Tidy(s) && Enabled(s, i, Crash) && !BetweenRemAndPush(s.clients[i], id)
    requires id in s.enqueued && id !in s.completed && Missing(s, id)
    ensures Enabled(Next(s, i, Crash), j, a) && !Missing(Next(Next(s, i, Crash), j, a), id)
  {
    hide Count, Total;
    assert Balanced(s, id);
    j := TotalWitness(s.clients, Hand, id);
    var c := s.clients[j];
    a := if c.Returning? then PushAbandoned else PushReset;
    var back := if c.Returning? then Good(Failed(c.job, c.error)) else Good(Reset(c.job));
    CountCons(back, s.queue, id);
    CountCons(back, s.dead, id);
  }

  lemma ComesBack(s: System, i: nat, id: Id) returns (more: seq<(nat, Action)>, u: System)
    requires Tidy(s) && Enabled(s, i, Crash) && !BetweenRemAndPush(s.clients[i], id)
    requires id in s.enqueued && id !in s.completed
    ensures Reaches(Any, Next(s, i, Crash), more, u) && !Missing(u, id)
  {
    var t := Next(s, i, Crash);
    if !Missing(t, id) {
      more, u := [], t;
    } else {
      var j, a := HolderPutsBack(s, i, id);
      more, u := [(j, a)], Next(t, j, a);
      ReachesOne(Any, t, j, a);
    }
  }

  /**
   * A crash loses an uncompleted job for good - whatever commands follow, of whatever clients, no list ever has it
   * and nobody completes it - exactly when it strikes the client that is between the LREM and the LPUSH of that job.
   */
  lemma CrashBetweenRemAndPushLoses(n: nat, trace: seq<(nat, Action)>, s: System, i: nat, id: Id)
    requires Reaches(Calm, Init(n), trace, s)
    requires Enabled(s, i, Crash) && id in s.enqueued && id !in s.completed
    ensures (forall more, u :: Reaches(Any, Next(s, i, Crash), more, u) ==> Missing(u, id))
            <==> BetweenRemAndPush(s.clients[i], id)
  {
    TidyInit(n);
    TidyRun(Init(n), trace, s);
    hide Reaches, Missing, Gone, Tidy, Next;
    var t := Next(s, i, Crash);
    if BetweenRemAndPush(s.clients[i], id) {
      CrashInHand(s, i, id);
      forall more, u | Reaches(Any, t, more, u) ensures Missing(u, id) {
        GoneForEver(t, more, u, id);
      }
    } else {
      var more, u := ComesBack(s, i, id);
      assert Reaches(Any, Next(s, i, Crash), more, u) && !Missing(u, id);
    }
  }

  lemma ReachesOne(rule: Rule, s: System, i: nat, a: Action)
    requires Allowed(rule, s, i, a)
    ensures Reaches(rule, s, [(i, a)], Next(s, i, a))
  {
    hide Next, Allowed;
    var trace := [(i, a)];
    assert trace[1..] == [];
  }

  // ---- Malformed entries --------------------------------------------------------------------

  /** The copies of a malformed text. */
  function Copies(xs: seq<Entry>, text: string): nat {
    multiset(xs)[Malformed(text)]
  }

  function CopiesIn(s: System, text: string): nat {
    Copies(s.queue, text) + Copies(s.processing, text) + Copies(s.dead, text)
  }

  lemma CopiesCons(e: Entry, xs: seq<Entry>, text: string)
    ensures Copies([e] + xs, text) == Copies(xs, text) + (if e == Malformed(text) then 1 else 0)
  {
  }

  lemma CopiesSnoc(xs: seq<Entry>, text: string)
    requires xs != []
    ensures Copies(xs, text) == Copies(xs[..|xs| - 1], text) + (if xs[|xs| - 1] == Malformed(text) then 1 else 0)
  {
    assert xs == xs[..|xs| - 1] + [xs[|xs| - 1]];
  }

  lemma CopiesRemove(xs: seq<Entry>, e: Entry, text: string)
    requires e.Good?
    ensures Copies(RemoveFirst(xs, e), text) == Copies(xs, text)
  {
    RemoveFirstMultiset(xs, e);
  }

  ghost predicate Scanned(s: System) {
    forall i | 0 <= i < |s.clients| :: ScanOk(s.clients[i])
  }

  /** No command takes a malformed copy away: submitting one and dead-lettering one add a copy, and processing
      gains one with every pop. */
  lemma MalformedStep(s: System, i: nat, a: Action, text: string)
    requires Scanned(s) && Enabled(s, i, a)
    ensures Scanned(Next(s, i, a))
    ensures var t := Next(s, i, a);
            && CopiesIn(t, text) == CopiesIn(s, text) +
               (if a == InjectMalformed(text) || (a.PushMalformed? && s.clients[i].raw == Malformed(text)) then 1 else 0)
            && Copies(t.processing, text) == Copies(s.processing, text) +
               (if a.Dequeue? && s.queue != [] && s.queue[|s.queue| - 1] == Malformed(text) then 1 else 0)
  {
    ScannedStep(s, i, a);
    hide Scanned, Next;
    if a.PushAbandoned? || a.PushReset? || a.PushMalformed? || a.Enqueue? || a.InjectMalformed? {
      MalformedByPush(s, i, a, text);
    } else {
      MalformedByOther(s, i, a, text);
    }
  }

  lemma MalformedByPush(s: System, i: nat, a: Action, text: string)
    requires Enabled(s, i, a) && (a.PushAbandoned? || a.PushReset? || a.PushMalformed? || a.Enqueue? || a.InjectMalformed?)
    ensures var t := Next(s, i, a);
            && CopiesIn(t, text) == CopiesIn(s, text) +
               (if a == InjectMalformed(text) || (a.PushMalformed? && s.clients[i].raw == Malformed(text)) then 1 else 0)
            && Copies(t.processing, text) == Copies(s.processing, text) +
               (if a.Dequeue? && s.queue != [] && s.queue[|s.queue| - 1] == Malformed(text) then 1 else 0)
  {
    hide Copies;
    var t := Next(s, i, a);
    if t.queue != s.queue {
      CopiesCons(t.queue[0], s.queue, text);
    } else {
      CopiesCons(t.dead[0], s.dead, text);
    }
  }

  lemma MalformedByOther(s: System, i: nat, a: Action, text: string)
    requires Scanned(s) && Enabled(s, i, a)
    requires !(a.PushAbandoned? || a.PushReset? || a.PushMalformed? || a.Enqueue? || a.InjectMalformed?)
    ensures var t := Next(s, i, a);
            && CopiesIn(t, text) == CopiesIn(s, text)
            && Copies(t.processing, text) == Copies(s.processing, text) +
               (if a.Dequeue? && s.queue != [] && s.queue[|s.queue| - 1] == Malformed(text) then 1 else 0)
  {
    ScannedGood(s, i);
    hide Scanned, RemoveFirst, Copies, FindById;
    var c := s.clients[i];
    match a
    case Dequeue => if s.queue != [] {
      CopiesSnoc(s.queue, text);
      CopiesCons(s.queue[|s.queue| - 1], s.processing, text);
    }
    case PopDead => if s.dead != [] {
      CopiesSnoc(s.dead, text);
      CopiesCons(s.dead[|s.dead| - 1], s.queue, text);
    }
    case RemoveCompleted => CopiesRemove(s.processing, c.item, text);
    case RemoveAbandoned => CopiesRemove(s.processing, c.item, text);
    case RemoveDead => CopiesRemove(s.queue, c.raw, text);
    case _ =>
  }

  lemma ScannedGood(s: System, i: nat)
    requires Scanned(s) && i < |s.clients|
    ensures s.clients[i].Completing? || s.clients[i].Abandoning? ==> s.clients[i].item.Good?
    ensures s.clients[i].Replacing? ==> s.clients[i].raw.Good?
  {
    assert ScanOk(s.clients[i]);
  }

  lemma ScannedStep(s: System, i: nat, a: Action)
    requires Scanned(s) && Enabled(s, i, a)
    ensures Scanned(Next(s, i, a))
  {
    hide RemoveFirst;
    var t := Next(s, i, a);
    forall j | 0 <= j < |t.clients| ensures ScanOk(t.clients[j]) {
      assert ScanOk(s.clients[j]);
    }
  }

  lemma {:induction false} MalformedRun(s: System, trace: seq<(nat, Action)>, t: System, text: string)
    requires Scanned(s) && Reaches(Any, s, trace, t)
    ensures Scanned(t)
    ensures CopiesIn(s, text) <= CopiesIn(t, text) && Copies(s.processing, text) <= Copies(t.processing, text)
    decreases |trace|
  {
    hide Next, Enabled, Copies, CopiesIn, Scanned;
    if trace != [] {
      MalformedStep(s, trace[0].0, trace[0].1, text);
      MalformedRun(Next(s, trace[0].0, trace[0].1), trace[1..], t, text);
    }
  }

  /**
   * Malformed text never leaves the system, whatever clients do or crash: the three lists together, and the
   * processing list alone, never have fewer copies than before. So requeueDeadJobs discards none of it, against the
   * comment there: the text it takes off the dead list is still in some list at any later time.
   */
  lemma MalformedStaysForEver(n: nat, trace: seq<(nat, Action)>, s: System, more: seq<(nat, Action)>, t: System, text: string)
    requires Reaches(Any, Init(n), trace, s) && Reaches(Any, s, more, t)
    ensures CopiesIn(s, text) <= CopiesIn(t, text)
    ensures Copies(s.processing, text) <= Copies(t.processing, text)
    ensures Malformed(text) in s.dead ==> Malformed(text) in t.queue || Malformed(text) in t.processing || Malformed(text) in t.dead
  {
    MalformedRun(Init(n), trace, s, text);
    MalformedRun(s, more, t, text);
    if Malformed(text) in s.dead {
      assert Copies(s.dead, text) > 0;
    }
  }
}
