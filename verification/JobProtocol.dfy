/**
 * The Redis job queue as a concurrent protocol.
 *
 * Three Redis lists and any number of clients. Every Redis command is one atomic step, and the
 * steps of different clients interleave freely. Lists are written head first: LPUSH adds at the
 * head, RPOPLPUSH takes from the tail and adds at the head of the destination, LREM 1 drops the
 * matching element nearest the head.
 */
module JobProtocol {
  import opened Lists

  const MAX_RETRIES: nat := 3

  type Id = string

  datatype Job = Job(id: Id, payload: string, retries: nat, lastError: Option<string>)

  /** A list element: a JSON job, or text that JSON.parse rejects. */
  datatype Entry = Good(job: Job) | Malformed(text: string)

  /** Where a client stands between two Redis commands. */
  datatype Client =
    | Idle
    | Holding(job: Job)                     // dequeueJob returned, the job is running
    | Completing(job: Job, item: Entry)     // completeJob has scanned, LREM is next
    | Abandoning(job: Job, error: string, item: Entry)  // abandonJob has scanned, LREM is next
    | Returning(job: Job, error: string)    // abandonJob is between LREM and LPUSH
    | DeadLettering(raw: Entry)             // dequeueJob popped a malformed entry, LPUSH is next
    | Replacing(raw: Entry)                 // requeueDeadJobs has popped, LREM is next
    | Resetting(job: Job)                   // requeueDeadJobs is between LREM and LPUSH
    | Crashed(at: Client)

  /**
   * `enqueued` and `completed` record which jobs were submitted, by id, and which ids were removed
   * by completeJob; `fails` counts failures since the last reset, `errors` lists what was reported
   * of them, over all resets; `pushed` and `popped` record the traffic through the queue.
   */
  datatype System = System(
    queue: seq<Entry>, processing: seq<Entry>, dead: seq<Entry>,
    clients: seq<Client>,
    enqueued: map<Id, Job>, completed: multiset<Id>,
    fails: map<Id, nat>, errors: map<Id, seq<string>>, pushed: seq<Entry>, popped: seq<Entry>)

  datatype Action =
    | Enqueue(submitted: Job)
    | InjectMalformed(text: string)
    | Dequeue
    | PushMalformed
    | ScanToComplete
    | RemoveCompleted
    | ScanToAbandon(error: string)
    | RemoveAbandoned
    | PushAbandoned
    | PopDead
    | RemoveDead
    | PushReset
    | Crash

  /** The first scanned element whose id matches, as the LRANGE loops find it. */
  function FindById(items: seq<Entry>, id: Id): (found: Option<Entry>)
    ensures found.Some? ==> found.value in items && found.value.Good? && found.value.job.id == id
    ensures found.None? ==> forall e :: e in items && e.Good? ==> e.job.id != id
  {
    if items == [] then None
    else if items[0].Good? && items[0].job.id == id then Some(items[0])
    else FindById(items[1..], id)
  }

  function Failed(job: Job, error: string): Job {
    job.(retries := job.retries + 1, lastError := Some(error))
  }

  function Reset(job: Job): Job {
    job.(retries := 0, lastError := None)
  }

  function Fails(s: System, id: Id): nat {
    if id in s.fails then s.fails[id] else 0
  }

  function Errors(s: System, id: Id): seq<string> {
    if id in s.errors then s.errors[id] else []
  }

  predicate Enabled(s: System, i: nat, a: Action) {
    && i < |s.clients|
    && var c := s.clients[i];
       match a
       case Enqueue(job) => c.Idle? && job.id !in s.enqueued && job.retries == 0
       case InjectMalformed(_) => c.Idle?
       case Dequeue => c.Idle?
       case PushMalformed => c.DeadLettering?
       case ScanToComplete => c.Holding?
       case RemoveCompleted => c.Completing?
       case ScanToAbandon(_) => c.Holding?
       case RemoveAbandoned => c.Abandoning?
       case PushAbandoned => c.Returning?
       case PopDead => c.Idle?
       case RemoveDead => c.Replacing?
       case PushReset => c.Resetting?
       case Crash => !c.Crashed?
  }

  function At(s: System, i: nat, c: Client): System
    requires i < |s.clients|
  {
    s.(clients := s.clients[i := c])
  }

  /** One atomic command of client `i`. */
  function Next(s: System, i: nat, a: Action): System
    requires Enabled(s, i, a)
  {
    var c := s.clients[i];
    match a
    case Enqueue(job) =>
      s.(queue := [Good(job)] + s.queue, pushed := s.pushed + [Good(job)],
         enqueued := s.enqueued[job.id := job], fails := s.fails[job.id := 0])
    case InjectMalformed(text) =>
      s.(queue := [Malformed(text)] + s.queue, pushed := s.pushed + [Malformed(text)])
    case Dequeue =>
      if s.queue == [] then s
      else
        var raw := s.queue[|s.queue| - 1];
        At(s.(queue := s.queue[..|s.queue| - 1], processing := [raw] + s.processing,
              popped := s.popped + [raw]),
           i, if raw.Good? then Holding(raw.job) else DeadLettering(raw))
    case PushMalformed =>
      At(s.(dead := [c.raw] + s.dead), i, Idle)
    case ScanToComplete =>
      At(s, i, match FindById(s.processing, c.job.id)
               case Some(item) => Completing(c.job, item)
               case None => Idle)
    case RemoveCompleted =>
      At(s.(processing := RemoveFirst(s.processing, c.item),
            completed := if c.item in s.processing && c.item.Good?
                         then s.completed + multiset{c.item.job.id} else s.completed), i, Idle)
    case ScanToAbandon(error) =>
      At(s, i, match FindById(s.processing, c.job.id)
               case Some(item) => Abandoning(c.job, error, item)
               case None => Returning(c.job, error))
    case RemoveAbandoned =>
      At(s.(processing := RemoveFirst(s.processing, c.item)), i, Returning(c.job, c.error))
    case PushAbandoned =>
      var updated := Failed(c.job, c.error);
      var t := s.(fails := s.fails[updated.id := Fails(s, updated.id) + 1],
                  errors := s.errors[c.job.id := Errors(s, c.job.id) + [c.error]]);
      At(if updated.retries >= MAX_RETRIES
         then t.(dead := [Good(updated)] + t.dead)
         else t.(queue := [Good(updated)] + t.queue, pushed := t.pushed + [Good(updated)]),
         i, Idle)
    case PopDead =>
      if s.dead == [] then s
      else
        var raw := s.dead[|s.dead| - 1];
        At(s.(dead := s.dead[..|s.dead| - 1], queue := [raw] + s.queue),
           i, if raw.Good? then Replacing(raw) else Idle)
    case RemoveDead =>
      At(s.(queue := RemoveFirst(s.queue, c.raw)), i,
         if c.raw.Good? then Resetting(c.raw.job) else Idle)
    case PushReset =>
      var renewed := Good(Reset(c.job));
      At(s.(queue := [renewed] + s.queue, pushed := s.pushed + [renewed],
            fails := s.fails[c.job.id := 0]), i, Idle)
    case Crash => At(s, i, Crashed(c))
  }

  function Init(n: nat): System {
    System([], [], [], seq(n, _ => Idle), map[], multiset{}, map[], map[], [], [])
  }

  /**
   * Which steps a run may take.
   * - `Any`: every command, every interleaving, crashes and malformed entries included.
   * - `Calm`: no crash and no malformed entry, and no client dequeues the very entry that another
   *   client is about to remove inside requeueDeadJobs.
   * - `Exclusive`: as `Calm`, and while one client is inside an iteration of requeueDeadJobs no
   *   other client moves.
   */
  datatype Rule = Any | Calm | Exclusive

  predicate MidRequeue(c: Client) {
    c.Replacing? || c.Resetting?
  }

  predicate Allowed(rule: Rule, s: System, i: nat, a: Action) {
    && Enabled(s, i, a)
    && (rule != Any ==>
          && !a.Crash?
          && !a.InjectMalformed?
          && (a.Dequeue? && s.queue != [] ==> Replacing(s.queue[|s.queue| - 1]) !in s.clients))
    && (rule == Exclusive ==> forall j | 0 <= j < |s.clients| && j != i :: !MidRequeue(s.clients[j]))
  }

  ghost predicate Reaches(rule: Rule, s: System, trace: seq<(nat, Action)>, t: System)
    decreases |trace|
  {
    if trace == [] then s == t
    else
      && Allowed(rule, s, trace[0].0, trace[0].1)
      && Reaches(rule, Next(s, trace[0].0, trace[0].1), trace[1..], t)
  }
}
