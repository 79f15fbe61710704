/**
 * The queue's operations. The functions say what each one does to the table as
 * a single step; `QueueService` issues the statements one at a time, with other
 * processes' statements in between, and is proved to do exactly that step when
 * nobody else is writing.
 */
module QueueService {
  import opened Prelude
  import opened JobsTable

  const DEFAULT_QUEUE: string := "default"
  const DEFAULT_MAX_ATTEMPTS: int := 5
  const VISIBILITY_TIMEOUT_SECONDS: int := 300

  /** The copy of a row a worker holds in memory. */
  datatype Instance = Instance(id: nat, job: Job)

  function Pow2(n: nat): (p: nat)
    ensures p >= 1
  {
    if n == 0 then 1 else 2 * Pow2(n - 1)
  }

  function BackoffSeconds(attempts: nat): nat {
    Pow2(attempts) * 30
  }

  // ---------------------------------------------------------------- single steps

  predicate Expired(job: Job, queue: string, now: int) {
    job.queue == queue && job.IsReserved() && !job.IsFailed()
    && job.reservedAt.Some? && job.reservedAt.value <= now - VISIBILITY_TIMEOUT_SECONDS
  }

  function ExpiredIds(rows: Rows, queue: string, now: int): set<nat> {
    set id | id in rows && Expired(rows[id], queue, now)
  }

  function DueIds(rows: Rows, queue: string, now: int): set<nat> {
    set id | id in rows && rows[id].queue == queue && rows[id].IsDue(now)
  }

  function FreeRows(rows: Rows, ids: set<nat>): Rows {
    map id | id in rows :: if id in ids then rows[id].Freed() else rows[id]
  }

  function HoldRows(rows: Rows, ids: set<nat>, worker: WorkerId, now: int): Rows {
    map id | id in rows :: if id in ids then rows[id].HeldBy(worker, now) else rows[id]
  }

  function Reclaimed(rows: Rows, queue: string, now: int): Rows {
    FreeRows(rows, ExpiredIds(rows, queue, now))
  }

  /** The first `limit` due jobs of the queue, lowest id first. */
  function Chosen(rows: Rows, queue: string, limit: nat, now: int): set<nat> {
    Lowest(DueIds(Reclaimed(rows, queue, now), queue, now), limit)
  }

  function Reserved(rows: Rows, queue: string, limit: nat, worker: WorkerId, now: int): Rows {
    HoldRows(Reclaimed(rows, queue, now), Chosen(rows, queue, limit, now), worker, now)
  }

  predicate Parks(held: Job, unrecoverable: bool) {
    unrecoverable || held.attempts + 1 >= held.maxAttempts
  }

  /** `row` after a failure reported by a worker whose own copy of it is `held`. */
  function Settled(row: Job, held: Job, message: string, unrecoverable: bool, now: int): Job {
    var counted := row.(attempts := held.attempts + 1, lastError := Some(Take(message, 2000)));
    (if Parks(held, unrecoverable)
     then counted.(failedAt := Some(now))
     else counted.(availableAt := now + BackoffSeconds(held.attempts + 1))).Freed()
  }

  function AfterFailure(rows: Rows, held: Instance, message: string, unrecoverable: bool, now: int): Rows {
    if held.id in rows
    then rows[held.id := Settled(rows[held.id], held.job, message, unrecoverable, now)]
    else rows
  }

  function Requeued(row: Job, now: int): Job {
    row.(failedAt := None, attempts := 0, lastError := None, availableAt := now).Freed()
  }

  function AfterRetry(rows: Rows, id: nat, now: int): Rows {
    if id in rows then rows[id := Requeued(rows[id], now)] else rows
  }

  function FirstOf<T>(a: Option<T>, b: Option<T>, c: T): T {
    if a.Some? then a.value else if b.Some? then b.value else c
  }

  datatype Handler = Handler(name: string, queue: Option<string>, maxAttempts: Option<int>)

  datatype DispatchOptions = DispatchOptions(queue: Option<string>, maxAttempts: Option<int>, delaySeconds: Option<int>)

  function NewJob(handler: Handler, options: DispatchOptions, now: int): Job {
    Job(FirstOf(options.queue, handler.queue, DEFAULT_QUEUE),
        handler.name,
        0,
        FirstOf(options.maxAttempts, handler.maxAttempts, DEFAULT_MAX_ATTEMPTS),
        now + FirstOf(options.delaySeconds, None, 0),
        None, None, None, None)
  }

  datatype Counts = Counts(pending: nat, reserved: nat, failed: nat)

  // ---------------------------------------------------------------- what the steps promise

  /** A reservation takes due jobs in id order and leaves a due job behind only when the limit is used up. */
  lemma {:induction false} ReserveIsFirstComeFirstServed(rows: Rows, queue: string, limit: nat, now: int)
    ensures var due := DueIds(Reclaimed(rows, queue, now), queue, now);
            var chosen := Chosen(rows, queue, limit, now);
            && chosen <= due && |chosen| == Min(limit, |due|)
            && (forall id, other :: id in due - chosen && other in chosen ==> other < id)
  {
    LowestAreTheSmallest(DueIds(Reclaimed(rows, queue, now), queue, now), limit);
  }

  /** Nothing else in the table moves, and every chosen row names this worker from now on. */
  lemma {:induction false} ReserveTouchesOnlyItsQueue(rows: Rows, queue: string, limit: nat, worker: WorkerId, now: int, id: nat)
    requires id in rows
    ensures var chosen := Chosen(rows, queue, limit, now);
            var after := Reserved(rows, queue, limit, worker, now);
            after.Keys == rows.Keys && after[id] ==
            if id in chosen then rows[id].HeldBy(worker, now)
            else if Expired(rows[id], queue, now) then rows[id].Freed()
            else rows[id]
    ensures id in Chosen(rows, queue, limit, now) ==>
              && rows[id].queue == queue && !rows[id].IsFailed() && rows[id].availableAt <= now
              && (rows[id].IsReserved() ==> Expired(rows[id], queue, now))
  {
    ReserveIsFirstComeFirstServed(rows, queue, limit, now);
  }

  /**
   * What a handler is told about its last attempt is true: a failure it could
   * recover from parks the job exactly then. Otherwise the job waits 30 seconds
   * times two to the number of its failures. Either way nobody holds it.
   */
  lemma {:induction false} FinalAttemptIsTheLast(row: Job, held: Job, message: string, unrecoverable: bool, now: int)
    requires row.failedAt.None?
    ensures var after := Settled(row, held, message, unrecoverable, now);
            && after.reservedBy.None? && after.reservedAt.None? && after.attempts == held.attempts + 1
            && after.queue == row.queue && after.name == row.name && after.maxAttempts == row.maxAttempts
            && after.lastError == Some(if |message| <= 2000 then message else message[..2000])
            && (after.failedAt == Some(now) <==> unrecoverable || held.attempts + 1 >= held.maxAttempts)
            && (held.IsFinalAttempt() <==> held.attempts + 1 >= held.maxAttempts)
            && (after.failedAt != Some(now) ==> after.failedAt.None? && after.availableAt == now + 30 * Pow2(held.attempts + 1))
  {
  }

  lemma {:induction false} PowersOfTwo(n: nat)
    ensures Pow2(0) == 1 && Pow2(n + 1) == Pow2(n) + Pow2(n)
  {
  }

  /** The option beats the handler, the handler beats the default; only a delay makes the job wait. */
  lemma {:induction false} DispatchedJob(handler: Handler, options: DispatchOptions, now: int)
    ensures var job := NewJob(handler, options, now);
            && job.name == handler.name && job.attempts == 0
            && job.failedAt.None? && job.reservedBy.None? && job.reservedAt.None? && job.lastError.None?
            && (options.queue.Some? ==> job.queue == options.queue.value)
            && (options.queue.None? && handler.queue.Some? ==> job.queue == handler.queue.value)
            && (options.queue.None? && handler.queue.None? ==> job.queue == "default")
            && (options.maxAttempts.Some? ==> job.maxAttempts == options.maxAttempts.value)
            && (options.maxAttempts.None? && handler.maxAttempts.Some? ==> job.maxAttempts == handler.maxAttempts.value)
            && (options.maxAttempts.None? && handler.maxAttempts.None? ==> job.maxAttempts == 5)
            && job.availableAt == (if options.delaySeconds.Some? then now + options.delaySeconds.value else now)
  {
  }

  /** A retried job is as if dispatched now: free, unparked, due and at zero attempts, on its own queue and terms. */
  lemma {:induction false} RetriedJob(row: Job, now: int)
    ensures var after := Requeued(row, now);
            && after.failedAt.None? && after.reservedBy.None? && after.reservedAt.None? && after.lastError.None?
            && after.attempts == 0 && after.availableAt == now
            && after.queue == row.queue && after.name == row.name && after.maxAttempts == row.maxAttempts
            && after.Status(now) == Due && after.Status(now - 1) == Scheduled
  {
  }

  /** The status shown, from the columns. */
  lemma {:induction false} StatusFromColumns(job: Job, now: int)
    ensures job.Status(now) == Failed <==> job.failedAt.Some?
    ensures job.Status(now) == Running <==> job.failedAt.None? && job.reservedBy.Some?
    ensures job.Status(now) == Due <==> job.failedAt.None? && job.reservedBy.None? && job.availableAt <= now
    ensures job.Status(now) == Scheduled <==> job.failedAt.None? && job.reservedBy.None? && now < job.availableAt
  {
  }

  /** A reservation in columns: who may be chosen, and what is written to the chosen, the expired and the others. */
  lemma {:induction false} ReservedColumns(rows: Rows, queue: string, limit: nat, worker: WorkerId, now: int, id: nat)
    requires id in rows
    ensures var (row, after) := (rows[id], Reserved(rows, queue, limit, worker, now));
            var expired := row.queue == queue && row.failedAt.None? && row.reservedBy.Some? && row.reservedAt.Some?
                           && row.reservedAt.value + 300 <= now;
            && id in after && after[id].(reservedBy := row.reservedBy, reservedAt := row.reservedAt) == row
            && (id in Chosen(rows, queue, limit, now) ==>
                  && after[id].reservedBy == Some(worker) && after[id].reservedAt == Some(now)
                  && row.queue == queue && row.failedAt.None? && row.availableAt <= now && (row.reservedBy.None? || expired))
            && (id !in Chosen(rows, queue, limit, now) && expired ==> after[id].reservedBy.None? && after[id].reservedAt.None?)
            && (id !in Chosen(rows, queue, limit, now) && !expired ==> after[id] == row)
  {
    hide Chosen, Reserved;
    ReserveTouchesOnlyItsQueue(rows, queue, limit, worker, now, id);
  }

  /** A reservation is handed back exactly when it was stamped and the stamp is old enough. */
  lemma {:induction false} StuckBetweenSwapAndStamp(job: Job)
    requires job.IsReserved() && !job.IsFailed()
    ensures (exists now :: Expired(job, job.queue, now)) <==> job.reservedAt.Some?
  {
    if job.reservedAt.Some? {
      assert Expired(job, job.queue, job.reservedAt.value + VISIBILITY_TIMEOUT_SECONDS);
    }
  }

  datatype Poll = Poll(queue: string, limit: nat, worker: WorkerId, now: int)

  function PollAll(rows: Rows, polls: seq<Poll>): Rows {
    if polls == [] then rows else
      var p := polls[0];
      PollAll(Reserved(rows, p.queue, p.limit, p.worker, p.now), polls[1..])
  }

  /** A worker that dies after the swap and before the stamp strands its job: no later poll ever takes it. */
  lemma {:induction false} UnstampedJobIsStranded(rows: Rows, id: nat, polls: seq<Poll>)
    requires id in rows && rows[id].IsReserved() && rows[id].reservedAt.None?
    ensures id in PollAll(rows, polls) && PollAll(rows, polls)[id] == rows[id]
  {
    if polls != [] {
      var p := polls[0];
      ReserveTouchesOnlyItsQueue(rows, p.queue, p.limit, p.worker, p.now, id);
      UnstampedJobIsStranded(Reserved(rows, p.queue, p.limit, p.worker, p.now), id, polls[1..]);
    }
  }

  function WithStatus(rows: Rows, status: JobStatus, now: int): set<nat> {
    set id | id in rows && rows[id].Status(now) == status
  }

  function Pending(rows: Rows): set<nat> {
    set id | id in rows && !rows[id].IsFailed() && !rows[id].IsReserved()
  }

  function Held(rows: Rows): set<nat> {
    set id | id in rows && !rows[id].IsFailed() && rows[id].IsReserved()
  }

  function Parked(rows: Rows): set<nat> {
    set id | id in rows && rows[id].IsFailed()
  }

  /** The three counters cover every row exactly once. */
  lemma {:induction false} CountsCoverTheTable(rows: Rows)
    ensures |Pending(rows)| + |Held(rows)| + |Parked(rows)| == |rows|
  {
    var open := Pending(rows) + Held(rows);
    assert open + Parked(rows) == rows.Keys;
    assert open !! Parked(rows);
    assert |rows.Keys| == |open| + |Parked(rows)|;
  }

  /** And they agree with the status shown for each job, at any time. */
  lemma {:induction false} CountsAgreeWithStatus(rows: Rows, now: int)
    ensures |Pending(rows)| == |WithStatus(rows, Due, now)| + |WithStatus(rows, Scheduled, now)|
    ensures Held(rows) == WithStatus(rows, Running, now) && Parked(rows) == WithStatus(rows, Failed, now)
  {
    var (due, scheduled) := (WithStatus(rows, Due, now), WithStatus(rows, Scheduled, now));
    assert Pending(rows) == due + scheduled;
    assert due !! scheduled;
  }

  // ---------------------------------------------------------------- one statement at a time

  lemma {:induction false} FreeOne(db: Db, before: Rows, done: set<nat>, id: nat)
    requires db.rows == FreeRows(before, done) && id in before
    ensures Exec(db, Release(id)) == db.(rows := FreeRows(before, done + {id}))
  {
    assert Exec(db, Release(id)).rows == FreeRows(before, done + {id});
  }

  lemma {:induction false} SwapThenStamp(db: Db, id: nat, worker: WorkerId, now: int)
    requires id in db.rows && !db.rows[id].IsReserved()
    ensures Exec(Exec(db, Swap(id, worker)), Stamp(id, worker, now)) == db.(rows := HoldRows(db.rows, {id}, worker, now))
  {
    assert Exec(Exec(db, Swap(id, worker)), Stamp(id, worker, now)).rows == HoldRows(db.rows, {id}, worker, now);
  }

  lemma {:induction false} ClaimedAreInTable(taken: seq<Instance>, read: Rows, queue: string, worker: WorkerId, now: int)
    requires FromCandidates(taken, read, queue, worker, now)
    ensures InTable(taken, HoldRows(read, IdsOf(taken), worker, now))
  {
    IdsAreCollected(taken);
  }

  lemma {:induction false} IdsAreCollected(taken: seq<Instance>)
    ensures forall k :: 0 <= k < |taken| ==> taken[k].id in IdsOf(taken)
  {
    if taken != [] {
      IdsAreCollected(taken[..|taken| - 1]);
    }
  }

  lemma {:induction false} HoldOne(before: Rows, done: set<nat>, id: nat, worker: WorkerId, now: int)
    ensures HoldRows(HoldRows(before, done, worker, now), {id}, worker, now) == HoldRows(before, done + {id}, worker, now)
  {
  }

  // ---------------------------------------------------------------- the database connection

  class Database {
    var db: Db
    ghost const initial: Db
    ghost var trace: seq<Statement>

    ghost predicate Valid()
      reads this
    {
      initial.WellFormed() && db == Replay(initial, trace)
    }

    constructor (start: Db)
      requires start.WellFormed()
      ensures Valid() && db == start && trace == []
    {
      db := start;
      initial := start;
      trace := [];
    }

    method Execute(s: Statement)
      requires Valid()
      modifies this
      ensures Valid() && trace == old(trace) + [s] && db == Exec(old(db), s)
    {
      ReplayStep(initial, trace, s);
      db := Exec(db, s);
      trace := trace + [s];
    }

    /** Statements of other processes, landing between two of ours. */
    method Interleave(t: seq<Statement>)
      requires Valid()
      modifies this
      ensures Valid() && trace == old(trace) + t
      ensures t == [] ==> db == old(db)
    {
      for i := 0 to |t|
        invariant Valid() && trace == old(trace) + t[..i]
        invariant i == 0 ==> db == old(db)
      {
        Execute(t[i]);
      }
    }
  }

  /** What other processes execute before each of our statements, in turn. */
  type Interference = seq<seq<Statement>>

  function Turn(others: Interference, k: nat): seq<Statement> {
    if k < |others| then others[k] else []
  }

  /** `wins[k]` is where, in the statement log, `worker` won the swap for `taken[k]`. */
  ghost predicate WonAt(database: Database, from: nat, wins: seq<nat>, taken: seq<Instance>, worker: WorkerId)
    reads database
  {
    |wins| == |taken|
    && forall k :: 0 <= k < |wins| ==>
                     from <= wins[k] < |database.trace|
                     && database.trace[wins[k]] == Swap(taken[k].id, worker)
                     && WinsAt(database.initial, database.trace, wins[k])
  }

  /** From `from` on, this worker tried to win the job. */
  ghost predicate Tried(t: seq<Statement>, from: nat, id: nat, worker: WorkerId) {
    exists p :: from <= p < |t| && t[p] == Swap(id, worker)
  }

  ghost predicate AllTried(t: seq<Statement>, from: nat, ids: set<nat>, worker: WorkerId) {
    forall id :: id in ids ==> Tried(t, from, id, worker)
  }

  lemma {:induction false} OneMoreTried(t: seq<Statement>, u: seq<Statement>, from: nat, ids: set<nat>, id: nat, worker: WorkerId)
    requires from <= |t| && t <= u && AllTried(t, from, ids, worker) && Tried(u, |t|, id, worker)
    ensures AllTried(u, from, ids + {id}, worker)
  {
    forall other | other in ids
      ensures Tried(u, from, other, worker)
    {
      assert Tried(t, from, other, worker);
      var p :| from <= p < |t| && t[p] == Swap(other, worker);
      assert u[p] == Swap(other, worker);
    }
  }

  /** Every claimed copy is a due row of the candidate read, now carrying this worker's name. */
  ghost predicate FromCandidates(taken: seq<Instance>, rows: Rows, queue: string, worker: WorkerId, now: int) {
    forall k :: 0 <= k < |taken| ==>
                  taken[k].id in DueIds(rows, queue, now) && taken[k].job == rows[taken[k].id].HeldBy(worker, now)
  }

  /** Distinct jobs in id order, all below `top`. */
  ghost predicate Ascending(taken: seq<Instance>, top: nat) {
    && (forall j, k :: 0 <= j < k < |taken| ==> taken[j].id < taken[k].id)
    && (forall k :: 0 <= k < |taken| ==> taken[k].id < top)
  }

  lemma {:induction false} AscendingStep(taken: seq<Instance>, top: nat, job: Instance)
    requires Ascending(taken, top) && top <= job.id
    ensures Ascending(taken, job.id + 1) && Ascending(taken + [job], job.id + 1)
  {
  }

  lemma {:induction false} CandidatesStep(taken: seq<Instance>, rows: Rows, queue: string, worker: WorkerId, now: int, id: nat)
    requires FromCandidates(taken, rows, queue, worker, now) && id in DueIds(rows, queue, now)
    ensures FromCandidates(taken + [Instance(id, rows[id].HeldBy(worker, now))], rows, queue, worker, now)
  {
  }

  /** The copies in hand are the rows in the table. */
  ghost predicate InTable(taken: seq<Instance>, rows: Rows) {
    forall k :: 0 <= k < |taken| ==> taken[k].id in rows && rows[taken[k].id] == taken[k].job
  }

  function IdsOf(taken: seq<Instance>): set<nat> {
    if taken == [] then {} else IdsOf(taken[..|taken| - 1]) + {taken[|taken| - 1].id}
  }

  lemma {:induction false} IdsOfAppend(taken: seq<Instance>, job: Instance)
    ensures IdsOf(taken + [job]) == IdsOf(taken) + {job.id}
  {
    assert (taken + [job])[..|taken|] == taken;
  }

  /** With nobody else writing, the loop has claimed exactly the candidates it has passed. */
  ghost predicate Undisturbed(current: Rows, rows: Rows, candidates: set<nat>, limit: nat, left: set<nat>,
                              taken: seq<Instance>, worker: WorkerId, now: int)
  {
    && IdsOf(taken) !! left && |taken| <= limit && left <= candidates
    && Lowest(candidates, limit) == IdsOf(taken) + Lowest(left, limit - |taken|)
    && current == HoldRows(rows, IdsOf(taken), worker, now)
  }

  lemma {:induction false} UndisturbedStep(current: Rows, rows: Rows, candidates: set<nat>, limit: nat, left: set<nat>,
                        taken: seq<Instance>, worker: WorkerId, now: int)
    requires Undisturbed(current, rows, candidates, limit, left, taken, worker, now)
    requires left != {} && |taken| < limit && candidates <= rows.Keys
    ensures var id := Least(left);
            && id in current && current[id] == rows[id]
            && Undisturbed(HoldRows(current, {id}, worker, now), rows, candidates, limit, left - {id},
                           taken + [Instance(id, rows[id].HeldBy(worker, now))], worker, now)
  {
    var id := Least(left);
    IdsOfAppend(taken, Instance(id, rows[id].HeldBy(worker, now)));
    HoldOne(rows, IdsOf(taken), id, worker, now);
  }

  lemma {:induction false} UndisturbedEnd(current: Rows, rows: Rows, candidates: set<nat>, limit: nat, left: set<nat>,
                       taken: seq<Instance>, worker: WorkerId, now: int)
    requires Undisturbed(current, rows, candidates, limit, left, taken, worker, now)
    requires left == {} || |taken| == limit
    ensures IdsOf(taken) == Lowest(candidates, limit)
    ensures current == HoldRows(rows, Lowest(candidates, limit), worker, now)
  {
  }

  class QueueService {
    const database: Database
    const workerId: WorkerId

    constructor (database: Database, workerId: WorkerId)
      ensures this.database == database && this.workerId == workerId
    {
      this.database := database;
      this.workerId := workerId;
    }

    method Dispatch(handler: Handler, options: DispatchOptions, now: int) returns (job: Instance)
      requires database.Valid()
      modifies database
      ensures database.Valid()
      ensures job == Instance(old(database.db.nextId), NewJob(handler, options, now))
      ensures job.id !in old(database.db.rows)
      ensures database.db == Db(old(database.db.rows)[job.id := job.job], job.id + 1)
    {
      job := Instance(database.db.nextId, NewJob(handler, options, now));
      IdsStayAllocated(database.initial, database.trace);
      database.Execute(Insert(job.job));
    }

    method Release(held: Instance) returns (job: Instance)
      requires database.Valid()
      modifies database
      ensures database.Valid() && database.trace == old(database.trace) + [Statement.Release(held.id)]
      ensures database.db.nextId == old(database.db.nextId)
      ensures database.db.rows == FreeRows(old(database.db.rows), {held.id})
      ensures job == held.(job := held.job.Freed())
    {
      database.Execute(Statement.Release(held.id));
      job := held.(job := held.job.Freed());
    }

    /** Hands back every reservation of the queue whose worker has not been heard of for the timeout. */
    method ReclaimExpired(queue: string, now: int, others: Interference) returns (count: nat)
      requires database.Valid()
      modifies database
      ensures database.Valid() && old(database.trace) <= database.trace
      ensures count == |ExpiredIds(old(database.db.rows), queue, now)|
      ensures others == [] ==> database.db == old(database.db).(rows := Reclaimed(old(database.db.rows), queue, now))
    {
      hide Replay;
      ghost var before := database.db;
      var expired := ExpiredIds(database.db.rows, queue, now);
      assert FreeRows(before.rows, {}) == before.rows;
      var left := expired;
      var turn := 0;
      while left != {}
        invariant database.Valid() && old(database.trace) <= database.trace
        invariant left <= expired
        invariant others == [] ==> database.db == before.(rows := FreeRows(before.rows, expired - left))
        decreases left
      {
        var id := Least(left);
        database.Interleave(Turn(others, turn));
        if others == [] {
          FreeOne(database.db, before.rows, expired - left, id);
        }
        database.Execute(Statement.Release(id));
        assert expired - (left - {id}) == (expired - left) + {id};
        left := left - {id};
        turn := turn + 1;
      }
      assert expired - {} == expired;
      count := |expired|;
    }

    /** Compare-and-swap, then the stamp. `between` lands after the swap was won. */
    method Claim(candidate: Instance, now: int, before: seq<Statement>, between: seq<Statement>)
      returns (won: bool, job: Instance)
      requires database.Valid()
      modifies database
      ensures database.Valid()
      ensures var swapped := old(database.trace) + before + [Swap(candidate.id, workerId)];
              && database.trace == swapped + (if won then between + [Stamp(candidate.id, workerId, now)] else [])
              && won == WinsAt(database.initial, swapped, |swapped| - 1)
      ensures job == if won then candidate.(job := candidate.job.HeldBy(workerId, now)) else candidate
      ensures before == between == [] && candidate.id in old(database.db.rows)
                && !old(database.db.rows)[candidate.id].IsReserved()
              ==> won && database.db == old(database.db).(rows := HoldRows(old(database.db.rows), {candidate.id}, workerId, now))
    {
      hide Replay, HoldRows;
      if before == between == [] && candidate.id in database.db.rows && !database.db.rows[candidate.id].IsReserved() {
        SwapThenStamp(database.db, candidate.id, workerId, now);
      }
      database.Interleave(before);
      var swap := Swap(candidate.id, workerId);
      ghost var mid := database.trace;
      won := Wins(database.db, swap);
      database.Execute(swap);
      job := candidate;
      if won {
        database.Interleave(between);
        database.Execute(Stamp(candidate.id, workerId, now));
        job := candidate.(job := candidate.job.HeldBy(workerId, now));
      }
      assert (mid + [swap])[..|mid|] == mid;
    }

    /** Appends the candidate to the batch when its swap is won. */
    method Collect(candidate: Instance, now: int, before: seq<Statement>, between: seq<Statement>,
                   taken: seq<Instance>, ghost from: nat, ghost wins: seq<nat>)
      returns (taken': seq<Instance>, ghost wins': seq<nat>)
      requires database.Valid() && from <= |database.trace|
      requires WonAt(database, from, wins, taken, workerId)
      modifies database
      ensures database.Valid() && old(database.trace) <= database.trace
      ensures WonAt(database, from, wins', taken', workerId)
      ensures Tried(database.trace, |old(database.trace)|, candidate.id, workerId)
      ensures taken' == taken || taken' == taken + [candidate.(job := candidate.job.HeldBy(workerId, now))]
      ensures before == between == [] && candidate.id in old(database.db.rows)
                && !old(database.db.rows)[candidate.id].IsReserved()
              ==> && taken' != taken
                  && database.db == old(database.db).(rows := HoldRows(old(database.db.rows), {candidate.id}, workerId, now))
    {
      var won, job := Claim(candidate, now, before, between);
      assert database.trace[|old(database.trace)| + |before|] == Swap(candidate.id, workerId);
      ExtendingKeepsWins(database.initial, old(database.trace), database.trace, wins);
      taken', wins' := taken, wins;
      if won {
        wins' := wins + [|old(database.trace)| + |before|];
        taken' := taken + [job];
        assert database.trace[..|old(database.trace)| + |before| + 1] == old(database.trace) + before + [Swap(candidate.id, workerId)];
        ExtendingKeepsWins(database.initial, old(database.trace) + before + [Swap(candidate.id, workerId)], database.trace,
                           [|old(database.trace)| + |before|]);
      }
    }

    /** The claim loop: works through the candidates in id order until `limit` swaps are won. */
    method ClaimUpTo(candidates: set<nat>, rows: Rows, queue: string, limit: nat, now: int, others: Interference)
      returns (reserved: seq<Instance>, ghost wins: seq<nat>)
      requires database.Valid()
      requires candidates <= DueIds(rows, queue, now)
      requires others == [] ==> database.db.rows == rows
      modifies database
      ensures database.Valid() && old(database.trace) <= database.trace
      ensures |reserved| <= limit && exists top :: Ascending(reserved, top)
      ensures FromCandidates(reserved, rows, queue, workerId, now)
      ensures WonAt(database, |old(database.trace)|, wins, reserved, workerId)
      ensures |reserved| < limit ==> AllTried(database.trace, |old(database.trace)|, candidates, workerId)
      ensures others == [] ==> IdsOf(reserved) == Lowest(candidates, limit)
      ensures others == [] ==> database.db == old(database.db).(rows := HoldRows(rows, Lowest(candidates, limit), workerId, now))
    {
      reserved, wins := [], [];
      var left, turn := candidates, 0;
      ghost var from := |database.trace|;
      ghost var top: nat := 0;
      assert WonAt(database, from, wins, reserved, workerId);
      assert candidates - left == {} && AllTried(database.trace, from, {}, workerId);
      assert HoldRows(rows, {}, workerId, now) == rows;
      assert others == [] ==> Undisturbed(database.db.rows, rows, candidates, limit, left, reserved, workerId, now);
      hide Replay, WonAt, Undisturbed, Lowest, HoldRows, IdsOf, Ascending, FromCandidates, Tried, AllTried;
      while left != {} && |reserved| < limit
        invariant database.Valid() && old(database.trace) <= database.trace
        invariant |reserved| <= limit && left <= candidates
        invariant FromCandidates(reserved, rows, queue, workerId, now)
        invariant Ascending(reserved, top) && forall id :: id in left ==> top <= id
        invariant WonAt(database, from, wins, reserved, workerId)
        invariant AllTried(database.trace, from, candidates - left, workerId)
        invariant others == [] ==> database.db.nextId == old(database.db.nextId)
        invariant others == [] ==> Undisturbed(database.db.rows, rows, candidates, limit, left, reserved, workerId, now)
        decreases left
      {
        var id := Least(left);
        var candidate := Instance(id, rows[id]);
        LeastIsLeast(left);
        AscendingStep(reserved, top, candidate.(job := candidate.job.HeldBy(workerId, now)));
        CandidatesStep(reserved, rows, queue, workerId, now, id);
        if others == [] {
          UndisturbedStep(database.db.rows, rows, candidates, limit, left, reserved, workerId, now);
        }
        ghost var log := database.trace;
        reserved, wins := Collect(candidate, now, Turn(others, turn), Turn(others, turn + 1), reserved, from, wins);
        OneMoreTried(log, database.trace, from, candidates - left, id, workerId);
        assert candidates - (left - {id}) == (candidates - left) + {id};
        top := id + 1;
        left := left - {id};
        turn := turn + 2;
      }
      assert left == {} ==> candidates - left == candidates;
      if others == [] {
        UndisturbedEnd(database.db.rows, rows, candidates, limit, left, reserved, workerId, now);
      }
    }

    /**
     * Claims up to `limit` jobs. Others may win any candidate first; whatever
     * comes back is at most `limit` distinct jobs in id order, each won by a
     * swap of ours. Undisturbed, it is exactly the first due ones. A short batch
     * was not given up early: of the jobs due at `read` in the log, the first
     * three times as many as asked for were each tried.
     */
    method Reserve(queue: string, limit: nat, now: int, reclaiming: Interference, claiming: Interference)
      returns (reserved: seq<Instance>, ghost wins: seq<nat>, ghost read: nat)
      requires database.Valid()
      modifies database
      ensures database.Valid() && old(database.trace) <= database.trace
      ensures |old(database.trace)| <= read <= |database.trace|
      ensures |reserved| < limit ==>
                AllTried(database.trace, read,
                         Lowest(DueIds(Replay(database.initial, database.trace[..read]).rows, queue, now), limit * 3), workerId)
      ensures |reserved| <= limit && exists top :: Ascending(reserved, top)
      ensures forall k :: 0 <= k < |reserved| ==>
                            reserved[k].job.reservedBy == Some(workerId) && reserved[k].job.reservedAt == Some(now)
                            && reserved[k].job.queue == queue && reserved[k].job.availableAt <= now
      ensures WonAt(database, |old(database.trace)|, wins, reserved, workerId)
      ensures reclaiming == claiming == [] ==>
                && database.db == old(database.db).(rows := Reserved(old(database.db.rows), queue, limit, workerId, now))
                && IdsOf(reserved) == Chosen(old(database.db.rows), queue, limit, now)
                && InTable(reserved, database.db.rows)
    {
      hide Replay, WinsAt, FreeRows, HoldRows, ExpiredIds, AllTried;
      var freed := ReclaimExpired(queue, now, reclaiming);
      var due := DueIds(database.db.rows, queue, now);
      var candidates := Lowest(due, limit * 3);
      LowestAreTheSmallest(due, limit * 3);
      LowestOfLowest(due, limit * 3, limit);
      ghost var rows := database.db.rows;
      read := |database.trace|;
      ghost var log := database.trace;
      reserved, wins := ClaimUpTo(candidates, database.db.rows, queue, limit, now, claiming);
      assert database.trace[..read] == log;
      ClaimedAreInTable(reserved, rows, queue, workerId, now);
    }

    method Complete(job: Instance)
      requires database.Valid()
      modifies database
      ensures database.Valid()
      ensures database.db == old(database.db).(rows := old(database.db.rows) - {job.id})
    {
      database.Execute(Delete(job.id));
    }

    /** The job threw: another attempt later, or parked. The release comes last. */
    method Fail(held: Instance, message: string, unrecoverable: bool, now: int) returns (job: Instance)
      requires database.Valid()
      modifies database
      ensures database.Valid()
      ensures database.db == old(database.db).(rows := AfterFailure(old(database.db.rows), held, message, unrecoverable, now))
      ensures job == held.(job := Settled(held.job, held.job, message, unrecoverable, now))
    {
      hide Replay;
      var attempts := held.job.attempts + 1;
      var lastError := Take(message, 2000);
      job := held.(job := held.job.(attempts := attempts, lastError := Some(lastError)));
      if unrecoverable || attempts >= held.job.maxAttempts {
        job := job.(job := job.job.(failedAt := Some(now)));
        database.Execute(SaveFailure(held.id, attempts, lastError, Some(now), None));
        job := Release(job);
        return;
      }
      var availableAt := now + BackoffSeconds(attempts);
      job := job.(job := job.job.(availableAt := availableAt));
      database.Execute(SaveFailure(held.id, attempts, lastError, None, Some(availableAt)));
      job := Release(job);
    }

    method Retry(parked: Instance, now: int) returns (job: Instance)
      requires database.Valid()
      modifies database
      ensures database.Valid()
      ensures database.db == old(database.db).(rows := AfterRetry(old(database.db.rows), parked.id, now))
      ensures job == parked.(job := Requeued(parked.job, now))
    {
      database.Execute(SaveRetry(parked.id, now));
      job := Release(parked.(job := parked.job.(failedAt := None, attempts := 0, lastError := None, availableAt := now)));
    }

    method CountAll() returns (counts: Counts)
      requires database.Valid()
      ensures counts.pending == |Pending(database.db.rows)| && counts.reserved == |Held(database.db.rows)|
      ensures counts.failed == |Parked(database.db.rows)|
      ensures counts.pending + counts.reserved + counts.failed == |database.db.rows|
    {
      var pending := |Pending(database.db.rows)|;
      var reserved := |Held(database.db.rows)|;
      var failed := |Parked(database.db.rows)|;
      CountsCoverTheTable(database.db.rows);
      counts := Counts(pending, reserved, failed);
    }
  }

  lemma {:induction false} ExtendingKeepsWins(db: Db, t: seq<Statement>, u: seq<Statement>, wins: seq<nat>)
    requires t <= u
    requires forall k :: 0 <= k < |wins| ==> wins[k] < |t| && WinsAt(db, t, wins[k])
    ensures forall k :: 0 <= k < |wins| ==> wins[k] < |u| && u[wins[k]] == t[wins[k]] && WinsAt(db, u, wins[k])
  {
    forall k | 0 <= k < |wins|
      ensures u[wins[k]] == t[wins[k]] && WinsAt(db, u, wins[k])
    {
      assert u[..wins[k]] == t[..wins[k]];
    }
  }
}
