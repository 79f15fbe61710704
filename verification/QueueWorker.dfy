/** `queue:work --once`: the worker loop that drains what is due and exits. */
module QueueWorker {
  import opened Prelude
  import opened JobsTable
  import opened QueueService

  /** How one handler call ended. */
  datatype Outcome = Returned | Threw(message: string, unrecoverable: bool)

  /** Everything the loop cannot decide for itself, consulted by call number. */
  datatype World = World(
    elapsed: nat -> nat,
    outcome: (nat, nat) -> Outcome,
    duration: (nat, nat) -> nat,
    signal: nat -> bool,
    handlers: set<string>)

  // ---------------------------------------------------------------- the measure

  /** Failures a job can still have before it is parked. */
  function Budget(job: Job): int {
    if job.IsFailed() then 0 else Max(1, job.maxAttempts) - job.attempts
  }

  function Budgets(rows: Rows): map<nat, int> {
    map id | id in rows :: Budget(rows[id])
  }

  function Potential(rows: Rows): int {
    Sum(Budgets(rows))
  }

  /** What every reachable table satisfies: an unparked job has an attempt left. */
  predicate Solvent(rows: Rows) {
    forall id :: id in rows && !rows[id].IsFailed() ==> rows[id].attempts < Max(1, rows[id].maxAttempts)
  }

  lemma {:induction false} PotentialIsNonNegative(rows: Rows)
    requires Solvent(rows)
    ensures 0 <= Potential(rows)
  {
    SumNonNegative(Budgets(rows));
  }

  lemma {:induction false} ClaimingCostsNothing(rows: Rows, queue: string, limit: nat, worker: WorkerId, now: int)
    ensures Potential(Reserved(rows, queue, limit, worker, now)) == Potential(rows)
    ensures Solvent(rows) ==> Solvent(Reserved(rows, queue, limit, worker, now))
  {
    assert Budgets(Reserved(rows, queue, limit, worker, now)) == Budgets(rows);
  }

  /** The table once the handler of `job` has ended this way. */
  function AfterSettling(rows: Rows, job: Instance, known: bool, outcome: Outcome, now: int): Rows {
    if !known then AfterFailure(rows, job, "No handler for job \"" + job.job.name + "\"", true, now)
    else match outcome
      case Returned => rows - {job.id}
      case Threw(message, unrecoverable) => AfterFailure(rows, job, message, unrecoverable, now)
  }

  /** Each settled job, however it ends, strictly lowers the number of failures the table has left. */
  lemma {:induction false} SettlingLowersPotential(rows: Rows, job: Instance, known: bool, outcome: Outcome, now: int)
    requires Solvent(rows)
    requires job.id in rows && rows[job.id] == job.job && !job.job.IsFailed()
    ensures var after := AfterSettling(rows, job, known, outcome, now);
            Solvent(after) && Potential(after) < Potential(rows)
    ensures job.id in AfterSettling(rows, job, known, outcome, now) <==> !known || outcome.Threw?
  {
    var after := AfterSettling(rows, job, known, outcome, now);
    if known && outcome.Returned? {
      SumRemove(Budgets(rows), job.id);
      assert Budgets(after) == Budgets(rows) - {job.id};
    } else {
      SumUpdate(Budgets(rows), job.id, Budget(after[job.id]));
      assert Budgets(after) == Budgets(rows)[job.id := Budget(after[job.id])];
    }
  }

  /** What becomes of the row of `jobs[k]`, wherever else the table has moved meanwhile. */
  function AfterJob(rows: Rows, jobs: seq<Instance>, world: World, call: nat, now: int, k: nat): Rows
    requires k < |jobs|
  {
    AfterSettling(rows, jobs[k], jobs[k].job.name in world.handlers, world.outcome(call, k), now + world.duration(call, k))
  }

  predicate SameAt(a: Rows, b: Rows, id: nat) {
    (id in a <==> id in b) && (id in a ==> a[id] == b[id])
  }

  predicate Names(jobs: seq<Instance>, id: nat) {
    exists k :: 0 <= k < |jobs| && jobs[k].id == id
  }

  predicate JobSettled(before: Rows, after: Rows, jobs: seq<Instance>, world: World, call: nat, now: int, left: set<nat>, k: nat)
    requires k < |jobs|
  {
    SameAt(after, if k in left then before else AfterJob(before, jobs, world, call, now, k), jobs[k].id)
  }

  /** All but the jobs in `left` have settled, each as if alone, and no other row has moved. */
  ghost predicate BatchSettled(before: Rows, after: Rows, jobs: seq<Instance>, world: World, call: nat, now: int, left: set<nat>) {
    && (forall k :: 0 <= k < |jobs| ==> JobSettled(before, after, jobs, world, call, now, left, k))
    && (forall id: nat :: !Names(jobs, id) ==> SameAt(after, before, id))
  }

  lemma {:induction false} SettlingLeavesOthers(rows: Rows, job: Instance, known: bool, outcome: Outcome, now: int, id: nat)
    requires id != job.id
    ensures SameAt(AfterSettling(rows, job, known, outcome, now), rows, id)
  {
    hide Settled;
  }

  lemma {:induction false} SettlingReadsItsRow(rows: Rows, other: Rows, job: Instance, known: bool, outcome: Outcome, now: int)
    requires SameAt(rows, other, job.id)
    ensures SameAt(AfterSettling(rows, job, known, outcome, now), AfterSettling(other, job, known, outcome, now), job.id)
  {
    hide Settled;
  }

  lemma {:induction false} OneMoreJobSettled(before: Rows, after: Rows, jobs: seq<Instance>, world: World, call: nat, now: int,
                                             left: set<nat>, k: nat, j: nat)
    requires k < |jobs| && j < |jobs| && k in left && (j != k ==> jobs[j].id != jobs[k].id)
    requires JobSettled(before, after, jobs, world, call, now, left, j)
    ensures JobSettled(before, AfterJob(after, jobs, world, call, now, k), jobs, world, call, now, left - {k}, j)
  {
    hide AfterSettling;
    if j == k {
      SettlingReadsItsRow(after, before, jobs[k], jobs[k].job.name in world.handlers, world.outcome(call, k), now + world.duration(call, k));
    } else {
      SettlingLeavesOthers(after, jobs[k], jobs[k].job.name in world.handlers, world.outcome(call, k), now + world.duration(call, k), jobs[j].id);
    }
  }

  lemma {:induction false} OneMoreSettled(before: Rows, after: Rows, jobs: seq<Instance>, world: World, call: nat, now: int, left: set<nat>, k: nat)
    requires BatchSettled(before, after, jobs, world, call, now, left)
    requires k < |jobs| && k in left && exists top :: Ascending(jobs, top)
    ensures BatchSettled(before, AfterJob(after, jobs, world, call, now, k), jobs, world, call, now, left - {k})
  {
    hide AfterSettling, JobSettled, SameAt;
    var next := AfterJob(after, jobs, world, call, now, k);
    forall j | 0 <= j < |jobs|
      ensures JobSettled(before, next, jobs, world, call, now, left - {k}, j)
    {
      OneMoreJobSettled(before, after, jobs, world, call, now, left, k, j);
    }
    forall id: nat | !Names(jobs, id)
      ensures SameAt(next, before, id)
    {
      SettlingLeavesOthers(after, jobs[k], jobs[k].job.name in world.handlers, world.outcome(call, k), now + world.duration(call, k), id);
      SameAtTwice(next, after, before, id);
    }
  }

  lemma {:induction false} SameAtTwice(a: Rows, b: Rows, c: Rows, id: nat)
    requires SameAt(a, b, id) && SameAt(b, c, id)
    ensures SameAt(a, c, id)
  {
  }

  /** So the order in which the jobs of a batch settle makes no difference. */
  lemma {:induction false} BatchIsDetermined(before: Rows, one: Rows, other: Rows, jobs: seq<Instance>, world: World, call: nat, now: int)
    requires BatchSettled(before, one, jobs, world, call, now, {}) && BatchSettled(before, other, jobs, world, call, now, {})
    ensures one == other
  {
    hide AfterJob;
    forall id: nat
      ensures SameAt(one, other, id)
    {
      if Names(jobs, id) {
        var k :| 0 <= k < |jobs| && jobs[k].id == id;
        assert JobSettled(before, one, jobs, world, call, now, {}, k) && JobSettled(before, other, jobs, world, call, now, {}, k);
      } else {
        assert SameAt(one, before, id) && SameAt(other, before, id);
      }
    }
    SameEverywhere(one, other);
  }

  lemma {:induction false} SameEverywhere(one: Rows, other: Rows)
    requires forall id: nat :: SameAt(one, other, id)
    ensures one == other
  {
    forall id | id in one.Keys + other.Keys
      ensures id in one && id in other && one[id] == other[id]
    {
      assert SameAt(one, other, id);
    }
  }

  // ---------------------------------------------------------------- how each job of a batch ends

  /**
   * The row of a job whose handler ended at `ended`: gone if it has a handler that
   * returned; otherwise there, free, with one more attempt, and either parked or
   * due again after its wait.
   */
  predicate EndedAs(rows: Rows, id: nat, job: Job, known: bool, outcome: Outcome, ended: int) {
    && (id !in rows <==> known && outcome.Returned?)
    && (id in rows ==>
          var row := rows[id];
          && row.reservedBy.None? && row.reservedAt.None? && row.attempts == job.attempts + 1
          && row.queue == job.queue && row.name == job.name && row.maxAttempts == job.maxAttempts
          && (row.failedAt.Some? <==> !known || outcome.unrecoverable || job.attempts + 1 >= job.maxAttempts)
          && (row.failedAt.Some? ==> row.failedAt == Some(ended))
          && (known ==> row.lastError == Some(Take(outcome.message, 2000)))
          && (!known ==> row.lastError == Some(Take("No handler for job \"" + job.name + "\"", 2000)))
          && (row.failedAt.None? ==> row.availableAt == ended + 30 * Pow2(job.attempts + 1)))
  }

  lemma {:induction false} SettlingEndsIt(rows: Rows, job: Instance, known: bool, outcome: Outcome, now: int)
    requires job.id in rows && rows[job.id] == job.job && job.job.failedAt.None?
    ensures EndedAs(AfterSettling(rows, job, known, outcome, now), job.id, job.job, known, outcome, now)
  {
  }

  /** Each job of a settled batch ended as its own handler did, at its own time. */
  lemma {:induction false} BatchEndsEach(before: Rows, after: Rows, jobs: seq<Instance>, world: World, call: nat, now: int, k: nat)
    requires k < |jobs| && InTable(jobs, before) && jobs[k].job.failedAt.None?
    requires BatchSettled(before, after, jobs, world, call, now, {})
    ensures EndedAs(after, jobs[k].id, jobs[k].job, jobs[k].job.name in world.handlers, world.outcome(call, k), now + world.duration(call, k))
  {
    hide AfterSettling, Settled;
    assert JobSettled(before, after, jobs, world, call, now, {}, k);
    SettlingEndsIt(before, jobs[k], jobs[k].job.name in world.handlers, world.outcome(call, k), now + world.duration(call, k));
  }

  // ---------------------------------------------------------------- the loop

  method Settle(service: QueueService, job: Instance, world: World, outcome: Outcome, now: int)
    requires service.database.Valid()
    requires Solvent(service.database.db.rows) && InTable([job], service.database.db.rows) && !job.job.IsFailed()
    modifies service.database
    ensures service.database.Valid()
    ensures var before := old(service.database.db.rows);
            service.database.db.rows == AfterSettling(before, job, job.job.name in world.handlers, outcome, now)
    ensures Solvent(service.database.db.rows)
    ensures Potential(service.database.db.rows) < old(Potential(service.database.db.rows))
  {
    assert [job][0] == job;
    SettlingLowersPotential(service.database.db.rows, job, job.job.name in world.handlers, outcome, now);
    if job.job.name !in world.handlers {
      var _ := service.Fail(job, "No handler for job \"" + job.job.name + "\"", true, now);
      return;
    }
    match outcome {
      case Returned =>
        service.Complete(job);
      case Threw(message, unrecoverable) =>
        var _ := service.Fail(job, message, unrecoverable, now);
    }
  }

  /**
   * Jobs reserved together settle in whatever order and at whatever time their
   * handlers end; the table they leave does not depend on the order.
   */
  method SettleBatch(service: QueueService, jobs: seq<Instance>, world: World, call: nat, now: int) returns (ended: int)
    requires service.database.Valid()
    requires Solvent(service.database.db.rows) && InTable(jobs, service.database.db.rows)
    requires exists top :: Ascending(jobs, top)
    requires forall k :: 0 <= k < |jobs| ==> !jobs[k].job.IsFailed()
    modifies service.database
    ensures service.database.Valid() && Solvent(service.database.db.rows)
    ensures BatchSettled(old(service.database.db.rows), service.database.db.rows, jobs, world, call, now, {})
    ensures forall k :: 0 <= k < |jobs| ==>
                          EndedAs(service.database.db.rows, jobs[k].id, jobs[k].job, jobs[k].job.name in world.handlers,
                                  world.outcome(call, k), now + world.duration(call, k))
    ensures Potential(service.database.db.rows) + |jobs| <= old(Potential(service.database.db.rows))
    ensures ended >= now && forall k :: 0 <= k < |jobs| ==> now + world.duration(call, k) <= ended
  {
    hide AfterSettling, Solvent, Potential, Settled, BatchSettled, Ascending, EndedAs;
    ended := now;
    var left := Indices(|jobs|);
    IndicesCount(|jobs|);
    ghost var before := service.database.db.rows;
    NoneSettled(before, jobs, world, call, now);
    while left != {}
      invariant left <= Indices(|jobs|)
      invariant service.database.Valid() && Solvent(service.database.db.rows)
      invariant BatchSettled(before, service.database.db.rows, jobs, world, call, now, left)
      invariant Potential(service.database.db.rows) + |jobs| <= Potential(before) + |left|
      invariant ended >= now && forall k :: 0 <= k < |jobs| && k !in left ==> now + world.duration(call, k) <= ended
      decreases left
    {
      var k :| k in left;
      var at := now + world.duration(call, k);
      UnsettledIsInTable(before, service.database.db.rows, jobs, world, call, now, left, k);
      OneMoreSettled(before, service.database.db.rows, jobs, world, call, now, left, k);
      Settle(service, jobs[k], world, world.outcome(call, k), at);
      ended := Max(ended, at);
      left := left - {k};
    }
    AllEnded(before, service.database.db.rows, jobs, world, call, now);
  }

  lemma {:induction false} AllEnded(before: Rows, after: Rows, jobs: seq<Instance>, world: World, call: nat, now: int)
    requires InTable(jobs, before) && BatchSettled(before, after, jobs, world, call, now, {})
    requires forall k :: 0 <= k < |jobs| ==> !jobs[k].job.IsFailed()
    ensures forall k :: 0 <= k < |jobs| ==>
                          EndedAs(after, jobs[k].id, jobs[k].job, jobs[k].job.name in world.handlers,
                                  world.outcome(call, k), now + world.duration(call, k))
  {
    hide EndedAs, BatchSettled, InTable;
    forall k | 0 <= k < |jobs|
      ensures EndedAs(after, jobs[k].id, jobs[k].job, jobs[k].job.name in world.handlers,
                      world.outcome(call, k), now + world.duration(call, k))
    {
      BatchEndsEach(before, after, jobs, world, call, now, k);
    }
  }

  function Indices(n: nat): set<nat> {
    if n == 0 then {} else Indices(n - 1) + {n - 1}
  }

  lemma {:induction false} IndicesCount(n: nat)
    ensures |Indices(n)| == n && forall k: nat :: k in Indices(n) <==> k < n
  {
    if n > 0 {
      IndicesCount(n - 1);
    }
  }

  lemma {:induction false} NoneSettled(before: Rows, jobs: seq<Instance>, world: World, call: nat, now: int)
    ensures BatchSettled(before, before, jobs, world, call, now, Indices(|jobs|))
  {
    IndicesCount(|jobs|);
  }

  lemma {:induction false} UnsettledIsInTable(before: Rows, after: Rows, jobs: seq<Instance>, world: World, call: nat, now: int, left: set<nat>, k: nat)
    requires InTable(jobs, before) && BatchSettled(before, after, jobs, world, call, now, left)
    requires k < |jobs| && k in left
    ensures InTable([jobs[k]], after)
  {
    hide AfterJob;
    assert JobSettled(before, after, jobs, world, call, now, left, k);
  }

  /** Which handlers returned: `returned[id]` is the call and the place in its batch at which the one of `id` did. */
  type Returns = map<nat, (nat, nat)>

  function ReturnedIn(jobs: seq<Instance>, world: World, call: nat, n: nat): Returns
    requires n <= |jobs|
  {
    if n == 0 then map[] else
      var earlier := ReturnedIn(jobs, world, call, n - 1);
      if jobs[n - 1].job.name in world.handlers && world.outcome(call, n - 1).Returned?
      then earlier[jobs[n - 1].id := (call, n - 1)] else earlier
  }

  /** A job goes missing exactly when a handler of it returned. */
  ghost predicate OnlyReturnedGo(before: Rows, after: Rows, world: World, returned: Returns) {
    && returned.Keys == before.Keys - after.Keys && after.Keys <= before.Keys
    && (forall id :: id in after ==> after[id].name == before[id].name)
    && (forall id :: id in returned ==>
                       id in before && before[id].name in world.handlers && world.outcome(returned[id].0, returned[id].1).Returned?)
  }

  lemma {:induction false} NobodyGone(rows: Rows, world: World)
    ensures OnlyReturnedGo(rows, rows, world, map[])
  {
  }

  lemma {:induction false} ReservingTakesNobody(before: Rows, rows: Rows, world: World, returned: Returns, queue: string, limit: nat,
                                                worker: WorkerId, now: int)
    requires OnlyReturnedGo(before, rows, world, returned)
    ensures OnlyReturnedGo(before, Reserved(rows, queue, limit, worker, now), world, returned)
  {
    hide Chosen, ExpiredIds;
  }

  lemma {:induction false} ReturnedAre(jobs: seq<Instance>, world: World, call: nat, n: nat, id: nat)
    requires n <= |jobs|
    ensures id in ReturnedIn(jobs, world, call, n)
       <==> exists k :: 0 <= k < n && jobs[k].id == id && jobs[k].job.name in world.handlers && world.outcome(call, k).Returned?
    ensures id in ReturnedIn(jobs, world, call, n) ==>
              var entry := ReturnedIn(jobs, world, call, n)[id];
              entry.0 == call && entry.1 < n && jobs[entry.1].id == id && jobs[entry.1].job.name in world.handlers
              && world.outcome(call, entry.1).Returned?
  {
    if n > 0 {
      ReturnedAre(jobs, world, call, n - 1, id);
    }
  }

  lemma {:induction false} BatchTakesTheReturned(rows: Rows, after: Rows, jobs: seq<Instance>, world: World, call: nat, now: int)
    requires InTable(jobs, rows) && BatchSettled(rows, after, jobs, world, call, now, {})
    requires forall k :: 0 <= k < |jobs| ==> !jobs[k].job.IsFailed()
    ensures OnlyReturnedGo(rows, after, world, ReturnedIn(jobs, world, call, |jobs|))
  {
    hide AfterJob, ReturnedIn;
    AllEnded(rows, after, jobs, world, call, now);
    forall id: nat
      ensures id in after ==> id in rows && after[id].name == rows[id].name
      ensures id in ReturnedIn(jobs, world, call, |jobs|) <==> id in rows && id !in after
      ensures id in ReturnedIn(jobs, world, call, |jobs|) ==>
                id in rows && rows[id].name in world.handlers
                && world.outcome(ReturnedIn(jobs, world, call, |jobs|)[id].0, ReturnedIn(jobs, world, call, |jobs|)[id].1).Returned?
    {
      ReturnedAre(jobs, world, call, |jobs|, id);
      if Names(jobs, id) {
        var k :| 0 <= k < |jobs| && jobs[k].id == id;
        assert EndedAs(after, id, jobs[k].job, jobs[k].job.name in world.handlers, world.outcome(call, k), now + world.duration(call, k));
      } else {
        assert SameAt(after, rows, id);
      }
    }
  }

  lemma {:induction false} GoingOnGoing(before: Rows, mid: Rows, after: Rows, world: World, first: Returns, second: Returns)
    requires OnlyReturnedGo(before, mid, world, first) && OnlyReturnedGo(mid, after, world, second)
    ensures OnlyReturnedGo(before, after, world, first + second)
  {
  }

  predicate NothingDue(rows: Rows, queues: seq<string>, now: int) {
    forall id :: id in rows && rows[id].queue in queues ==> !rows[id].IsDue(now)
  }

  /** An empty reservation means nothing of that queue was due, and took nothing. */
  lemma {:induction false} EmptyMeansNothingDue(rows: Rows, queues: seq<string>, k: nat, limit: nat, worker: WorkerId, since: int, now: int)
    requires k < |queues| && limit > 0 && since <= now
    requires Chosen(rows, queues[k], limit, now) == {}
    requires NothingDue(rows, queues[..k], since)
    ensures NothingDue(Reserved(rows, queues[k], limit, worker, now), queues[..k + 1], since)
  {
    var queue := queues[k];
    var freed := Reclaimed(rows, queue, now);
    ReserveIsFirstComeFirstServed(rows, queue, limit, now);
    assert DueIds(freed, queue, now) == {};
    var after := Reserved(rows, queue, limit, worker, now);
    forall id | id in after && after[id].queue in queues[..k + 1]
      ensures !after[id].IsDue(since)
    {
      assert after[id] == freed[id];
      if after[id].queue == queue {
        assert id !in DueIds(freed, queue, now);
      } else {
        assert after[id] == rows[id] && rows[id].queue in queues[..k];
      }
    }
  }

  /**
   * Passes over the queues, in priority order, until a pass finds nothing or a
   * signal arrives. Every working pass uses up at least one of the failures the
   * table had left, so there are at most that many, plus the idle one that ends
   * the loop; unless it was stopped, nothing in those queues was due when the
   * last pass began.
   */
  method RunOnce(service: QueueService, queues: seq<string>, concurrency: nat, world: World, startedAt: int)
    returns (passes: nat, settled: nat, stopped: bool, lastPass: int, ghost returned: Returns)
    requires service.database.Valid() && Solvent(service.database.db.rows)
    modifies service.database
    ensures service.database.Valid() && Solvent(service.database.db.rows)
    ensures passes <= settled
    ensures Potential(service.database.db.rows) + settled <= old(Potential(service.database.db.rows))
    ensures passes <= old(Potential(service.database.db.rows))
    ensures !stopped && concurrency > 0 ==> NothingDue(service.database.db.rows, queues, lastPass)
    ensures lastPass >= startedAt
    ensures OnlyReturnedGo(old(service.database.db.rows), service.database.db.rows, world, returned)
  {
    hide Solvent, Potential, Reserved, Chosen, InTable, BatchSettled, OnlyReturnedGo, EndedAs;
    passes, settled, stopped := 0, 0, false;
    ghost var initially := service.database.db.rows;
    returned := map[];
    NobodyGone(initially, world);
    var now, call, drained := startedAt, 0, false;
    lastPass := startedAt;
    PotentialIsNonNegative(service.database.db.rows);
    while !stopped && !drained
      invariant service.database.Valid() && Solvent(service.database.db.rows)
      invariant passes <= settled
      invariant Potential(service.database.db.rows) + settled <= old(Potential(service.database.db.rows))
      invariant startedAt <= lastPass <= now
      invariant OnlyReturnedGo(initially, service.database.db.rows, world, returned)
      invariant drained && concurrency > 0 && !stopped ==> NothingDue(service.database.db.rows, queues, lastPass)
      decreases Potential(service.database.db.rows), if drained || stopped then 0 else 1
    {
      var workedSomething := false;
      lastPass := now;
      ghost var atPassStart := Potential(service.database.db.rows);
      var settledBefore := settled;
      var k := 0;
      while k < |queues| && !stopped
        invariant 0 <= k <= |queues|
        invariant service.database.Valid() && Solvent(service.database.db.rows)
        invariant passes <= settledBefore && settledBefore + (if workedSomething then 1 else 0) <= settled
        invariant Potential(service.database.db.rows) + settled <= old(Potential(service.database.db.rows))
        invariant OnlyReturnedGo(initially, service.database.db.rows, world, returned)
        invariant workedSomething ==> Potential(service.database.db.rows) < atPassStart
        invariant Potential(service.database.db.rows) <= atPassStart
        invariant startedAt <= lastPass <= now
        invariant !workedSomething && concurrency > 0 ==> NothingDue(service.database.db.rows, queues[..k], lastPass)
        decreases |queues| - k, !stopped
      {
        if world.signal(call) {
          stopped := true;
        } else {
          ghost var before := service.database.db.rows;
          now := now + world.elapsed(call);
          var jobs, _, _ := service.Reserve(queues[k], concurrency, now, [], []);
          ClaimingCostsNothing(before, queues[k], concurrency, service.workerId, now);
          ReservingTakesNobody(initially, before, world, returned, queues[k], concurrency, service.workerId, now);
          if |jobs| == 0 {
            if !workedSomething && concurrency > 0 {
              EmptyMeansNothingDue(before, queues, k, concurrency, service.workerId, lastPass, now);
            }
          } else {
            workedSomething := true;
            ClaimedAreOpen(before, jobs, queues[k], concurrency, service.workerId, now);
            ghost var (claimed, began) := (service.database.db.rows, now);
            now := SettleBatch(service, jobs, world, call, now);
            BatchTakesTheReturned(claimed, service.database.db.rows, jobs, world, call, began);
            GoingOnGoing(initially, claimed, service.database.db.rows, world, returned, ReturnedIn(jobs, world, call, |jobs|));
            returned := returned + ReturnedIn(jobs, world, call, |jobs|);
            settled := settled + |jobs|;
          }
          k := k + 1;
        }
        call := call + 1;
      }
      PotentialIsNonNegative(service.database.db.rows);
      if !workedSomething {
        drained := !stopped;
        assert queues[..k] == queues || stopped;
      } else {
        passes := passes + 1;
      }
    }
    PotentialIsNonNegative(service.database.db.rows);
  }

  lemma {:induction false} ClaimedAreOpen(rows: Rows, jobs: seq<Instance>, queue: string, limit: nat, worker: WorkerId, now: int)
    requires InTable(jobs, Reserved(rows, queue, limit, worker, now))
    requires IdsOf(jobs) == Chosen(rows, queue, limit, now)
    ensures forall k :: 0 <= k < |jobs| ==> !jobs[k].job.IsFailed()
  {
    IdsAreCollected(jobs);
    forall k | 0 <= k < |jobs|
      ensures !jobs[k].job.IsFailed()
    {
      ReserveTouchesOnlyItsQueue(rows, queue, limit, worker, now, jobs[k].id);
    }
  }
}
