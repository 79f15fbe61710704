/**
 * Any number of workers, dispatchers and staff against one jobs table, each
 * operation one step. A worker's handlers are `running` until it settles them
 * or crashes, for however long; a crash leaves the row behind. Staff act on
 * copies of jobs that were parked when they were loaded.
 */
module QueueProtocol {
  import opened Prelude
  import opened JobsTable
  import opened QueueService

  /** Since when the job counts its failures, and how many there were. */
  datatype History = History(since: int, failures: nat)

  datatype World = World(
    rows: Rows,
    nextId: nat,
    now: int,
    running: set<Instance>,
    finished: set<Instance>,
    copies: set<nat>,
    completed: set<nat>,
    discarded: set<nat>,
    returned: set<nat>,
    history: map<nat, History>)

  datatype Step =
    | DispatchStep(handler: Handler, options: DispatchOptions)
    | ReserveStep(queue: string, limit: nat, worker: WorkerId)
    | ReclaimStep(queue: string)
    | ReturnStep(run: Instance)
    | CompleteStep(run: Instance)
    | FailStep(run: Instance, message: string, unrecoverable: bool)
    | CrashStep(worker: WorkerId)
    | LoadStep(id: nat)
    | RetryStep(id: nat)
    | DiscardStep(id: nat)
    | WaitStep(seconds: nat)

  function Start(now: int): World {
    World(map[], 0, now, {}, {}, {}, {}, {}, {}, map[])
  }

  /** Staff load a job while it is parked, and may act on that copy at any later time, more than once. */
  predicate Enabled(w: World, step: Step) {
    match step
    case ReturnStep(run) => run in w.running
    case CompleteStep(run) => run in w.finished
    case FailStep(run, _, _) => run in w.running
    case LoadStep(id) => id in w.rows && w.rows[id].IsFailed()
    case RetryStep(id) => id in w.copies
    case DiscardStep(id) => id in w.copies
    case _ => true
  }

  function Started(rows: Rows, ids: set<nat>): set<Instance> {
    set id | id in ids && id in rows :: Instance(id, rows[id])
  }

  function Present(rows: Rows, id: nat): set<nat> {
    if id in rows then {id} else {}
  }

  function Counted(history: map<nat, History>, id: nat): map<nat, History> {
    if id in history then history[id := History(history[id].since, history[id].failures + 1)] else history
  }

  function Next(w: World, step: Step): World {
    match step
    case DispatchStep(handler, options) =>
      var job := NewJob(handler, options, w.now);
      w.(rows := w.rows[w.nextId := job], nextId := w.nextId + 1, history := w.history[w.nextId := History(job.availableAt, 0)])
    case ReserveStep(queue, limit, worker) =>
      var rows := Reserved(w.rows, queue, limit, worker, w.now);
      w.(rows := rows, running := w.running + Started(rows, Chosen(w.rows, queue, limit, w.now)))
    case ReclaimStep(queue) =>
      w.(rows := Reclaimed(w.rows, queue, w.now))
    case ReturnStep(run) =>
      w.(finished := w.finished + {run}, returned := w.returned + {run.id})
    case CompleteStep(run) =>
      w.(rows := w.rows - {run.id}, running := w.running - {run}, finished := w.finished - {run},
         completed := w.completed + Present(w.rows, run.id))
    case FailStep(run, message, unrecoverable) =>
      w.(rows := AfterFailure(w.rows, run, message, unrecoverable, w.now),
         running := w.running - {run}, finished := w.finished - {run}, history := Counted(w.history, run.id))
    case CrashStep(worker) =>
      var alive := set run | run in w.running && run.job.reservedBy != Some(worker);
      w.(running := alive, finished := w.finished * alive)
    case LoadStep(id) =>
      w.(copies := w.copies + {id})
    case RetryStep(id) =>
      w.(rows := AfterRetry(w.rows, id, w.now), history := if id in w.rows then w.history[id := History(w.now, 0)] else w.history)
    case DiscardStep(id) =>
      w.(rows := w.rows - {id}, discarded := w.discarded + Present(w.rows, id))
    case WaitStep(seconds) =>
      w.(now := w.now + seconds)
  }

  predicate Legal(w: World, steps: seq<Step>)
    decreases |steps|
  {
    steps == [] || (Enabled(w, steps[0]) && Legal(Next(w, steps[0]), steps[1..]))
  }

  function Final(w: World, steps: seq<Step>): World
    decreases |steps|
  {
    if steps == [] then w else Final(Next(w, steps[0]), steps[1..])
  }

  /** Some run of legal steps from an empty table leads here. */
  ghost predicate Reachable(w: World) {
    exists now, steps :: Legal(Start(now), steps) && w == Final(Start(now), steps)
  }

  // ---------------------------------------------------------------- what every run keeps

  predicate HeldSince(job: Job, now: int) {
    job.reservedAt.Some? && !job.IsFailed() && job.availableAt <= job.reservedAt.value <= now
  }

  /** An attempt left unless parked; parked jobs are not held; held ones are stamped. */
  predicate SoundRow(job: Job, now: int) {
    && (!job.IsFailed() ==> job.attempts < Max(1, job.maxAttempts))
    && (job.IsReserved() ==> HeldSince(job, now))
  }

  predicate SoundRows(w: World) {
    forall id :: id in w.rows ==> SoundRow(w.rows[id], w.now)
  }

  predicate SoundRun(w: World, run: Instance) {
    && run.id < w.nextId && run.job.IsReserved() && HeldSince(run.job, w.now)
    && (run.id in w.rows ==> w.rows[run.id].queue == run.job.queue && w.rows[run.id].maxAttempts == run.job.maxAttempts)
  }

  predicate SoundRuns(w: World) {
    forall run :: run in w.running ==> SoundRun(w, run)
  }

  predicate Returned(w: World) {
    w.finished <= w.running && forall run :: run in w.finished ==> run.id in w.returned
  }

  /** Exactly one of three places, once the id has been handed out. */
  predicate Accounted(w: World, id: nat) {
    && (id < w.nextId <==> id in w.rows || id in w.completed || id in w.discarded)
    && !(id in w.rows && id in w.completed) && !(id in w.rows && id in w.discarded)
    && !(id in w.completed && id in w.discarded)
    && (id in w.completed ==> id in w.returned)
  }

  ghost predicate NothingLost(w: World) {
    forall id: nat :: Accounted(w, id)
  }

  ghost predicate Inv(w: World) {
    SoundRows(w) && SoundRuns(w) && Returned(w) && NothingLost(w)
  }

  lemma {:induction false} StepKeepsNothingLost(w: World, step: Step)
    requires NothingLost(w) && Returned(w) && Enabled(w, step)
    ensures NothingLost(Next(w, step)) && Returned(Next(w, step))
  {
    hide AfterFailure, AfterRetry, Reserved, Reclaimed, Chosen, NewJob, Counted;
    var after := Next(w, step);
    forall id: nat
      ensures Accounted(after, id)
    {
      assert Accounted(w, id);
      SameRowsAfter(w, step, id);
    }
  }

  /** Only a dispatch adds a row, and only completing or discarding takes one away. */
  lemma {:induction false} SameRowsAfter(w: World, step: Step, id: nat)
    ensures id in Next(w, step).rows <==>
      if step.DispatchStep? then id in w.rows || id == w.nextId
      else if step.CompleteStep? then id in w.rows && id != step.run.id
      else if step.DiscardStep? then id in w.rows && id != step.id
      else id in w.rows
  {
    hide Chosen, ExpiredIds, Settled, Requeued;
  }

  lemma {:induction false} SettledIsSound(row: Job, held: Job, message: string, unrecoverable: bool, now: int)
    requires row.maxAttempts == held.maxAttempts
    ensures SoundRow(Settled(row, held, message, unrecoverable, now), now)
  {
  }

  /** What any step makes of a row that was there before. */
  lemma {:induction false} RowAfter(w: World, step: Step, id: nat)
    requires id in w.rows && id in Next(w, step).rows && (step.DispatchStep? ==> id != w.nextId)
    ensures var (row, after) := (w.rows[id], Next(w, step).rows[id]);
            match step
            case ReserveStep(queue, limit, worker) =>
              after == if id in Chosen(w.rows, queue, limit, w.now) then row.HeldBy(worker, w.now)
                       else if Expired(row, queue, w.now) then row.Freed() else row
            case ReclaimStep(queue) => after == if Expired(row, queue, w.now) then row.Freed() else row
            case FailStep(run, message, unrecoverable) =>
              after == if id == run.id then Settled(row, run.job, message, unrecoverable, w.now) else row
            case RetryStep(other) => after == if id == other then Requeued(row, w.now) else row
            case _ => after == row
  {
    hide Chosen, Settled, Requeued, Counted;
    if step.ReserveStep? {
      hide Reserved;
      ReserveTouchesOnlyItsQueue(w.rows, step.queue, step.limit, step.worker, w.now, id);
    }
  }

  lemma {:induction false} StepKeepsSoundRow(w: World, step: Step, id: nat)
    requires SoundRows(w) && SoundRuns(w) && Enabled(w, step) && id in Next(w, step).rows
    ensures SoundRow(Next(w, step).rows[id], Next(w, step).now)
  {
    hide Reserved, Reclaimed, Chosen, AfterFailure, Settled, Counted;
    SameRowsAfter(w, step, id);
    if !(step.DispatchStep? && id == w.nextId) {
      assert SoundRow(w.rows[id], w.now);
      RowAfter(w, step, id);
      if step.ReserveStep? {
        ReserveTouchesOnlyItsQueue(w.rows, step.queue, step.limit, step.worker, w.now, id);
      } else if step.FailStep? && id == step.run.id {
        assert SoundRun(w, step.run);
        SettledIsSound(w.rows[id], step.run.job, step.message, step.unrecoverable, w.now);
      }
    }
  }

  lemma {:induction false} StepKeepsSoundRun(w: World, step: Step, run: Instance)
    requires SoundRows(w) && SoundRuns(w) && NothingLost(w) && Enabled(w, step) && run in Next(w, step).running
    ensures SoundRun(Next(w, step), run)
  {
    hide Reserved, Reclaimed, Chosen, AfterFailure, Counted;
    SameRowsAfter(w, step, run.id);
    if run in w.running {
      assert SoundRun(w, run);
      if run.id in w.rows && run.id in Next(w, step).rows {
        RowAfter(w, step, run.id);
      }
    } else {
      assert Accounted(w, run.id);
      ReserveTouchesOnlyItsQueue(w.rows, step.queue, step.limit, step.worker, w.now, run.id);
    }
  }

  lemma {:induction false} StepKeepsTheInvariant(w: World, step: Step)
    requires Inv(w) && Enabled(w, step)
    ensures Inv(Next(w, step))
  {
    hide Next, Enabled, NothingLost, Returned, SoundRow, SoundRun;
    var after := Next(w, step);
    StepKeepsNothingLost(w, step);
    forall id | id in after.rows
      ensures SoundRow(after.rows[id], after.now)
    {
      StepKeepsSoundRow(w, step, id);
    }
    forall run | run in after.running
      ensures SoundRun(after, run)
    {
      StepKeepsSoundRun(w, step, run);
    }
  }

  lemma {:induction false} RunsKeepTheInvariant(w: World, steps: seq<Step>)
    requires Inv(w) && Legal(w, steps)
    ensures Inv(Final(w, steps))
    decreases |steps|
  {
    hide Inv;
    if steps != [] {
      StepKeepsTheInvariant(w, steps[0]);
      RunsKeepTheInvariant(Next(w, steps[0]), steps[1..]);
    }
  }

  lemma {:induction false} ReachableKeepsTheInvariant(w: World)
    requires Reachable(w)
    ensures Inv(w)
  {
    var now, steps :| Legal(Start(now), steps) && w == Final(Start(now), steps);
    RunsKeepTheInvariant(Start(now), steps);
  }

  /** Every id ever handed out is a row, completed after its handler returned, or discarded by staff: exactly one of the three. */
  lemma {:induction false} NoLostJobs(w: World, id: nat)
    requires Reachable(w)
    ensures id < w.nextId <==> id in w.rows || id in w.completed || id in w.discarded
    ensures !(id in w.rows && id in w.completed) && !(id in w.rows && id in w.discarded)
    ensures !(id in w.completed && id in w.discarded)
    ensures id in w.completed ==> id in w.returned
  {
    ReachableKeepsTheInvariant(w);
    assert Accounted(w, id);
  }

  /** An unparked job always has an attempt left: only a parked one waits for a person, and nobody holds it. */
  lemma {:induction false} UnparkedHasAttemptsLeft(w: World, id: nat)
    requires Reachable(w) && id in w.rows
    ensures !w.rows[id].IsFailed() ==> w.rows[id].attempts < Max(1, w.rows[id].maxAttempts)
    ensures w.rows[id].IsFailed() ==> !w.rows[id].IsReserved()
  {
    ReachableKeepsTheInvariant(w);
    assert SoundRow(w.rows[id], w.now);
  }

  /**
   * A held job whose worker is gone comes back: exactly from 300 seconds after it
   * was claimed, a poll of its queue counts it as due, and takes it if fewer than
   * `limit` due jobs have a lower id.
   */
  lemma {:induction false} CrashedJobBecomesClaimable(w: World, id: nat, limit: nat, at: int)
    requires Reachable(w)
    requires id in w.rows && w.rows[id].IsReserved()
    ensures var job := w.rows[id];
            var due := DueIds(Reclaimed(w.rows, job.queue, at), job.queue, at);
            && job.reservedAt.Some?
            && (id in due <==> at >= job.reservedAt.value + 300)
            && (id in due && |set other | other in due && other < id| < limit ==> id in Chosen(w.rows, job.queue, limit, at))
  {
    ReachableKeepsTheInvariant(w);
    var job := w.rows[id];
    assert SoundRow(job, w.now);
    var due := DueIds(Reclaimed(w.rows, job.queue, at), job.queue, at);
    if id in due {
      ChosenByRank(due, limit, id);
    }
  }

  /** Being among the `n` lowest is having fewer than `n` below. */
  lemma {:induction false} ChosenByRank(due: set<nat>, n: nat, id: nat)
    requires id in due
    ensures |set other | other in due && other < id| < n <==> id in Lowest(due, n)
  {
    var lower := set other | other in due && other < id;
    var chosen := Lowest(due, n);
    LowestAreTheSmallest(due, n);
    if id in chosen {
      assert forall other :: other in lower ==> other in chosen || other in due - chosen;
      assert lower + {id} <= chosen;
      SubsetSize(lower + {id}, chosen);
    } else {
      assert id in due - chosen;
      assert forall other :: other in chosen ==> other < id;
      assert chosen <= lower;
      SubsetSize(chosen, lower);
      SubsetSize(chosen + {id}, due);
    }
  }

  lemma {:induction false} SubsetSize(a: set<nat>, b: set<nat>)
    requires a <= b
    ensures |a| <= |b|
  {
    assert a + (b - a) == b;
  }

  // ---------------------------------------------------------------- mutual exclusion

  /** No two handlers of one job, and the row of each is, field for field, the copy the handler was given. */
  ghost predicate Exclusive(w: World) {
    && (forall run :: run in w.running && run.id in w.rows ==> w.rows[run.id] == run.job)
    && (forall a, b :: a in w.running && b in w.running && a.id == b.id ==> a == b)
  }

  predicate NoneOverrun(w: World, queue: string) {
    forall run :: run in w.running && run.id in w.rows ==> !Expired(run.job, queue, w.now)
  }

  /**
   * The two guards: a queue is not polled while one of its handlers has run for
   * the timeout, and a job is not retried, from an old copy, while it is worked.
   */
  predicate Guarded(w: World, step: Step) {
    match step
    case ReserveStep(queue, _, _) => NoneOverrun(w, queue)
    case ReclaimStep(queue) => NoneOverrun(w, queue)
    case RetryStep(id) => id in w.rows ==> forall run :: run in w.running ==> run.id != id
    case _ => true
  }

  lemma {:induction false} GuardedStepKeepsRow(w: World, step: Step, run: Instance)
    requires Inv(w) && Exclusive(w) && Enabled(w, step) && Guarded(w, step)
    requires run in Next(w, step).running && run.id in Next(w, step).rows
    ensures Next(w, step).rows[run.id] == run.job
  {
    hide Reserved, Reclaimed, Chosen, AfterFailure, Settled, Counted, SoundRows, NothingLost;
    SameRowsAfter(w, step, run.id);
    if run in w.running {
      assert SoundRun(w, run);
      if run.id in w.rows {
        RowAfter(w, step, run.id);
        if step.ReserveStep? {
          ReserveTouchesOnlyItsQueue(w.rows, step.queue, step.limit, step.worker, w.now, run.id);
        }
      }
    }
  }

  lemma {:induction false} GuardedStepStartsNoSecond(w: World, step: Step, a: Instance, b: Instance)
    requires Inv(w) && Exclusive(w) && Enabled(w, step) && Guarded(w, step)
    requires a in Next(w, step).running && b in Next(w, step).running && a.id == b.id
    ensures a == b
  {
    hide Reserved, Reclaimed, Chosen, AfterFailure, Settled, Counted, NothingLost;
    if step.ReserveStep? && !(a in w.running && b in w.running) && (a in w.running || b in w.running) {
      var run := if a in w.running then a else b;
      assert SoundRun(w, run);
      SameRowsAfter(w, step, run.id);
      ReserveTouchesOnlyItsQueue(w.rows, step.queue, step.limit, step.worker, w.now, run.id);
      assert false;
    }
  }

  lemma {:induction false} GuardedStepKeepsExclusion(w: World, step: Step)
    requires Inv(w) && Exclusive(w) && Enabled(w, step) && Guarded(w, step)
    ensures Exclusive(Next(w, step))
  {
    hide Next, Inv, Guarded;
    var after := Next(w, step);
    forall run | run in after.running && run.id in after.rows
      ensures after.rows[run.id] == run.job
    {
      GuardedStepKeepsRow(w, step, run);
    }
    forall a, b | a in after.running && b in after.running && a.id == b.id
      ensures a == b
    {
      GuardedStepStartsNoSecond(w, step, a, b);
    }
  }

  ghost predicate Shared(w: World, id: nat) {
    exists a, b :: a in w.running && b in w.running && a != b && a.id == b.id == id
  }

  lemma {:induction false} WholeQueueIsTaken(rows: Rows, queue: string, now: int)
    ensures var due := DueIds(Reclaimed(rows, queue, now), queue, now);
            Chosen(rows, queue, |due|, now) == due
  {
    var due := DueIds(Reclaimed(rows, queue, now), queue, now);
    LowestAreTheSmallest(due, |due|);
    assert due == Lowest(due, |due|) + (due - Lowest(due, |due|));
  }

  /** A handler whose row is due again gets company from the next poll of the whole queue. */
  lemma {:induction false} DueAgainIsShared(w: World, run: Instance) returns (poll: Step)
    requires run in w.running && run.id in w.rows && w.rows[run.id].IsDue(w.now) && run.job.reservedBy.Some?
    ensures poll.ReserveStep? && Shared(Next(w, poll), run.id)
  {
    hide Reserved, Reclaimed;
    var (queue, worker) := (w.rows[run.id].queue, run.job.reservedBy.value + 1);
    var due := DueIds(Reclaimed(w.rows, queue, w.now), queue, w.now);
    assert run.id in due by { DueStaysDue(w.rows, run.id, w.now); }
    WholeQueueIsTaken(w.rows, queue, w.now);
    poll := ReserveStep(queue, |due|, worker);
    ReserveTouchesOnlyItsQueue(w.rows, queue, |due|, worker, w.now, run.id);
    var second := Instance(run.id, w.rows[run.id].HeldBy(worker, w.now));
    assert run in Next(w, poll).running && second in Next(w, poll).running;
  }

  lemma {:induction false} DueStaysDue(rows: Rows, id: nat, now: int)
    requires id in rows && rows[id].IsDue(now)
    ensures id in DueIds(Reclaimed(rows, rows[id].queue, now), rows[id].queue, now)
  {
  }

  /** Break a guard and the job is one poll away from two running handlers, whatever the clock says. */
  lemma {:induction false} UnguardedStepSharesAJob(w: World, step: Step) returns (id: nat, poll: Step)
    requires Inv(w) && Exclusive(w) && Enabled(w, step) && !Guarded(w, step)
    ensures poll.ReserveStep? && Shared(Next(Next(w, step), poll), id)
    ensures !Exclusive(Next(w, step))
  {
    hide Reserved, Reclaimed, Chosen, AfterFailure, Settled, Counted, NothingLost;
    var after := Next(w, step);
    var run :| run in w.running && run.id in w.rows && (if step.RetryStep? then run.id == step.id else Expired(run.job, step.queue, w.now));
    assert SoundRun(w, run) && SoundRow(w.rows[run.id], w.now);
    id := run.id;
    SameRowsAfter(w, step, id);
    RowAfter(w, step, id);
    if step.ReserveStep? && id in Chosen(w.rows, step.queue, step.limit, w.now) {
      var second := Instance(id, after.rows[id]);
      assert run in after.running && second in after.running && second != run;
      poll := ReserveStep(step.queue, 0, 0);
      assert run in Next(after, poll).running && second in Next(after, poll).running;
    } else {
      poll := DueAgainIsShared(after, run);
    }
  }

  predicate AllGuarded(w: World, steps: seq<Step>)
    decreases |steps|
  {
    steps == [] || (Guarded(w, steps[0]) && AllGuarded(Next(w, steps[0]), steps[1..]))
  }

  ghost predicate ExclusiveThroughout(w: World, steps: seq<Step>)
    decreases |steps|
  {
    Exclusive(w) && (steps == [] || ExclusiveThroughout(Next(w, steps[0]), steps[1..]))
  }

  /** Over any run, every handler keeps its job to itself throughout exactly when neither guard is ever broken. */
  lemma {:induction false} ExclusionExactlyWhenGuarded(w: World, steps: seq<Step>)
    requires Inv(w) && Exclusive(w) && Legal(w, steps)
    ensures ExclusiveThroughout(w, steps) <==> AllGuarded(w, steps)
    decreases |steps|
  {
    hide Inv, Exclusive, Guarded, Next;
    if steps != [] {
      if Guarded(w, steps[0]) {
        GuardedStepKeepsExclusion(w, steps[0]);
        StepKeepsTheInvariant(w, steps[0]);
        ExclusionExactlyWhenGuarded(Next(w, steps[0]), steps[1..]);
      } else {
        var id, poll := UnguardedStepSharesAJob(w, steps[0]);
      }
    }
  }

  /** Some run that breaks neither guard leads here. */
  ghost predicate GuardedReachable(w: World) {
    exists now, steps :: Legal(Start(now), steps) && AllGuarded(Start(now), steps) && w == Final(Start(now), steps)
  }

  // ---------------------------------------------------------------- backoff

  /** The wait before attempt k + 1 has accumulated 60 + 120 + ... + 30 * 2^k seconds. */
  function TotalBackoff(failures: nat): int {
    30 * (Pow2(failures + 1) - 2)
  }

  lemma {:induction false} BackoffAccumulates(failures: nat)
    ensures TotalBackoff(failures + 1) == TotalBackoff(failures) + BackoffSeconds(failures + 1)
    ensures TotalBackoff(0) == 0
  {
  }

  predicate Patient(job: Job, history: History) {
    && job.attempts == history.failures
    && (!job.IsFailed() ==> job.availableAt >= history.since + TotalBackoff(job.attempts))
  }

  /** A job there counts its failures, and has waited for them or is to. */
  predicate PatientAt(w: World, id: nat) {
    id in w.rows ==> id in w.history && Patient(w.rows[id], w.history[id])
  }

  /**
   * A failure of the job is reported for the attempt its row counts, and not before
   * that attempt was due, unless the job is parked already or by it.
   */
  predicate CurrentFailure(w: World, step: Step, id: nat) {
    step.FailStep? && step.run.id == id && id in w.rows && id in w.history ==>
      && step.run.job.attempts == w.rows[id].attempts
      && (w.rows[id].IsFailed() || Parks(step.run.job, step.unrecoverable)
          || w.now >= w.history[id].since + TotalBackoff(w.rows[id].attempts))
  }

  lemma {:induction false} SettledIsPatientExactlyWhen(row: Job, held: Job, message: string, unrecoverable: bool, now: int, history: History)
    requires Patient(row, history)
    ensures Patient(Settled(row, held, message, unrecoverable, now), History(history.since, history.failures + 1))
       <==> && held.attempts == row.attempts
            && (row.IsFailed() || Parks(held, unrecoverable) || now >= history.since + TotalBackoff(row.attempts))
  {
    hide TotalBackoff, BackoffSeconds;
    BackoffAccumulates(history.failures);
  }

  /** Of all steps only a failure can make a job impatient, and it does exactly when it is not current. */
  lemma {:induction false} PatientExactlyWhenCurrent(w: World, step: Step, id: nat)
    requires Inv(w) && PatientAt(w, id) && Enabled(w, step)
    ensures PatientAt(Next(w, step), id) <==> CurrentFailure(w, step, id)
  {
    hide Reserved, Reclaimed, Chosen, AfterFailure, Settled, TotalBackoff, NothingLost, SoundRows;
    SameRowsAfter(w, step, id);
    BackoffAccumulates(0);
    if id in Next(w, step).rows && !(step.DispatchStep? && id == w.nextId) {
      RowAfter(w, step, id);
      if step.FailStep? && id == step.run.id {
        SettledIsPatientExactlyWhen(w.rows[id], step.run.job, step.message, step.unrecoverable, w.now, w.history[id]);
      }
    }
  }

  predicate PatientThroughout(w: World, steps: seq<Step>, id: nat)
    decreases |steps|
  {
    PatientAt(w, id) && (steps == [] || PatientThroughout(Next(w, steps[0]), steps[1..], id))
  }

  predicate AllCurrent(w: World, steps: seq<Step>, id: nat)
    decreases |steps|
  {
    steps == [] || (CurrentFailure(w, steps[0], id) && AllCurrent(Next(w, steps[0]), steps[1..], id))
  }

  /**
   * Over any run, with overruns and late retries as they come: a job counts its
   * failures and waits for each of them throughout exactly when every failure of
   * it was current.
   */
  lemma {:induction false} BackoffExactlyWhenCurrent(w: World, steps: seq<Step>, id: nat)
    requires Inv(w) && PatientAt(w, id) && Legal(w, steps)
    ensures PatientThroughout(w, steps, id) <==> AllCurrent(w, steps, id)
    ensures AllCurrent(w, steps, id) ==> Inv(Final(w, steps)) && PatientAt(Final(w, steps), id)
    decreases |steps|
  {
    hide Inv, Next, Enabled, PatientAt, CurrentFailure;
    if steps != [] {
      StepKeepsTheInvariant(w, steps[0]);
      PatientExactlyWhenCurrent(w, steps[0], id);
      if CurrentFailure(w, steps[0], id) {
        BackoffExactlyWhenCurrent(Next(w, steps[0]), steps[1..], id);
      } else {
        ImpatientAtOnce(Next(w, steps[0]), steps[1..], id);
      }
    }
  }

  lemma {:induction false} ImpatientAtOnce(w: World, steps: seq<Step>, id: nat)
    requires !PatientAt(w, id)
    ensures !PatientThroughout(w, steps, id)
  {
  }

  /** Some run in which every failure of job `id` was current leads here. */
  ghost predicate CurrentReachable(w: World, id: nat) {
    exists now, steps :: Legal(Start(now), steps) && AllCurrent(Start(now), steps, id) && w == Final(Start(now), steps)
  }

  /** The clock of a job starts when it is first due, and again, from no failures, at every retry. */
  lemma {:induction false} TheClockStarts(w: World, handler: Handler, options: DispatchOptions, id: nat)
    requires id in w.rows
    ensures var (dispatched, retried) := (Next(w, DispatchStep(handler, options)), Next(w, RetryStep(id)));
            && w.nextId in dispatched.history && id in retried.history
            && dispatched.history[w.nextId] == History(w.now + (if options.delaySeconds.Some? then options.delaySeconds.value else 0), 0)
            && dispatched.history[w.nextId].since == dispatched.rows[w.nextId].availableAt
            && retried.history[id] == History(w.now, 0) && retried.history[id].since == retried.rows[id].availableAt
  {
  }

  /**
   * Then a job that has failed k times since it was dispatched (or since a person
   * retried it) is not claimed again before 30 * (2^(k+1) - 2) seconds have passed
   * on top of its delay. Crashes, reclaims and what happens to other jobs do not
   * shorten it.
   */
  lemma {:induction false} BackoffLowerBound(w: World, queue: string, limit: nat, id: nat)
    requires CurrentReachable(w, id)
    requires id in Chosen(w.rows, queue, limit, w.now)
    ensures id in w.rows && id in w.history && w.rows[id].attempts == w.history[id].failures
    ensures w.now >= w.history[id].since + 30 * (Pow2(w.history[id].failures + 1) - 2)
  {
    hide Inv;
    var now, steps :| Legal(Start(now), steps) && AllCurrent(Start(now), steps, id) && w == Final(Start(now), steps);
    StartIsSound(now);
    BackoffExactlyWhenCurrent(Start(now), steps, id);
    ReserveIsFirstComeFirstServed(w.rows, queue, limit, w.now);
    ReserveTouchesOnlyItsQueue(w.rows, queue, limit, 0, w.now, id);
  }

  lemma {:induction false} StartIsSound(now: int)
    ensures Inv(Start(now)) && Exclusive(Start(now)) && forall id :: PatientAt(Start(now), id)
  {
  }

  /** A handler that has its job to itself reports only current failures. */
  lemma {:induction false} ExclusiveFailuresAreCurrent(w: World, step: Step, id: nat)
    requires Inv(w) && Exclusive(w) && PatientAt(w, id) && Enabled(w, step)
    ensures CurrentFailure(w, step, id)
  {
    hide NothingLost, SoundRows, TotalBackoff;
    if step.FailStep? && step.run.id == id && id in w.rows {
      assert SoundRun(w, step.run);
    }
  }

  lemma {:induction false} GuardedRunsAreCurrent(w: World, steps: seq<Step>, id: nat)
    requires Inv(w) && Exclusive(w) && PatientAt(w, id) && Legal(w, steps) && AllGuarded(w, steps)
    ensures AllCurrent(w, steps, id)
    ensures Inv(Final(w, steps)) && Exclusive(Final(w, steps))
    decreases |steps|
  {
    hide Inv, Exclusive, Guarded, Next, PatientAt, CurrentFailure, Enabled;
    if steps != [] {
      StepKeepsTheInvariant(w, steps[0]);
      GuardedStepKeepsExclusion(w, steps[0]);
      ExclusiveFailuresAreCurrent(w, steps[0], id);
      PatientExactlyWhenCurrent(w, steps[0], id);
      GuardedRunsAreCurrent(Next(w, steps[0]), steps[1..], id);
    }
  }

  /** As long as neither guard was broken, no two live handlers ever work the same job, and its row, while there, names the one that does. */
  lemma {:induction false} MutualExclusion(w: World, a: Instance, b: Instance)
    requires GuardedReachable(w)
    requires a in w.running && b in w.running && a.id == b.id
    ensures a == b
    ensures a.id in w.rows ==> w.rows[a.id].reservedBy == a.job.reservedBy != None
  {
    var now, steps :| Legal(Start(now), steps) && AllGuarded(Start(now), steps) && w == Final(Start(now), steps);
    StartIsSound(now);
    GuardedRunsAreCurrent(Start(now), steps, a.id);
    assert SoundRun(w, a);
  }

  lemma {:induction false} GuardedReachableIsExclusive(w: World)
    requires GuardedReachable(w)
    ensures Inv(w) && Exclusive(w)
  {
    var now, steps :| Legal(Start(now), steps) && AllGuarded(Start(now), steps) && w == Final(Start(now), steps);
    StartIsSound(now);
    GuardedRunsAreCurrent(Start(now), steps, 0);
  }

  /**
   * Recovery from a crash shares nothing: with its worker goes the only handler the
   * job had, its row stays as it was, and whoever polls after any time has it alone.
   */
  lemma {:induction false} RecoveryIsSafe(w: World, run: Instance, seconds: nat, queue: string, limit: nat, next: WorkerId)
    requires GuardedReachable(w) && run in w.running && run.id in w.rows
    ensures run.job.reservedBy.Some?
    ensures var crashed := Next(Next(w, CrashStep(run.job.reservedBy.value)), WaitStep(seconds));
            && crashed.rows == w.rows
            && (forall other :: other in w.running && other.job.reservedBy != run.job.reservedBy ==> other in crashed.running)
            && (forall other :: other in crashed.running ==> other.id != run.id)
            && !Shared(Next(crashed, ReserveStep(queue, limit, next)), run.id)
  {
    hide Reserved, Chosen, Inv, Legal, AllGuarded, Final;
    GuardedReachableIsExclusive(w);
    MutualExclusion(w, run, run);
    var crashed := Next(Next(w, CrashStep(run.job.reservedBy.value)), WaitStep(seconds));
    forall other | other in crashed.running
      ensures other.id != run.id
    {
      assert other in w.running && other.job.reservedBy != run.job.reservedBy;
    }
  }

  /** A job that was just loaded as parked may be retried: nobody holds it. Only an old copy can break the guard. */
  lemma {:induction false} FreshRetryIsGuarded(w: World, id: nat)
    requires GuardedReachable(w) && Enabled(w, LoadStep(id))
    ensures Enabled(Next(w, LoadStep(id)), RetryStep(id)) && Guarded(Next(w, LoadStep(id)), RetryStep(id))
    ensures id in w.rows && w.rows[id].failedAt.Some? && w.rows[id].reservedBy.None?
  {
    GuardedReachableIsExclusive(w);
    assert SoundRow(w.rows[id], w.now);
    forall run | run in w.running
      ensures run.id != id
    {
      assert SoundRun(w, run);
    }
  }

  /** In particular both guards together are enough for the backoff of every job. */
  lemma {:induction false} GuardsAreEnoughForBackoff(w: World, id: nat)
    requires GuardedReachable(w)
    ensures CurrentReachable(w, id)
  {
    hide Inv, Exclusive;
    var now, steps :| Legal(Start(now), steps) && AllGuarded(Start(now), steps) && w == Final(Start(now), steps);
    StartIsSound(now);
    GuardedRunsAreCurrent(Start(now), steps, id);
  }

  // ---------------------------------------------------------------- each guard, broken

  const HANDLER: Handler := Handler("job", None, None)
  const JOB: Job := NewJob(HANDLER, DispatchOptions(None, None, None), 0)

  /** A table with one job that worker 1 has just claimed. */
  function OneClaimed(): World {
    Next(Next(Start(0), DispatchStep(HANDLER, DispatchOptions(None, None, None))), ReserveStep(DEFAULT_QUEUE, 1, 1))
  }

  lemma {:induction false} OneClaimedIs()
    ensures OneClaimed().rows == map[0 := JOB.HeldBy(1, 0)] && OneClaimed().running == {Instance(0, JOB.HeldBy(1, 0))}
    ensures OneClaimed().now == 0 && OneClaimed().nextId == 1 && OneClaimed().finished == {} && OneClaimed().copies == {}
  {
    LonePoll(JOB, 1, 0);
  }

  lemma {:induction false} FirstHold()
    ensures var held := JOB.HeldBy(1, 0);
            held.queue == DEFAULT_QUEUE && held.reservedAt == Some(0) && held.IsReserved() && !held.IsFailed()
  {
  }

  lemma {:induction false} At299ThePollIsGuarded()
    ensures Guarded(OneClaimed().(now := 299), ReserveStep(DEFAULT_QUEUE, 1, 2))
    ensures !Guarded(OneClaimed().(now := 300), ReserveStep(DEFAULT_QUEUE, 1, 2))
  {
    hide OneClaimed, Next, Reserved, Chosen, NewJob;
    OneClaimedIs();
    FirstHold();
    assert Instance(0, JOB.HeldBy(1, 0)) in OneClaimed().running;
  }

  lemma {:induction false} At300ThePollShares()
    ensures Shared(Next(OneClaimed().(now := 300), ReserveStep(DEFAULT_QUEUE, 1, 2)), 0)
  {
    hide OneClaimed, Reserved, Chosen, Started;
    var first := JOB.HeldBy(1, 0);
    OneClaimedIs();
    LonePoll(first, 2, 300);
    var late := Next(OneClaimed().(now := 300), ReserveStep(DEFAULT_QUEUE, 1, 2));
    assert Instance(0, first) in late.running && Instance(0, first.HeldBy(2, 300)) in late.running;
  }

  /**
   * The 300 seconds are tight: with a handler 299 seconds old the queue may be
   * polled, and at 300 the poll of another worker shares its job.
   */
  lemma {:induction false} TimeoutIsTight()
    ensures Guarded(OneClaimed().(now := 299), ReserveStep(DEFAULT_QUEUE, 1, 2))
    ensures !Guarded(OneClaimed().(now := 300), ReserveStep(DEFAULT_QUEUE, 1, 2))
    ensures Shared(Next(OneClaimed().(now := 300), ReserveStep(DEFAULT_QUEUE, 1, 2)), 0)
  {
    hide OneClaimed, Next, Guarded, Shared;
    At299ThePollIsGuarded();
    At300ThePollShares();
  }

  /** Polling a table whose only job is due, or held past the timeout. */
  lemma {:induction false} LonePoll(job: Job, worker: WorkerId, now: int)
    requires job.queue == DEFAULT_QUEUE && (job.IsDue(now) || (Expired(job, DEFAULT_QUEUE, now) && job.availableAt <= now))
    ensures Chosen(map[0 := job], DEFAULT_QUEUE, 1, now) == {0}
    ensures Reserved(map[0 := job], DEFAULT_QUEUE, 1, worker, now) == map[0 := job.HeldBy(worker, now)]
    ensures Started(map[0 := job.HeldBy(worker, now)], {0}) == {Instance(0, job.HeldBy(worker, now))}
  {
    var due := DueIds(Reclaimed(map[0 := job], DEFAULT_QUEUE, now), DEFAULT_QUEUE, now);
    assert due == {0};
    assert Lowest({0}, 1) == {Least({0})} + Lowest({0} - {Least({0})}, 0);
    assert Least({0}) == 0;
  }

  /**
   * Nothing ever waits: a job is parked, loaded by two people, retried by one and
   * claimed again; the other one's retry frees it under its worker, and the next
   * poll runs it a second time. Both runs then fail.
   */
  function LateRetry(k: nat): Step {
    if k == 0 then DispatchStep(HANDLER, DispatchOptions(None, None, None))
    else if k == 1 || k == 5 then ReserveStep(DEFAULT_QUEUE, 1, 1)
    else if k == 2 then FailStep(FIRST, "bad", true)
    else if k == 3 then LoadStep(0)
    else if k == 4 || k == 6 then RetryStep(0)
    else if k == 7 then ReserveStep(DEFAULT_QUEUE, 1, 2)
    else if k == 8 then FailStep(FIRST, "bad", false)
    else if k == 9 then FailStep(SECOND, "bad", false)
    else WaitStep(60)
  }

  function Run(n: nat): seq<Step> {
    seq(n, k requires 0 <= k => LateRetry(k))
  }

  const FIRST: Instance := Instance(0, JOB.HeldBy(1, 0))
  const SECOND: Instance := Instance(0, JOB.HeldBy(2, 0))

  function Staged(job: Job, running: set<Instance>, copies: set<nat>, failures: nat): World {
    World(map[0 := job], 1, 0, running, {}, copies, {}, {}, {}, map[0 := History(0, failures)])
  }

  lemma {:induction false} StagedPoll(running: set<Instance>, copies: set<nat>, failures: nat, worker: WorkerId)
    ensures Next(Staged(JOB, running, copies, failures), ReserveStep(DEFAULT_QUEUE, 1, worker))
         == Staged(JOB.HeldBy(worker, 0), running + {Instance(0, JOB.HeldBy(worker, 0))}, copies, failures)
  {
    hide Reserved, Chosen, Started;
    LonePoll(JOB, worker, 0);
  }

  lemma {:induction false} StagedRetry(job: Job, running: set<Instance>, failures: nat)
    requires job.(attempts := 0, failedAt := None, lastError := None, reservedBy := None, reservedAt := None) == JOB
    ensures Next(Staged(job, running, {0}, failures), RetryStep(0)) == Staged(JOB, running, {0}, 0)
  {
  }

  function Failed(job: Job, unrecoverable: bool): Job {
    Settled(job, JOB, "bad", unrecoverable, 0)
  }

  lemma {:induction false} StagedFailure(job: Job, running: set<Instance>, copies: set<nat>, failures: nat, run: Instance, unrecoverable: bool)
    requires run in {FIRST, SECOND}
    ensures Next(Staged(job, running, copies, failures), FailStep(run, "bad", unrecoverable))
         == Staged(Failed(job, unrecoverable), running - {run}, copies, failures + 1)
  {
  }

  /** The world before step `k` of it. */
  function LateRetryAt(k: nat): World {
    if k == 0 then Start(0)
    else if k == 1 then Staged(JOB, {}, {}, 0)
    else if k == 2 then Staged(FIRST.job, {FIRST}, {}, 0)
    else if k == 3 then Staged(Failed(FIRST.job, true), {}, {}, 1)
    else if k == 4 then Staged(Failed(FIRST.job, true), {}, {0}, 1)
    else if k == 5 then Staged(JOB, {}, {0}, 0)
    else if k == 6 then Staged(FIRST.job, {FIRST}, {0}, 0)
    else if k == 7 then Staged(JOB, {FIRST}, {0}, 0)
    else if k == 8 then Staged(SECOND.job, {FIRST, SECOND}, {0}, 0)
    else if k == 9 then Staged(Failed(SECOND.job, false), {SECOND}, {0}, 1)
    else if k == 10 then Staged(Failed(Failed(SECOND.job, false), false), {}, {0}, 2)
    else Staged(Failed(Failed(SECOND.job, false), false), {}, {0}, 2).(now := 60)
  }

  lemma {:induction false} StagedEnds(job: Job, failures: nat)
    ensures Next(Start(0), DispatchStep(HANDLER, DispatchOptions(None, None, None))) == Staged(JOB, {}, {}, 0)
    ensures Next(Staged(job, {}, {}, failures), LoadStep(0)) == Staged(job, {}, {0}, failures)
    ensures Next(Staged(job, {}, {0}, failures), WaitStep(60)) == Staged(job, {}, {0}, failures).(now := 60)
  {
  }

  lemma {:induction false} LateRetryMoves(k: nat)
    requires k < 11
    ensures Enabled(LateRetryAt(k), LateRetry(k)) && Next(LateRetryAt(k), LateRetry(k)) == LateRetryAt(k + 1)
  {
    hide Next;
    if k == 0 || k == 3 {
      StagedEnds(Failed(FIRST.job, true), 1);
    } else if k == 1 {
      StagedPoll({}, {}, 0, 1);
    } else if k == 2 {
      StagedFailure(FIRST.job, {FIRST}, {}, 0, FIRST, true);
    } else if k == 4 {
      StagedRetry(Failed(FIRST.job, true), {}, 1);
    } else {
      LateRetryMovesOn(k);
    }
  }

  lemma {:induction false} LateRetryMovesOn(k: nat)
    requires 5 <= k < 11
    ensures Enabled(LateRetryAt(k), LateRetry(k)) && Next(LateRetryAt(k), LateRetry(k)) == LateRetryAt(k + 1)
  {
    hide Next, Failed;
    if k == 5 {
      StagedPoll({}, {0}, 0, 1);
    } else if k == 6 {
      StagedRetry(FIRST.job, {FIRST}, 0);
    } else if k == 7 {
      StagedPoll({FIRST}, {0}, 0, 2);
    } else if k == 8 {
      StagedFailure(SECOND.job, {FIRST, SECOND}, {0}, 0, FIRST, false);
    } else if k == 9 {
      StagedFailure(Failed(SECOND.job, false), {SECOND}, {0}, 1, SECOND, false);
    } else {
      StagedEnds(Failed(Failed(SECOND.job, false), false), 2);
    }
  }

  lemma {:induction false} LateRetryRuns(i: nat, n: nat)
    requires i <= n <= 11
    ensures Legal(LateRetryAt(i), Run(n)[i..]) && Final(LateRetryAt(i), Run(n)[i..]) == LateRetryAt(n)
    ensures AllGuarded(LateRetryAt(i), Run(n)[i..]) <==> forall k :: i <= k < n ==> Guarded(LateRetryAt(k), LateRetry(k))
    decreases n - i
  {
    hide LateRetry, LateRetryAt, Next, Enabled, Guarded;
    if i < n {
      LateRetryMoves(i);
      LateRetryRuns(i + 1, n);
      assert Run(n)[i..][1..] == Run(n)[i + 1..];
    }
  }

  /** Up to the eighth step of it no time has passed, only the seventh step breaks a guard, and two handlers share job 0. */
  lemma {:induction false} LateRetrySharesTheJob()
    ensures Legal(Start(0), Run(8)) && Final(Start(0), Run(8)).now == 0 && Shared(Final(Start(0), Run(8)), 0)
    ensures AllGuarded(Start(0), Run(6)) && !AllGuarded(Start(0), Run(7))
  {
    hide Next, Legal, Final, AllGuarded, Failed, Run;
    LateRetryRuns(0, 8);
    LateRetryRuns(0, 6);
    LateRetryRuns(0, 7);
    assert Run(8)[0..] == Run(8) && Run(7)[0..] == Run(7) && Run(6)[0..] == Run(6);
    assert FIRST in LateRetryAt(8).running && SECOND in LateRetryAt(8).running && FIRST != SECOND;
    assert FIRST in LateRetryAt(6).running && !Guarded(LateRetryAt(6), LateRetry(6));
  }

  /** And by its end the job has failed twice since it was retried, yet is taken 60 seconds later, not 180. */
  lemma {:induction false} OverlappingFailuresShortenTheWait()
    ensures var w := Final(Start(0), Run(11));
            && Legal(Start(0), Run(11)) && w.now == 60 && w.history == map[0 := History(0, 2)]
            && Chosen(w.rows, DEFAULT_QUEUE, 1, w.now) == {0} && 60 < 30 * (Pow2(3) - 2)
  {
    hide Next, Legal, Final, AllGuarded, Guarded, Run, Chosen;
    LateRetryRuns(0, 11);
    assert Run(11)[0..] == Run(11);
    LonePoll(Failed(Failed(SECOND.job, false), false), 0, 60);
  }
}
