/**
 * The `jobs` table as the database sees it: rows, the single SQL statements the
 * queue issues, and what holds of any interleaving of those statements.
 */
module JobsTable {
  import opened Prelude

  type WorkerId = nat

  datatype JobStatus = Failed | Running | Due | Scheduled

  /** A row. Instants are whole seconds; `reservedBy` is the flag the claim swaps on. */
  datatype Job = Job(
    queue: string,
    name: string,
    attempts: nat,
    maxAttempts: int,
    availableAt: int,
    reservedAt: Option<int>,
    reservedBy: Option<WorkerId>,
    failedAt: Option<int>,
    lastError: Option<string>)
  {
    predicate IsFailed() {
      failedAt.Some?
    }

    predicate IsReserved() {
      reservedBy.Some?
    }

    predicate IsDue(now: int) {
      !IsFailed() && !IsReserved() && availableAt <= now
    }

    function Status(now: int): JobStatus {
      if IsFailed() then Failed
      else if IsReserved() then Running
      else if IsDue(now) then Due
      else Scheduled
    }

    predicate IsFinalAttempt() {
      attempts + 1 >= maxAttempts
    }

    function Freed(): Job {
      this.(reservedBy := None, reservedAt := None)
    }

    function HeldBy(worker: WorkerId, at: int): Job {
      this.(reservedBy := Some(worker), reservedAt := Some(at))
    }
  }

  type Rows = map<nat, Job>

  datatype Db = Db(rows: Rows, nextId: nat) {
    /** Ids come from an auto-increment column, so a deleted id is never handed out again. */
    predicate WellFormed() {
      forall id :: id in rows ==> id < nextId
    }
  }

  /** One SQL statement each. The only conditional write is the swap. */
  datatype Statement =
    | Insert(row: Job)
    | Swap(id: nat, worker: WorkerId)
    | Stamp(id: nat, worker: WorkerId, at: int)
    | Release(id: nat)
    | Delete(id: nat)
    | SaveFailure(id: nat, attempts: nat, lastError: string, failedAt: Option<int>, availableAt: Option<int>)
    | SaveRetry(id: nat, at: int)

  /** `UPDATE ... WHERE id = ?`: touches nothing when the row has gone. */
  function Update(db: Db, id: nat, row: Job): Db {
    if id in db.rows then db.(rows := db.rows[id := row]) else db
  }

  /** The affected-row count of the swap is 1. */
  predicate Wins(db: Db, s: Statement) {
    s.Swap? && s.id in db.rows && !db.rows[s.id].IsReserved()
  }

  function Exec(db: Db, s: Statement): Db {
    match s
    case Insert(row) => Db(db.rows[db.nextId := row], db.nextId + 1)
    case Swap(id, worker) => if Wins(db, s) then Update(db, id, db.rows[id].(reservedBy := Some(worker))) else db
    case Delete(id) => db.(rows := db.rows - {id})
    case Stamp(id, worker, at) => if id in db.rows then Update(db, id, db.rows[id].HeldBy(worker, at)) else db
    case Release(id) => if id in db.rows then Update(db, id, db.rows[id].Freed()) else db
    case SaveFailure(id, attempts, lastError, failedAt, availableAt) =>
      if id !in db.rows then db else
        var row := db.rows[id].(attempts := attempts, lastError := Some(lastError));
        var row := if failedAt.Some? then row.(failedAt := failedAt) else row;
        Update(db, id, if availableAt.Some? then row.(availableAt := availableAt.value) else row)
    case SaveRetry(id, at) =>
      if id !in db.rows then db else
        Update(db, id, db.rows[id].(failedAt := None, attempts := 0, lastError := None, availableAt := at))
  }

  function Replay(db: Db, t: seq<Statement>): Db {
    if t == [] then db else Exec(Replay(db, t[..|t| - 1]), t[|t| - 1])
  }

  lemma {:induction false} ReplayStep(db: Db, t: seq<Statement>, s: Statement)
    ensures Replay(db, t + [s]) == Exec(Replay(db, t), s)
  {
    assert (t + [s])[..|t|] == t;
  }

  lemma {:induction false} ReplayAppend(db: Db, t: seq<Statement>, u: seq<Statement>)
    ensures Replay(db, t + u) == Replay(Replay(db, t), u)
  {
    if u == [] {
      assert t + u == t;
    } else {
      var last := |u| - 1;
      ReplayAppend(db, t, u[..last]);
      assert t + u == (t + u[..last]) + [u[last]];
      ReplayStep(db, t + u[..last], u[last]);
    }
  }

  predicate WinsAt(db: Db, t: seq<Statement>, i: nat)
    requires i < |t|
  {
    Wins(Replay(db, t[..i]), t[i])
  }

  // ---------------------------------------------------------------- swap linearity

  lemma {:induction false} IdsStayAllocated(db: Db, t: seq<Statement>)
    requires db.WellFormed()
    ensures Replay(db, t).WellFormed() && db.nextId <= Replay(db, t).nextId
  {
    if t != [] {
      IdsStayAllocated(db, t[..|t| - 1]);
    }
  }

  /** Once swapped, an id is either gone for good or still reserved, until somebody releases it. */
  lemma {:induction false} HeldUntilReleased(db: Db, t: seq<Statement>, i: nat, j: nat)
    requires db.WellFormed()
    requires i < j <= |t| && WinsAt(db, t, i)
    requires forall k :: i < k < j ==> t[k] != Release(t[i].id)
    ensures var at := Replay(db, t[..j]);
            t[i].id < at.nextId && (t[i].id in at.rows ==> at.rows[t[i].id].IsReserved())
  {
    assert t[..j] == t[..j - 1] + [t[j - 1]];
    ReplayStep(db, t[..j - 1], t[j - 1]);
    IdsStayAllocated(db, t[..j - 1]);
    if j > i + 1 {
      HeldUntilReleased(db, t, i, j - 1);
    }
  }

  /**
   * Whatever any number of workers, staff and dispatchers do, in any order: two
   * winning swaps of one job have a release of that job between them.
   */
  lemma {:induction false} SwapLinearity(db: Db, t: seq<Statement>, i: nat, j: nat)
    requires db.WellFormed()
    requires i < j < |t| && WinsAt(db, t, i) && WinsAt(db, t, j)
    requires t[i].id == t[j].id
    ensures exists k :: i < k < j && t[k] == Release(t[i].id)
  {
    if forall k :: i < k < j ==> t[k] != Release(t[i].id) {
      HeldUntilReleased(db, t, i, j);
      assert false;
    }
  }

  /** Losing the swap writes nothing: the row still names whoever holds it. */
  lemma {:induction false} LosingSwapChangesNothing(db: Db, id: nat, worker: WorkerId)
    ensures Wins(db, Swap(id, worker)) <==> Exec(db, Swap(id, worker)) != db
  {
    if Wins(db, Swap(id, worker)) {
      assert Exec(db, Swap(id, worker)).rows[id] != db.rows[id];
    }
  }

  // ---------------------------------------------------------------- what fails statement by statement

  const FRESH: Job := Job("default", "job", 0, 5, 0, None, None, None, None)

  /**
   * The release after a failure does not check who holds the row. Worker 1
   * overruns the timeout, worker 2 takes the job over, worker 1's failure then
   * frees worker 2's reservation and worker 3 claims the job while worker 2 is
   * still running it: nothing worker 2 did ended its turn.
   */
  lemma {:induction false} LateReleaseFreesAnother()
    ensures var t := [
                 Insert(FRESH),
                 Swap(0, 1), Stamp(0, 1, 0),
                 Release(0), Swap(0, 2), Stamp(0, 2, 300),
                 SaveFailure(0, 1, "slow", None, Some(360)), Release(0),
                 Swap(0, 3)];
            WinsAt(Db(map[], 0), t, 1) && WinsAt(Db(map[], 0), t, 4) && WinsAt(Db(map[], 0), t, 8)
  {
    var s0 := Db(map[], 0);
    var t := [
      Insert(FRESH),
      Swap(0, 1), Stamp(0, 1, 0),
      Release(0), Swap(0, 2), Stamp(0, 2, 300),
      SaveFailure(0, 1, "slow", None, Some(360)), Release(0),
      Swap(0, 3)];
    assert t[..0] == [];
    assert Replay(s0, t[..0]) == s0;
    var s1 := ReplayPrefix(s0, t, 0);
    var s2 := ReplayPrefix(s0, t, 1);
    var s3 := ReplayPrefix(s0, t, 2);
    var s4 := ReplayPrefix(s0, t, 3);
    var s5 := ReplayPrefix(s0, t, 4);
    var s6 := ReplayPrefix(s0, t, 5);
    var s7 := ReplayPrefix(s0, t, 6);
    var s8 := ReplayPrefix(s0, t, 7);
  }

  lemma {:induction false} ReplayPrefix(db: Db, t: seq<Statement>, i: nat) returns (next: Db)
    requires i < |t|
    ensures next == Replay(db, t[..i + 1]) == Exec(Replay(db, t[..i]), t[i])
  {
    assert t[..i + 1] == t[..i] + [t[i]];
    ReplayStep(db, t[..i], t[i]);
    next := Replay(db, t[..i + 1]);
  }
}
