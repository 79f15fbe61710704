/**
 * The provider's endpoint: the ledger row and the job that applies it are
 * written in one transaction, and a duplicate is recognised by the error the
 * unique index raises.
 */
module WebhookController {
  import opened Prelude
  import opened JobsTable
  import opened QueueService

  datatype Delivery = Empty | Forged | Unparseable | Signed(eventId: string)

  /** Where, if anywhere, the transaction goes wrong, and what the error says. */
  datatype Fault = Sound | InsertFails(message: string) | DispatchFails(message: string) | CommitFails(message: string)

  datatype Response = EmptyBody | InvalidSignature | NotApplied | Received | Duplicate | ServerError(message: string)

  datatype Entry = Entry(eventId: string, receivedAt: int)

  /** `payloads` maps every processing job ever dispatched to the ledger row it was given. */
  datatype Outbox = Outbox(dialect: Dialect, ledger: map<nat, Entry>, nextLedgerId: nat, jobs: Db, payloads: map<nat, nat>)

  const PROCESS_WEBHOOK: Handler := Handler("process_webhook", None, None)
  const NO_OPTIONS: DispatchOptions := DispatchOptions(None, None, None)

  /** The two databases word a unique violation differently. */
  datatype Dialect = Sqlite | Postgres

  function UniqueViolation(dialect: Dialect): string {
    match dialect
    case Sqlite => "UNIQUE" + " constraint failed: webhook_events.provider_event_id"
    case Postgres => "duplicate key" + " value violates unique constraint webhook_events_provider_event_id_unique"
  }

  // ---------------------------------------------------------------- recognising a duplicate

  function Lower(c: char): char {
    if 'A' <= c <= 'Z' then c + 32 as char else c
  }

  function LowerCase(s: string): string {
    seq(|s|, i requires 0 <= i < |s| => Lower(s[i]))
  }

  predicate At(s: string, part: string, i: nat) {
    i + |part| <= |s| && s[i..i + |part|] == part
  }

  predicate Includes(s: string, part: string) {
    exists i :: 0 <= i <= |s| && At(s, part, i)
  }

  predicate IsDuplicate(message: string) {
    Includes(LowerCase(message), "unique") || Includes(LowerCase(message), "duplicate key")
  }

  lemma {:induction false} StartsWith(s: string, word: string, lower: string)
    requires |word| == |lower| && word <= s && forall i :: 0 <= i < |word| ==> Lower(word[i]) == lower[i]
    ensures Includes(LowerCase(s), lower)
  {
    assert forall i :: 0 <= i < |word| ==> s[i] == word[i];
    assert At(LowerCase(s), lower, 0);
  }

  /** Whichever database it is, the error of the index is recognised. */
  lemma {:induction false} IndexViolationIsADuplicate(dialect: Dialect)
    ensures IsDuplicate(UniqueViolation(dialect))
  {
    StartsWith(UniqueViolation(Sqlite), "UNIQUE", "unique");
    StartsWith(UniqueViolation(Postgres), "duplicate key", "duplicate key");
  }

  // ---------------------------------------------------------------- one delivery

  predicate InLedger(outbox: Outbox, eventId: string) {
    exists id :: id in outbox.ledger && outbox.ledger[id].eventId == eventId
  }

  /** The error the transaction raises, if it does: the unique index first, then whatever else breaks. */
  function Raised(outbox: Outbox, eventId: string, fault: Fault): Option<string> {
    if fault.InsertFails? then Some(fault.message)
    else if InLedger(outbox, eventId) then Some(UniqueViolation(outbox.dialect))
    else if fault.Sound? then None
    else Some(fault.message)
  }

  function Recorded(outbox: Outbox, eventId: string, now: int): Outbox {
    var job := NewJob(PROCESS_WEBHOOK, NO_OPTIONS, now);
    Outbox(outbox.dialect,
           outbox.ledger[outbox.nextLedgerId := Entry(eventId, now)],
           outbox.nextLedgerId + 1,
           Db(outbox.jobs.rows[outbox.jobs.nextId := job], outbox.jobs.nextId + 1),
           outbox.payloads[outbox.jobs.nextId := outbox.nextLedgerId])
  }

  function Answer(outbox: Outbox, delivery: Delivery, fault: Fault): Response {
    match delivery
    case Empty => EmptyBody
    case Forged => InvalidSignature
    case Unparseable => NotApplied
    case Signed(eventId) =>
      var raised := Raised(outbox, eventId, fault);
      if raised.None? then Received
      else if IsDuplicate(raised.value) then Duplicate
      else ServerError(raised.value)
  }

  function Handled(outbox: Outbox, delivery: Delivery, fault: Fault, now: int): Outbox {
    if delivery.Signed? && Raised(outbox, delivery.eventId, fault).None?
    then Recorded(outbox, delivery.eventId, now) else outbox
  }

  class WebhookController {
    var outbox: Outbox

    constructor (dialect: Dialect)
      ensures outbox == Outbox(dialect, map[], 0, Db(map[], 0), map[])
    {
      outbox := Outbox(dialect, map[], 0, Db(map[], 0), map[]);
    }

    method Creem(delivery: Delivery, fault: Fault, now: int) returns (response: Response)
      modifies this
      ensures response == Answer(old(outbox), delivery, fault)
      ensures outbox == Handled(old(outbox), delivery, fault, now)
      ensures delivery == Empty ==> response == EmptyBody
      ensures delivery == Forged ==> response == InvalidSignature
      ensures delivery == Unparseable ==> response == NotApplied
      ensures !delivery.Signed? ==> outbox == old(outbox)
      ensures delivery.Signed? && fault.InsertFails? ==>
                response == (if IsDuplicate(fault.message) then Duplicate else ServerError(fault.message)) && outbox == old(outbox)
    {
      match delivery {
        case Empty => return EmptyBody;
        case Forged => return InvalidSignature;
        case Unparseable => return NotApplied;
        case Signed(eventId) =>
          var error := Transaction(eventId, fault, now);
          if error.None? {
            return Received;
          }
          if IsDuplicate(error.value) {
            return Duplicate;
          }
          return ServerError(error.value);
      }
    }

    /** Works on a private copy; only a commit makes it the state everyone sees. */
    method Transaction(eventId: string, fault: Fault, now: int) returns (error: Option<string>)
      modifies this
      ensures error == Raised(old(outbox), eventId, fault)
      ensures outbox == if error.None? then Recorded(old(outbox), eventId, now) else old(outbox)
    {
      var trx := outbox;
      if fault.InsertFails? {
        return Some(fault.message);
      }
      if InLedger(trx, eventId) {
        return Some(UniqueViolation(trx.dialect));
      }
      var ledgerId := trx.nextLedgerId;
      trx := trx.(ledger := trx.ledger[ledgerId := Entry(eventId, now)], nextLedgerId := ledgerId + 1);
      if fault.DispatchFails? {
        return Some(fault.message);
      }
      var jobId := trx.jobs.nextId;
      trx := trx.(jobs := Db(trx.jobs.rows[jobId := NewJob(PROCESS_WEBHOOK, NO_OPTIONS, now)], jobId + 1),
                  payloads := trx.payloads[jobId := ledgerId]);
      if fault.CommitFails? {
        return Some(fault.message);
      }
      outbox := trx;
      return None;
    }
  }

  // ---------------------------------------------------------------- every run

  ghost predicate IdsAllocated(outbox: Outbox) {
    && (forall id :: id in outbox.ledger ==> id < outbox.nextLedgerId)
    && (forall job :: job in outbox.payloads ==> job < outbox.jobs.nextId && outbox.payloads[job] in outbox.ledger)
  }

  ghost predicate NoEventTwice(outbox: Outbox) {
    forall a, b :: a in outbox.ledger && b in outbox.ledger && outbox.ledger[a].eventId == outbox.ledger[b].eventId ==> a == b
  }

  ghost predicate NoRowTwice(outbox: Outbox) {
    forall a, b :: a in outbox.payloads && b in outbox.payloads && outbox.payloads[a] == outbox.payloads[b] ==> a == b
  }

  ghost predicate EveryRowHasItsJob(outbox: Outbox) {
    forall id :: id in outbox.ledger ==> exists job :: job in outbox.payloads && outbox.payloads[job] == id
  }

  /** A row of the queue that will apply the event received at `at`, once somebody polls for it. */
  predicate AwaitsProcessing(job: Job, at: int) {
    && job.name == "process_webhook" && job.queue == "default" && job.attempts == 0 && job.maxAttempts == 5
    && job.availableAt == at && job.failedAt == None && job.reservedBy == None && job.reservedAt == None
  }

  /** The queue holds exactly the jobs that were dispatched, each as it was dispatched. */
  ghost predicate JobsAreQueued(outbox: Outbox) {
    && outbox.payloads.Keys == outbox.jobs.rows.Keys
    && forall job :: job in outbox.payloads ==>
                       && job in outbox.jobs.rows && outbox.payloads[job] in outbox.ledger
                       && AwaitsProcessing(outbox.jobs.rows[job], outbox.ledger[outbox.payloads[job]].receivedAt)
  }

  /** Ledger rows and queued processing jobs are one-to-one, and no event is recorded twice. */
  ghost predicate OneJobPerEvent(outbox: Outbox) {
    IdsAllocated(outbox) && NoEventTwice(outbox) && NoRowTwice(outbox) && EveryRowHasItsJob(outbox) && JobsAreQueued(outbox)
  }

  datatype Attempt = Attempt(delivery: Delivery, fault: Fault, now: int)

  function Final(outbox: Outbox, attempts: seq<Attempt>): Outbox {
    if attempts == [] then outbox else
      var last := attempts[|attempts| - 1];
      Handled(Final(outbox, attempts[..|attempts| - 1]), last.delivery, last.fault, last.now)
  }

  lemma {:induction false} RecordingKeepsRowsPaired(outbox: Outbox, eventId: string, now: int)
    requires IdsAllocated(outbox) && EveryRowHasItsJob(outbox) && NoRowTwice(outbox)
    ensures EveryRowHasItsJob(Recorded(outbox, eventId, now)) && NoRowTwice(Recorded(outbox, eventId, now))
  {
    var after := Recorded(outbox, eventId, now);
    forall id | id in after.ledger
      ensures exists job :: job in after.payloads && after.payloads[job] == id
    {
      if id in outbox.ledger && id != outbox.nextLedgerId {
        var job :| job in outbox.payloads && outbox.payloads[job] == id;
        assert job in after.payloads && after.payloads[job] == id;
      } else {
        assert after.payloads[outbox.jobs.nextId] == id;
      }
    }
  }

  lemma {:induction false} RecordingKeepsEventsApart(outbox: Outbox, eventId: string, now: int)
    requires IdsAllocated(outbox) && NoEventTwice(outbox) && !InLedger(outbox, eventId)
    ensures IdsAllocated(Recorded(outbox, eventId, now)) && NoEventTwice(Recorded(outbox, eventId, now))
  {
  }

  lemma {:induction false} RecordingQueuesTheJob(outbox: Outbox, eventId: string, now: int)
    requires IdsAllocated(outbox) && JobsAreQueued(outbox)
    ensures JobsAreQueued(Recorded(outbox, eventId, now))
  {
  }

  lemma {:induction false} HandlingKeepsOneJobPerEvent(outbox: Outbox, delivery: Delivery, fault: Fault, now: int)
    requires OneJobPerEvent(outbox)
    ensures OneJobPerEvent(Handled(outbox, delivery, fault, now))
  {
    hide EveryRowHasItsJob, NoRowTwice, NoEventTwice, IdsAllocated, InLedger, Recorded, JobsAreQueued;
    if delivery.Signed? && Raised(outbox, delivery.eventId, fault).None? {
      RecordingKeepsRowsPaired(outbox, delivery.eventId, now);
      RecordingKeepsEventsApart(outbox, delivery.eventId, now);
      RecordingQueuesTheJob(outbox, delivery.eventId, now);
    }
  }

  /** However often and in whatever order events are delivered, and whichever transactions abort. */
  lemma {:induction false} EveryRunIsOneJobPerEvent(dialect: Dialect, attempts: seq<Attempt>)
    ensures OneJobPerEvent(Final(Outbox(dialect, map[], 0, Db(map[], 0), map[]), attempts))
  {
    if attempts != [] {
      var start := Outbox(dialect, map[], 0, Db(map[], 0), map[]);
      var last := attempts[|attempts| - 1];
      EveryRunIsOneJobPerEvent(dialect, attempts[..|attempts| - 1]);
      HandlingKeepsOneJobPerEvent(Final(start, attempts[..|attempts| - 1]), last.delivery, last.fault, last.now);
    }
  }

  /** Spelled out: behind every ledger row of any run there is a job in the queue, waiting since it was received. */
  lemma {:induction false} EveryEventHasAQueuedJob(dialect: Dialect, attempts: seq<Attempt>, id: nat) returns (job: nat)
    requires id in Final(Outbox(dialect, map[], 0, Db(map[], 0), map[]), attempts).ledger
    ensures var end := Final(Outbox(dialect, map[], 0, Db(map[], 0), map[]), attempts);
            && end.payloads.Keys == end.jobs.rows.Keys && |end.jobs.rows| == |end.payloads|
            && job in end.payloads && end.payloads[job] == id && job in end.jobs.rows
            && end.jobs.rows[job].name == "process_webhook" && end.jobs.rows[job].attempts == 0
            && end.jobs.rows[job].failedAt.None? && end.jobs.rows[job].reservedBy.None?
            && end.jobs.rows[job].availableAt == end.ledger[id].receivedAt
  {
    hide Final;
    var end := Final(Outbox(dialect, map[], 0, Db(map[], 0), map[]), attempts);
    EveryRunIsOneJobPerEvent(dialect, attempts);
    job :| job in end.payloads && end.payloads[job] == id;
    assert |end.payloads| == |end.payloads.Keys| && |end.jobs.rows| == |end.jobs.rows.Keys|;
  }

  /**
   * A delivery answered as received adds one row to the queue and one to the
   * ledger, each new; any other answer adds none, and nothing already there moves.
   */
  lemma {:induction false} ReceivedAddsOneJob(outbox: Outbox, delivery: Delivery, fault: Fault, now: int)
    requires OneJobPerEvent(outbox)
    ensures var (response, after) := (Answer(outbox, delivery, fault), Handled(outbox, delivery, fault, now));
            if response == Received then
              var job := outbox.jobs.nextId;
              && delivery.Signed?
              && job !in outbox.jobs.rows && after.jobs.rows.Keys == outbox.jobs.rows.Keys + {job}
              && outbox.nextLedgerId !in outbox.ledger && after.ledger.Keys == outbox.ledger.Keys + {outbox.nextLedgerId}
              && after.ledger[outbox.nextLedgerId].eventId == delivery.eventId
              && job in after.payloads && after.payloads[job] == outbox.nextLedgerId
              && after.jobs.rows[job].name == "process_webhook" && after.jobs.rows[job].availableAt == now
              && after.jobs.rows[job].failedAt.None? && after.jobs.rows[job].reservedBy.None? && after.jobs.rows[job].attempts == 0
              && (forall other :: other in outbox.jobs.rows ==> after.jobs.rows[other] == outbox.jobs.rows[other])
              && (forall id :: id in outbox.ledger ==> after.ledger[id] == outbox.ledger[id])
            else after == outbox
  {
    hide NoRowTwice, EveryRowHasItsJob;
  }

  /** A recorded event stays recorded, and delivering it again adds neither a row nor a job. */
  lemma {:induction false} RedeliveryAddsNothing(outbox: Outbox, eventId: string, fault: Fault, now: int)
    requires InLedger(outbox, eventId)
    ensures Handled(outbox, Signed(eventId), fault, now) == outbox
    ensures fault.Sound? ==> Answer(outbox, Signed(eventId), fault) == Duplicate
  {
    IndexViolationIsADuplicate(outbox.dialect);
  }

  lemma {:induction false} HandlingKeepsTheLedger(outbox: Outbox, delivery: Delivery, fault: Fault, now: int, eventId: string)
    requires InLedger(outbox, eventId) && IdsAllocated(outbox)
    ensures InLedger(Handled(outbox, delivery, fault, now), eventId)
  {
    var id :| id in outbox.ledger && outbox.ledger[id].eventId == eventId;
    assert Handled(outbox, delivery, fault, now).ledger[id].eventId == eventId;
  }

  lemma {:induction false} RecordedForGood(outbox: Outbox, attempts: seq<Attempt>, eventId: string)
    requires InLedger(outbox, eventId) && OneJobPerEvent(outbox)
    ensures InLedger(Final(outbox, attempts), eventId) && OneJobPerEvent(Final(outbox, attempts))
  {
    hide InLedger, Handled, IdsAllocated, NoEventTwice, NoRowTwice, EveryRowHasItsJob, JobsAreQueued;
    if attempts != [] {
      var last := attempts[|attempts| - 1];
      var before := Final(outbox, attempts[..|attempts| - 1]);
      RecordedForGood(outbox, attempts[..|attempts| - 1], eventId);
      HandlingKeepsOneJobPerEvent(before, last.delivery, last.fault, last.now);
      HandlingKeepsTheLedger(before, last.delivery, last.fault, last.now, eventId);
    }
  }

  /**
   * A signed event answered with 200 is in the ledger, except exactly when it was
   * new and its transaction failed with an error whose text merely looks like a
   * unique violation: that one is acknowledged and lost.
   */
  lemma {:induction false} AcknowledgedMeansRecorded(outbox: Outbox, eventId: string, fault: Fault, now: int)
    requires Answer(outbox, Signed(eventId), fault) in {Received, Duplicate}
    ensures InLedger(Handled(outbox, Signed(eventId), fault, now), eventId)
       <==> !(!InLedger(outbox, eventId) && !fault.Sound? && IsDuplicate(fault.message))
  {
    var after := Handled(outbox, Signed(eventId), fault, now);
    if Raised(outbox, eventId, fault).None? {
      assert after.ledger[outbox.nextLedgerId].eventId == eventId;
    }
  }

  /** Another table's index is enough: the job's own insert fails on its key, the provider is told all is well, and the event is gone. */
  lemma {:induction false} LookAlikeIsLost(outbox: Outbox, eventId: string, now: int)
    requires !InLedger(outbox, eventId)
    ensures var fault := DispatchFails("duplicate key" + " value violates unique constraint jobs_pkey");
            && Answer(outbox, Signed(eventId), fault) == Duplicate
            && Handled(outbox, Signed(eventId), fault, now) == outbox
            && !InLedger(Handled(outbox, Signed(eventId), fault, now), eventId)
  {
    StartsWith("duplicate key" + " value violates unique constraint jobs_pkey", "duplicate key", "duplicate key");
  }

  lemma {:induction false} PartsAreMadeOfTheWhole(s: string, part: string, c: char)
    requires c in part && c !in s
    ensures !Includes(s, part)
  {
  }

  const BROKEN_REFERENCE: string := "FOREIGN KEY constraint failed"

  lemma {:induction false} NoQ()
    ensures 'q' !in LowerCase(BROKEN_REFERENCE)
  {
  }

  lemma {:induction false} NoP()
    ensures 'p' !in LowerCase(BROKEN_REFERENCE)
  {
  }

  /** A failure of another kind is reported, so that the provider tries again: a broken reference is no duplicate. */
  lemma {:induction false} ForeignKeyFailureIsReported(outbox: Outbox, eventId: string)
    requires !InLedger(outbox, eventId)
    ensures Answer(outbox, Signed(eventId), DispatchFails(BROKEN_REFERENCE)) == ServerError(BROKEN_REFERENCE)
  {
    hide Includes, LowerCase, InLedger;
    NoQ();
    NoP();
    PartsAreMadeOfTheWhole(LowerCase(BROKEN_REFERENCE), "unique", 'q');
    PartsAreMadeOfTheWhole(LowerCase(BROKEN_REFERENCE), "duplicate key", 'p');
  }
}
