/**
 * Uploads, soft deletes and erasure: a byte counter that must equal the sum of
 * the live rows, and an object store that must hold what the rows name.
 */
module FileService {
  import opened Prelude
  import opened Plans

  const MAX_FILE_BYTES: int := 20 * 1024 * 1024

  datatype Disk = Private | Public

  /** Keys are built from a fresh uuid per upload. */
  datatype ObjectKey = ObjectKey(disk: Disk, uuid: nat)

  datatype Attachable = ToUser(user: nat) | ToOrganization(organization: nat)

  datatype File = File(organizationId: nat, userId: nat, key: ObjectKey, sizeBytes: nat, attachedTo: Option<Attachable>, deleted: bool)

  /** The database and the bucket. `homes` is the workspace each user belongs to. */
  datatype Store = Store(
    files: map<nat, File>,
    used: map<nat, int>,
    limits: map<nat, Limit>,
    homes: map<nat, nat>,
    objects: set<ObjectKey>,
    nextId: nat)

  /** An upload after its bytes were measured and sniffed. `seen` is the counter on the caller's own copy. */
  datatype Upload = Upload(
    organizationId: nat,
    actor: nat,
    key: ObjectKey,
    extensionAllowed: bool,
    sizeBytes: nat,
    recognised: bool,
    matchesExtension: bool,
    attachTo: Option<Attachable>,
    skipQuota: bool,
    seen: nat)

  datatype CrashPoint = Never | BeforeMove | AfterMove | AfterTransaction

  datatype Faults = Faults(moveFails: bool, transactionFails: bool, cleanupFails: bool, crash: CrashPoint)

  datatype Rejection = ExtensionNotAllowed | EmptyFile | TooLarge | UnrecognisedContent | ContentDoesNotMatch

  datatype Outcome =
    | Stored(id: nat)
    | Rejected(reason: Rejection)
    | OverQuota(exceeded: PlanLimitExceeded)
    | Failed
    | Crashed

  // ---------------------------------------------------------------- upload

  function LimitMb(store: Store, organizationId: nat): Limit {
    if organizationId in store.limits then store.limits[organizationId] else Some(0)
  }

  function Validated(store: Store, input: Upload): Option<Outcome> {
    if !input.extensionAllowed then Some(Rejected(ExtensionNotAllowed))
    else if input.sizeBytes == 0 then Some(Rejected(EmptyFile))
    else if input.sizeBytes > MAX_FILE_BYTES then Some(Rejected(TooLarge))
    else
      var fits := AssertStorageWithinLimit(LimitMb(store, input.organizationId), input.seen, input.sizeBytes);
      if !input.skipQuota && fits.Err? then Some(OverQuota(fits.error))
      else if !input.recognised then Some(Rejected(UnrecognisedContent))
      else if !input.matchesExtension then Some(Rejected(ContentDoesNotMatch))
      else None
  }

  /** Why the transaction is rolled back, if it is. */
  function Refused(store: Store, input: Upload, faults: Faults): Option<Outcome> {
    if input.organizationId !in store.used then Some(Failed)
    else
      var fits := AssertStorageWithinLimit(LimitMb(store, input.organizationId), Max(store.used[input.organizationId], 0), input.sizeBytes);
      if !input.skipQuota && fits.Err? then Some(OverQuota(fits.error))
      else if faults.transactionFails then Some(Failed)
      else None
  }

  function RowFor(input: Upload): File {
    File(input.organizationId, input.actor, input.key, input.sizeBytes, input.attachTo, false)
  }

  function Inserted(store: Store, input: Upload): Store
    requires input.organizationId in store.used
  {
    store.(files := store.files[store.nextId := RowFor(input)],
           used := store.used[input.organizationId := store.used[input.organizationId] + input.sizeBytes],
           nextId := store.nextId + 1)
  }

  function WithObject(store: Store, key: ObjectKey): Store {
    store.(objects := store.objects + {key})
  }

  function Uploaded(store: Store, input: Upload, faults: Faults): Store {
    if Validated(store, input).Some? || faults.crash == BeforeMove || faults.moveFails then store
    else if faults.crash == AfterMove then WithObject(store, input.key)
    else if Refused(store, input, faults).None? then Inserted(WithObject(store, input.key), input)
    else if faults.crash == AfterTransaction || faults.cleanupFails then WithObject(store, input.key)
    else store.(objects := store.objects - {input.key})
  }

  function OutcomeOf(store: Store, input: Upload, faults: Faults): Outcome {
    if Validated(store, input).Some? then Validated(store, input).value
    else if faults.crash == BeforeMove then Crashed
    else if faults.moveFails then Failed
    else if faults.crash != Never then Crashed
    else if Refused(store, input, faults).None? then Stored(store.nextId)
    else Refused(store, input, faults).value
  }

  // ---------------------------------------------------------------- delete and erase

  /**
   * Soft-deletes the row the caller loaded as `copy`: it looks neither whether
   * that was done before nor whether the row is still there, and gives back the
   * bytes of the copy either way.
   */
  function Deleted(store: Store, id: nat, copy: File): Store {
    if copy.organizationId !in store.used then store else
      store.(files := if id in store.files then store.files[id := store.files[id].(deleted := true)] else store.files,
             used := store.used[copy.organizationId := Max(store.used[copy.organizationId] - copy.sizeBytes, 0)])
  }

  /** Nothing but the deletion mark of a row ever changes, and ids are not handed out again. */
  predicate CopyOf(store: Store, id: nat, copy: File) {
    id < store.nextId && (id in store.files ==> store.files[id].(deleted := copy.deleted) == copy)
  }

  function Doomed(store: Store, user: nat, lastMember: bool): set<nat> {
    set id | id in store.files && (store.files[id].attachedTo == Some(ToUser(user))
                                   || (lastMember && user in store.homes && store.files[id].organizationId == store.homes[user]))
  }

  function Sizes(store: Store, ids: set<nat>): map<nat, int> {
    map id | id in ids && id in store.files && !store.files[id].deleted :: store.files[id].sizeBytes
  }

  function Freed(store: Store, user: nat, lastMember: bool): int {
    Sum(Sizes(store, Doomed(store, user, lastMember)))
  }

  /** Rows go in the transaction, their objects after it, except those in `left` that could not be removed. */
  function Erased(store: Store, user: nat, lastMember: bool, left: set<ObjectKey>): Store {
    var doomed := Doomed(store, user, lastMember);
    var freed := Freed(store, user, lastMember);
    var gone := set id | id in doomed && store.files[id].key !in left :: store.files[id].key;
    store.(files := store.files - doomed,
           used := if freed > 0 && user in store.homes && store.homes[user] in store.used
                   then store.used[store.homes[user] := store.used[store.homes[user]] - freed] else store.used,
           objects := store.objects - gone)
  }

  // ---------------------------------------------------------------- what must hold

  function LiveSizes(store: Store, organizationId: nat): map<nat, int> {
    map id | id in store.files && store.files[id].organizationId == organizationId && !store.files[id].deleted :: store.files[id].sizeBytes
  }

  /** What `countedBytes` computes from the rows. */
  function CountedBytes(store: Store, organizationId: nat): int {
    Sum(LiveSizes(store, organizationId))
  }

  predicate Conserved(store: Store) {
    forall o :: o in store.used ==> store.used[o] == CountedBytes(store, o)
  }

  predicate RowsHaveObjects(store: Store) {
    forall id :: id in store.files ==> store.files[id].key in store.objects
  }

  predicate KeysDistinct(store: Store) {
    forall a, b :: a in store.files && b in store.files && store.files[a].key == store.files[b].key ==> a == b
  }

  /** Rows are allocated, belong to a workspace, and a user's attachments to the workspace of that user. */
  predicate RowsPlaced(store: Store) {
    forall id :: id in store.files ==>
                   && id < store.nextId && store.files[id].organizationId in store.used
                   && (store.files[id].attachedTo.Some? && store.files[id].attachedTo.value.ToUser? ==>
                         var user := store.files[id].attachedTo.value.user;
                         user in store.homes && store.homes[user] == store.files[id].organizationId)
  }

  predicate Rows(store: Store) {
    RowsHaveObjects(store) && KeysDistinct(store) && RowsPlaced(store)
  }

  predicate Inv(store: Store) {
    Conserved(store) && Rows(store)
  }

  /** A user's attachment goes to that user's workspace. */
  predicate InHome(store: Store, input: Upload) {
    input.attachTo.Some? && input.attachTo.value.ToUser? ==>
      input.attachTo.value.user in store.homes && store.homes[input.attachTo.value.user] == input.organizationId
  }

  predicate Named(store: Store, key: ObjectKey) {
    exists id :: id in store.files && store.files[id].key == key
  }

  /** The key is new as well. */
  predicate Proper(store: Store, input: Upload) {
    input.key !in store.objects && InHome(store, input)
  }

  // ---------------------------------------------------------------- the service

  class FileService {
    var store: Store

    constructor (store: Store)
      ensures this.store == store
    {
      this.store := store;
    }

    /** Validate, move the object, then the row and the counter in one transaction; clean up the object if that is refused. */
    method Upload(input: Upload, faults: Faults) returns (outcome: Outcome)
      modifies this
      ensures store == Uploaded(old(store), input, faults)
      ensures outcome == OutcomeOf(old(store), input, faults)
    {
      var invalid := Validated(store, input);
      if invalid.Some? {
        return invalid.value;
      }
      if faults.crash == BeforeMove {
        return Crashed;
      }
      if faults.moveFails {
        return Failed;
      }
      store := store.(objects := store.objects + {input.key});
      if faults.crash == AfterMove {
        return Crashed;
      }
      var error := Record(input, faults);
      if faults.crash == AfterTransaction {
        return Crashed;
      }
      if error.Some? {
        if !faults.cleanupFails {
          store := store.(objects := store.objects - {input.key});
        }
        return error.value;
      }
      return Stored(store.nextId - 1);
    }

    /** The locked transaction: re-check the quota, insert, move the counter. */
    method Record(input: Upload, faults: Faults) returns (error: Option<Outcome>)
      modifies this
      ensures error == Refused(old(store), input, faults)
      ensures store == if error.None? then Inserted(old(store), input) else old(store)
    {
      if input.organizationId !in store.used {
        return Some(Failed);
      }
      var locked := store.used[input.organizationId];
      if !input.skipQuota {
        var fits := AssertStorageWithinLimit(LimitMb(store, input.organizationId), Max(locked, 0), input.sizeBytes);
        if fits.Err? {
          return Some(OverQuota(fits.error));
        }
      }
      if faults.transactionFails {
        return Some(Failed);
      }
      store := store.(files := store.files[store.nextId := RowFor(input)], nextId := store.nextId + 1,
                      used := store.used[input.organizationId := locked + input.sizeBytes]);
      return None;
    }

    method Delete(id: nat, copy: File)
      modifies this
      ensures store == Deleted(old(store), id, copy)
    {
      if copy.organizationId !in store.used {
        return;
      }
      if id in store.files {
        store := store.(files := store.files[id := store.files[id].(deleted := true)]);
      }
      var released := store.used[copy.organizationId] - copy.sizeBytes;
      if released < 0 {
        released := 0;
      }
      store := store.(used := store.used[copy.organizationId := released]);
    }

    method Erase(user: nat, lastMember: bool, left: set<ObjectKey>)
      modifies this
      ensures store == Erased(old(store), user, lastMember, left)
    {
      var doomed := Doomed(store, user, lastMember);
      if doomed == {} {
        NothingToErase(store, user, lastMember, left);
        return;
      }
      var freed := Sum(Sizes(store, doomed));
      var before := store;
      store := store.(files := store.files - doomed);
      if freed > 0 && user in store.homes && store.homes[user] in store.used {
        store := store.(used := store.used[store.homes[user] := store.used[store.homes[user]] - freed]);
      }
      store := store.(objects := store.objects - (set id | id in doomed && before.files[id].key !in left :: before.files[id].key));
    }

    /**
     * Replaces an avatar or a logo: the new file goes up first, the old ones are
     * soft-deleted after it. On success exactly the new file is attached and live.
     */
    method ReplaceAttachment(input: Upload, faults: Faults) returns (outcome: Outcome)
      requires Inv(store) && Proper(store, input) && input.attachTo.Some?
      modifies this
      ensures Inv(store)
      ensures outcome == OutcomeOf(old(store), input, faults)
      ensures !outcome.Stored? ==> store == Uploaded(old(store), input, faults)
      ensures outcome.Stored? ==>
                && Attached(store, input.organizationId, input.attachTo.value) == {outcome.id}
                && store.files == Retired(Uploaded(old(store), input, faults).files, Attached(old(store), input.organizationId, input.attachTo.value))
    {
      hide Inv, Proper, Uploaded, OutcomeOf, Deleted, Retired, Attached;
      var previous := Attached(store, input.organizationId, input.attachTo.value);
      var copies := store.files;
      ghost var before := store;
      outcome := Upload(input, faults);
      UploadKeepsInvariant(before, input, faults);
      if !outcome.Stored? {
        return;
      }
      ghost var files := store.files;
      var left := previous;
      EarlierOnesStayLive(before, input, faults);
      NoneRetired(files);
      assert previous - previous == {};
      while left != {}
        invariant left <= previous && Inv(store)
        invariant store.files == Retired(files, previous - left)
        decreases left
      {
        var id := Least(left);
        RetireOne(store, files, previous - left, id, copies[id]);
        assert previous - left + {id} == previous - (left - {id});
        Delete(id, copies[id]);
        left := left - {id};
      }
      assert previous - {} == previous;
      OnlyTheNewOneStays(before, input, faults, store);
    }
  }

  function Attached(store: Store, organizationId: nat, target: Attachable): set<nat> {
    set id | id in store.files && store.files[id].organizationId == organizationId
             && store.files[id].attachedTo == Some(target) && !store.files[id].deleted
  }

  function Retired(files: map<nat, File>, ids: set<nat>): map<nat, File> {
    map id | id in files :: if id in ids then files[id].(deleted := true) else files[id]
  }

  // ---------------------------------------------------------------- each operation keeps the books

  lemma {:induction false} CountNonNegative(store: Store, organizationId: nat)
    ensures 0 <= CountedBytes(store, organizationId)
  {
    SumNonNegative(LiveSizes(store, organizationId));
  }

  lemma {:induction false} LiveFileIsCounted(store: Store, id: nat)
    requires id in store.files && !store.files[id].deleted
    ensures 0 <= store.files[id].sizeBytes <= CountedBytes(store, store.files[id].organizationId)
  {
    var sizes := LiveSizes(store, store.files[id].organizationId);
    SumRemove(sizes, id);
    SumNonNegative(sizes - {id});
  }

  lemma {:induction false} CountAfterInsert(store: Store, input: Upload, o: nat)
    requires store.nextId !in store.files && input.organizationId in store.used
    ensures CountedBytes(Inserted(WithObject(store, input.key), input), o)
         == CountedBytes(store, o) + (if o == input.organizationId then input.sizeBytes else 0)
  {
    var after := Inserted(WithObject(store, input.key), input);
    if o == input.organizationId {
      assert LiveSizes(after, o) == LiveSizes(store, o)[store.nextId := input.sizeBytes];
      SumUpdate(LiveSizes(store, o), store.nextId, input.sizeBytes);
    } else {
      assert LiveSizes(after, o) == LiveSizes(store, o);
    }
  }

  lemma {:induction false} InsertingConserves(store: Store, input: Upload)
    requires Conserved(store) && store.nextId !in store.files && input.organizationId in store.used
    ensures Conserved(Inserted(WithObject(store, input.key), input))
  {
    hide CountedBytes;
    var after := Inserted(WithObject(store, input.key), input);
    forall o | o in after.used
      ensures after.used[o] == CountedBytes(after, o)
    {
      CountAfterInsert(store, input, o);
    }
  }

  lemma {:induction false} InsertingKeepsRows(store: Store, input: Upload)
    requires Rows(store) && !Named(store, input.key) && InHome(store, input) && input.organizationId in store.used
    ensures Rows(Inserted(WithObject(store, input.key), input))
  {
  }

  lemma {:induction false} InsertingKeepsInvariant(store: Store, input: Upload)
    requires Inv(store) && Proper(store, input) && input.organizationId in store.used
    ensures Inv(Inserted(WithObject(store, input.key), input))
  {
    hide Conserved, KeysDistinct, Inserted;
    assert store.nextId !in store.files && !Named(store, input.key);
    InsertingConserves(store, input);
    InsertingKeepsRows(store, input);
  }

  lemma {:induction false} ObjectsDoNotMoveTheCounter(store: Store, objects: set<ObjectKey>)
    requires Inv(store) && forall id :: id in store.files ==> store.files[id].key in objects
    ensures Inv(store.(objects := objects))
  {
    forall o | o in store.used
      ensures store.used[o] == CountedBytes(store.(objects := objects), o)
    {
      assert LiveSizes(store.(objects := objects), o) == LiveSizes(store, o);
    }
  }

  /** Whatever fails, and wherever a crash lands, the counter is right and every row has its object. */
  lemma {:induction false} UploadKeepsInvariant(store: Store, input: Upload, faults: Faults)
    requires Inv(store) && Proper(store, input)
    ensures Inv(Uploaded(store, input, faults))
  {
    ObjectsDoNotMoveTheCounter(store, store.objects + {input.key});
    ObjectsDoNotMoveTheCounter(store, store.objects - {input.key});
    if input.organizationId in store.used {
      InsertingKeepsInvariant(store, input);
    }
  }

  /** An upload that is not stored leaves no row and no counter change, and no object unless the clean-up failed or the process died. */
  lemma {:induction false} UnstoredUploadLeavesNothing(store: Store, input: Upload, faults: Faults)
    requires Proper(store, input)
    requires !OutcomeOf(store, input, faults).Stored? && !OutcomeOf(store, input, faults).Crashed?
    ensures var after := Uploaded(store, input, faults);
            && after == store.(objects := after.objects)
            && (after.objects == store.objects || (faults.cleanupFails && after.objects == store.objects + {input.key}))
  {
  }

  /** An upload is turned away for the first reason that applies, in this order, and before anything is moved. */
  lemma {:induction false} TurnedAwayForTheFirstReason(store: Store, input: Upload, faults: Faults)
    ensures var outcome := OutcomeOf(store, input, faults);
            var limit := LimitMb(store, input.organizationId);
            var (small, big) := (input.sizeBytes == 0, input.sizeBytes > 20 * 1024 * 1024);
            var over := !input.skipQuota && limit.Some? && input.seen + input.sizeBytes > limit.value * 1024 * 1024;
            && (outcome == Rejected(ExtensionNotAllowed) <==> !input.extensionAllowed)
            && (outcome == Rejected(EmptyFile) <==> input.extensionAllowed && small)
            && (outcome == Rejected(TooLarge) <==> input.extensionAllowed && big)
            && (input.extensionAllowed && !small && !big && over ==>
                  outcome == OverQuota(PlanLimitExceeded(StorageMb, limit.value, StorageMbUsed(input.seen))))
            && (outcome.OverQuota? && !over ==>
                  && input.organizationId in store.used && limit.Some?
                  && outcome == OverQuota(PlanLimitExceeded(StorageMb, limit.value, StorageMbUsed(Max(store.used[input.organizationId], 0)))))
            && (outcome == Rejected(UnrecognisedContent) <==> input.extensionAllowed && !small && !big && !over && !input.recognised)
            && (outcome == Rejected(ContentDoesNotMatch)
                <==> input.extensionAllowed && !small && !big && !over && input.recognised && !input.matchesExtension)
            && (!input.extensionAllowed || small || big || over || !input.recognised || !input.matchesExtension ==>
                  Uploaded(store, input, faults) == store)
  {
  }

  /** A process that dies cleans nothing up: what was moved stays, and the row is there exactly when its transaction committed. */
  lemma {:induction false} CrashesLeaveWhatWasDone(store: Store, input: Upload, faults: Faults)
    requires store.nextId !in store.files && OutcomeOf(store, input, faults).Crashed?
    ensures var after := Uploaded(store, input, faults);
            && (faults.crash == BeforeMove ==> after == store)
            && (faults.crash != BeforeMove ==> after.objects == store.objects + {input.key})
            && (faults.crash == AfterMove ==> after.files == store.files && after.used == store.used)
            && (faults.crash == AfterTransaction ==>
                  (store.nextId in after.files <==> Refused(store, input, faults).None?)
                  && (Refused(store, input, faults).Some? ==> after.files == store.files && after.used == store.used))
  {
  }

  /** What is stored is what was sent: the row, its object, the counter of its workspace, and nothing else moves. */
  lemma {:induction false} StoredIsWhatWasSent(store: Store, input: Upload, faults: Faults)
    requires store.nextId !in store.files && OutcomeOf(store, input, faults).Stored?
    ensures var (id, after) := (OutcomeOf(store, input, faults).id, Uploaded(store, input, faults));
            && id !in store.files && after.files.Keys == store.files.Keys + {id}
            && after.files[id] == File(input.organizationId, input.actor, input.key, input.sizeBytes, input.attachTo, false)
            && (forall other :: other in store.files ==> after.files[other] == store.files[other])
            && after.objects == store.objects + {input.key}
            && input.organizationId in store.used
            && after.used == store.used[input.organizationId := store.used[input.organizationId] + input.sizeBytes]
  {
    StoredMeansInserted(store, input, faults);
  }

  /** With nothing going wrong and the counter seen current, an upload is stored exactly when it is a good file that fits. */
  lemma {:induction false} StoredExactlyWhenGoodAndFitting(store: Store, input: Upload)
    requires Inv(store) && input.organizationId in store.used && input.seen == store.used[input.organizationId]
    ensures OutcomeOf(store, input, Faults(false, false, false, Never)).Stored?
       <==> && input.extensionAllowed && 0 < input.sizeBytes <= 20 * 1024 * 1024
            && input.recognised && input.matchesExtension
            && (input.skipQuota || LimitMb(store, input.organizationId).None?
                || CountedBytes(store, input.organizationId) + input.sizeBytes
                   <= LimitMb(store, input.organizationId).value * 1024 * 1024)
  {
    hide CountedBytes, Rows;
  }

  /** A stored upload, checked against the quota, leaves the total within the limit in bytes. */
  lemma {:induction false} StoredUploadFits(store: Store, input: Upload, faults: Faults)
    requires Inv(store) && OutcomeOf(store, input, faults).Stored? && !input.skipQuota
    ensures var after := Uploaded(store, input, faults);
            var limit := LimitMb(store, input.organizationId);
            && after.used[input.organizationId] == CountedBytes(store, input.organizationId) + input.sizeBytes
            && (limit.Some? ==> CountedBytes(after, input.organizationId) <= limit.value * 1024 * 1024)
  {
    hide CountedBytes, LiveSizes, RowsHaveObjects, KeysDistinct, Uploaded, OutcomeOf, Refused;
    assert store.nextId !in store.files;
    var o := input.organizationId;
    StoredMeansInserted(store, input, faults);
    CountNonNegative(store, o);
    CountAfterInsert(store, input, o);
    NotRefusedFits(store, input, faults);
  }

  lemma {:induction false} NotRefusedFits(store: Store, input: Upload, faults: Faults)
    requires Refused(store, input, faults).None? && !input.skipQuota
    ensures var limit := LimitMb(store, input.organizationId);
            && input.organizationId in store.used
            && (limit.Some? ==> store.used[input.organizationId] + input.sizeBytes <= limit.value * 1024 * 1024)
  {
  }

  lemma {:induction false} CountAfterDelete(store: Store, id: nat, copy: File, o: nat)
    requires CopyOf(store, id, copy) && copy.organizationId in store.used
    ensures CountedBytes(Deleted(store, id, copy), o)
         == CountedBytes(store, o)
            - (if o == copy.organizationId && id in store.files && !store.files[id].deleted then copy.sizeBytes else 0)
  {
    var after := Deleted(store, id, copy);
    if o == copy.organizationId && id in store.files && !store.files[id].deleted {
      SumRemove(LiveSizes(store, o), id);
      assert LiveSizes(after, o) == LiveSizes(store, o) - {id};
    } else {
      assert LiveSizes(after, o) == LiveSizes(store, o);
    }
  }

  lemma {:induction false} DeletingKeepsRows(store: Store, id: nat, copy: File)
    requires Rows(store)
    ensures Rows(Deleted(store, id, copy))
    ensures id in store.files ==> store.files[id].organizationId in store.used
  {
  }

  lemma {:induction false} CounterAfterDelete(store: Store, id: nat, copy: File)
    requires copy.organizationId in store.used
    ensures Deleted(store, id, copy).used
         == store.used[copy.organizationId := Max(store.used[copy.organizationId] - copy.sizeBytes, 0)]
  {
  }

  /** Deleting a live file gives back exactly its bytes: the clamp at zero never bites. */
  lemma {:induction false} DeletingALiveFile(store: Store, id: nat, copy: File)
    requires Inv(store) && CopyOf(store, id, copy) && id in store.files && !store.files[id].deleted
    ensures Inv(Deleted(store, id, copy))
    ensures copy.organizationId in store.used
    ensures Deleted(store, id, copy).used[copy.organizationId] == store.used[copy.organizationId] - store.files[id].sizeBytes >= 0
  {
    hide CountedBytes, LiveSizes, Rows, Deleted;
    DeletingKeepsRows(store, id, copy);
    CounterAfterDelete(store, id, copy);
    LiveFileIsCounted(store, id);
    forall o | o in store.used
      ensures Deleted(store, id, copy).used[o] == CountedBytes(Deleted(store, id, copy), o)
    {
      CountAfterDelete(store, id, copy, o);
    }
  }

  /** What makes a delete give back what was counted: a live row, or no bytes to give, or none left to take. */
  predicate Returns(store: Store, id: nat, copy: File) {
    copy.organizationId in store.used ==>
      (id in store.files && !store.files[id].deleted) || copy.sizeBytes == 0 || store.used[copy.organizationId] == 0
  }

  /** The row of the copy may be live, deleted already, or erased since: the counter stays right exactly in the cases of `Returns`. */
  lemma {:induction false} DeleteConservesExactlyWhenLive(store: Store, id: nat, copy: File)
    requires Inv(store) && CopyOf(store, id, copy)
    ensures Conserved(Deleted(store, id, copy)) <==> Returns(store, id, copy)
  {
    hide CountedBytes, LiveSizes, Rows, Deleted;
    if copy.organizationId !in store.used {
      NoWorkspaceNoDelete(store, id, copy);
    } else if id in store.files && !store.files[id].deleted {
      DeletingALiveFile(store, id, copy);
    } else {
      CounterAfterDelete(store, id, copy);
      CountNonNegative(store, copy.organizationId);
      forall o | o in store.used
        ensures CountedBytes(Deleted(store, id, copy), o) == CountedBytes(store, o)
      {
        CountAfterDelete(store, id, copy, o);
      }
      SecondDeleteSubtracts(store, id, copy);
    }
  }

  lemma {:induction false} NoWorkspaceNoDelete(store: Store, id: nat, copy: File)
    requires copy.organizationId !in store.used
    ensures Deleted(store, id, copy) == store
  {
  }

  lemma {:induction false} SecondDeleteSubtracts(store: Store, id: nat, copy: File)
    requires copy.organizationId in store.used && Conserved(store)
    requires forall o :: o in store.used ==> CountedBytes(Deleted(store, id, copy), o) == CountedBytes(store, o)
    requires Deleted(store, id, copy).used == store.used[copy.organizationId := Deleted(store, id, copy).used[copy.organizationId]]
    ensures Conserved(Deleted(store, id, copy))
       <==> Deleted(store, id, copy).used[copy.organizationId] == store.used[copy.organizationId]
  {
    hide CountedBytes, Deleted;
  }

  lemma {:induction false} OneFewer(m: map<nat, int>, part: map<nat, int>, k: nat)
    requires k in part
    ensures |part - {k}| < |part|
    ensures (m - {k}) - (part - {k}).Keys == m - part.Keys
  {
    assert part.Keys == (part - {k}).Keys + {k};
  }

  lemma {:induction false} SumSplit(m: map<nat, int>, part: map<nat, int>)
    requires forall k :: k in part ==> k in m && m[k] == part[k]
    ensures Sum(m) == Sum(m - part.Keys) + Sum(part)
    decreases |part|
  {
    if part == map[] {
      assert m - part.Keys == m;
    } else {
      hide Sum;
      var k := Least(part.Keys);
      SumRemove(part, k);
      SumRemove(m, k);
      OneFewer(m, part, k);
      SumSplit(m - {k}, part - {k});
    }
  }

  lemma {:induction false} ErasureKeepsRows(store: Store, user: nat, lastMember: bool, left: set<ObjectKey>)
    requires Rows(store)
    ensures Rows(Erased(store, user, lastMember, left))
  {
    hide Freed;
    var doomed := Doomed(store, user, lastMember);
    var after := Erased(store, user, lastMember, left);
    assert forall id :: id in after.files ==> id in store.files && id !in doomed && after.files[id] == store.files[id];
    assert after.used.Keys == store.used.Keys && after.homes == store.homes;
    hide Erased, Doomed;
    ErasureKeepsObjects(store, user, lastMember, left);
  }

  lemma {:induction false} ErasureKeepsObjects(store: Store, user: nat, lastMember: bool, left: set<ObjectKey>)
    requires RowsHaveObjects(store) && KeysDistinct(store)
    ensures RowsHaveObjects(Erased(store, user, lastMember, left))
  {
    hide Freed;
    var after := Erased(store, user, lastMember, left);
    forall id | id in after.files
      ensures after.files[id].key in after.objects
    {
      assert id !in Doomed(store, user, lastMember) && after.files[id] == store.files[id];
    }
  }

  lemma {:induction false} CountAfterErasure(store: Store, user: nat, lastMember: bool, left: set<ObjectKey>, o: nat)
    requires RowsPlaced(store) && o in store.used
    ensures Freed(store, user, lastMember) >= 0
    ensures CountedBytes(Erased(store, user, lastMember, left), o)
         == CountedBytes(store, o) - (if user in store.homes && store.homes[user] == o then Freed(store, user, lastMember) else 0)
  {
    hide Sum;
    var freed := Sizes(store, Doomed(store, user, lastMember));
    var sizes := LiveSizes(store, o);
    SumNonNegative(freed);
    if user in store.homes && store.homes[user] == o {
      DoomedAreAtHome(store, user, lastMember, left);
      SumSplit(sizes, freed);
    } else {
      DoomedAreNotElsewhere(store, user, lastMember, left, o);
    }
  }

  lemma {:induction false} DoomedAreAtHome(store: Store, user: nat, lastMember: bool, left: set<ObjectKey>)
    requires RowsPlaced(store) && user in store.homes
    ensures var sizes := LiveSizes(store, store.homes[user]);
            var freed := Sizes(store, Doomed(store, user, lastMember));
            && (forall id :: id in freed ==> id in sizes && sizes[id] == freed[id])
            && LiveSizes(Erased(store, user, lastMember, left), store.homes[user]) == sizes - freed.Keys
  {
    hide Freed;
  }

  lemma {:induction false} DoomedAreNotElsewhere(store: Store, user: nat, lastMember: bool, left: set<ObjectKey>, o: nat)
    requires RowsPlaced(store) && !(user in store.homes && store.homes[user] == o)
    ensures LiveSizes(Erased(store, user, lastMember, left), o) == LiveSizes(store, o)
  {
    hide Freed;
  }

  /** Erasure takes the rows, their bytes and their objects, and nothing else. */
  lemma {:induction false} ErasureKeepsInvariant(store: Store, user: nat, lastMember: bool, left: set<ObjectKey>)
    requires Inv(store)
    ensures Inv(Erased(store, user, lastMember, left))
  {
    hide Rows, Conserved, Erased;
    ErasureKeepsRows(store, user, lastMember, left);
    ErasureConserves(store, user, lastMember, left);
  }

  lemma {:induction false} CounterAfterErasure(store: Store, user: nat, lastMember: bool, left: set<ObjectKey>, o: nat)
    ensures o in Erased(store, user, lastMember, left).used <==> o in store.used
    ensures o in store.used && Freed(store, user, lastMember) >= 0 ==>
              var freed := if user in store.homes && store.homes[user] == o then Freed(store, user, lastMember) else 0;
              Erased(store, user, lastMember, left).used[o] == store.used[o] - freed
  {
    hide Freed, Doomed;
  }

  lemma {:induction false} ErasureConserves(store: Store, user: nat, lastMember: bool, left: set<ObjectKey>)
    requires Conserved(store) && Rows(store)
    ensures Conserved(Erased(store, user, lastMember, left))
  {
    hide RowsHaveObjects, RowsPlaced, KeysDistinct, CountedBytes, Freed, Erased;
    var after := Erased(store, user, lastMember, left);
    forall o | o in after.used
      ensures after.used[o] == CountedBytes(after, o)
    {
      CounterAfterErasure(store, user, lastMember, left, o);
      CountAfterErasure(store, user, lastMember, left, o);
    }
  }

  /** A row survives, unchanged, exactly when it is neither the user's nor in a workspace losing its last member; an object goes exactly when its row does and its removal worked. */
  lemma {:induction false} ErasureTakesExactly(store: Store, user: nat, lastMember: bool, left: set<ObjectKey>, id: nat)
    requires Inv(store) && id in store.files
    ensures var file := store.files[id];
            var after := Erased(store, user, lastMember, left);
            var goes := file.attachedTo == Some(ToUser(user))
                        || (lastMember && user in store.homes && file.organizationId == store.homes[user]);
            && (id in after.files <==> !goes) && (!goes ==> after.files[id] == file)
            && (file.key in after.objects <==> !goes || file.key in left)
  {
    hide Conserved, Freed, Sizes;
    var file := store.files[id];
    var doomed := Doomed(store, user, lastMember);
    assert forall other :: other in doomed && store.files[other].key == file.key ==> other == id;
  }

  lemma {:induction false} NothingToErase(store: Store, user: nat, lastMember: bool, left: set<ObjectKey>)
    requires Doomed(store, user, lastMember) == {}
    ensures Erased(store, user, lastMember, left) == store
  {
    assert Sizes(store, {}) == map[];
    assert store.files - {} == store.files;
  }

  // ---------------------------------------------------------------- replacing an attachment

  lemma {:induction false} NoneRetired(files: map<nat, File>)
    ensures Retired(files, {}) == files
  {
  }

  lemma {:induction false} StoredMeansInserted(store: Store, input: Upload, faults: Faults)
    requires OutcomeOf(store, input, faults).Stored?
    ensures input.organizationId in store.used && Refused(store, input, faults).None?
    ensures Uploaded(store, input, faults) == Inserted(WithObject(store, input.key), input)
    ensures OutcomeOf(store, input, faults) == Stored(store.nextId)
  {
  }

  lemma {:induction false} EarlierOnesStayLive(store: Store, input: Upload, faults: Faults)
    requires Inv(store) && OutcomeOf(store, input, faults).Stored? && input.attachTo.Some?
    ensures var files := Uploaded(store, input, faults).files;
            forall id :: id in Attached(store, input.organizationId, input.attachTo.value) ==>
                           id in store.files && id in files && !files[id].deleted && files[id] == store.files[id]
  {
    hide Conserved, Uploaded, OutcomeOf, Refused;
    StoredMeansInserted(store, input, faults);
  }

  lemma {:induction false} RetireOne(store: Store, files: map<nat, File>, done: set<nat>, id: nat, copy: File)
    requires Inv(store) && store.files == Retired(files, done)
    requires id in files && !files[id].deleted && id !in done && copy == files[id]
    ensures Inv(Deleted(store, id, copy)) && Deleted(store, id, copy).files == Retired(files, done + {id})
  {
    hide Conserved, RowsHaveObjects, KeysDistinct;
    assert CopyOf(store, id, copy);
    DeletingALiveFile(store, id, copy);
  }

  lemma {:induction false} OnlyTheNewOneStays(store: Store, input: Upload, faults: Faults, after: Store)
    requires Inv(store) && OutcomeOf(store, input, faults).Stored? && input.attachTo.Some?
    requires after.files == Retired(Uploaded(store, input, faults).files, Attached(store, input.organizationId, input.attachTo.value))
    ensures Attached(after, input.organizationId, input.attachTo.value) == {OutcomeOf(store, input, faults).id}
  {
    hide RowsHaveObjects, KeysDistinct, Conserved, Uploaded, OutcomeOf, Refused;
    StoredMeansInserted(store, input, faults);
    assert store.nextId !in store.files;
  }
}
