/**
 * Any number of uploads, deletes, replacements and erasures at once, each
 * statement or transaction a step of its own, with faults and crashes between.
 * Deletes act on copies of rows that were live when they were loaded.
 */
module FileRuns {
  import opened Prelude
  import opened Plans
  import opened FileService

  /** An upload that passed its checks, one whose object was moved, one whose row was refused. */
  datatype Stage = Checked | Moved | Turned

  datatype Flight = Flight(input: Upload, stage: Stage)

  /** `spent` are all keys ever made up; `orphans` the objects nobody will remove but the purge job. */
  datatype World = World(store: Store, uploads: map<nat, Flight>, copies: map<nat, File>, spent: set<ObjectKey>, orphans: set<ObjectKey>)

  datatype Step =
    | BeginUpload(u: nat, input: Upload)
    | MoveObject(u: nat)
    | RecordRow(u: nat, fails: bool)
    | CleanUp(u: nat, fails: bool)
    | GiveUp(u: nat)
    | LoadFile(id: nat)
    | DeleteFile(id: nat)
    | EraseUser(user: nat, lastMember: bool, left: set<ObjectKey>)

  /** A new upload has a fresh key and passed validation, against a counter that may be out of date by now. */
  predicate Enabled(w: World, step: Step) {
    match step
    case BeginUpload(u, input) =>
      u !in w.uploads && input.key !in w.spent && InHome(w.store, input) && Validated(w.store, input).None?
    case MoveObject(u) => u in w.uploads && w.uploads[u].stage.Checked?
    case RecordRow(u, _) => u in w.uploads && w.uploads[u].stage.Moved?
    case CleanUp(u, _) => u in w.uploads && w.uploads[u].stage.Turned?
    case GiveUp(u) => u in w.uploads
    case LoadFile(id) => id in w.store.files && !w.store.files[id].deleted
    case DeleteFile(id) => id in w.copies
    case EraseUser(_, _, _) => true
  }

  function RefusedRow(store: Store, input: Upload, fails: bool): bool {
    Refused(store, input, Faults(false, fails, false, Never)).Some?
  }

  /** What a crash or a failed clean-up leaves of an upload. */
  function Leftover(flight: Flight): set<ObjectKey> {
    if flight.stage.Checked? then {} else {flight.input.key}
  }

  function LeftBehind(store: Store, user: nat, lastMember: bool, left: set<ObjectKey>): set<ObjectKey> {
    set id | id in Doomed(store, user, lastMember) && store.files[id].key in left :: store.files[id].key
  }

  function Next(w: World, step: Step): World
    requires Enabled(w, step)
  {
    match step
    case BeginUpload(u, input) => w.(uploads := w.uploads[u := Flight(input, Checked)], spent := w.spent + {input.key})
    case MoveObject(u) =>
      w.(store := WithObject(w.store, w.uploads[u].input.key), uploads := w.uploads[u := w.uploads[u].(stage := Moved)])
    case RecordRow(u, fails) =>
      if RefusedRow(w.store, w.uploads[u].input, fails) then w.(uploads := w.uploads[u := w.uploads[u].(stage := Turned)])
      else w.(store := Inserted(w.store, w.uploads[u].input), uploads := w.uploads - {u})
    case CleanUp(u, fails) =>
      var key := w.uploads[u].input.key;
      if fails then w.(uploads := w.uploads - {u}, orphans := w.orphans + {key})
      else w.(store := w.store.(objects := w.store.objects - {key}), uploads := w.uploads - {u})
    case GiveUp(u) => w.(uploads := w.uploads - {u}, orphans := w.orphans + Leftover(w.uploads[u]))
    case LoadFile(id) => w.(copies := w.copies[id := w.store.files[id]])
    case DeleteFile(id) => w.(store := Deleted(w.store, id, w.copies[id]))
    case EraseUser(user, lastMember, left) =>
      w.(store := Erased(w.store, user, lastMember, left), orphans := w.orphans + LeftBehind(w.store, user, lastMember, left))
  }

  predicate Legal(w: World, steps: seq<Step>)
    decreases |steps|
  {
    steps == [] || (Enabled(w, steps[0]) && Legal(Next(w, steps[0]), steps[1..]))
  }

  function Final(w: World, steps: seq<Step>): World
    requires Legal(w, steps)
    decreases |steps|
  {
    if steps == [] then w else Final(Next(w, steps[0]), steps[1..])
  }

  // ---------------------------------------------------------------- rows, objects and keys

  predicate Flying(uploads: map<nat, Flight>, key: ObjectKey) {
    exists u :: u in uploads && uploads[u].input.key == key
  }

  predicate Carried(uploads: map<nat, Flight>, key: ObjectKey) {
    exists u :: u in uploads && uploads[u].input.key == key && !uploads[u].stage.Checked?
  }

  /** An object exists exactly when a row names it, an upload carries it or it was left behind: one of the three, and no more. */
  predicate Accounted(w: World, key: ObjectKey) {
    && (key in w.store.objects <==> Named(w.store, key) || Carried(w.uploads, key) || key in w.orphans)
    && !(Named(w.store, key) && Flying(w.uploads, key)) && !(Named(w.store, key) && key in w.orphans)
    && !(Flying(w.uploads, key) && key in w.orphans)
    && (Named(w.store, key) || Flying(w.uploads, key) || key in w.orphans ==> key in w.spent)
  }

  ghost predicate AllAccounted(w: World) {
    forall key :: Accounted(w, key)
  }

  predicate OneUploadPerKey(uploads: map<nat, Flight>) {
    forall u, v :: u in uploads && v in uploads && uploads[u].input.key == uploads[v].input.key ==> u == v
  }

  predicate FlightsHome(w: World) {
    forall u :: u in w.uploads ==> InHome(w.store, w.uploads[u].input)
  }

  predicate CopiesTrue(w: World) {
    forall id :: id in w.copies ==> CopyOf(w.store, id, w.copies[id])
  }

  ghost predicate Inv(w: World) {
    Rows(w.store) && AllAccounted(w) && OneUploadPerKey(w.uploads) && FlightsHome(w) && CopiesTrue(w)
  }

  lemma {:induction false} StepKeepsRows(w: World, step: Step)
    requires Inv(w) && Enabled(w, step)
    ensures Rows(Next(w, step).store)
  {
    hide Rows, Deleted, Erased, Inserted, Named, Validated, RefusedRow;
    match step {
      case MoveObject(u) => ObjectsMayGrow(w.store, w.uploads[u].input.key);
      case RecordRow(u, fails) =>
        if !RefusedRow(w.store, w.uploads[u].input, fails) {
          assert Accounted(w, w.uploads[u].input.key);
          RecordingKeepsRows(w.store, w.uploads[u].input, fails);
        }
      case CleanUp(u, _) =>
        assert Accounted(w, w.uploads[u].input.key);
        UnnamedMayGo(w.store, w.uploads[u].input.key);
      case DeleteFile(id) => DeletingKeepsRows(w.store, id, w.copies[id]);
      case EraseUser(user, lastMember, left) => ErasureKeepsRows(w.store, user, lastMember, left);
      case _ =>
    }
  }

  lemma {:induction false} ObjectsMayGrow(store: Store, key: ObjectKey)
    requires Rows(store)
    ensures Rows(WithObject(store, key))
  {
  }

  lemma {:induction false} UnnamedMayGo(store: Store, key: ObjectKey)
    requires Rows(store) && !Named(store, key)
    ensures Rows(store.(objects := store.objects - {key}))
  {
  }

  lemma {:induction false} RecordingKeepsRows(store: Store, input: Upload, fails: bool)
    requires Rows(store) && !Named(store, input.key) && InHome(store, input) && input.key in store.objects
    requires !RefusedRow(store, input, fails)
    ensures input.organizationId in store.used && Rows(Inserted(store, input))
  {
    hide Rows, Named;
    assert WithObject(store, input.key) == store;
    InsertingKeepsRows(store, input);
  }

  lemma {:induction false} Landing(uploads: map<nat, Flight>, u: nat, key: ObjectKey)
    requires OneUploadPerKey(uploads) && u in uploads
    ensures Flying(uploads - {u}, key) <==> Flying(uploads, key) && key != uploads[u].input.key
    ensures Carried(uploads - {u}, key) <==> Carried(uploads, key) && key != uploads[u].input.key
    ensures Flying(uploads, uploads[u].input.key)
    ensures Carried(uploads, uploads[u].input.key) <==> !uploads[u].stage.Checked?
  {
    if v :| v in uploads && v != u && uploads[v].input.key == key {
      assert v in uploads - {u} && (uploads - {u})[v].input.key == key;
    }
    if v :| v in uploads && v != u && uploads[v].input.key == key && !uploads[v].stage.Checked? {
      assert v in uploads - {u} && (uploads - {u})[v].input.key == key && !(uploads - {u})[v].stage.Checked?;
    }
  }

  lemma {:induction false} CarriedIsFlying(uploads: map<nat, Flight>, key: ObjectKey)
    ensures Carried(uploads, key) ==> Flying(uploads, key)
  {
  }

  lemma {:induction false} Advancing(uploads: map<nat, Flight>, u: nat, stage: Stage, key: ObjectKey)
    requires OneUploadPerKey(uploads) && u in uploads && !stage.Checked?
    ensures var after := uploads[u := uploads[u].(stage := stage)];
            && (Flying(after, key) <==> Flying(uploads, key))
            && (Carried(after, key) <==> Carried(uploads, key) || key == uploads[u].input.key)
            && OneUploadPerKey(after)
    ensures Flying(uploads, uploads[u].input.key)
  {
    var after := uploads[u := uploads[u].(stage := stage)];
    assert uploads[u].input.key == after[u].input.key;
    if v :| v in uploads && uploads[v].input.key == key {
      assert v in after && after[v].input.key == key;
    }
    if v :| v in uploads && uploads[v].input.key == key && !uploads[v].stage.Checked? {
      assert v in after && after[v].input.key == key && !after[v].stage.Checked?;
    }
  }

  lemma {:induction false} Departing(uploads: map<nat, Flight>, u: nat, input: Upload, key: ObjectKey)
    requires u !in uploads
    ensures var after := uploads[u := Flight(input, Checked)];
            && (Flying(after, key) <==> Flying(uploads, key) || key == input.key)
            && (Carried(after, key) <==> Carried(uploads, key))
  {
    var after := uploads[u := Flight(input, Checked)];
    assert after[u].input.key == input.key;
    if v :| v in uploads && uploads[v].input.key == key {
      assert v in after && after[v].input.key == key;
    }
    if v :| v in uploads && uploads[v].input.key == key && !uploads[v].stage.Checked? {
      assert v in after && after[v].input.key == key && !after[v].stage.Checked?;
    }
  }

  lemma {:induction false} NamedAfterInsert(store: Store, input: Upload, key: ObjectKey)
    requires Rows(store) && input.organizationId in store.used
    ensures Named(Inserted(store, input), key) <==> Named(store, key) || key == input.key
  {
    var after := Inserted(store, input);
    assert store.nextId !in store.files && after.files[store.nextId].key == input.key;
    if id :| id in store.files && store.files[id].key == key {
      assert id in after.files && after.files[id].key == key;
    }
  }

  lemma {:induction false} NamedAfterDelete(store: Store, id: nat, copy: File, key: ObjectKey)
    ensures Named(Deleted(store, id, copy), key) <==> Named(store, key)
    ensures Deleted(store, id, copy).objects == store.objects
  {
    var after := Deleted(store, id, copy);
    if other :| other in store.files && store.files[other].key == key {
      assert other in after.files && after.files[other].key == key;
    }
  }

  lemma {:induction false} NamedAfterErase(store: Store, user: nat, lastMember: bool, left: set<ObjectKey>, key: ObjectKey)
    requires Rows(store)
    ensures var (after, behind) := (Erased(store, user, lastMember, left), LeftBehind(store, user, lastMember, left));
            && (Named(store, key) ==> (Named(after, key) && key in after.objects && key !in behind)
                                      || (!Named(after, key) && (key in after.objects <==> key in behind)))
            && (!Named(store, key) ==> !Named(after, key) && key !in behind && (key in after.objects <==> key in store.objects))
  {
    hide Freed, RowsPlaced;
    var after := Erased(store, user, lastMember, left);
    var doomed := Doomed(store, user, lastMember);
    if id :| id in store.files && store.files[id].key == key {
      assert forall other :: other in store.files && store.files[other].key == key ==> other == id;
      if id !in doomed {
        assert id in after.files && after.files[id].key == key;
      }
    }
  }

  lemma {:induction false} StepKeepsAccounted(w: World, step: Step, key: ObjectKey)
    requires Inv(w) && Enabled(w, step)
    ensures Accounted(Next(w, step), key)
  {
    hide Rows, Deleted, Erased, Inserted, Named, Validated, Flying, Carried, OneUploadPerKey, FlightsHome, CopiesTrue, LeftBehind;
    assert Accounted(w, key);
    CarriedIsFlying(w.uploads, key);
    match step {
      case BeginUpload(u, input) => Departing(w.uploads, u, input, key);
      case MoveObject(u) =>
        Advancing(w.uploads, u, Moved, key);
        NamedReadsRows(w.store, WithObject(w.store, w.uploads[u].input.key), key);
      case RecordRow(u, fails) => RecordKeepsAccounted(w, u, fails, key);
      case CleanUp(u, fails) =>
        Landing(w.uploads, u, key);
        NamedReadsRows(w.store, w.store.(objects := w.store.objects - {w.uploads[u].input.key}), key);
      case GiveUp(u) => Landing(w.uploads, u, key);
      case LoadFile(_) =>
      case DeleteFile(id) => NamedAfterDelete(w.store, id, w.copies[id], key);
      case EraseUser(user, lastMember, left) => NamedAfterErase(w.store, user, lastMember, left, key);
    }
  }

  lemma {:induction false} NamedReadsRows(a: Store, b: Store, key: ObjectKey)
    requires a.files == b.files
    ensures Named(a, key) <==> Named(b, key)
  {
  }

  lemma {:induction false} RecordKeepsAccounted(w: World, u: nat, fails: bool, key: ObjectKey)
    requires Inv(w) && Enabled(w, RecordRow(u, fails))
    ensures Accounted(Next(w, RecordRow(u, fails)), key)
  {
    hide Rows, Named, Flying, Carried, OneUploadPerKey, FlightsHome, CopiesTrue;
    assert Accounted(w, key);
    if RefusedRow(w.store, w.uploads[u].input, fails) {
      Advancing(w.uploads, u, Turned, key);
      Landing(w.uploads, u, key);
    } else {
      Landing(w.uploads, u, key);
      NamedAfterInsert(w.store, w.uploads[u].input, key);
    }
  }

  lemma {:induction false} StepKeepsFlights(w: World, step: Step)
    requires Inv(w) && Enabled(w, step)
    ensures OneUploadPerKey(Next(w, step).uploads) && FlightsHome(Next(w, step))
  {
    hide Rows, CopiesTrue, Validated, RefusedRow, Freed, Doomed, LeftBehind;
    if step.BeginUpload? {
      assert Accounted(w, step.input.key);
    }
    HomesStay(w, step);
  }

  lemma {:induction false} HomesStay(w: World, step: Step)
    requires Enabled(w, step)
    ensures Next(w, step).store.homes == w.store.homes
  {
    hide Validated, RefusedRow, Freed, Doomed, LeftBehind;
  }

  lemma {:induction false} StepKeepsCopies(w: World, step: Step)
    requires Inv(w) && Enabled(w, step)
    ensures CopiesTrue(Next(w, step))
  {
    hide Validated, RefusedRow, Freed, Doomed, LeftBehind, RowsHaveObjects, KeysDistinct, Accounted, FlightsHome;
  }

  lemma {:induction false} StepKeepsInvariant(w: World, step: Step)
    requires Inv(w) && Enabled(w, step)
    ensures Inv(Next(w, step))
  {
    hide Next, Enabled, Rows, Accounted, OneUploadPerKey, FlightsHome, CopiesTrue;
    StepKeepsRows(w, step);
    StepKeepsFlights(w, step);
    StepKeepsCopies(w, step);
    forall key
      ensures Accounted(Next(w, step), key)
    {
      StepKeepsAccounted(w, step, key);
    }
  }

  /**
   * Over any run, with any number of uploads in flight and a fault or a crash
   * between any two steps: every row's object exists, and every object is named by
   * one row, carried by one upload, or known to have been left behind.
   */
  lemma {:induction false} RowsAndObjectsAgree(w: World, steps: seq<Step>, key: ObjectKey)
    requires Inv(w) && Legal(w, steps)
    ensures Inv(Final(w, steps))
    ensures forall id :: id in Final(w, steps).store.files ==> Final(w, steps).store.files[id].key in Final(w, steps).store.objects
    ensures Accounted(Final(w, steps), key)
    decreases |steps|
  {
    hide Next, Enabled, AllAccounted, Accounted;
    if steps == [] {
      EveryKeyIsAccounted(w, key);
    } else {
      StepKeepsInvariant(w, steps[0]);
      RowsAndObjectsAgree(Next(w, steps[0]), steps[1..], key);
    }
  }

  lemma {:induction false} EveryKeyIsAccounted(w: World, key: ObjectKey)
    requires AllAccounted(w)
    ensures Accounted(w, key)
  {
  }

  // ---------------------------------------------------------------- the counter

  /** The one thing a step can do to the books is to give back bytes that were not counted. */
  predicate Sound(w: World, step: Step) {
    step.DeleteFile? && step.id in w.copies ==> Returns(w.store, step.id, w.copies[step.id])
  }

  lemma {:induction false} StepConservesExactlyWhenSound(w: World, step: Step)
    requires Inv(w) && Conserved(w.store) && Enabled(w, step)
    ensures Conserved(Next(w, step).store) <==> Sound(w, step)
  {
    hide Conserved, Rows, AllAccounted, OneUploadPerKey, FlightsHome, Deleted, Erased, Inserted, Returns, Validated, RefusedRow;
    match step {
      case MoveObject(u) => ObjectsDoNotCount(w.store, w.store.objects + {w.uploads[u].input.key});
      case RecordRow(u, fails) =>
        if !RefusedRow(w.store, w.uploads[u].input, fails) {
          RecordingConserves(w, u, fails);
        }
      case CleanUp(u, _) => ObjectsDoNotCount(w.store, w.store.objects - {w.uploads[u].input.key});
      case DeleteFile(id) => DeleteConservesExactlyWhenLive(w.store, id, w.copies[id]);
      case EraseUser(user, lastMember, left) => ErasureConserves(w.store, user, lastMember, left);
      case _ =>
    }
  }

  lemma {:induction false} ObjectsDoNotCount(store: Store, objects: set<ObjectKey>)
    requires Conserved(store)
    ensures Conserved(store.(objects := objects))
  {
    forall o | o in store.used
      ensures CountedBytes(store.(objects := objects), o) == CountedBytes(store, o)
    {
      assert LiveSizes(store.(objects := objects), o) == LiveSizes(store, o);
    }
  }

  lemma {:induction false} RecordingConserves(w: World, u: nat, fails: bool)
    requires Inv(w) && Conserved(w.store) && Enabled(w, RecordRow(u, fails)) && !RefusedRow(w.store, w.uploads[u].input, fails)
    ensures Conserved(Inserted(w.store, w.uploads[u].input))
  {
    hide Conserved, RowsHaveObjects, KeysDistinct, Named, Inserted;
    var input := w.uploads[u].input;
    assert Carried(w.uploads, input.key) && Accounted(w, input.key);
    assert WithObject(w.store, input.key) == w.store;
    InsertingConserves(w.store, input);
  }

  predicate AllSound(w: World, steps: seq<Step>)
    requires Legal(w, steps)
    decreases |steps|
  {
    steps == [] || (Sound(w, steps[0]) && AllSound(Next(w, steps[0]), steps[1..]))
  }

  predicate ConservedThroughout(w: World, steps: seq<Step>)
    requires Legal(w, steps)
    decreases |steps|
  {
    Conserved(w.store) && (steps == [] || ConservedThroughout(Next(w, steps[0]), steps[1..]))
  }

  /** Over any run, the counter equals the recount of the live rows at every moment exactly when each delete finds its row live, or has nothing to give back. */
  lemma {:induction false} ConservedExactlyWhenSound(w: World, steps: seq<Step>)
    requires Inv(w) && Conserved(w.store) && Legal(w, steps)
    ensures ConservedThroughout(w, steps) <==> AllSound(w, steps)
    decreases |steps|
  {
    hide Inv, Conserved, Next, Enabled, Sound;
    if steps != [] {
      StepConservesExactlyWhenSound(w, steps[0]);
      if Sound(w, steps[0]) {
        StepKeepsInvariant(w, steps[0]);
        ConservedExactlyWhenSound(Next(w, steps[0]), steps[1..]);
      } else {
        BrokenBooks(Next(w, steps[0]), steps[1..]);
      }
    }
  }

  lemma {:induction false} BrokenBooks(w: World, steps: seq<Step>)
    requires Legal(w, steps) && !Conserved(w.store)
    ensures !ConservedThroughout(w, steps)
  {
  }

  /** A row recorded under the lock, quota checked, leaves the workspace within its limit in bytes, whatever the upload saw when it began. */
  lemma {:induction false} RecordedUploadFits(w: World, u: nat)
    requires Inv(w) && Conserved(w.store) && Enabled(w, RecordRow(u, false)) && !w.uploads[u].input.skipQuota
    requires !RefusedRow(w.store, w.uploads[u].input, false) && LimitMb(w.store, w.uploads[u].input.organizationId).Some?
    ensures var input := w.uploads[u].input;
            CountedBytes(Next(w, RecordRow(u, false)).store, input.organizationId)
            <= LimitMb(w.store, input.organizationId).value * 1024 * 1024
  {
    hide CountedBytes, Rows, AllAccounted, Refused;
    var input := w.uploads[u].input;
    CountNonNegative(w.store, input.organizationId);
    NotRefusedFits(w.store, input, Faults(false, false, false, Never));
    StepConservesExactlyWhenSound(w, RecordRow(u, false));
  }

  // ---------------------------------------------------------------- what stays attached

  /** Nothing that is live now was made up, or brought back to life, from before `from`. */
  predicate OldOnesUnchanged(start: Store, now: Store, from: nat) {
    && from <= now.nextId
    && (forall id :: id in now.files && id < from && !now.files[id].deleted ==> id in start.files && start.files[id] == now.files[id])
  }

  lemma {:induction false} StepKeepsOldOnes(start: Store, w: World, step: Step, from: nat)
    requires Enabled(w, step) && OldOnesUnchanged(start, w.store, from)
    ensures OldOnesUnchanged(start, Next(w, step).store, from)
  {
    hide Validated, RefusedRow, Freed, Doomed, LeftBehind;
  }

  lemma {:induction false} RunKeepsOldOnes(start: Store, w: World, steps: seq<Step>, from: nat)
    requires Legal(w, steps) && OldOnesUnchanged(start, w.store, from)
    ensures OldOnesUnchanged(start, Final(w, steps).store, from)
    decreases |steps|
  {
    hide Next, Enabled, OldOnesUnchanged;
    if steps != [] {
      StepKeepsOldOnes(start, w, steps[0], from);
      RunKeepsOldOnes(start, Next(w, steps[0]), steps[1..], from);
    }
  }

  predicate GoneOrDeleted(store: Store, id: nat) {
    id in store.files ==> store.files[id].deleted
  }

  /** Every other file of the target that was recorded since is gone or deleted. */
  predicate RivalsGone(store: Store, organizationId: nat, target: Attachable, from: nat, mine: nat) {
    forall id :: id in store.files && from <= id && id != mine ==>
                   store.files[id].deleted || store.files[id].organizationId != organizationId || store.files[id].attachedTo != Some(target)
  }

  /**
   * A replacement reads the previous files in `w`, records `mine` some time after
   * and deletes the previous ones. Whatever others do meanwhile, exactly the new
   * file is attached at the end precisely when it is still live and whatever others
   * recorded for the target since is gone or deleted.
   */
  lemma {:induction false} OneAttachmentExactlyWhenRivalsAreGone(w: World, steps: seq<Step>, organizationId: nat, target: Attachable, mine: nat)
    requires Legal(w, steps) && mine >= w.store.nextId && mine in Final(w, steps).store.files
    requires Final(w, steps).store.files[mine].organizationId == organizationId
    requires Final(w, steps).store.files[mine].attachedTo == Some(target)
    requires Inv(w)
    requires forall id :: id in Attached(w.store, organizationId, target) ==> GoneOrDeleted(Final(w, steps).store, id)
    ensures Attached(Final(w, steps).store, organizationId, target) == {mine}
       <==> && !Final(w, steps).store.files[mine].deleted
            && RivalsGone(Final(w, steps).store, organizationId, target, w.store.nextId, mine)
  {
    hide Legal, Final, Inv;
    RunKeepsOldOnes(w.store, w, steps, w.store.nextId);
    RivalsDecide(w.store, Final(w, steps).store, organizationId, target, mine);
  }

  lemma {:induction false} RivalsDecide(start: Store, end: Store, organizationId: nat, target: Attachable, mine: nat)
    requires OldOnesUnchanged(start, end, start.nextId) && mine >= start.nextId && mine in end.files
    requires end.files[mine].organizationId == organizationId && end.files[mine].attachedTo == Some(target)
    requires forall id :: id in Attached(start, organizationId, target) ==> GoneOrDeleted(end, id)
    ensures Attached(end, organizationId, target) == {mine}
       <==> !end.files[mine].deleted && RivalsGone(end, organizationId, target, start.nextId, mine)
  {
    var attached := Attached(end, organizationId, target);
    forall id | id in attached
      ensures id >= start.nextId
    {
      assert id < start.nextId ==> id in Attached(start, organizationId, target);
    }
    if attached == {mine} {
      assert forall id :: id in end.files && id != mine ==> id !in attached;
    }
  }

  // ---------------------------------------------------------------- two replacements at once

  function UploadSteps(u: nat, input: Upload): seq<Step> {
    [BeginUpload(u, input), MoveObject(u)] + [RecordRow(u, false)]
  }

  /** Both read the previous file, both upload, both delete it. */
  function TwoReplacements(id: nat, u: nat, one: Upload, v: nat, other: Upload): seq<Step> {
    ([LoadFile(id), LoadFile(id)] + (UploadSteps(u, one) + UploadSteps(v, other))) + [DeleteFile(id), DeleteFile(id)]
  }

  lemma {:induction false} RunsJoin(w: World, s: seq<Step>, t: seq<Step>)
    requires Legal(w, s) && Legal(Final(w, s), t)
    ensures Legal(w, s + t) && Final(w, s + t) == Final(Final(w, s), t)
    decreases |s|
  {
    hide Next, Enabled;
    if s == [] {
      assert s + t == t;
    } else {
      RunsJoin(Next(w, s[0]), s[1..], t);
      assert (s + t)[1..] == s[1..] + t;
    }
  }

  lemma {:induction false} OneStep(w: World, s: Step)
    requires Enabled(w, s)
    ensures Legal(w, [s]) && Final(w, [s]) == Next(w, s)
  {
    hide Next, Enabled;
    assert [s][1..] == [];
  }

  lemma {:induction false} TwoSteps(w: World, s: Step, t: Step)
    requires Enabled(w, s) && Enabled(Next(w, s), t)
    ensures Legal(w, [s, t]) && Final(w, [s, t]) == Next(Next(w, s), t)
  {
    hide Next, Enabled;
    OneStep(w, s);
    OneStep(Next(w, s), t);
    RunsJoin(w, [s], [t]);
    assert [s] + [t] == [s, t];
  }

  lemma {:induction false} UploadGoesThrough(w: World, u: nat, input: Upload)
    requires Enabled(w, BeginUpload(u, input)) && input.organizationId in w.store.used && !RefusedRow(w.store, input, false)
    ensures Legal(w, UploadSteps(u, input))
    ensures Final(w, UploadSteps(u, input)) == w.(store := Inserted(WithObject(w.store, input.key), input), spent := w.spent + {input.key})
  {
    hide Legal, Final, Refused, Validated, InHome, Inserted;
    var begun := Next(w, BeginUpload(u, input));
    var moved := Next(begun, MoveObject(u));
    SameRefusal(w.store, input);
    TwoSteps(w, BeginUpload(u, input), MoveObject(u));
    OneStep(moved, RecordRow(u, false));
    RunsJoin(w, [BeginUpload(u, input), MoveObject(u)], [RecordRow(u, false)]);
    assert moved.uploads - {u} == w.uploads;
  }

  lemma {:induction false} SameRefusal(store: Store, input: Upload)
    ensures RefusedRow(WithObject(store, input.key), input, false) == RefusedRow(store, input, false)
  {
  }

  /** `input` is a good file for this key and target, and fits beside `extra` more bytes. */
  predicate Replaces(w: World, u: nat, input: Upload, previous: File, extra: nat) {
    && Enabled(w, BeginUpload(u, input)) && input.organizationId == previous.organizationId && input.attachTo == previous.attachedTo
    && (input.skipQuota || LimitMb(w.store, previous.organizationId).None?
        || (previous.organizationId in w.store.used
            && Max(w.store.used[previous.organizationId], 0) + extra + input.sizeBytes <= LimitMb(w.store, previous.organizationId).value * BYTES_PER_MB))
  }

  lemma {:induction false} ReplacementFits(w: World, u: nat, input: Upload, previous: File, extra: nat)
    requires Replaces(w, u, input, previous, extra) && previous.organizationId in w.store.used
    ensures !RefusedRow(w.store, input, false) && input.sizeBytes > 0
  {
  }

  /** Room for the second one is left by the first. */
  lemma {:induction false} ReplacementFitsAfter(w: World, u: nat, one: Upload, v: nat, other: Upload, previous: File)
    requires Replaces(w, v, other, previous, one.sizeBytes) && previous.organizationId in w.store.used && previous.organizationId == one.organizationId
    requires one.key != other.key && w.store.used[previous.organizationId] >= 0
    ensures var after := w.(store := Inserted(WithObject(w.store, one.key), one), spent := w.spent + {one.key});
            Enabled(after, BeginUpload(v, other)) && !RefusedRow(after.store, other, false)
  {
  }

  lemma {:induction false} BothUploadsGoThrough(w: World, u: nat, one: Upload, v: nat, other: Upload, previous: File)
    requires u != v && one.key != other.key && previous.organizationId in w.store.used && w.store.used[previous.organizationId] >= 0
    requires Replaces(w, u, one, previous, 0) && Replaces(w, v, other, previous, one.sizeBytes)
    ensures var steps := UploadSteps(u, one) + UploadSteps(v, other);
            var store := Inserted(WithObject(w.store, one.key), one);
            && Legal(w, steps)
            && Final(w, steps) == w.(store := Inserted(WithObject(store, other.key), other), spent := w.spent + {one.key} + {other.key})
  {
    hide Legal, Final, RefusedRow, Inserted, UploadSteps, Validated;
    ReplacementFits(w, u, one, previous, 0);
    ReplacementFitsAfter(w, u, one, v, other, previous);
    UploadGoesThrough(w, u, one);
    var after := Final(w, UploadSteps(u, one));
    SameWorkspaces(w.store, one);
    UploadGoesThrough(after, v, other);
    RunsJoin(w, UploadSteps(u, one), UploadSteps(v, other));
  }

  lemma {:induction false} SameWorkspaces(store: Store, input: Upload)
    requires input.organizationId in store.used
    ensures Inserted(WithObject(store, input.key), input).used.Keys == store.used.Keys
  {
  }

  lemma {:induction false} TwoDeletesDrift(w: World, id: nat)
    requires Inv(w) && Conserved(w.store) && id in w.copies && id in w.store.files && !w.store.files[id].deleted
    requires w.store.files[id].sizeBytes > 0
    requires w.store.files[id].organizationId in w.store.used
    requires w.store.used[w.store.files[id].organizationId] > w.store.files[id].sizeBytes
    ensures Legal(w, [DeleteFile(id), DeleteFile(id)])
    ensures !Conserved(Final(w, [DeleteFile(id), DeleteFile(id)]).store)
  {
    hide Legal, Final, Conserved, Rows, AllAccounted, OneUploadPerKey, FlightsHome;
    var once := Next(w, DeleteFile(id));
    TwoSteps(w, DeleteFile(id), DeleteFile(id));
    StepConservesExactlyWhenSound(w, DeleteFile(id));
    StepKeepsInvariant(w, DeleteFile(id));
    StepConservesExactlyWhenSound(once, DeleteFile(id));
  }

  /** The books after both reads and both uploads, before either delete. */
  lemma {:induction false} AfterBothUploads(w: World, id: nat, u: nat, one: Upload, v: nat, other: Upload) returns (ready: World)
    requires Inv(w) && Conserved(w.store) && Enabled(w, LoadFile(id)) && u != v && one.key != other.key
    requires Replaces(w, u, one, w.store.files[id], 0) && Replaces(w, v, other, w.store.files[id], one.sizeBytes)
    ensures var (file, steps) := (w.store.files[id], [LoadFile(id), LoadFile(id)] + (UploadSteps(u, one) + UploadSteps(v, other)));
            && Legal(w, steps) && ready == Final(w, steps) && Inv(ready) && Conserved(ready.store)
            && file.organizationId in w.store.used && w.store.nextId !in w.store.files
            && ready.copies == w.copies[id := file] && ready.store.used.Keys == w.store.used.Keys
            && ready.store.files == w.store.files[w.store.nextId := RowFor(one)][w.store.nextId + 1 := RowFor(other)]
            && ready.store.used[file.organizationId] == w.store.used[file.organizationId] + one.sizeBytes + other.sizeBytes
  {
    hide Legal, Final, Conserved, RowsHaveObjects, KeysDistinct, AllAccounted, OneUploadPerKey, FlightsHome, UploadSteps, Replaces;
    var file := w.store.files[id];
    var loaded := w.(copies := w.copies[id := file]);
    LoadTwice(w, id);
    SameReplacement(w, loaded, u, one, file, 0);
    SameReplacement(w, loaded, v, other, file, one.sizeBytes);
    CounterIsPositive(w, id);
    BothUploadsGoThrough(loaded, u, one, v, other, file);
    RunsJoin(w, [LoadFile(id), LoadFile(id)], UploadSteps(u, one) + UploadSteps(v, other));
    ready := Final(loaded, UploadSteps(u, one) + UploadSteps(v, other));
    UploadsConserve(loaded, u, one, v, other);
    LoadingChangesNothing(w, id);
    ReplacementsAreForIt(w, u, one, file, 0);
    ReplacementsAreForIt(w, v, other, file, one.sizeBytes);
  }

  lemma {:induction false} ReplacementsAreForIt(w: World, u: nat, input: Upload, previous: File, extra: nat)
    requires Replaces(w, u, input, previous, extra)
    ensures input.organizationId == previous.organizationId && input.attachTo == previous.attachedTo
  {
  }

  lemma {:induction false} LoadTwice(w: World, id: nat)
    requires Enabled(w, LoadFile(id))
    ensures Legal(w, [LoadFile(id), LoadFile(id)])
    ensures Final(w, [LoadFile(id), LoadFile(id)]) == w.(copies := w.copies[id := w.store.files[id]])
  {
    hide Legal, Final;
    TwoSteps(w, LoadFile(id), LoadFile(id));
  }

  lemma {:induction false} LoadingChangesNothing(w: World, id: nat)
    requires Inv(w) && Enabled(w, LoadFile(id))
    ensures Inv(w.(copies := w.copies[id := w.store.files[id]]))
  {
    StepKeepsInvariant(w, LoadFile(id));
  }

  lemma {:induction false} SameReplacement(w: World, loaded: World, u: nat, input: Upload, previous: File, extra: nat)
    requires Replaces(w, u, input, previous, extra) && loaded == w.(copies := loaded.copies)
    ensures Replaces(loaded, u, input, previous, extra)
  {
  }

  lemma {:induction false} CounterIsPositive(w: World, id: nat)
    requires Inv(w) && Conserved(w.store) && id in w.store.files
    ensures w.store.files[id].organizationId in w.store.used && w.store.used[w.store.files[id].organizationId] >= 0
    ensures w.store.nextId !in w.store.files && w.store.nextId + 1 !in w.store.files
    ensures !w.store.files[id].deleted ==> w.store.used[w.store.files[id].organizationId] >= w.store.files[id].sizeBytes
  {
    hide CountedBytes, AllAccounted, RowsHaveObjects, KeysDistinct;
    CountNonNegative(w.store, w.store.files[id].organizationId);
    if !w.store.files[id].deleted {
      LiveFileIsCounted(w.store, id);
    }
  }

  lemma {:induction false} UploadsConserve(w: World, u: nat, one: Upload, v: nat, other: Upload)
    requires Conserved(w.store) && Legal(w, UploadSteps(u, one) + UploadSteps(v, other))
    ensures Inv(w) ==> Inv(Final(w, UploadSteps(u, one) + UploadSteps(v, other)))
                       && Conserved(Final(w, UploadSteps(u, one) + UploadSteps(v, other)).store)
  {
    hide Conserved, Legal, Final, Inv;
    if Inv(w) {
      NoDeletesConserve(w, UploadSteps(u, one) + UploadSteps(v, other));
    }
  }

  lemma {:induction false} NoDeletesConserve(w: World, steps: seq<Step>)
    requires Inv(w) && Conserved(w.store) && Legal(w, steps) && forall k :: 0 <= k < |steps| ==> !steps[k].DeleteFile?
    ensures Inv(Final(w, steps)) && Conserved(Final(w, steps).store)
    decreases |steps|
  {
    hide Conserved, Inv, Next, Enabled;
    if steps != [] {
      StepConservesExactlyWhenSound(w, steps[0]);
      StepKeepsInvariant(w, steps[0]);
      NoDeletesConserve(Next(w, steps[0]), steps[1..]);
    }
  }

  /**
   * Two people replacing the same picture at once: a legal run after which the
   * counter is no longer the sum of the live rows, and both new files stay
   * attached and live.
   */
  lemma {:induction false} TwoReplacementsDrift(w: World, id: nat, u: nat, one: Upload, v: nat, other: Upload)
    requires Inv(w) && Conserved(w.store) && Enabled(w, LoadFile(id)) && u != v && one.key != other.key
    requires w.store.files[id].attachedTo.Some? && w.store.files[id].sizeBytes > 0
    requires Replaces(w, u, one, w.store.files[id], 0) && Replaces(w, v, other, w.store.files[id], one.sizeBytes)
    ensures var (file, steps) := (w.store.files[id], TwoReplacements(id, u, one, v, other));
            && Legal(w, steps) && !Conserved(Final(w, steps).store)
            && {w.store.nextId, w.store.nextId + 1} <= Attached(Final(w, steps).store, file.organizationId, file.attachedTo.value)
  {
    hide Legal, Final, Conserved, Inv, Replaces, UploadSteps, Attached;
    var file := w.store.files[id];
    CounterIsPositive(w, id);
    ReplacementFits(w, u, one, file, 0);
    var ready := AfterBothUploads(w, id, u, one, v, other);
    TwoDeletesDrift(ready, id);
    RunsJoin(w, [LoadFile(id), LoadFile(id)] + (UploadSteps(u, one) + UploadSteps(v, other)), [DeleteFile(id), DeleteFile(id)]);
    BothStayAttached(w, id, u, one, v, other, ready);
  }

  lemma {:induction false} BothStayAttached(w: World, id: nat, u: nat, one: Upload, v: nat, other: Upload, ready: World)
    requires id in w.store.files && w.store.nextId !in w.store.files && w.store.nextId + 1 !in w.store.files && id in ready.copies
    requires Replaces(w, u, one, w.store.files[id], 0) && Replaces(w, v, other, w.store.files[id], one.sizeBytes)
    requires ready.store.files == w.store.files[w.store.nextId := RowFor(one)][w.store.nextId + 1 := RowFor(other)]
    requires w.store.files[id].attachedTo.Some? && Legal(ready, [DeleteFile(id), DeleteFile(id)])
    ensures var file := w.store.files[id];
            {w.store.nextId, w.store.nextId + 1}
            <= Attached(Final(ready, [DeleteFile(id), DeleteFile(id)]).store, file.organizationId, file.attachedTo.value)
  {
    hide Legal, Final;
    ReplacementsAreForIt(w, u, one, w.store.files[id], 0);
    ReplacementsAreForIt(w, v, other, w.store.files[id], one.sizeBytes);
    hide Replaces, Validated;
    TwoSteps(ready, DeleteFile(id), DeleteFile(id));
  }

  function Picture(uuid: nat): Upload {
    Upload(1, 1, ObjectKey(Public, uuid), true, 1, true, true, Some(ToOrganization(1)), false, 1)
  }

  /** A workspace whose logo is its one file, of one byte. */
  function OneLogo(): World {
    World(Store(map[0 := RowFor(Picture(0))], map[1 := 1], map[1 := None], map[1 := 1], {Picture(0).key}, 1),
          map[], map[], {Picture(0).key}, {})
  }

  lemma {:induction false} OneLogoIsSound()
    ensures Inv(OneLogo()) && Conserved(OneLogo().store)
  {
    var store := OneLogo().store;
    forall key
      ensures Accounted(OneLogo(), key)
    {
      assert Named(store, key) <==> key == Picture(0).key by {
        assert store.files[0].key == Picture(0).key;
      }
    }
    assert LiveSizes(store, 1) == map[0 := 1];
    SumRemove(LiveSizes(store, 1), 0);
    assert map[0 := 1] - {0} == map[];
  }

  /** For one: two people changing that logo to another picture of one byte. */
  lemma {:induction false} TwoNewLogosDrift()
    ensures var steps := TwoReplacements(0, 0, Picture(1), 1, Picture(2));
            Legal(OneLogo(), steps) && !Conserved(Final(OneLogo(), steps).store)
  {
    hide Inv, Conserved, Legal, Final, TwoReplacements, Attached;
    OneLogoIsSound();
    TwoReplacementsDrift(OneLogo(), 0, 0, Picture(1), 1, Picture(2));
  }
}
