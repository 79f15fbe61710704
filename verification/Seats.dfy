/**
 * Seats and API keys: counting under a lock on the organisation row, with any
 * number of transactions interleaved one statement at a time. A transaction sees
 * what others have committed plus its own writes.
 */
module Seats {
  import opened Prelude
  import opened Plans

  datatype Member = Member(organizationId: nat, email: string, deleted: bool, joinedBy: Option<nat>)

  datatype Invitation = Invitation(organizationId: nat, email: string, expiresAt: int, accepted: bool, revoked: bool) {
    predicate IsOpen() {
      !accepted && !revoked
    }

    predicate IsPending(now: int) {
      IsOpen() && now < expiresAt
    }
  }

  datatype Key = Key(organizationId: nat, revoked: bool)

  datatype Db = Db(
    users: map<nat, Member>,
    invitations: map<nat, Invitation>,
    keys: map<nat, Key>,
    organizations: map<nat, Entitled>,
    nextId: nat)

  const LIFETIME: int := 14 * 24 * 60 * 60

  // ---------------------------------------------------------------- counting

  /** Whatever takes up one unit of a quota. */
  datatype Holder = MemberSeat(user: nat) | InvitationSeat(invitation: nat) | KeySlot(key: nat)

  datatype Quota = SeatQuota | KeyQuota

  function Members(db: Db, organizationId: nat): set<nat> {
    set u | u in db.users && db.users[u].organizationId == organizationId && !db.users[u].deleted
  }

  function Pending(db: Db, organizationId: nat, now: int): set<nat> {
    set i | i in db.invitations && db.invitations[i].organizationId == organizationId && db.invitations[i].IsPending(now)
  }

  function ActiveKeys(db: Db, organizationId: nat): set<nat> {
    set k | k in db.keys && db.keys[k].organizationId == organizationId && !db.keys[k].revoked
  }

  function Holders(db: Db, quota: Quota, organizationId: nat, now: int): set<Holder> {
    match quota
    case SeatQuota => (set u | u in Members(db, organizationId) :: MemberSeat(u)) + (set i | i in Pending(db, organizationId, now) :: InvitationSeat(i))
    case KeyQuota => set k | k in ActiveKeys(db, organizationId) :: KeySlot(k)
  }

  function Used(db: Db, quota: Quota, organizationId: nat, now: int): nat {
    |Holders(db, quota, organizationId, now)|
  }

  function LimitOf(db: Db, quota: Quota, organizationId: nat): Limit {
    if organizationId in db.organizations
    then LimitFor(db.organizations[organizationId], if quota.SeatQuota? then LimitKey.Seats else LimitKey.ApiKeys)
    else Some(0)
  }

  datatype SeatUsage = SeatUsage(members: nat, pendingInvitations: nat, used: nat, limit: Limit, remaining: Limit, isFull: bool)

  function UsageOf(db: Db, organizationId: nat, now: int): SeatUsage {
    var (members, pending) := (|Members(db, organizationId)|, |Pending(db, organizationId, now)|);
    var limit := LimitOf(db, SeatQuota, organizationId);
    SeatUsage(members, pending, members + pending, limit,
              if limit.None? then None else Some(Max(limit.value - (members + pending), 0)),
              limit.Some? && members + pending >= limit.value)
  }

  predicate HasSeatAvailable(db: Db, organizationId: nat, now: int) {
    var usage := UsageOf(db, organizationId, now);
    usage.limit.None? || usage.used < usage.limit.value
  }

  /**
   * Who takes up a quota, from the columns: members who are not deleted, links that
   * are neither accepted nor revoked and whose time is not up, keys not revoked.
   */
  lemma {:induction false} HoldersFromColumns(db: Db, quota: Quota, organizationId: nat, now: int, h: Holder)
    ensures h in Holders(db, quota, organizationId, now) <==>
      match h
      case MemberSeat(u) =>
        quota == SeatQuota && u in db.users && db.users[u].organizationId == organizationId && !db.users[u].deleted
      case InvitationSeat(i) =>
        && quota == SeatQuota && i in db.invitations && db.invitations[i].organizationId == organizationId
        && !db.invitations[i].accepted && !db.invitations[i].revoked && now < db.invitations[i].expiresAt
      case KeySlot(k) =>
        quota == KeyQuota && k in db.keys && db.keys[k].organizationId == organizationId && !db.keys[k].revoked
  {
  }

  /** A link whose time is up holds no seat: with it or without it, the meter shows the same. */
  lemma {:induction false} ExpiredLinksHoldNoSeat(db: Db, organizationId: nat, now: int, expired: nat)
    requires expired in db.invitations && db.invitations[expired].expiresAt <= now
    ensures UsageOf(db, organizationId, now) == UsageOf(db.(invitations := db.invitations - {expired}), organizationId, now)
  {
    var without := db.(invitations := db.invitations - {expired});
    assert Members(db, organizationId) == Members(without, organizationId);
    assert Pending(db, organizationId, now) == Pending(without, organizationId, now);
  }

  // ---------------------------------------------------------------- transactions

  /** How far a transaction has come; from `Locked` on it holds the organisation row. */
  datatype Stage = Begun | Prepared | Locked | Counted(count: nat)

  datatype Tx =
    | Inviting(organizationId: nat, email: string, superseded: set<nat>, stage: Stage)
    | Accepting(organizationId: nat, invitation: nat, existingUser: bool, stage: Stage)
    | Minting(organizationId: nat, stage: Stage)
  {
    predicate HoldsLock() {
      stage.Locked? || stage.Counted?
    }

    function QuotaOf(): Quota {
      if Minting? then KeyQuota else SeatQuota
    }
  }

  function OpenFor(db: Db, organizationId: nat, email: string): set<nat> {
    set i | i in db.invitations && db.invitations[i].organizationId == organizationId
            && db.invitations[i].email == email && db.invitations[i].IsOpen()
  }

  function WithRevoked(db: Db, ids: set<nat>): Db {
    db.(invitations := map i | i in db.invitations :: if i in ids then db.invitations[i].(revoked := true) else db.invitations[i])
  }

  function WithAccepted(db: Db, id: nat): Db {
    if id in db.invitations then db.(invitations := db.invitations[id := db.invitations[id].(accepted := true)]) else db
  }

  /** The committed rows with the transaction's own updates on top. */
  function View(db: Db, tx: Tx): Db {
    match tx
    case Inviting(_, _, superseded, _) => WithRevoked(db, superseded)
    case Accepting(_, invitation, _, _) => WithAccepted(db, invitation)
    case Minting(_, _) => db
  }

  /** The insert that ends the transaction. */
  function Inserted(db: Db, tx: Tx, now: int): Db {
    match tx
    case Inviting(organizationId, email, _, _) =>
      db.(invitations := db.invitations[db.nextId := Invitation(organizationId, email, now + LIFETIME, false, false)], nextId := db.nextId + 1)
    case Accepting(organizationId, invitation, existingUser, _) =>
      if existingUser || invitation !in db.invitations then db else
        db.(users := db.users[db.nextId := Member(organizationId, db.invitations[invitation].email, false, Some(invitation))],
            nextId := db.nextId + 1)
    case Minting(organizationId, _) =>
      db.(keys := db.keys[db.nextId := Key(organizationId, false)], nextId := db.nextId + 1)
  }

  function Committed(db: Db, tx: Tx, now: int): Db {
    Inserted(View(db, tx), tx, now)
  }

  datatype World = World(db: Db, now: int, txs: map<nat, Tx>, locks: map<nat, nat>)

  datatype Step =
    | BeginInvite(tx: nat, organizationId: nat, email: string)
    | BeginAccept(tx: nat, invitation: nat, existingUser: bool)
    | BeginMint(tx: nat, organizationId: nat)
    | RevokeOld(tx: nat)
    | TakeLock(tx: nat)
    | CountAndCheck(tx: nat)
    | Commit(tx: nat)
    | Abort(tx: nat)
    | RevokeInvitation(invitation: nat)
    | SoftDelete(user: nat)
    | RevokeKey(key: nat)
    | SetEntitlement(organizationId: nat, entitled: Entitled)
    | Wait(seconds: nat)

  predicate Invitable(db: Db, email: string) {
    forall u :: u in db.users && db.users[u].email == email ==> db.users[u].deleted
  }

  predicate Enabled(w: World, step: Step) {
    match step
    case BeginInvite(tx, _, email) => tx !in w.txs && Invitable(w.db, email)
    case BeginAccept(tx, invitation, _) =>
      && tx !in w.txs && invitation in w.db.invitations && w.db.invitations[invitation].IsPending(w.now)
      && forall other :: other in w.txs && w.txs[other].Accepting? ==> w.txs[other].invitation != invitation
    case BeginMint(tx, _) => tx !in w.txs
    case RevokeOld(tx) => tx in w.txs && w.txs[tx].Inviting? && w.txs[tx].stage.Begun?
    case TakeLock(tx) => tx in w.txs && w.txs[tx].stage.Prepared? && w.txs[tx].organizationId !in w.locks
    case CountAndCheck(tx) => tx in w.txs && w.txs[tx].stage.Locked?
    case Commit(tx) => tx in w.txs && w.txs[tx].stage.Counted?
    case Abort(tx) => tx in w.txs
    case RevokeInvitation(invitation) => invitation in w.db.invitations && w.db.invitations[invitation].IsPending(w.now)
    case SoftDelete(user) => user in w.db.users
    case RevokeKey(key) => key in w.db.keys
    case SetEntitlement(organizationId, _) => organizationId !in w.locks
    case Wait(_) => true
  }

  /** Ending a transaction drops it and whatever lock it holds. */
  function Ended(w: World, tx: nat): World
    requires tx in w.txs
  {
    w.(txs := w.txs - {tx}, locks := if w.txs[tx].HoldsLock() then w.locks - {w.txs[tx].organizationId} else w.locks)
  }

  function Next(w: World, step: Step): World
    requires Enabled(w, step)
  {
    match step
    case BeginInvite(tx, organizationId, email) => w.(txs := w.txs[tx := Inviting(organizationId, email, {}, Begun)])
    case BeginAccept(tx, invitation, existingUser) =>
      w.(txs := w.txs[tx := Accepting(w.db.invitations[invitation].organizationId, invitation, existingUser, Prepared)])
    case BeginMint(tx, organizationId) => w.(txs := w.txs[tx := Minting(organizationId, Prepared)])
    case RevokeOld(tx) =>
      var t := w.txs[tx];
      w.(txs := w.txs[tx := t.(superseded := OpenFor(w.db, t.organizationId, t.email), stage := Prepared)])
    case TakeLock(tx) =>
      w.(txs := w.txs[tx := w.txs[tx].(stage := Locked)], locks := w.locks[w.txs[tx].organizationId := tx])
    case CountAndCheck(tx) =>
      var t := w.txs[tx];
      var count := Used(View(w.db, t), t.QuotaOf(), t.organizationId, w.now);
      if Within(LimitOf(w.db, t.QuotaOf(), t.organizationId), count + 1)
      then w.(txs := w.txs[tx := t.(stage := Counted(count))])
      else Ended(w, tx)
    case Commit(tx) => Ended(w, tx).(db := Committed(w.db, w.txs[tx], w.now))
    case Abort(tx) => Ended(w, tx)
    case RevokeInvitation(invitation) => w.(db := WithRevoked(w.db, {invitation}))
    case SoftDelete(user) => w.(db := w.db.(users := w.db.users[user := w.db.users[user].(deleted := true)]))
    case RevokeKey(key) => w.(db := w.db.(keys := w.db.keys[key := w.db.keys[key].(revoked := true)]))
    case SetEntitlement(organizationId, entitled) =>
      w.(db := w.db.(organizations := w.db.organizations[organizationId := entitled]))
    case Wait(seconds) => w.(now := w.now + seconds)
  }

  // ---------------------------------------------------------------- the invariant

  predicate LocksAgree(w: World) {
    && (forall o :: o in w.locks ==> w.locks[o] in w.txs && w.txs[w.locks[o]].organizationId == o && w.txs[w.locks[o]].HoldsLock())
    && (forall t :: t in w.txs && w.txs[t].HoldsLock() ==> w.txs[t].organizationId in w.locks && w.locks[w.txs[t].organizationId] == t)
  }

  predicate OwnRows(db: Db, tx: Tx) {
    match tx
    case Inviting(organizationId, _, superseded, _) =>
      forall i :: i in superseded ==> i in db.invitations && db.invitations[i].organizationId == organizationId
    case Accepting(organizationId, invitation, _, _) =>
      invitation in db.invitations && db.invitations[invitation].organizationId == organizationId
    case Minting(_, _) => true
  }

  /** While the lock is held, the number that was counted is an upper bound on what the transaction would leave. */
  predicate CountStands(w: World, tx: Tx) {
    tx.stage.Counted? ==>
      && Used(View(w.db, tx), tx.QuotaOf(), tx.organizationId, w.now) <= tx.stage.count
      && Within(LimitOf(w.db, tx.QuotaOf(), tx.organizationId), tx.stage.count + 1)
  }

  predicate Fresh(db: Db) {
    && (forall u :: u in db.users ==> u < db.nextId)
    && (forall i :: i in db.invitations ==> i < db.nextId)
    && (forall k :: k in db.keys ==> k < db.nextId)
  }

  predicate Inv(w: World) {
    LocksAgree(w) && Fresh(w.db) && forall t :: t in w.txs ==> OwnRows(w.db, w.txs[t]) && CountStands(w, w.txs[t])
  }

  lemma {:induction false} FewerHolders(a: set<Holder>, b: set<Holder>)
    requires a <= b
    ensures |a| <= |b|
  {
    assert b == a + (b - a);
  }

  /** `after` takes away from what `before` holds of one organisation, and adds nothing. */
  predicate Shrinks(before: Db, after: Db, organizationId: nat, now: int, later: int) {
    && now <= later
    && (forall u :: u in after.users && after.users[u].organizationId == organizationId && !after.users[u].deleted ==>
                      u in before.users && before.users[u].organizationId == organizationId && !before.users[u].deleted)
    && (forall i :: i in after.invitations && after.invitations[i].organizationId == organizationId && after.invitations[i].IsOpen() ==>
                      i in before.invitations && before.invitations[i] == after.invitations[i])
    && (forall k :: k in after.keys && after.keys[k].organizationId == organizationId && !after.keys[k].revoked ==>
                      k in before.keys && before.keys[k] == after.keys[k])
  }

  lemma {:induction false} ShrinkingUsesLess(before: Db, after: Db, organizationId: nat, now: int, later: int, quota: Quota)
    requires Shrinks(before, after, organizationId, now, later)
    ensures Holders(after, quota, organizationId, later) <= Holders(before, quota, organizationId, now)
    ensures Used(after, quota, organizationId, later) <= Used(before, quota, organizationId, now)
  {
    assert Members(after, organizationId) <= Members(before, organizationId);
    assert Pending(after, organizationId, later) <= Pending(before, organizationId, now);
    assert ActiveKeys(after, organizationId) <= ActiveKeys(before, organizationId);
    FewerHolders(Holders(after, quota, organizationId, later), Holders(before, quota, organizationId, now));
  }

  lemma {:induction false} ForeignCommitShrinks(db: Db, tx: Tx, now: int, organizationId: nat)
    requires OwnRows(db, tx) && tx.organizationId != organizationId
    ensures Shrinks(db, Committed(db, tx, now), organizationId, now, now)
  {
  }

  /** Only a commit for this organisation adds to it; every other step touches none of its rows or retires them. */
  lemma {:induction false} OtherStepsShrink(w: World, step: Step, organizationId: nat)
    requires Inv(w) && Enabled(w, step)
    requires step.Commit? ==> w.txs[step.tx].organizationId != organizationId
    ensures Shrinks(w.db, Next(w, step).db, organizationId, w.now, Next(w, step).now)
  {
    hide Used, LimitOf, OpenFor, LocksAgree, CountStands, Committed, Fresh;
    if step.Commit? {
      ForeignCommitShrinks(w.db, w.txs[step.tx], w.now, organizationId);
    }
  }

  lemma {:induction false} ViewsShrinkToo(before: Db, after: Db, tx: Tx, now: int, later: int)
    requires Shrinks(before, after, tx.organizationId, now, later) && OwnRows(before, tx)
    ensures Shrinks(View(before, tx), View(after, tx), tx.organizationId, now, later)
  {
  }

  /** Committing adds exactly one holder to what the transaction's own view held. */
  lemma {:induction false} CommitAddsOne(db: Db, tx: Tx, now: int)
    ensures Used(Committed(db, tx, now), tx.QuotaOf(), tx.organizationId, now) <= Used(View(db, tx), tx.QuotaOf(), tx.organizationId, now) + 1
  {
    hide Holders, Members, Pending, ActiveKeys, Committed, View;
    CommitAddsOneId(db, tx, now);
    HoldersGrowByOne(View(db, tx), Committed(db, tx, now), tx, now, db.nextId);
  }

  lemma {:induction false} HolderIs(db: Db, quota: Quota, organizationId: nat, now: int, h: Holder)
    ensures h in Holders(db, quota, organizationId, now) <==>
      match h
      case MemberSeat(u) => quota.SeatQuota? && u in Members(db, organizationId)
      case InvitationSeat(i) => quota.SeatQuota? && i in Pending(db, organizationId, now)
      case KeySlot(k) => quota.KeyQuota? && k in ActiveKeys(db, organizationId)
  {
    hide Members, Pending, ActiveKeys;
  }

  lemma {:induction false} HoldersGrowByOne(view: Db, after: Db, tx: Tx, now: int, id: nat)
    requires Members(after, tx.organizationId) <= Members(view, tx.organizationId) + (if tx.Accepting? then {id} else {})
    requires Pending(after, tx.organizationId, now) <= Pending(view, tx.organizationId, now) + (if tx.Inviting? then {id} else {})
    requires ActiveKeys(after, tx.organizationId) <= ActiveKeys(view, tx.organizationId) + (if tx.Minting? then {id} else {})
    ensures Used(after, tx.QuotaOf(), tx.organizationId, now) <= Used(view, tx.QuotaOf(), tx.organizationId, now) + 1
  {
    hide Members, Pending, ActiveKeys, Holders;
    var holder := if tx.Inviting? then InvitationSeat(id) else if tx.Accepting? then MemberSeat(id) else KeySlot(id);
    var more := Holders(after, tx.QuotaOf(), tx.organizationId, now);
    var fewer := Holders(view, tx.QuotaOf(), tx.organizationId, now);
    forall h | h in more
      ensures h in fewer + {holder}
    {
      HolderIs(after, tx.QuotaOf(), tx.organizationId, now, h);
      HolderIs(view, tx.QuotaOf(), tx.organizationId, now, h);
    }
    FewerHolders(more, fewer + {holder});
  }

  lemma {:induction false} CommitAddsOneId(db: Db, tx: Tx, now: int)
    ensures var (view, after, o) := (View(db, tx), Committed(db, tx, now), tx.organizationId);
            && Members(after, o) <= Members(view, o) + (if tx.Accepting? then {db.nextId} else {})
            && Pending(after, o, now) <= Pending(view, o, now) + (if tx.Inviting? then {db.nextId} else {})
            && ActiveKeys(after, o) <= ActiveKeys(view, o) + (if tx.Minting? then {db.nextId} else {})
  {
  }

  // ---------------------------------------------------------------- every step keeps it

  /** Rows are updated, never removed, and never change hands. */
  predicate RowsStay(before: Db, after: Db) {
    forall i :: i in before.invitations ==>
                  && i in after.invitations
                  && after.invitations[i].organizationId == before.invitations[i].organizationId
                  && after.invitations[i].email == before.invitations[i].email
                  && (before.invitations[i].accepted ==> after.invitations[i].accepted)
                  && (before.invitations[i].revoked ==> after.invitations[i].revoked)
  }

  lemma {:induction false} ViewKeepsRows(db: Db, tx: Tx)
    requires Fresh(db)
    ensures RowsStay(db, View(db, tx)) && Fresh(View(db, tx)) && View(db, tx).nextId == db.nextId
  {
  }

  lemma {:induction false} InsertKeepsRows(db: Db, tx: Tx, now: int)
    requires Fresh(db)
    ensures RowsStay(db, Inserted(db, tx, now)) && Fresh(Inserted(db, tx, now))
  {
  }

  lemma {:induction false} CommitKeepsRows(db: Db, tx: Tx, now: int)
    requires Fresh(db)
    ensures RowsStay(db, Committed(db, tx, now)) && Fresh(Committed(db, tx, now))
  {
    hide View, Inserted, Fresh;
    ViewKeepsRows(db, tx);
    InsertKeepsRows(View(db, tx), tx, now);
  }

  lemma {:induction false} StepKeepsRows(w: World, step: Step)
    requires Inv(w) && Enabled(w, step)
    ensures RowsStay(w.db, Next(w, step).db) && Fresh(Next(w, step).db)
  {
    hide CountStands, Used, LimitOf, LocksAgree, OpenFor, OwnRows, Committed;
    if step.Commit? {
      CommitKeepsRows(w.db, w.txs[step.tx], w.now);
    }
  }

  lemma {:induction false} StepKeepsLocks(w: World, step: Step)
    requires Inv(w) && Enabled(w, step)
    ensures LocksAgree(Next(w, step))
  {
    hide OwnRows, CountStands, Fresh, Committed, Used, WithRevoked, OpenFor, LimitOf, Within, View;

  }

  lemma {:induction false} StepKeepsOwnRows(w: World, step: Step, t: nat)
    requires Inv(w) && Enabled(w, step) && t in Next(w, step).txs
    ensures OwnRows(Next(w, step).db, Next(w, step).txs[t])
  {
    hide CountStands, Fresh, Committed, Used, WithRevoked, LimitOf, LocksAgree;
    StepKeepsRows(w, step);
    if t in w.txs {
      assert OwnRows(w.db, w.txs[t]);
    }
  }

  /** A lock holder's count survives everything the others can do meanwhile. */
  lemma {:induction false} StepKeepsCounts(w: World, step: Step, t: nat)
    requires Inv(w) && Enabled(w, step) && t in Next(w, step).txs
    ensures CountStands(Next(w, step), Next(w, step).txs[t])
  {
    var after := Next(w, step);
    var tx := after.txs[t];
    if tx.stage.Counted? && t in w.txs && w.txs[t] == tx {
      assert CountStands(w, tx) && OwnRows(w.db, tx);
      assert w.locks[tx.organizationId] == t;
      OtherStepsShrink(w, step, tx.organizationId);
      ViewsShrinkToo(w.db, after.db, tx, w.now, after.now);
      ShrinkingUsesLess(View(w.db, tx), View(after.db, tx), tx.organizationId, w.now, after.now, tx.QuotaOf());
      StepKeepsLimit(w, step, tx.organizationId, tx.QuotaOf());
    }
  }

  lemma {:induction false} StepKeepsLimit(w: World, step: Step, organizationId: nat, quota: Quota)
    requires Enabled(w, step)
    requires step.SetEntitlement? ==> step.organizationId != organizationId
    ensures LimitOf(Next(w, step).db, quota, organizationId) == LimitOf(w.db, quota, organizationId)
  {
  }

  lemma {:induction false} StepKeepsInvariant(w: World, step: Step)
    requires Inv(w) && Enabled(w, step)
    ensures Inv(Next(w, step))
  {
    StepKeepsLocks(w, step);
    StepKeepsRows(w, step);
    forall t | t in Next(w, step).txs
      ensures OwnRows(Next(w, step).db, Next(w, step).txs[t]) && CountStands(Next(w, step), Next(w, step).txs[t])
    {
      StepKeepsOwnRows(w, step, t);
      StepKeepsCounts(w, step, t);
    }
  }

  // ---------------------------------------------------------------- the cap

  /** One step, whatever it is: usage rises only to a number the limit allows. */
  lemma {:induction false} UsageRisesOnlyWithinTheLimit(w: World, step: Step, quota: Quota, organizationId: nat)
    requires Inv(w) && Enabled(w, step)
    ensures var after := Next(w, step);
            Used(after.db, quota, organizationId, after.now) > Used(w.db, quota, organizationId, w.now) ==>
              Within(LimitOf(after.db, quota, organizationId), Used(after.db, quota, organizationId, after.now))
  {
    var after := Next(w, step);
    if step.Commit? && w.txs[step.tx].organizationId == organizationId {
      var tx := w.txs[step.tx];
      assert CountStands(w, tx) && OwnRows(w.db, tx);
      if quota == tx.QuotaOf() {
        CommitAddsOne(w.db, tx, w.now);
        StepKeepsLimit(w, step, organizationId, quota);
      } else {
        OtherQuotaUntouched(w.db, tx, w.now);
      }
    } else {
      OtherStepsShrink(w, step, organizationId);
      ShrinkingUsesLess(w.db, after.db, organizationId, w.now, after.now, quota);
    }
  }

  lemma {:induction false} OtherQuotaUntouched(db: Db, tx: Tx, now: int)
    ensures var other := if tx.Minting? then SeatQuota else KeyQuota;
            Used(Committed(db, tx, now), other, tx.organizationId, now) == Used(db, other, tx.organizationId, now)
  {
  }

  predicate Legal(w: World, steps: seq<Step>)
    decreases |steps|
  {
    steps == [] || (Enabled(w, steps[0]) && Legal(Next(w, steps[0]), steps[1..]))
  }

  function Final(w: World, steps: seq<Step>): World
    requires Legal(w, steps)
    decreases |steps|
  {
    if steps == [] then w else Final(Next(w, steps[0]), steps[1..])
  }

  /**
   * Any number of invitations, acceptances, key creations, revocations, removals
   * and expiries, interleaved statement by statement: a workspace that starts
   * within its limit, and whose plan does not change, is within it ever after.
   */
  lemma {:induction false} CapHoldsUnderEveryInterleaving(w: World, steps: seq<Step>, quota: Quota, organizationId: nat)
    requires Inv(w) && Legal(w, steps)
    requires forall k :: 0 <= k < |steps| ==> steps[k].SetEntitlement? ==> steps[k].organizationId != organizationId
    requires Within(LimitOf(w.db, quota, organizationId), Used(w.db, quota, organizationId, w.now))
    ensures var end := Final(w, steps);
            Inv(end) && Within(LimitOf(end.db, quota, organizationId), Used(end.db, quota, organizationId, end.now))
    decreases |steps|
  {
    if steps != [] {
      var next := Next(w, steps[0]);
      StepKeepsInvariant(w, steps[0]);
      UsageRisesOnlyWithinTheLimit(w, steps[0], quota, organizationId);
      StepKeepsLimit(w, steps[0], organizationId, quota);
      CapHoldsUnderEveryInterleaving(next, steps[1..], quota, organizationId);
    }
  }

  /** After a downgrade usage may sit above the ceiling; from there it can only fall until it fits again. */
  lemma {:induction false} OverTheCeilingOnlyFalls(w: World, steps: seq<Step>, quota: Quota, organizationId: nat)
    requires Inv(w) && Legal(w, steps)
    requires forall k :: 0 <= k < |steps| ==> steps[k].SetEntitlement? ==> steps[k].organizationId != organizationId
    ensures var end := Final(w, steps);
            var used := Used(end.db, quota, organizationId, end.now);
            used <= Used(w.db, quota, organizationId, w.now) || Within(LimitOf(w.db, quota, organizationId), used)
    decreases |steps|
  {
    if steps != [] {
      var next := Next(w, steps[0]);
      StepKeepsInvariant(w, steps[0]);
      UsageRisesOnlyWithinTheLimit(w, steps[0], quota, organizationId);
      StepKeepsLimit(w, steps[0], organizationId, quota);
      OverTheCeilingOnlyFalls(next, steps[1..], quota, organizationId);
    }
  }

  // ---------------------------------------------------------------- accepting

  lemma {:induction false} AcceptanceMovesOneId(db: Db, tx: Tx, now: int)
    requires Fresh(db) && OwnRows(db, tx) && tx.Accepting? && !tx.existingUser
    requires db.invitations[tx.invitation].IsPending(now)
    ensures Members(Committed(db, tx, now), tx.organizationId) == Members(db, tx.organizationId) + {db.nextId}
    ensures Pending(Committed(db, tx, now), tx.organizationId, now) == Pending(db, tx.organizationId, now) - {tx.invitation}
    ensures db.nextId !in Members(db, tx.organizationId) && tx.invitation in Pending(db, tx.organizationId, now)
  {
  }

  /** Accepting an invitation that still holds its seat turns it into a member's: the count does not move. */
  lemma {:induction false} AcceptingConvertsTheSeat(db: Db, tx: Tx, now: int)
    requires Fresh(db) && OwnRows(db, tx) && tx.Accepting? && !tx.existingUser
    requires db.invitations[tx.invitation].IsPending(now)
    ensures var (before, after) := (UsageOf(db, tx.organizationId, now), UsageOf(Committed(db, tx, now), tx.organizationId, now));
            && after.used == before.used
            && after.members == before.members + 1 && after.pendingInvitations == before.pendingInvitations - 1
    ensures Used(Committed(db, tx, now), SeatQuota, tx.organizationId, now) == Used(db, SeatQuota, tx.organizationId, now)
  {
    hide Members, Pending, Committed;
    AcceptanceMovesOneId(db, tx, now);
    MeterCountsTheHolders(db, tx.organizationId, now);
    MeterCountsTheHolders(Committed(db, tx, now), tx.organizationId, now);
  }

  // ---------------------------------------------------------------- one membership per invitation

  /** Whoever joined by an invitation did so by one that is spent, and nobody else joined by it. */
  ghost predicate JoinedOnce(db: Db) {
    && (forall u :: u in db.users && db.users[u].joinedBy.Some? ==>
                      db.users[u].joinedBy.value in db.invitations && db.invitations[db.users[u].joinedBy.value].accepted)
    && (forall u, v :: u in db.users && v in db.users && db.users[u].joinedBy.Some? && db.users[u].joinedBy == db.users[v].joinedBy ==> u == v)
  }

  /** An acceptance in flight locks its invitation row, so it is unspent and in no other acceptance. */
  ghost predicate AcceptancesApart(w: World) {
    forall t :: t in w.txs && w.txs[t].Accepting? ==>
                  && w.txs[t].invitation in w.db.invitations && !w.db.invitations[w.txs[t].invitation].accepted
                  && forall other :: other in w.txs && other != t && w.txs[other].Accepting? ==> w.txs[other].invitation != w.txs[t].invitation
  }

  lemma {:induction false} CommitKeepsJoinedOnce(db: Db, tx: Tx, now: int)
    requires Fresh(db) && JoinedOnce(db)
    requires tx.Accepting? ==> tx.invitation in db.invitations && !db.invitations[tx.invitation].accepted
    ensures JoinedOnce(Committed(db, tx, now))
  {
    CommitKeepsRows(db, tx, now);
  }

  lemma {:induction false} CommitSpendsOnlyItsOwn(db: Db, tx: Tx, now: int, i: nat)
    requires Fresh(db) && i in db.invitations && !db.invitations[i].accepted
    requires tx.Accepting? ==> tx.invitation != i
    ensures i in Committed(db, tx, now).invitations && !Committed(db, tx, now).invitations[i].accepted
  {
  }

  lemma {:induction false} StepKeepsJoinedOnce(w: World, step: Step)
    requires Inv(w) && JoinedOnce(w.db) && AcceptancesApart(w) && Enabled(w, step)
    ensures JoinedOnce(Next(w, step).db)
  {
    hide CountStands, Used, LimitOf, LocksAgree, OpenFor, OwnRows, Committed;
    if step.Commit? {
      CommitKeepsJoinedOnce(w.db, w.txs[step.tx], w.now);
    }
  }

  lemma {:induction false} StepKeepsAcceptancesApart(w: World, step: Step)
    requires Inv(w) && AcceptancesApart(w) && Enabled(w, step)
    ensures AcceptancesApart(Next(w, step))
  {
    hide CountStands, Fresh, Committed, Used, LimitOf, LocksAgree, OpenFor;
    var after := Next(w, step);
    StepKeepsRows(w, step);
    forall t | t in after.txs && after.txs[t].Accepting?
      ensures after.txs[t].invitation in after.db.invitations && !after.db.invitations[after.txs[t].invitation].accepted
    {
      if step.Commit? {
        CommitSpendsOnlyItsOwn(w.db, w.txs[step.tx], w.now, w.txs[t].invitation);
      }
    }
  }

  /** Under every interleaving an invitation makes at most one member. */
  lemma {:induction false} AnInvitationAdmitsOnePerson(w: World, steps: seq<Step>)
    requires Inv(w) && JoinedOnce(w.db) && AcceptancesApart(w) && Legal(w, steps)
    ensures JoinedOnce(Final(w, steps).db)
    decreases |steps|
  {
    if steps != [] {
      StepKeepsInvariant(w, steps[0]);
      StepKeepsJoinedOnce(w, steps[0]);
      StepKeepsAcceptancesApart(w, steps[0]);
      AnInvitationAdmitsOnePerson(Next(w, steps[0]), steps[1..]);
    }
  }

  // ---------------------------------------------------------------- one live link per address

  predicate OneOpenLink(db: Db, organizationId: nat, email: string) {
    |OpenFor(db, organizationId, email)| <= 1
  }

  lemma {:induction false} OpenAfterInvite(db: Db, tx: Tx, now: int)
    requires Fresh(db) && tx.Inviting?
    ensures OpenFor(Committed(db, tx, now), tx.organizationId, tx.email)
         == (OpenFor(db, tx.organizationId, tx.email) - tx.superseded) + {db.nextId}
    ensures db.nextId !in OpenFor(db, tx.organizationId, tx.email)
  {
  }

  lemma {:induction false} OneOpenLinkAtCommit(db: Db, tx: Tx, now: int)
    requires Fresh(db) && tx.Inviting?
    ensures OneOpenLink(Committed(db, tx, now), tx.organizationId, tx.email)
       <==> OpenFor(db, tx.organizationId, tx.email) <= tx.superseded
  {
    hide OpenFor, Committed, Fresh;
    OpenAfterInvite(db, tx, now);
    var open := OpenFor(db, tx.organizationId, tx.email);
    var others := open - tx.superseded;
    assert |others + {db.nextId}| == |others| + 1;
    if others == {} {
      assert forall i :: i in open ==> i !in others;
    }
  }

  predicate Begins(step: Step, tx: nat) {
    (step.BeginInvite? || step.BeginAccept? || step.BeginMint?) && step.tx == tx
  }

  /** While `tx` lasts it is the invite that retired `superseded`. */
  predicate StillInviting(w: World, tx: nat, organizationId: nat, email: string, superseded: set<nat>) {
    tx in w.txs ==>
      var t := w.txs[tx];
      t.Inviting? && t.organizationId == organizationId && t.email == email && t.superseded == superseded && !t.stage.Begun?
  }

  /** Whatever is open from before `from` was retired; `superseded` is from before it too. */
  predicate OldLinksRetired(db: Db, organizationId: nat, email: string, superseded: set<nat>, from: nat) {
    && from <= db.nextId
    && (forall i :: i in superseded ==> i < from)
    && (forall i :: i in OpenFor(db, organizationId, email) && i < from ==> i in superseded)
  }

  lemma {:induction false} StepAddsOnTop(w: World, step: Step)
    requires Enabled(w, step)
    ensures Next(w, step).db.nextId >= w.db.nextId
    ensures forall i :: i in Next(w, step).db.invitations ==> i in w.db.invitations || i == w.db.nextId
  {
    hide Used, OpenFor, LimitOf, Holders, UsageOf;
  }

  lemma {:induction false} StepKeepsInviting(w: World, step: Step, tx: nat, organizationId: nat, email: string, superseded: set<nat>)
    requires Enabled(w, step) && !Begins(step, tx) && StillInviting(w, tx, organizationId, email, superseded)
    ensures StillInviting(Next(w, step), tx, organizationId, email, superseded)
  {
    hide Used, OpenFor, LimitOf, Committed, WithRevoked;
  }

  lemma {:induction false} StepKeepsRetired(w: World, step: Step, organizationId: nat, email: string, superseded: set<nat>, from: nat)
    requires Inv(w) && Enabled(w, step) && OldLinksRetired(w.db, organizationId, email, superseded, from)
    ensures OldLinksRetired(Next(w, step).db, organizationId, email, superseded, from)
  {
    hide Next, Inv, Enabled, Fresh;
    StepKeepsRows(w, step);
    StepAddsOnTop(w, step);
    var after := Next(w, step).db;
    forall i | i in OpenFor(after, organizationId, email) && i < from
      ensures i in superseded
    {
      assert i in OpenFor(w.db, organizationId, email);
    }
  }

  lemma {:induction false} RunKeepsRetired(w: World, steps: seq<Step>, tx: nat, organizationId: nat, email: string, superseded: set<nat>, from: nat)
    requires Inv(w) && Legal(w, steps) && forall k :: 0 <= k < |steps| ==> !Begins(steps[k], tx)
    requires StillInviting(w, tx, organizationId, email, superseded) && OldLinksRetired(w.db, organizationId, email, superseded, from)
    ensures var end := Final(w, steps);
            && Inv(end) && StillInviting(end, tx, organizationId, email, superseded)
            && OldLinksRetired(end.db, organizationId, email, superseded, from)
    decreases |steps|
  {
    hide Next, Inv, Enabled, StillInviting, OldLinksRetired;
    if steps != [] {
      StepKeepsInvariant(w, steps[0]);
      StepKeepsInviting(w, steps[0], tx, organizationId, email, superseded);
      StepKeepsRetired(w, steps[0], organizationId, email, superseded, from);
      RunKeepsRetired(Next(w, steps[0]), steps[1..], tx, organizationId, email, superseded, from);
    }
  }

  /** Every link for the address handed out since `from` has been revoked or accepted. */
  predicate RivalsGone(db: Db, organizationId: nat, email: string, from: nat) {
    forall i :: i in db.invitations && from <= i && db.invitations[i].organizationId == organizationId && db.invitations[i].email == email ==>
                  db.invitations[i].revoked || db.invitations[i].accepted
  }

  /**
   * The retirement happens before the lock. Over any run between the two, the
   * commit leaves one live link for the address exactly when every link that
   * others handed out for it since the retirement is revoked or accepted by then.
   */
  lemma {:induction false} OneLinkExactlyWhenRivalsAreGone(w: World, tx: nat, steps: seq<Step>)
    requires Inv(w) && Enabled(w, RevokeOld(tx)) && Legal(Next(w, RevokeOld(tx)), steps)
    requires forall k :: 0 <= k < |steps| ==> !Begins(steps[k], tx)
    requires Enabled(Final(Next(w, RevokeOld(tx)), steps), Commit(tx))
    ensures OneOpenLink(Next(Final(Next(w, RevokeOld(tx)), steps), Commit(tx)).db, w.txs[tx].organizationId, w.txs[tx].email)
       <==> RivalsGone(Final(Next(w, RevokeOld(tx)), steps).db, w.txs[tx].organizationId, w.txs[tx].email, w.db.nextId)
  {
    hide Inv, Committed, Used, OneOpenLink;
    var (organizationId, email) := (w.txs[tx].organizationId, w.txs[tx].email);
    var retired := Next(w, RevokeOld(tx));
    var superseded := OpenFor(w.db, organizationId, email);
    FreshOf(w);
    StepKeepsInvariant(w, RevokeOld(tx));
    RunKeepsRetired(retired, steps, tx, organizationId, email, superseded, w.db.nextId);
    var end := Final(retired, steps);
    FreshOf(end);
    OneOpenLinkAtCommit(end.db, end.txs[tx], end.now);
    RivalsAreTheRest(end.db, organizationId, email, superseded, w.db.nextId);
  }

  lemma {:induction false} FreshOf(w: World)
    requires Inv(w)
    ensures Fresh(w.db)
  {
  }

  lemma {:induction false} RivalsAreTheRest(db: Db, organizationId: nat, email: string, superseded: set<nat>, from: nat)
    requires OldLinksRetired(db, organizationId, email, superseded, from)
    ensures OpenFor(db, organizationId, email) <= superseded <==> RivalsGone(db, organizationId, email, from)
  {
    if OpenFor(db, organizationId, email) <= superseded {
      forall i | i in db.invitations && from <= i && db.invitations[i].organizationId == organizationId && db.invitations[i].email == email
        ensures !db.invitations[i].IsOpen()
      {
        assert i in OpenFor(db, organizationId, email) ==> i in superseded;
      }
    }
  }

  // ---------------------------------------------------------------- a run that leaves two

  /** Both invites retire the old links before either takes the lock. */
  function TwoInvites(a: nat, b: nat, organizationId: nat, email: string): seq<Step> {
    [BeginInvite(a, organizationId, email), BeginInvite(b, organizationId, email), RevokeOld(a), RevokeOld(b)]
    + ([TakeLock(a), CountAndCheck(a), Commit(a)] + [TakeLock(b), CountAndCheck(b), Commit(b)])
  }

  lemma {:induction false} RunsJoin(w: World, s: seq<Step>, t: seq<Step>)
    requires Legal(w, s) && Legal(Final(w, s), t)
    ensures Legal(w, s + t) && Final(w, s + t) == Final(Final(w, s), t)
    decreases |s|
  {
    hide Next, Enabled;
    if s == [] {
      assert s + t == t;
    } else {
      RunsJoin(Next(w, s[0]), s[1..], t);
      assert (s + t)[1..] == s[1..] + t;
    }
  }

  lemma {:induction false} OneStepRun(w: World, step: Step)
    requires Enabled(w, step)
    ensures Legal(w, [step]) && Final(w, [step]) == Next(w, step)
  {
    hide Next, Enabled;
    assert [step][1..] == [];
  }

  /** Lock, count and commit in one go. */
  lemma {:induction false} InviteGoesThrough(w: World, t: nat)
    requires t in w.txs && w.txs[t].stage.Prepared? && w.txs[t].organizationId !in w.locks
    requires Within(LimitOf(w.db, w.txs[t].QuotaOf(), w.txs[t].organizationId),
                    Used(View(w.db, w.txs[t]), w.txs[t].QuotaOf(), w.txs[t].organizationId, w.now) + 1)
    ensures var steps := [TakeLock(t), CountAndCheck(t), Commit(t)];
            && Legal(w, steps)
            && Final(w, steps) == w.(txs := w.txs - {t}, db := Committed(w.db, w.txs[t], w.now))
  {
    hide Used, LimitOf, View, Inserted, Legal, Final;
    var locked := Next(w, TakeLock(t));
    var counted := Next(locked, CountAndCheck(t));
    ViewIgnoresStage(w.db, w.txs[t], Locked, w.now);
    OneStepRun(w, TakeLock(t));
    OneStepRun(locked, CountAndCheck(t));
    OneStepRun(counted, Commit(t));
    RunsJoin(w, [TakeLock(t)], [CountAndCheck(t)]);
    RunsJoin(w, [TakeLock(t)] + [CountAndCheck(t)], [Commit(t)]);
    ViewIgnoresStage(w.db, w.txs[t], counted.txs[t].stage, w.now);
    assert [TakeLock(t)] + [CountAndCheck(t)] + [Commit(t)] == [TakeLock(t), CountAndCheck(t), Commit(t)];
    assert w.locks[w.txs[t].organizationId := t] - {w.txs[t].organizationId} == w.locks;
    assert counted.txs - {t} == w.txs - {t};
  }

  lemma {:induction false} ViewIgnoresStage(db: Db, tx: Tx, stage: Stage, now: int)
    ensures View(db, tx.(stage := stage)) == View(db, tx) && Committed(db, tx.(stage := stage), now) == Committed(db, tx, now)
  {
  }

  lemma {:induction false} BothRetireFirst(w: World, a: nat, b: nat, organizationId: nat, email: string)
    requires a != b && a !in w.txs && b !in w.txs && Invitable(w.db, email) && OpenFor(w.db, organizationId, email) == {}
    ensures var steps := [BeginInvite(a, organizationId, email), BeginInvite(b, organizationId, email), RevokeOld(a), RevokeOld(b)];
            var ready := Inviting(organizationId, email, {}, Prepared);
            Legal(w, steps) && Final(w, steps) == w.(txs := w.txs[a := ready][b := ready])
  {
    hide Legal, Final;
    var (begun, ready) := (Inviting(organizationId, email, {}, Begun), Inviting(organizationId, email, {}, Prepared));
    var w1 := w.(txs := w.txs[a := begun]);
    var w2 := w.(txs := w.txs[a := begun][b := begun]);
    var w3 := w.(txs := w.txs[a := ready][b := begun]);
    var w4 := w.(txs := w.txs[a := ready][b := ready]);
    assert w2.txs[a := ready] == w3.txs;
    OneStepRun(w, BeginInvite(a, organizationId, email));
    OneStepRun(w1, BeginInvite(b, organizationId, email));
    OneStepRun(w2, RevokeOld(a));
    OneStepRun(w3, RevokeOld(b));
    var (s1, s2) := ([BeginInvite(a, organizationId, email)], [BeginInvite(b, organizationId, email)]);
    RunsJoin(w, s1, s2);
    RunsJoin(w, s1 + s2, [RevokeOld(a)]);
    RunsJoin(w, s1 + s2 + [RevokeOld(a)], [RevokeOld(b)]);
    assert s1 + s2 + [RevokeOld(a)] + [RevokeOld(b)]
        == [BeginInvite(a, organizationId, email), BeginInvite(b, organizationId, email), RevokeOld(a), RevokeOld(b)];
  }

  lemma {:induction false} SecondStillFits(db: Db, organizationId: nat, email: string, stage: Stage, now: int)
    ensures var tx := Inviting(organizationId, email, {}, stage);
            var once := Committed(db, tx, now);
            && View(db, tx) == db && View(once, tx) == once && LimitOf(once, SeatQuota, organizationId) == LimitOf(db, SeatQuota, organizationId)
            && Used(once, SeatQuota, organizationId, now) <= Used(db, SeatQuota, organizationId, now) + 1
  {
    hide Used, LimitFor;
    var tx := Inviting(organizationId, email, {}, stage);
    CommitAddsOne(db, tx, now);
    assert WithRevoked(db, {}).invitations == db.invitations;
    assert WithRevoked(Committed(db, tx, now), {}).invitations == Committed(db, tx, now).invitations;
  }

  lemma {:induction false} SecondLinkStaysOpen(db: Db, organizationId: nat, email: string, stage: Stage, now: int)
    requires Fresh(db) && OpenFor(db, organizationId, email) == {}
    ensures var tx := Inviting(organizationId, email, {}, stage);
            !OneOpenLink(Committed(Committed(db, tx, now), tx, now), organizationId, email)
  {
    hide OneOpenLink, Committed, OpenFor, Fresh;
    var tx := Inviting(organizationId, email, {}, stage);
    CommitKeepsRows(db, tx, now);
    OpenAfterInvite(db, tx, now);
    OneOpenLinkAtCommit(Committed(db, tx, now), tx, now);
  }

  /** Wherever two more seats fit, two people inviting the same address at once leave two live links: a legal run of ten steps. */
  lemma {:induction false} TwoInvitesCanBothStayOpen(w: World, a: nat, b: nat, organizationId: nat, email: string)
    requires Inv(w) && a != b && a !in w.txs && b !in w.txs && organizationId !in w.locks
    requires Invitable(w.db, email) && OpenFor(w.db, organizationId, email) == {}
    requires Within(LimitOf(w.db, SeatQuota, organizationId), Used(w.db, SeatQuota, organizationId, w.now) + 2)
    ensures Legal(w, TwoInvites(a, b, organizationId, email))
    ensures !OneOpenLink(Final(w, TwoInvites(a, b, organizationId, email)).db, organizationId, email)
  {
    hide Legal, Final, Used, LimitOf, Committed, View, OneOpenLink, Inv, OpenFor, Invitable;
    FreshOf(w);
    var ready := Inviting(organizationId, email, {}, Prepared);
    var w1 := w.(txs := w.txs[a := ready][b := ready]);
    var w2 := w1.(txs := w1.txs - {a}, db := Committed(w.db, ready, w.now));
    BothRetireFirst(w, a, b, organizationId, email);
    SecondStillFits(w.db, organizationId, email, Prepared, w.now);
    InviteGoesThrough(w1, a);
    InviteGoesThrough(w2, b);
    RunsJoin(w1, [TakeLock(a), CountAndCheck(a), Commit(a)], [TakeLock(b), CountAndCheck(b), Commit(b)]);
    RunsJoin(w, [BeginInvite(a, organizationId, email), BeginInvite(b, organizationId, email), RevokeOld(a), RevokeOld(b)],
             [TakeLock(a), CountAndCheck(a), Commit(a)] + [TakeLock(b), CountAndCheck(b), Commit(b)]);
    SecondLinkStaysOpen(w.db, organizationId, email, Prepared, w.now);
  }

  /** What the meter says is left is how many more seats still fit: none when it is full, and unlimited with no limit. */
  lemma {:induction false} MeterShowsWhatIsLeft(db: Db, organizationId: nat, now: int)
    ensures var meter := UsageOf(db, organizationId, now);
            && meter.limit == LimitOf(db, SeatQuota, organizationId)
            && meter.members == |Members(db, organizationId)| && meter.pendingInvitations == |Pending(db, organizationId, now)|
            && meter.used == meter.members + meter.pendingInvitations
            && (meter.remaining.None? <==> meter.limit.None?)
            && (meter.isFull ==> meter.remaining == Some(0))
            && (meter.remaining.Some? && !meter.isFull ==>
                  Within(meter.limit, meter.used + meter.remaining.value) && !Within(meter.limit, meter.used + meter.remaining.value + 1))
  {
    hide Members, Pending, LimitOf;
  }

  /** The number the meter shows is the number the lock counts. */
  lemma {:induction false} MeterCountsTheHolders(db: Db, organizationId: nat, now: int)
    ensures UsageOf(db, organizationId, now).used == Used(db, SeatQuota, organizationId, now)
    ensures HasSeatAvailable(db, organizationId, now)
       <==> Within(LimitOf(db, SeatQuota, organizationId), Used(db, SeatQuota, organizationId, now) + 1)
    ensures UsageOf(db, organizationId, now).isFull <==> !HasSeatAvailable(db, organizationId, now)
  {
    hide Members, Pending, LimitOf;
    var members := set u | u in Members(db, organizationId) :: MemberSeat(u);
    var pending := set i | i in Pending(db, organizationId, now) :: InvitationSeat(i);
    AsManySeatsAsMembers(Members(db, organizationId));
    AsManySeatsAsInvitations(Pending(db, organizationId, now));
    assert members !! pending;
    assert Holders(db, SeatQuota, organizationId, now) == members + pending;
  }

  lemma {:induction false} AsManySeatsAsMembers(users: set<nat>)
    ensures |set u | u in users :: MemberSeat(u)| == |users|
  {
    if users != {} {
      var u :| u in users;
      AsManySeatsAsMembers(users - {u});
      assert (set v | v in users :: MemberSeat(v)) == (set v | v in users - {u} :: MemberSeat(v)) + {MemberSeat(u)};
    }
  }

  lemma {:induction false} AsManySeatsAsInvitations(invitations: set<nat>)
    ensures |set i | i in invitations :: InvitationSeat(i)| == |invitations|
  {
    if invitations != {} {
      var i :| i in invitations;
      AsManySeatsAsInvitations(invitations - {i});
      assert (set v | v in invitations :: InvitationSeat(v)) == (set v | v in invitations - {i} :: InvitationSeat(v)) + {InvitationSeat(i)};
    }
  }
}
