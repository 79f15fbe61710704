/** Inviting, accepting and revoking, each as the one transaction the service runs. */
module InvitationService {
  import opened Prelude
  import opened Plans
  import opened Seats

  datatype InviteError =
    | AlreadyAMember
    | BelongsToAnotherWorkspace
    | NoSuchWorkspace
    | OverLimit(exceeded: PlanLimitExceeded)

  datatype AcceptError = UnknownInvitation | NoLongerValid | WorkspaceGone | SeatLimit

  function LiveUsers(db: Db, email: string): set<nat> {
    set u | u in db.users && db.users[u].email == email && !db.users[u].deleted
  }

  /** The refusal, if any, in the order the checks are made. */
  function InviteRefusal(db: Db, organizationId: nat, email: string, now: int): Option<InviteError> {
    if exists u :: u in LiveUsers(db, email) && db.users[u].organizationId == organizationId then Some(AlreadyAMember)
    else if LiveUsers(db, email) != {} then Some(BelongsToAnotherWorkspace)
    else if organizationId !in db.organizations then Some(NoSuchWorkspace)
    else
      var retired := WithRevoked(db, OpenFor(db, organizationId, email));
      var checked := AssertWithinLimit(db.organizations[organizationId], LimitKey.Seats, Used(retired, SeatQuota, organizationId, now) + 1);
      if checked.Err? then Some(OverLimit(checked.error)) else None
  }

  function AcceptRefusal(db: Db, live: set<nat>, invitation: nat, now: int): Option<AcceptError> {
    if invitation !in db.invitations then Some(UnknownInvitation)
    else if !db.invitations[invitation].IsPending(now) then Some(NoLongerValid)
    else if db.invitations[invitation].organizationId !in live then Some(WorkspaceGone)
    else if !HasSeatAvailable(WithAccepted(db, invitation), db.invitations[invitation].organizationId, now) then Some(SeatLimit)
    else None
  }

  class InvitationService {
    var db: Db
    /** Organisations that have not been deleted. */
    var live: set<nat>

    constructor (db: Db, live: set<nat>)
      ensures this.db == db && this.live == live
    {
      this.db := db;
      this.live := live;
    }

    /** A refusal rolls everything back, including the links that had already been retired. */
    method Invite(organizationId: nat, email: string, now: int) returns (result: Result<nat, InviteError>)
      modifies this`db
      ensures var refusal := InviteRefusal(old(db), organizationId, email, now);
              if refusal.Some? then result == Err(refusal.value) && db == old(db)
              else
                && result == Ok(old(db).nextId)
                && db == Committed(old(db), Inviting(organizationId, email, OpenFor(old(db), organizationId, email), Locked), now)
    {
      var existing := LiveUsers(db, email);
      if existing != {} {
        if exists u :: u in existing && db.users[u].organizationId == organizationId {
          return Err(AlreadyAMember);
        }
        return Err(BelongsToAnotherWorkspace);
      }
      var trx := WithRevoked(db, OpenFor(db, organizationId, email));
      if organizationId !in trx.organizations {
        return Err(NoSuchWorkspace);
      }
      MeterCountsTheHolders(trx, organizationId, now);
      var seats := UsageOf(trx, organizationId, now);
      var checked := AssertWithinLimit(trx.organizations[organizationId], LimitKey.Seats, seats.used + 1);
      if checked.Err? {
        return Err(OverLimit(checked.error));
      }
      var id := trx.nextId;
      trx := trx.(invitations := trx.invitations[id := Invitation(organizationId, email, now + LIFETIME, false, false)], nextId := id + 1);
      db := trx;
      return Ok(id);
    }

    method Accept(invitation: nat, existingUser: Option<nat>, now: int) returns (result: Result<nat, AcceptError>)
      modifies this`db
      ensures var refusal := AcceptRefusal(old(db), live, invitation, now);
              if refusal.Some? then result == Err(refusal.value) && db == old(db)
              else
                var organizationId := old(db).invitations[invitation].organizationId;
                && result == Ok(if existingUser.Some? then existingUser.value else old(db).nextId)
                && db == Committed(old(db), Accepting(organizationId, invitation, existingUser.Some?, Locked), now)
    {
      if invitation !in db.invitations {
        return Err(UnknownInvitation);
      }
      var row := db.invitations[invitation];
      if !row.IsPending(now) {
        return Err(NoLongerValid);
      }
      if row.organizationId !in live {
        return Err(WorkspaceGone);
      }
      var trx := db.(invitations := db.invitations[invitation := row.(accepted := true)]);
      if !HasSeatAvailable(trx, row.organizationId, now) {
        return Err(SeatLimit);
      }
      var user := trx.nextId;
      if existingUser.Some? {
        user := existingUser.value;
      } else {
        trx := trx.(users := trx.users[user := Member(row.organizationId, row.email, false, Some(invitation))], nextId := user + 1);
      }
      db := trx;
      return Ok(user);
    }

    method Revoke(invitation: nat, now: int)
      requires invitation in db.invitations
      modifies this`db
      ensures db == Revoked(old(db), invitation, now)
    {
      if !db.invitations[invitation].IsPending(now) {
        return;
      }
      db := WithRevoked(db, {invitation});
    }
  }

  // ---------------------------------------------------------------- what one call promises

  /**
   * An invite that is not refused leaves the workspace within its limit and the
   * address with exactly one live link, the new one, whatever links it had.
   */
  lemma {:induction false} InviteFitsAndSupersedes(db: Db, organizationId: nat, email: string, now: int)
    requires Fresh(db) && InviteRefusal(db, organizationId, email, now).None?
    ensures var after := Committed(db, Inviting(organizationId, email, OpenFor(db, organizationId, email), Locked), now);
            && OpenFor(after, organizationId, email) == {db.nextId}
            && Within(LimitOf(after, SeatQuota, organizationId), Used(after, SeatQuota, organizationId, now))
            && forall other, address :: other != organizationId || address != email ==>
                                          OpenFor(after, other, address) == OpenFor(db, other, address)
  {
    hide OpenFor, Used, WithRevoked, InviteRefusal, Inserted, Fresh;
    var tx := Inviting(organizationId, email, OpenFor(db, organizationId, email), Locked);
    NotRefusedFits(db, organizationId, email, now);
    CommitAddsOne(db, tx, now);
    OpenAfterInvite(db, tx, now);
    OtherAddressesUntouched(db, tx, now);
    InvitingKeepsLimits(db, tx, now);
  }

  lemma {:induction false} NotRefusedFits(db: Db, organizationId: nat, email: string, now: int)
    requires InviteRefusal(db, organizationId, email, now).None?
    ensures Within(LimitOf(db, SeatQuota, organizationId), Used(WithRevoked(db, OpenFor(db, organizationId, email)), SeatQuota, organizationId, now) + 1)
  {
    hide OpenFor, Used, WithRevoked;
  }

  lemma {:induction false} InvitingKeepsLimits(db: Db, tx: Tx, now: int)
    ensures LimitOf(Committed(db, tx, now), SeatQuota, tx.organizationId) == LimitOf(db, SeatQuota, tx.organizationId)
  {
  }

  lemma {:induction false} OtherAddressesUntouched(db: Db, tx: Tx, now: int)
    requires Fresh(db) && tx.Inviting? && tx.superseded == OpenFor(db, tx.organizationId, tx.email)
    ensures forall other, address :: other != tx.organizationId || address != tx.email ==>
                                       OpenFor(Committed(db, tx, now), other, address) == OpenFor(db, other, address)
  {
  }

  function PendingElsewhere(db: Db, organizationId: nat, email: string, now: int): set<nat> {
    set i | i in Pending(db, organizationId, now) && db.invitations[i].email != email
  }

  lemma {:induction false} SeatsAfterRetiring(db: Db, organizationId: nat, email: string, now: int)
    ensures Used(WithRevoked(db, OpenFor(db, organizationId, email)), SeatQuota, organizationId, now)
         == |Members(db, organizationId)| + |PendingElsewhere(db, organizationId, email, now)|
  {
    hide Members, Pending, PendingElsewhere, WithRevoked, Used, HasSeatAvailable;
    MeterCountsTheHolders(WithRevoked(db, OpenFor(db, organizationId, email)), organizationId, now);
    RetiringLeavesTheRest(db, organizationId, email, now);
  }

  lemma {:induction false} RetiringLeavesTheRest(db: Db, organizationId: nat, email: string, now: int)
    ensures var retired := WithRevoked(db, OpenFor(db, organizationId, email));
            && Members(retired, organizationId) == Members(db, organizationId)
            && Pending(retired, organizationId, now) == PendingElsewhere(db, organizationId, email, now)
  {
  }

  /**
   * An invite goes through exactly when nobody live has the address anywhere and
   * the members, the other addresses' pending links and this one fit the limit;
   * the refusal says which of the two kinds of occupant stands in the way.
   */
  lemma {:induction false} InvitedExactlyWhenFreeAndFitting(db: Db, organizationId: nat, email: string, now: int)
    ensures InviteRefusal(db, organizationId, email, now).None?
       <==> && (forall u :: u in db.users && db.users[u].email == email ==> db.users[u].deleted)
            && organizationId in db.organizations
            && Within(LimitOf(db, SeatQuota, organizationId),
                      |Members(db, organizationId)| + |PendingElsewhere(db, organizationId, email, now)| + 1)
    ensures InviteRefusal(db, organizationId, email, now) == Some(AlreadyAMember)
       <==> exists u :: u in db.users && db.users[u].email == email && !db.users[u].deleted && db.users[u].organizationId == organizationId
    ensures InviteRefusal(db, organizationId, email, now) == Some(BelongsToAnotherWorkspace)
       <==> && (exists u :: u in db.users && db.users[u].email == email && !db.users[u].deleted)
            && (forall u :: u in db.users && db.users[u].email == email && !db.users[u].deleted ==> db.users[u].organizationId != organizationId)
    ensures var refusal := InviteRefusal(db, organizationId, email, now);
            refusal.Some? && refusal.value.OverLimit? ==>
              && LimitOf(db, SeatQuota, organizationId).Some?
              && refusal.value.exceeded == PlanLimitExceeded(LimitKey.Seats, LimitOf(db, SeatQuota, organizationId).value,
                                                             |Members(db, organizationId)| + |PendingElsewhere(db, organizationId, email, now)|)
  {
    hide Used, Members, PendingElsewhere, OpenFor, WithRevoked;
    SeatsAfterRetiring(db, organizationId, email, now);
    if LiveUsers(db, email) == {} {
      assert forall u :: u in db.users && db.users[u].email == email && !db.users[u].deleted ==> u in LiveUsers(db, email);
    }
  }

  function Revoked(db: Db, invitation: nat, now: int): Db
    requires invitation in db.invitations
  {
    if db.invitations[invitation].IsPending(now) then WithRevoked(db, {invitation}) else db
  }

  /**
   * Revoking gives back exactly one seat when the invitation was pending and none
   * otherwise, in its own workspace only, and no later acceptance of it goes through.
   */
  lemma {:induction false} RevokingFreesTheSeatExactlyWhenPending(db: Db, live: set<nat>, invitation: nat, now: int, later: int, other: nat)
    requires invitation in db.invitations && now <= later
    ensures var after := Revoked(db, invitation, now);
            && Used(after, SeatQuota, other, now)
               == Used(db, SeatQuota, other, now)
                  - (if other == db.invitations[invitation].organizationId && db.invitations[invitation].IsPending(now) then 1 else 0)
            && AcceptRefusal(after, live, invitation, later) == Some(NoLongerValid)
  {
    hide Members, Pending, HasSeatAvailable, Used;
    MeterCountsTheHolders(db, other, now);
    MeterCountsTheHolders(Revoked(db, invitation, now), other, now);
    RevokingTakesOnePending(db, invitation, now, other);
  }

  lemma {:induction false} RevokingTakesOnePending(db: Db, invitation: nat, now: int, other: nat)
    requires invitation in db.invitations
    ensures var after := Revoked(db, invitation, now);
            && Members(after, other) == Members(db, other)
            && Pending(after, other, now) == Pending(db, other, now) - {invitation}
            && (invitation in Pending(db, other, now)
                <==> other == db.invitations[invitation].organizationId && db.invitations[invitation].IsPending(now))
  {
  }

  /** Resending to an address that already holds the last seat is never refused for want of a seat. */
  lemma {:induction false} ResendingNeedsNoSeat(db: Db, organizationId: nat, email: string, now: int, held: nat)
    requires organizationId in db.organizations && LiveUsers(db, email) == {}
    requires held in OpenFor(db, organizationId, email) && db.invitations[held].IsPending(now)
    requires Within(LimitOf(db, SeatQuota, organizationId), Used(db, SeatQuota, organizationId, now))
    ensures InviteRefusal(db, organizationId, email, now).None?
  {
    RetiringFreesSeats(db, OpenFor(db, organizationId, email), organizationId, now, held);
    hide Used, Holders, WithRevoked;
  }

  lemma {:induction false} RetiringFreesSeats(db: Db, retired: set<nat>, organizationId: nat, now: int, held: nat)
    requires held in retired && held in Pending(db, organizationId, now)
    ensures Used(WithRevoked(db, retired), SeatQuota, organizationId, now) < Used(db, SeatQuota, organizationId, now)
  {
    var after := WithRevoked(db, retired);
    assert Members(after, organizationId) == Members(db, organizationId);
    assert Pending(after, organizationId, now) == Pending(db, organizationId, now) - retired;
    FewerPendingUseLess(db, after, organizationId, now, held);
  }

  lemma {:induction false} FewerPendingUseLess(before: Db, after: Db, organizationId: nat, now: int, held: nat)
    requires Members(after, organizationId) == Members(before, organizationId)
    requires Pending(after, organizationId, now) <= Pending(before, organizationId, now) - {held}
    requires held in Pending(before, organizationId, now)
    ensures Used(after, SeatQuota, organizationId, now) < Used(before, SeatQuota, organizationId, now)
  {
    hide Members, Pending;
    var (fewer, more) := (Holders(after, SeatQuota, organizationId, now), Holders(before, SeatQuota, organizationId, now));
    assert InvitationSeat(held) in more && InvitationSeat(held) !in fewer;
    FewerHolders(fewer, more - {InvitationSeat(held)});
  }

  /**
   * An acceptance goes through exactly when the link is neither accepted nor revoked,
   * its time is not up, its workspace is live and that workspace is within its limit
   * as it stands: the seat is already held.
   */
  lemma {:induction false} AcceptedExactlyWhenWithinTheLimit(db: Db, live: set<nat>, invitation: nat, now: int)
    ensures AcceptRefusal(db, live, invitation, now).None?
       <==> && invitation in db.invitations
            && !db.invitations[invitation].accepted && !db.invitations[invitation].revoked && now < db.invitations[invitation].expiresAt
            && var o := db.invitations[invitation].organizationId;
            o in live && Within(LimitOf(db, SeatQuota, o), Used(db, SeatQuota, o, now))
    ensures AcceptRefusal(db, live, invitation, now) == Some(NoLongerValid)
       <==> invitation in db.invitations
            && (db.invitations[invitation].accepted || db.invitations[invitation].revoked || db.invitations[invitation].expiresAt <= now)
  {
    hide Used, HasSeatAvailable;
    if invitation in db.invitations && db.invitations[invitation].IsPending(now) {
      var o := db.invitations[invitation].organizationId;
      SpendingFreesTheSeat(db, invitation, now);
      MeterCountsTheHolders(WithAccepted(db, invitation), o, now);
    }
  }

  /**
   * The link a successful invite leaves is for that workspace and address, and holds
   * its seat at every moment of the 14 days after, and at none from then on.
   */
  lemma {:induction false} LinksLastFourteenDays(db: Db, organizationId: nat, email: string, now: int, later: int)
    requires Fresh(db) && InviteRefusal(db, organizationId, email, now).None? && now <= later
    ensures var after := Committed(db, Inviting(organizationId, email, OpenFor(db, organizationId, email), Locked), now);
            && db.nextId in after.invitations
            && after.invitations[db.nextId].organizationId == organizationId && after.invitations[db.nextId].email == email
            && (InvitationSeat(db.nextId) in Holders(after, SeatQuota, organizationId, later) <==> later < now + 14 * 24 * 60 * 60)
            && (forall live :: AcceptRefusal(after, live, db.nextId, later) == Some(NoLongerValid) <==> later >= now + 14 * 24 * 60 * 60)
  {
    hide InviteRefusal, OpenFor, Holders, HasSeatAvailable;
    var after := Committed(db, Inviting(organizationId, email, OpenFor(db, organizationId, email), Locked), now);
    HoldersFromColumns(after, SeatQuota, organizationId, later, InvitationSeat(db.nextId));
  }

  /** Who joins by a link joins its workspace under its address, and the link is spent. */
  lemma {:induction false} AcceptingMakesTheMember(db: Db, live: set<nat>, invitation: nat, now: int)
    requires Fresh(db) && AcceptRefusal(db, live, invitation, now).None?
    ensures var row := db.invitations[invitation];
            var after := Committed(db, Accepting(row.organizationId, invitation, false, Locked), now);
            && db.nextId !in db.users && db.nextId in after.users
            && after.users[db.nextId].organizationId == row.organizationId && after.users[db.nextId].email == row.email
            && !after.users[db.nextId].deleted && after.users[db.nextId].joinedBy == Some(invitation)
            && invitation in after.invitations && after.invitations[invitation].accepted
            && (forall u :: u in db.users ==> u in after.users && after.users[u] == db.users[u])
  {
    hide HasSeatAvailable;
  }

  lemma {:induction false} SpendingFreesTheSeat(db: Db, invitation: nat, now: int)
    requires invitation in db.invitations && db.invitations[invitation].IsPending(now)
    ensures var o := db.invitations[invitation].organizationId;
            Used(WithAccepted(db, invitation), SeatQuota, o, now) == Used(db, SeatQuota, o, now) - 1
  {
    var o := db.invitations[invitation].organizationId;
    var spent := WithAccepted(db, invitation);
    assert Members(spent, o) == Members(db, o);
    assert Pending(spent, o, now) == Pending(db, o, now) - {invitation};
    MeterCountsTheHolders(db, o, now);
    MeterCountsTheHolders(spent, o, now);
    hide Members, Pending, Used, HasSeatAvailable;
  }
}
