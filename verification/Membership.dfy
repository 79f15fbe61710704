/**
 * Who owns a workspace: registration, acceptance, removal, transfer, leaving
 * and deletion. Every operation acts on rows its caller loaded earlier, so the
 * owner a caller saw is a parameter and may be out of date.
 */
module Membership {
  import opened Prelude

  datatype Role = Owner | Member

  datatype User = User(organizationId: nat, role: Role, deleted: bool)

  datatype Organization = Organization(ownerId: Option<nat>, deleted: bool)

  datatype Tables = Tables(users: map<nat, User>, organizations: map<nat, Organization>, nextUser: nat, nextOrganization: nat)

  datatype Refusal = NotAMember | OwnerCannotLeave | AlreadyOwner | NoWorkspace

  // ---------------------------------------------------------------- what each operation leaves behind

  function Registered(t: Tables): Tables {
    t.(organizations := t.organizations[t.nextOrganization := Organization(Some(t.nextUser), false)],
       users := t.users[t.nextUser := User(t.nextOrganization, Owner, false)],
       nextUser := t.nextUser + 1, nextOrganization := t.nextOrganization + 1)
  }

  predicate Live(t: Tables, organizationId: nat) {
    organizationId in t.organizations && !t.organizations[organizationId].deleted
  }

  /** An invitation to own is accepted as an ordinary membership; someone already registered is left as they are. */
  function Joined(t: Tables, organizationId: nat, invitedAs: Role, existing: bool): Tables {
    if !Live(t, organizationId) || existing then t
    else t.(users := t.users[t.nextUser := User(organizationId, if invitedAs == Owner then Member else invitedAs, false)],
             nextUser := t.nextUser + 1)
  }

  function SoftDeleted(t: Tables, user: nat): Tables
    requires user in t.users
  {
    t.(users := t.users[user := t.users[user].(deleted := true)])
  }

  function RemoveRefusal(t: Tables, organizationId: nat, seenOwner: Option<nat>, member: nat): Option<Refusal>
    requires member in t.users
  {
    if t.users[member].organizationId != organizationId then Some(NotAMember)
    else if Some(member) == seenOwner then Some(OwnerCannotLeave)
    else None
  }

  function Removed(t: Tables, organizationId: nat, seenOwner: Option<nat>, member: nat): Tables
    requires member in t.users
  {
    if RemoveRefusal(t, organizationId, seenOwner, member).Some? then t else SoftDeleted(t, member)
  }

  function Left(t: Tables, seenOwner: Option<nat>, user: nat): Tables
    requires user in t.users
  {
    if Some(user) == seenOwner then t else SoftDeleted(t, user)
  }

  function TransferRefusal(t: Tables, organizationId: nat, from: nat, to: nat): Option<Refusal>
    requires to in t.users
  {
    if t.users[to].organizationId != organizationId then Some(NotAMember)
    else if to == from then Some(AlreadyOwner)
    else None
  }

  function Transferred(t: Tables, organizationId: nat, from: nat, to: nat): Tables
    requires organizationId in t.organizations && from in t.users && to in t.users
  {
    if TransferRefusal(t, organizationId, from, to).Some? then t
    else t.(users := t.users[to := t.users[to].(role := Owner)][from := t.users[from].(role := Member)],
            organizations := t.organizations[organizationId := t.organizations[organizationId].(ownerId := Some(to))])
  }

  function Closed(t: Tables, organizationId: nat): Tables
    requires organizationId in t.organizations
  {
    t.(users := map u | u in t.users :: if t.users[u].organizationId == organizationId then t.users[u].(deleted := true) else t.users[u],
       organizations := t.organizations[organizationId := t.organizations[organizationId].(deleted := true)])
  }

  // ---------------------------------------------------------------- the invariant

  function MembersOf(t: Tables, organizationId: nat): set<nat> {
    set u | u in t.users && t.users[u].organizationId == organizationId && !t.users[u].deleted
  }

  function OwnersOf(t: Tables, organizationId: nat): set<nat> {
    set u | u in MembersOf(t, organizationId) && t.users[u].role == Owner
  }

  /** Exactly one live user holds the role, and `owner_id` names that user. */
  predicate OneOwner(t: Tables, organizationId: nat)
    requires organizationId in t.organizations
  {
    t.organizations[organizationId].ownerId.Some? && OwnersOf(t, organizationId) == {t.organizations[organizationId].ownerId.value}
  }

  predicate Allocated(t: Tables) {
    && (forall u :: u in t.users ==> u < t.nextUser && t.users[u].organizationId in t.organizations)
    && (forall o :: o in t.organizations ==> o < t.nextOrganization)
  }

  predicate Inv(t: Tables) {
    && Allocated(t)
    && (forall o :: o in t.organizations && !t.organizations[o].deleted ==> OneOwner(t, o))
    && (forall o :: o in t.organizations && t.organizations[o].deleted ==> MembersOf(t, o) == {})
  }

  /** `user` is the owner of record of a live workspace. */
  predicate Owns(t: Tables, user: nat) {
    user in t.users && Live(t, t.users[user].organizationId) && t.organizations[t.users[user].organizationId].ownerId == Some(user)
  }

  // ---------------------------------------------------------------- the services

  class MembershipService {
    var tables: Tables

    constructor (tables: Tables)
      ensures this.tables == tables
    {
      this.tables := tables;
    }

    /** Workspace, then its owner, then the reference back: three writes of one transaction. */
    method Register() returns (user: nat, organization: nat)
      modifies this
      ensures tables == Registered(old(tables)) && (old(Inv(tables)) ==> Inv(tables))
      ensures user == old(tables.nextUser) && organization == old(tables.nextOrganization)
      ensures user in tables.users && tables.users[user] == User(organization, Owner, false)
      ensures organization in tables.organizations && tables.organizations[organization] == Organization(Some(user), false)
    {
      if Inv(tables) {
        RegisteringKeepsOneOwner(tables);
      }
      organization := tables.nextOrganization;
      tables := tables.(organizations := tables.organizations[organization := Organization(None, false)],
                        nextOrganization := organization + 1);
      user := tables.nextUser;
      tables := tables.(users := tables.users[user := User(organization, Owner, false)], nextUser := user + 1);
      tables := tables.(organizations := tables.organizations[organization := tables.organizations[organization].(ownerId := Some(user))]);
    }

    method Accept(organizationId: nat, invitedAs: Role, existing: Option<nat>) returns (user: Result<nat, Refusal>)
      modifies this
      ensures tables == Joined(old(tables), organizationId, invitedAs, existing.Some?) && (old(Inv(tables)) ==> Inv(tables))
      ensures user == (if !Live(old(tables), organizationId) then Err(NoWorkspace)
                       else Ok(if existing.Some? then existing.value else old(tables.nextUser)))
      ensures user.Ok? && existing.None? ==>
                && user.value in tables.users && tables.users[user.value] == User(organizationId, Member, false)
                && tables.users.Keys == old(tables.users.Keys) + {user.value}
    {
      if Inv(tables) {
        JoiningKeepsOneOwner(tables, organizationId, invitedAs, existing.Some?);
      }
      if organizationId !in tables.organizations || tables.organizations[organizationId].deleted {
        return Err(NoWorkspace);
      }
      if existing.Some? {
        return Ok(existing.value);
      }
      var role := if invitedAs == Owner then Member else invitedAs;
      var id := tables.nextUser;
      tables := tables.(users := tables.users[id := User(organizationId, role, false)], nextUser := id + 1);
      return Ok(id);
    }

    method Remove(organizationId: nat, seenOwner: Option<nat>, member: nat) returns (error: Option<Refusal>)
      requires member in tables.users
      modifies this
      ensures tables == Removed(old(tables), organizationId, seenOwner, member)
      ensures error == RemoveRefusal(old(tables), organizationId, seenOwner, member)
      ensures error == Some(NotAMember) <==> old(tables.users[member].organizationId) != organizationId
      ensures error == Some(OwnerCannotLeave) <==> old(tables.users[member].organizationId) == organizationId && seenOwner == Some(member)
      ensures forall o :: MembersOf(tables, o) == old(MembersOf(tables, o)) - (if error.None? then {member} else {})
      ensures old(Inv(tables)) ==> (Inv(tables) <==> error.Some? || !old(Owns(tables, member)))
    {
      GoingTakesOneMember(tables, member);
      if Inv(tables) {
        OnlyTheOwnerCannotGo(tables, member);
      }
      if tables.users[member].organizationId != organizationId {
        return Some(NotAMember);
      }
      if Some(member) == seenOwner {
        return Some(OwnerCannotLeave);
      }
      tables := SoftDeleted(tables, member);
      return None;
    }

    method TransferOwnership(organizationId: nat, from: nat, to: nat) returns (error: Option<Refusal>)
      requires organizationId in tables.organizations && from in tables.users && to in tables.users
      modifies this
      ensures tables == Transferred(old(tables), organizationId, from, to)
      ensures error == TransferRefusal(old(tables), organizationId, from, to)
      ensures error == Some(NotAMember) <==> old(tables.users[to].organizationId) != organizationId
      ensures error == Some(AlreadyOwner) <==> old(tables.users[to].organizationId) == organizationId && to == from
      ensures error.None? ==>
                && tables.users[to].role == Owner && tables.users[from].role == Member
                && tables.organizations[organizationId].ownerId == Some(to)
    {
      if tables.users[to].organizationId != organizationId {
        return Some(NotAMember);
      }
      if to == from {
        return Some(AlreadyOwner);
      }
      tables := tables.(users := tables.users[to := tables.users[to].(role := Owner)]);
      tables := tables.(users := tables.users[from := tables.users[from].(role := Member)]);
      tables := tables.(organizations := tables.organizations[organizationId := tables.organizations[organizationId].(ownerId := Some(to))]);
      return None;
    }

    method Leave(seenOwner: Option<nat>, user: nat) returns (error: Option<Refusal>)
      requires user in tables.users
      modifies this
      ensures tables == Left(old(tables), seenOwner, user)
      ensures error == if Some(user) == seenOwner then Some(OwnerCannotLeave) else None
      ensures forall o :: MembersOf(tables, o) == old(MembersOf(tables, o)) - (if error.None? then {user} else {})
      ensures old(Inv(tables)) ==> (Inv(tables) <==> error.Some? || !old(Owns(tables, user)))
    {
      GoingTakesOneMember(tables, user);
      if Inv(tables) {
        OnlyTheOwnerCannotGo(tables, user);
      }
      if Some(user) == seenOwner {
        return Some(OwnerCannotLeave);
      }
      tables := SoftDeleted(tables, user);
      return None;
    }

    method DeleteOrganization(organizationId: nat)
      requires organizationId in tables.organizations
      modifies this
      ensures tables == Closed(old(tables), organizationId) && (old(Inv(tables)) ==> Inv(tables))
      ensures MembersOf(tables, organizationId) == {}
    {
      if Inv(tables) {
        ClosingKeepsOneOwner(tables, organizationId);
      }
      tables := tables.(users := map u | u in tables.users ::
        if tables.users[u].organizationId == organizationId then tables.users[u].(deleted := true) else tables.users[u]);
      tables := tables.(organizations := tables.organizations[organizationId := tables.organizations[organizationId].(deleted := true)]);
    }
  }

  // ---------------------------------------------------------------- operation by operation

  lemma {:induction false} OwnersAfterRegister(t: Tables, o: nat)
    requires Allocated(t)
    ensures MembersOf(Registered(t), o) == if o == t.nextOrganization then {t.nextUser} else MembersOf(t, o)
    ensures OwnersOf(Registered(t), o) == if o == t.nextOrganization then {t.nextUser} else OwnersOf(t, o)
  {
  }

  lemma {:induction false} RegisteringKeepsOneOwner(t: Tables)
    requires Inv(t)
    ensures Inv(Registered(t))
  {
    hide OwnersOf, MembersOf;
    forall o | o in Registered(t).organizations
      ensures MembersOf(Registered(t), o) == if o == t.nextOrganization then {t.nextUser} else MembersOf(t, o)
      ensures OwnersOf(Registered(t), o) == if o == t.nextOrganization then {t.nextUser} else OwnersOf(t, o)
    {
      OwnersAfterRegister(t, o);
    }
  }

  lemma {:induction false} OwnersAfterJoin(t: Tables, organizationId: nat, invitedAs: Role, existing: bool, o: nat)
    requires Allocated(t)
    ensures OwnersOf(Joined(t, organizationId, invitedAs, existing), o) == OwnersOf(t, o)
    ensures o != organizationId ==> MembersOf(Joined(t, organizationId, invitedAs, existing), o) == MembersOf(t, o)
  {
  }

  lemma {:induction false} JoiningKeepsOneOwner(t: Tables, organizationId: nat, invitedAs: Role, existing: bool)
    requires Inv(t)
    ensures Inv(Joined(t, organizationId, invitedAs, existing))
  {
    hide OwnersOf, MembersOf;
    var after := Joined(t, organizationId, invitedAs, existing);
    forall o | o in after.organizations
      ensures OwnersOf(after, o) == OwnersOf(t, o)
      ensures o != organizationId ==> MembersOf(after, o) == MembersOf(t, o)
    {
      OwnersAfterJoin(t, organizationId, invitedAs, existing, o);
    }
  }

  /** Joining adds exactly the new member, as a member, to that workspace and to no other. */
  lemma {:induction false} JoiningAddsTheMember(t: Tables, organizationId: nat, invitedAs: Role, o: nat)
    requires Allocated(t) && organizationId in t.organizations && !t.organizations[organizationId].deleted
    ensures var after := Joined(t, organizationId, invitedAs, false);
            && t.nextUser !in t.users && t.nextUser in after.users && after.users[t.nextUser].role == Member
            && MembersOf(after, o) == MembersOf(t, o) + (if o == organizationId then {t.nextUser} else {})
  {
  }

  lemma {:induction false} ClosingKeepsOneOwner(t: Tables, organizationId: nat)
    requires Inv(t) && organizationId in t.organizations
    ensures Inv(Closed(t, organizationId)) && MembersOf(Closed(t, organizationId), organizationId) == {}
  {
    var after := Closed(t, organizationId);
    forall o | o in after.organizations
      ensures MembersOf(after, o) == if o == organizationId then {} else MembersOf(t, o)
      ensures o != organizationId ==> OwnersOf(after, o) == OwnersOf(t, o)
    {
    }
  }

  lemma {:induction false} OwnersAfterSoftDelete(t: Tables, user: nat, o: nat)
    requires user in t.users
    ensures OwnersOf(SoftDeleted(t, user), o) == OwnersOf(t, o) - {user}
    ensures MembersOf(SoftDeleted(t, user), o) == MembersOf(t, o) - {user}
  {
  }

  /** Soft-deleting a user strands a workspace exactly when that user owns it. */
  lemma {:induction false} OnlyTheOwnerCannotGo(t: Tables, user: nat)
    requires Inv(t) && user in t.users
    ensures Inv(SoftDeleted(t, user)) <==> !Owns(t, user)
  {
    var after := SoftDeleted(t, user);
    hide OwnersOf, MembersOf;
    OwnersSitAtHome(t, user);
    forall o | o in t.organizations
      ensures OwnersOf(after, o) == OwnersOf(t, o) - {user} && MembersOf(after, o) == MembersOf(t, o) - {user}
    {
      OwnersAfterSoftDelete(t, user, o);
    }
    if Owns(t, user) {
      assert !OneOwner(after, t.users[user].organizationId);
    }
  }

  lemma {:induction false} GoingTakesOneMember(t: Tables, user: nat)
    requires user in t.users
    ensures forall o :: MembersOf(SoftDeleted(t, user), o) == MembersOf(t, o) - {user}
  {
    hide OwnersOf, MembersOf;
    forall o
      ensures MembersOf(SoftDeleted(t, user), o) == MembersOf(t, o) - {user}
    {
      OwnersAfterSoftDelete(t, user, o);
    }
  }

  lemma {:induction false} OwnersSitAtHome(t: Tables, user: nat)
    requires user in t.users
    ensures forall o :: user in OwnersOf(t, o) ==> o == t.users[user].organizationId
  {
  }

  /** What the caller saw does not matter by itself: a removal strands the workspace exactly when it goes through for the owner of today. */
  lemma {:induction false} RemovalIsSafeExactlyWhenTheOwnerStays(t: Tables, organizationId: nat, seenOwner: Option<nat>, member: nat)
    requires Inv(t) && member in t.users
    ensures Inv(Removed(t, organizationId, seenOwner, member))
       <==> !Owns(t, member) || t.users[member].organizationId != organizationId || seenOwner == Some(member)
    ensures Inv(Left(t, seenOwner, member)) <==> !Owns(t, member) || seenOwner == Some(member)
  {
    OnlyTheOwnerCannotGo(t, member);
  }

  lemma {:induction false} OwnersAfterTransfer(t: Tables, organizationId: nat, from: nat, to: nat, o: nat)
    requires organizationId in t.organizations && from in t.users && to in t.users
    requires TransferRefusal(t, organizationId, from, to).None?
    ensures var after := Transferred(t, organizationId, from, to);
            && OwnersOf(after, o) == OwnersOf(t, o) + (if o == organizationId && !t.users[to].deleted then {to} else {}) - {from}
            && MembersOf(after, o) == MembersOf(t, o)
  {
  }

  /** The caller's side of a sound transfer: a live target, and nobody else's owner demoted. */
  predicate Sound(t: Tables, organizationId: nat, from: nat, to: nat)
    requires organizationId in t.organizations && to in t.users
  {
    var owner := t.organizations[organizationId].ownerId;
    if Live(t, organizationId) then !t.users[to].deleted && (owner == Some(from) || (owner == Some(to) && !Owns(t, from)))
    else !Owns(t, from)
  }

  lemma {:induction false} SoundTransferKeepsOneOwner(t: Tables, organizationId: nat, from: nat, to: nat)
    requires Inv(t) && organizationId in t.organizations && from in t.users && to in t.users
    requires TransferRefusal(t, organizationId, from, to).None? && Sound(t, organizationId, from, to)
    ensures Inv(Transferred(t, organizationId, from, to))
  {
    hide OwnersOf, MembersOf;
    var after := Transferred(t, organizationId, from, to);
    OwnersSitAtHome(t, from);
    forall o | o in t.organizations
      ensures Live(t, o) ==> OneOwner(after, o)
      ensures MembersOf(after, o) == MembersOf(t, o)
    {
      OwnersAfterTransfer(t, organizationId, from, to, o);
      assert Live(t, o) ==> OneOwner(t, o);
    }
  }

  lemma {:induction false} UnsoundTransferBreaksIt(t: Tables, organizationId: nat, from: nat, to: nat)
    requires Inv(t) && organizationId in t.organizations && from in t.users && to in t.users
    requires TransferRefusal(t, organizationId, from, to).None? && !Sound(t, organizationId, from, to)
    ensures !Inv(Transferred(t, organizationId, from, to))
  {
    hide OwnersOf, MembersOf;
    var after := Transferred(t, organizationId, from, to);
    var here := Live(t, organizationId) && (t.users[to].deleted || t.organizations[organizationId].ownerId != Some(to));
    var broken := if here then organizationId else t.users[from].organizationId;
    OwnersAfterTransfer(t, organizationId, from, to, broken);
    OwnersAreLive(t, organizationId);
    assert OneOwner(t, broken);
    assert !OneOwner(after, broken);
  }

  /**
   * A transfer the service lets through keeps every workspace at one owner
   * exactly when the target is live and either the giver owns the workspace, or
   * the target already did and the giver owns no other. In a workspace that has
   * been deleted only the last part matters.
   */
  lemma {:induction false} TransferIsSafeExactlyWhen(t: Tables, organizationId: nat, from: nat, to: nat)
    requires Inv(t) && organizationId in t.organizations && from in t.users && to in t.users
    requires TransferRefusal(t, organizationId, from, to).None?
    ensures Inv(Transferred(t, organizationId, from, to)) <==> Sound(t, organizationId, from, to)
  {
    hide Inv, Transferred, Sound;
    if Sound(t, organizationId, from, to) {
      SoundTransferKeepsOneOwner(t, organizationId, from, to);
    } else {
      UnsoundTransferBreaksIt(t, organizationId, from, to);
    }
  }

  lemma {:induction false} OwnersAreLive(t: Tables, organizationId: nat)
    ensures forall u :: u in OwnersOf(t, organizationId) ==> u in t.users && !t.users[u].deleted
  {
  }

  /** Handing a workspace over and back leaves every row as it was. */
  lemma {:induction false} TransferBackRestores(t: Tables, organizationId: nat, from: nat, to: nat)
    requires Inv(t) && Live(t, organizationId) && t.organizations[organizationId].ownerId == Some(from)
    requires to in MembersOf(t, organizationId) && to != from
    ensures from in OwnersOf(t, organizationId)
    ensures Transferred(Transferred(t, organizationId, from, to), organizationId, to, from) == t
  {
    assert OneOwner(t, organizationId);
    assert from in OwnersOf(t, organizationId);
    assert to !in OwnersOf(t, organizationId);
  }

  // ---------------------------------------------------------------- every run

  /** Removals and departures carry the owner their caller saw, transfers whoever gives. */
  datatype Step =
    | Register
    | Accept(organizationId: nat, invitedAs: Role, existing: bool)
    | Remove(organizationId: nat, seenOwner: Option<nat>, member: nat)
    | Leave(seenOwner: Option<nat>, user: nat)
    | Transfer(organizationId: nat, from: nat, to: nat)
    | Close(organizationId: nat)

  predicate Enabled(t: Tables, step: Step) {
    match step
    case Register => true
    case Accept(_, _, _) => true
    case Remove(_, _, member) => member in t.users
    case Leave(_, user) => user in t.users
    case Transfer(o, from, to) => o in t.organizations && from in t.users && to in t.users
    case Close(o) => o in t.organizations
  }

  function Next(t: Tables, step: Step): Tables
    requires Enabled(t, step)
  {
    match step
    case Register => Registered(t)
    case Accept(o, role, existing) => Joined(t, o, role, existing)
    case Remove(o, seenOwner, member) => Removed(t, o, seenOwner, member)
    case Leave(seenOwner, user) => Left(t, seenOwner, user)
    case Transfer(o, from, to) => Transferred(t, o, from, to)
    case Close(o) => Closed(t, o)
  }

  predicate Legal(t: Tables, steps: seq<Step>)
    decreases |steps|
  {
    steps == [] || (Enabled(t, steps[0]) && Legal(Next(t, steps[0]), steps[1..]))
  }

  function Final(t: Tables, steps: seq<Step>): Tables
    requires Legal(t, steps)
    decreases |steps|
  {
    if steps == [] then t else Final(Next(t, steps[0]), steps[1..])
  }

  /** The owner of today is not let go, and a transfer that is let through is sound. */
  predicate SoundStep(t: Tables, step: Step)
    requires Enabled(t, step)
  {
    match step
    case Remove(o, seenOwner, member) => !Owns(t, member) || t.users[member].organizationId != o || seenOwner == Some(member)
    case Leave(seenOwner, user) => !Owns(t, user) || seenOwner == Some(user)
    case Transfer(o, from, to) => TransferRefusal(t, o, from, to).Some? || Sound(t, o, from, to)
    case _ => true
  }

  lemma {:induction false} StepKeepsOneOwnerExactlyWhenSound(t: Tables, step: Step)
    requires Inv(t) && Enabled(t, step)
    ensures Inv(Next(t, step)) <==> SoundStep(t, step)
  {
    hide Inv, Owns, Sound;
    match step {
      case Register => RegisteringKeepsOneOwner(t);
      case Accept(o, role, existing) => JoiningKeepsOneOwner(t, o, role, existing);
      case Remove(o, seenOwner, member) => RemovalIsSafeExactlyWhenTheOwnerStays(t, o, seenOwner, member);
      case Leave(seenOwner, user) => RemovalIsSafeExactlyWhenTheOwnerStays(t, t.users[user].organizationId, seenOwner, user);
      case Transfer(o, from, to) =>
        if TransferRefusal(t, o, from, to).None? {
          TransferIsSafeExactlyWhen(t, o, from, to);
        }
      case Close(o) => ClosingKeepsOneOwner(t, o);
    }
  }

  predicate AllSound(t: Tables, steps: seq<Step>)
    requires Legal(t, steps)
    decreases |steps|
  {
    steps == [] || (SoundStep(t, steps[0]) && AllSound(Next(t, steps[0]), steps[1..]))
  }

  predicate OwnedThroughout(t: Tables, steps: seq<Step>)
    requires Legal(t, steps)
    decreases |steps|
  {
    Inv(t) && (steps == [] || OwnedThroughout(Next(t, steps[0]), steps[1..]))
  }

  /**
   * Over any run, whatever its callers saw: every live workspace has exactly one
   * live owner, and knows who it is, at every moment exactly when every step is sound.
   */
  lemma {:induction false} OneOwnerExactlyWhenSound(t: Tables, steps: seq<Step>)
    requires Inv(t) && Legal(t, steps)
    ensures OwnedThroughout(t, steps) <==> AllSound(t, steps)
    ensures AllSound(t, steps) ==> Inv(Final(t, steps))
    decreases |steps|
  {
    hide Inv, Next, Enabled, SoundStep;
    if steps != [] {
      StepKeepsOneOwnerExactlyWhenSound(t, steps[0]);
      if SoundStep(t, steps[0]) {
        OneOwnerExactlyWhenSound(Next(t, steps[0]), steps[1..]);
      } else {
        NotOwnedAtOnce(Next(t, steps[0]), steps[1..]);
      }
    }
  }

  lemma {:induction false} NotOwnedAtOnce(t: Tables, steps: seq<Step>)
    requires Legal(t, steps) && !Inv(t)
    ensures !OwnedThroughout(t, steps)
  {
  }

  /** The owner a caller that has just loaded the workspace sees. */
  function CurrentOwner(t: Tables, organizationId: nat): Option<nat> {
    if organizationId in t.organizations then t.organizations[organizationId].ownerId else None
  }

  /** What the policies and look-ups of the controllers arrange, as long as nothing overtakes them. */
  predicate ByPolicy(t: Tables, step: Step)
    requires Enabled(t, step)
  {
    match step
    case Remove(o, seenOwner, _) => seenOwner == CurrentOwner(t, o)
    case Leave(seenOwner, user) => seenOwner == CurrentOwner(t, t.users[user].organizationId)
    case Transfer(o, from, to) => Live(t, o) && CurrentOwner(t, o) == Some(from) && to in MembersOf(t, o)
    case _ => true
  }

  lemma {:induction false} PolicyIsSound(t: Tables, step: Step)
    requires Inv(t) && Enabled(t, step) && ByPolicy(t, step)
    ensures SoundStep(t, step)
  {
  }

  predicate AllByPolicy(t: Tables, steps: seq<Step>)
    requires Legal(t, steps)
    decreases |steps|
  {
    steps == [] || (ByPolicy(t, steps[0]) && AllByPolicy(Next(t, steps[0]), steps[1..]))
  }

  /**
   * From any sound state, an empty installation included: with up-to-date callers
   * every live workspace has one live owner at the end of any run.
   */
  lemma {:induction false} ExactlyOneOwner(t: Tables, steps: seq<Step>)
    requires Inv(t) && Legal(t, steps) && AllByPolicy(t, steps)
    ensures AllSound(t, steps)
    ensures forall o :: Live(Final(t, steps), o) ==> OneOwner(Final(t, steps), o)
    decreases |steps|
  {
    if steps != [] {
      hide Next, Enabled, SoundStep;
      PolicyIsSound(t, steps[0]);
      StepKeepsOneOwnerExactlyWhenSound(t, steps[0]);
      ExactlyOneOwner(Next(t, steps[0]), steps[1..]);
    }
  }

  /** A removal decided on an owner read before a transfer takes out the new owner, and leaves the workspace with none. */
  lemma {:induction false} StaleRemovalStrandsTheWorkspace(t: Tables, organizationId: nat, from: nat, to: nat)
    requires Inv(t) && Live(t, organizationId) && t.organizations[organizationId].ownerId == Some(from)
    requires to in MembersOf(t, organizationId) && to != from
    ensures var handed := Transferred(t, organizationId, from, to);
            && from in t.users && to in handed.users && Inv(handed)
            && RemoveRefusal(handed, organizationId, Some(from), to).None?
            && OwnersOf(Removed(handed, organizationId, Some(from), to), organizationId) == {}
  {
    assert OneOwner(t, organizationId);
    assert from in OwnersOf(t, organizationId);
    TransferIsSafeExactlyWhen(t, organizationId, from, to);
    var handed := Transferred(t, organizationId, from, to);
    assert OneOwner(handed, organizationId);
    OwnersAfterSoftDelete(handed, to, organizationId);
  }
}
