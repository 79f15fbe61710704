/** API keys: the second client of the locked quota check, and how a slot is freed. */
module ApiKeyService {
  import opened Prelude
  import opened Plans
  import opened Seats

  datatype KeyError = NoScopes | NoSuchWorkspace | OverLimit(exceeded: PlanLimitExceeded)

  function CreateRefusal(db: Db, organizationId: nat, scopes: set<string>): Option<KeyError> {
    if scopes == {} then Some(NoScopes)
    else if organizationId !in db.organizations then Some(NoSuchWorkspace)
    else
      var checked := AssertWithinLimit(db.organizations[organizationId], LimitKey.ApiKeys, |ActiveKeys(db, organizationId)| + 1);
      if checked.Err? then Some(OverLimit(checked.error)) else None
  }

  function Revoked(db: Db, key: nat): Db
    requires key in db.keys
  {
    db.(keys := db.keys[key := db.keys[key].(revoked := true)])
  }

  class ApiKeyService {
    var db: Db

    constructor (db: Db)
      ensures this.db == db
    {
      this.db := db;
    }

    method Create(organizationId: nat, scopes: set<string>) returns (result: Result<nat, KeyError>)
      modifies this
      ensures var refusal := CreateRefusal(old(db), organizationId, scopes);
              if refusal.Some? then result == Err(refusal.value) && db == old(db)
              else result == Ok(old(db).nextId) && db == Committed(old(db), Minting(organizationId, Locked), 0)
      ensures result == Err(NoScopes) <==> scopes == {}
      ensures result == Err(NoSuchWorkspace) <==> scopes != {} && organizationId !in old(db).organizations
    {
      if scopes == {} {
        return Err(NoScopes);
      }
      if organizationId !in db.organizations {
        return Err(NoSuchWorkspace);
      }
      var current := ActiveCount(organizationId);
      var checked := AssertWithinLimit(db.organizations[organizationId], LimitKey.ApiKeys, current + 1);
      if checked.Err? {
        return Err(OverLimit(checked.error));
      }
      var id := db.nextId;
      db := db.(keys := db.keys[id := Key(organizationId, false)], nextId := id + 1);
      return Ok(id);
    }

    method Revoke(key: nat)
      requires key in db.keys
      modifies this
      ensures db == Revoked(old(db), key)
    {
      db := db.(keys := db.keys[key := db.keys[key].(revoked := true)]);
    }

    method ActiveCount(organizationId: nat) returns (count: nat)
      ensures count == |ActiveKeys(db, organizationId)|
    {
      count := |ActiveKeys(db, organizationId)|;
    }
  }

  lemma {:induction false} MintedKeyIsActive(db: Db, organizationId: nat, other: nat)
    requires Fresh(db)
    ensures ActiveKeys(Committed(db, Minting(organizationId, Locked), 0), other)
         == ActiveKeys(db, other) + (if other == organizationId then {db.nextId} else {})
    ensures db.nextId !in ActiveKeys(db, other)
  {
  }

  /** A key that is not refused takes exactly one slot, and the slots in use still fit the plan. */
  lemma {:induction false} KeyTakesOneSlotWithinTheLimit(db: Db, organizationId: nat, scopes: set<string>)
    requires Fresh(db) && CreateRefusal(db, organizationId, scopes).None?
    ensures var after := Committed(db, Minting(organizationId, Locked), 0);
            && ActiveKeys(after, organizationId) == ActiveKeys(db, organizationId) + {db.nextId}
            && |ActiveKeys(after, organizationId)| == |ActiveKeys(db, organizationId)| + 1
            && Within(LimitOf(after, KeyQuota, organizationId), |ActiveKeys(after, organizationId)|)
            && forall other :: other != organizationId ==> ActiveKeys(after, other) == ActiveKeys(db, other)
  {
    hide ActiveKeys;
    MintedKeyIsActive(db, organizationId, organizationId);
    forall other | other != organizationId
      ensures ActiveKeys(Committed(db, Minting(organizationId, Locked), 0), other) == ActiveKeys(db, other)
    {
      MintedKeyIsActive(db, organizationId, other);
    }
  }

  /** Revoking lowers the count by one exactly when the key was active, and touches no other workspace. */
  lemma {:induction false} RevokingLowersTheCountExactlyWhenActive(db: Db, key: nat, other: nat)
    requires key in db.keys
    ensures |ActiveKeys(Revoked(db, key), other)|
         == |ActiveKeys(db, other)| - (if other == db.keys[key].organizationId && !db.keys[key].revoked then 1 else 0)
  {
    assert ActiveKeys(Revoked(db, key), other) == ActiveKeys(db, other) - {key};
    assert key in ActiveKeys(db, other) <==> other == db.keys[key].organizationId && !db.keys[key].revoked;
  }

  /**
   * At the ceiling, and no higher, the next key is refused before a revocation
   * and accepted after it. Doing it twice is doing it once.
   */
  lemma {:induction false} RevokingFreesASlot(db: Db, key: nat, scopes: set<string>)
    requires key in db.keys && !db.keys[key].revoked && scopes != {}
    requires var o := db.keys[key].organizationId;
             o in db.organizations && LimitOf(db, KeyQuota, o) == Some(|ActiveKeys(db, o)|)
    ensures var o := db.keys[key].organizationId;
            && CreateRefusal(db, o, scopes).Some? && CreateRefusal(Revoked(db, key), o, scopes).None?
            && |ActiveKeys(Revoked(db, key), o)| == |ActiveKeys(db, o)| - 1
            && Revoked(Revoked(db, key), key) == Revoked(db, key)
  {
    var o := db.keys[key].organizationId;
    assert ActiveKeys(Revoked(db, key), o) == ActiveKeys(db, o) - {key};
  }

  /** A key is refused exactly when it may do nothing, its workspace is not there, or the active keys and it exceed the limit. */
  lemma {:induction false} CreatedExactlyWhenItFits(db: Db, organizationId: nat, scopes: set<string>)
    ensures CreateRefusal(db, organizationId, scopes).None?
       <==> && scopes != {} && organizationId in db.organizations
            && var limit := LimitFor(db.organizations[organizationId], LimitKey.ApiKeys);
            limit.None? || |set k | k in db.keys && db.keys[k].organizationId == organizationId && !db.keys[k].revoked| < limit.value
  {
    assert ActiveKeys(db, organizationId) == set k | k in db.keys && db.keys[k].organizationId == organizationId && !db.keys[k].revoked;
  }

  /** Zero means "not on this plan": without an override the free plan refuses the very first key. */
  lemma {:induction false} FreePlanHasNoKeys(db: Db, organizationId: nat, scopes: set<string>)
    requires organizationId in db.organizations && scopes != {}
    requires PlanKeyFor(db.organizations[organizationId].planKey) == "free" && LimitKey.ApiKeys !in db.organizations[organizationId].limitOverrides
    ensures CreateRefusal(db, organizationId, scopes) == Some(OverLimit(PlanLimitExceeded(LimitKey.ApiKeys, 0, |ActiveKeys(db, organizationId)|)))
  {
    RetiredPlanIsFree(db.organizations[organizationId].planKey, db.organizations[organizationId].limitOverrides, LimitKey.ApiKeys);
  }
}
