/**
 * Whether the entitlement a workspace has is the function of its subscription,
 * over any run: exactly while corrections and syncs are worked out on copies
 * that still entitle to the same.
 */
module EntitlementRuns {
  import opened Prelude
  import opened Plans
  import opened WebhookHandler
  import opened Reconciliation
  import opened BillingRuns

  /** No other subscription row belongs to this row's workspace. */
  ghost predicate SoleRow(subscriptions: map<string, Subscription>, id: string)
    requires id in subscriptions
  {
    forall other :: other in subscriptions && other != id ==>
                      subscriptions[other].mirror.organizationId != subscriptions[id].mirror.organizationId
  }

  predicate Follows(organization: Organization, mirror: Mirror) {
    organization.planKey == EntitledPlan(mirror) && organization.status == EntitledStatus(mirror)
  }

  /** Status by status: what a subscription on this plan gives its workspace. */
  predicate Gives(status: SubscriptionStatus, planKey: string, organization: Organization) {
    match status
    case Trialing => GivesPlan(planKey, organization.planKey) && organization.status == Running
    case Active => GivesPlan(planKey, organization.planKey) && organization.status == Running
    case PastDue => GivesPlan(planKey, organization.planKey) && organization.status == Overdue
    case Paused => organization.planKey == "free" && organization.status == Running
    case Canceled => organization.planKey == "free" && organization.status == Running
    case Expired => organization.planKey == "free" && organization.status == Running
  }

  /** A plan the catalogue knows is given as it is, any other as free. */
  predicate GivesPlan(bought: string, given: string) {
    given == if bought == "pro" then "pro" else if bought == "business" then "business" else "free"
  }

  lemma {:induction false} FollowingIsGiving(organization: Organization, mirror: Mirror)
    ensures Follows(organization, mirror) <==> Gives(mirror.status, mirror.planKey, organization)
  {
  }

  /** A subscription event that is applied gives its workspace what the row it writes is worth, and no other workspace anything. */
  lemma {:induction false} EventGives(billing: Billing, products: Products, event: Event, now: int, provider: Provider)
    requires Honest(provider) && event.AboutSubscription() && event.subscription.Some?
    requires Applied(billing, event, now, provider, products).Ok?
    requires !IsStale(Lookup(billing.subscriptions, event.subscription.value.id), event.occurredAt)
    ensures var (after, id) := (Applied(billing, event, now, provider, products).value, event.subscription.value.id);
            && id in after.subscriptions
            && var row := after.subscriptions[id].mirror;
            && row.organizationId in after.organizations
            && Gives(row.status, row.planKey, after.organizations[row.organizationId])
            && (forall o :: o in billing.organizations && o != row.organizationId ==>
                              o in after.organizations && after.organizations[o] == billing.organizations[o])
            && after.organizations[row.organizationId].trialEndsAt
               == (if row.status in {Trialing, Active, PastDue} then row.trialEndsAt else billing.organizations[row.organizationId].trialEndsAt)
  {
    hide PlanKeyOf, ResolveOrganization, Notices;
  }

  /** So does a correction, from the copy it was decided on. */
  lemma {:induction false} CorrectionGives(billing: Billing, c: Correction, now: int)
    requires c.id in billing.subscriptions && c.copy.organizationId in billing.organizations
    ensures var after := Corrected(billing, c, now);
            && c.copy.organizationId in after.organizations
            && Gives(c.status, c.copy.planKey, after.organizations[c.copy.organizationId])
            && (c.status != c.copy.status ==> after.subscriptions[c.id].mirror.status == c.status)
            && after.subscriptions[c.id].mirror.planKey == billing.subscriptions[c.id].mirror.planKey
  {
  }

  /**
   * And a sync that nothing has overtaken: the row says what the provider says,
   * column by column, and the workspace has what that is worth.
   */
  lemma {:induction false} SyncGives(billing: Billing, products: Products, id: string, theirs: ProviderSubscription, now: int)
    requires id in billing.subscriptions && billing.subscriptions[id].mirror.organizationId in billing.organizations
    ensures var row := billing.subscriptions[id].mirror;
            var o := row.organizationId;
            var after := Synced(billing, id, row, billing.organizations[o], theirs, now, products);
            && id in after.subscriptions && o in after.organizations
            && var synced := after.subscriptions[id].mirror;
            && synced.status == theirs.status && synced.currentPeriodStart == theirs.currentPeriodStart
            && synced.currentPeriodEnd == theirs.currentPeriodEnd && synced.cancelAtPeriodEnd == theirs.cancelAtPeriodEnd
            && synced.canceledAt == theirs.canceledAt
            && synced.customerId == row.customerId && synced.trialEndsAt == row.trialEndsAt && synced.organizationId == o
            && (PlanKeyForProductId(products, theirs.productId).Some? ==> Some(synced.planKey) == PlanKeyForProductId(products, theirs.productId))
            && (PlanKeyForProductId(products, theirs.productId).None? ==> synced.planKey == row.planKey)
            && Gives(synced.status, synced.planKey, after.organizations[o])
  {
    hide PlanKeyForProductId;
  }

  ghost predicate EntitlementsFollow(billing: Billing) {
    forall id :: id in billing.subscriptions && SoleRow(billing.subscriptions, id)
                 && billing.subscriptions[id].mirror.organizationId in billing.organizations ==>
                   Follows(billing.organizations[billing.subscriptions[id].mirror.organizationId], billing.subscriptions[id].mirror)
  }

  /** One row is saved for a workspace, and that workspace's entitlement is derived from it. */
  predicate WritesThrough(before: Billing, after: Billing, id: string, mirror: Mirror) {
    && id in after.subscriptions && after.subscriptions[id].mirror == mirror
    && (id in before.subscriptions ==> before.subscriptions[id].mirror.organizationId == mirror.organizationId)
    && after.subscriptions.Keys == before.subscriptions.Keys + {id}
    && (forall other :: other in before.subscriptions && other != id ==> after.subscriptions[other] == before.subscriptions[other])
    && after.organizations.Keys == before.organizations.Keys
    && (forall o :: o in before.organizations && o != mirror.organizationId ==> after.organizations[o] == before.organizations[o])
    && (mirror.organizationId in after.organizations ==> Follows(after.organizations[mirror.organizationId], mirror))
  }

  lemma {:induction false} WritingThroughKeepsFollowing(before: Billing, after: Billing, id: string, mirror: Mirror)
    requires EntitlementsFollow(before) && WritesThrough(before, after, id, mirror)
    ensures EntitlementsFollow(after)
  {
    forall other | other in after.subscriptions && SoleRow(after.subscriptions, other)
                   && after.subscriptions[other].mirror.organizationId in after.organizations
      ensures Follows(after.organizations[after.subscriptions[other].mirror.organizationId], after.subscriptions[other].mirror)
    {
      if other != id {
        assert after.subscriptions[other].mirror.organizationId != mirror.organizationId;
        assert SoleRow(before.subscriptions, other);
      }
    }
  }

  lemma {:induction false} DeliveryWritesThrough(billing: Billing, products: Products, event: Event, now: int, provider: Provider)
    requires Honest(provider) && event.AboutSubscription()
    requires Applied(billing, event, now, provider, products).Ok?
    ensures var after := Applied(billing, event, now, provider, products).value;
            after == billing || exists id, mirror :: WritesThrough(billing, after, id, mirror)
  {
    var after := Applied(billing, event, now, provider, products).value;
    if event.subscription.Some? && !IsStale(Lookup(billing.subscriptions, event.subscription.value.id), event.occurredAt) {
      var id := event.subscription.value.id;
      assert WritesThrough(billing, after, id, after.subscriptions[id].mirror);
    }
  }

  lemma {:induction false} DeliveryKeepsFollowing(billing: Billing, products: Products, event: Event, now: int, provider: Provider)
    requires EntitlementsFollow(billing) && Honest(provider) && Applied(billing, event, now, provider, products).Ok?
    ensures EntitlementsFollow(Applied(billing, event, now, provider, products).value)
  {
    hide WritesThrough, AppliedSubscription, Follows;
    var after := Applied(billing, event, now, provider, products).value;
    if event.AboutSubscription() {
      DeliveryWritesThrough(billing, products, event, now, provider);
      if after != billing {
        var id, mirror :| WritesThrough(billing, after, id, mirror);
        WritingThroughKeepsFollowing(billing, after, id, mirror);
      }
    } else {
      assert after.subscriptions == billing.subscriptions && after.organizations == billing.organizations;
    }
  }

  // ---------------------------------------------------------------- changes worked out on a copy

  /** One existing row is rewritten within its workspace, and no other workspace is touched. */
  predicate RewritesOne(before: Billing, after: Billing, id: string) {
    && id in before.subscriptions && after.subscriptions.Keys == before.subscriptions.Keys
    && after.subscriptions[id].mirror.organizationId == before.subscriptions[id].mirror.organizationId
    && (forall other :: other in before.subscriptions && other != id ==> after.subscriptions[other] == before.subscriptions[other])
    && after.organizations.Keys == before.organizations.Keys
    && (forall o :: o in before.organizations && o != before.subscriptions[id].mirror.organizationId ==>
                      after.organizations[o] == before.organizations[o])
  }

  /** Then the books follow exactly when that row, if it is the only one of a workspace that is there, is followed. */
  lemma {:induction false} OneRowDecides(before: Billing, after: Billing, id: string)
    requires EntitlementsFollow(before) && RewritesOne(before, after, id)
    ensures var o := before.subscriptions[id].mirror.organizationId;
            EntitlementsFollow(after)
            <==> (SoleRow(before.subscriptions, id) && o in before.organizations ==>
                    Follows(after.organizations[o], after.subscriptions[id].mirror))
  {
    hide Follows;
    var o := before.subscriptions[id].mirror.organizationId;
    assert SoleRow(after.subscriptions, id) <==> SoleRow(before.subscriptions, id);
    if SoleRow(before.subscriptions, id) && o in before.organizations && !Follows(after.organizations[o], after.subscriptions[id].mirror) {
      assert !EntitlementsFollow(after);
    } else {
      forall other | other in after.subscriptions && SoleRow(after.subscriptions, other)
                     && after.subscriptions[other].mirror.organizationId in after.organizations
        ensures Follows(after.organizations[after.subscriptions[other].mirror.organizationId], after.subscriptions[other].mirror)
      {
        if other != id {
          assert after.subscriptions[other].mirror.organizationId != o;
          assert SoleRow(before.subscriptions, other);
        }
      }
    }
  }

  /** The copy a correction was decided on still names a plan that entitles to the same, if it is to entitle at all. */
  predicate CopyStillEntitles(copy: Mirror, row: Mirror, status: SubscriptionStatus) {
    copy.(status := status).IsEntitling() ==> PlanKeyFor(copy.planKey) == PlanKeyFor(row.planKey)
  }

  /** The columns a sync leaves as they are and those it writes, row and workspace, fit together. */
  predicate SyncFits(copy: Mirror, row: Mirror, home: Organization, workspace: Organization, theirs: ProviderSubscription, products: Products) {
    var instance := SyncedMirror(copy, theirs, products);
    var stored := row.(status := if instance.status != copy.status then instance.status else row.status,
                       planKey := if instance.planKey != copy.planKey then instance.planKey else row.planKey);
    && EntitledPlan(stored) == (if EntitledPlan(instance) != home.planKey then EntitledPlan(instance) else workspace.planKey)
    && EntitledStatus(stored) == (if EntitledStatus(instance) != home.status then EntitledStatus(instance) else workspace.status)
  }

  /** Matters only for the one row of a workspace that is there. */
  ghost predicate Governs(billing: Billing, id: string) {
    && id in billing.subscriptions && SoleRow(billing.subscriptions, id)
    && billing.subscriptions[id].mirror.organizationId in billing.organizations
  }

  /** What a change must find for the entitlement to go on following. */
  ghost predicate Fresh(billing: Billing, products: Products, change: Change) {
    match change
    case Deliver(_, _) => true
    case FillCustomer(_, _) => true
    case Correct(c) => Governs(billing, c.id) ==> CopyStillEntitles(c.copy, billing.subscriptions[c.id].mirror, c.status)
    case Resync(id, copy, home, theirs) =>
      Governs(billing, id) ==>
        SyncFits(copy, billing.subscriptions[id].mirror, home,
                 billing.organizations[billing.subscriptions[id].mirror.organizationId], theirs, products)
  }

  /** The copy is of the row it names, at whatever time, and a correction corrects something. */
  predicate OfItsRow(billing: Billing, change: Change) {
    match change
    case Correct(c) =>
      c.copy.status != c.status
      && (c.id in billing.subscriptions ==> c.copy.organizationId == billing.subscriptions[c.id].mirror.organizationId)
    case Resync(id, copy, _, _) =>
      id in billing.subscriptions ==> copy.organizationId == billing.subscriptions[id].mirror.organizationId
    case _ => true
  }

  lemma {:induction false} CorrectionKeepsFollowingExactlyWhen(billing: Billing, c: Correction, now: int)
    requires EntitlementsFollow(billing) && OfItsRow(billing, Correct(c))
    ensures EntitlementsFollow(Corrected(billing, c, now))
       <==> (Governs(billing, c.id) ==> CopyStillEntitles(c.copy, billing.subscriptions[c.id].mirror, c.status))
  {
    hide EntitlementsFollow, SoleRow;
    if c.id in billing.subscriptions {
      OneRowDecides(billing, Corrected(billing, c, now), c.id);
    }
  }

  lemma {:induction false} SyncKeepsFollowingExactlyWhen(billing: Billing, id: string, copy: Mirror, home: Organization,
                                                         theirs: ProviderSubscription, now: int, products: Products)
    requires EntitlementsFollow(billing) && OfItsRow(billing, Resync(id, copy, home, theirs))
    ensures EntitlementsFollow(Synced(billing, id, copy, home, theirs, now, products))
       <==> Fresh(billing, products, Resync(id, copy, home, theirs))
  {
    hide EntitlementsFollow, SoleRow, Synced, RewritesOne, SyncFits, Follows;
    if id in billing.subscriptions {
      SyncRewritesOne(billing, id, copy, home, theirs, now, products);
      OneRowDecides(billing, Synced(billing, id, copy, home, theirs, now, products), id);
      if copy.organizationId in billing.organizations {
        SyncFitsExactlyWhenFollowed(billing, id, copy, home, theirs, now, products);
      }
    } else {
      NothingToSync(billing, id, copy, home, theirs, now, products);
    }
  }

  lemma {:induction false} NothingToSync(billing: Billing, id: string, copy: Mirror, home: Organization,
                                         theirs: ProviderSubscription, now: int, products: Products)
    requires id !in billing.subscriptions
    ensures Synced(billing, id, copy, home, theirs, now, products) == billing
  {
  }

  lemma {:induction false} SyncRewritesOne(billing: Billing, id: string, copy: Mirror, home: Organization,
                                           theirs: ProviderSubscription, now: int, products: Products)
    requires id in billing.subscriptions && copy.organizationId == billing.subscriptions[id].mirror.organizationId
    ensures RewritesOne(billing, Synced(billing, id, copy, home, theirs, now, products), id)
  {
    hide SyncedMirror, Reentitle;
  }

  lemma {:induction false} SyncFitsExactlyWhenFollowed(billing: Billing, id: string, copy: Mirror, home: Organization,
                                                       theirs: ProviderSubscription, now: int, products: Products)
    requires id in billing.subscriptions && copy.organizationId == billing.subscriptions[id].mirror.organizationId
    requires copy.organizationId in billing.organizations
    ensures var (after, o) := (Synced(billing, id, copy, home, theirs, now, products), copy.organizationId);
            && o in after.organizations && id in after.subscriptions
            && (Follows(after.organizations[o], after.subscriptions[id].mirror)
                <==> SyncFits(copy, billing.subscriptions[id].mirror, home, billing.organizations[o], theirs, products))
  {
    hide EntitledPlan, EntitledStatus, SyncedMirror, SavedOver;
    var row := billing.subscriptions[id];
    var instance := SyncedMirror(copy, theirs, products);
    var stored := row.mirror.(status := if instance.status != copy.status then instance.status else row.mirror.status,
                              planKey := if instance.planKey != copy.planKey then instance.planKey else row.mirror.planKey);
    SavingOver(row, copy, instance, now);
    SameEntitlement(SavedOver(row, copy, instance, now).mirror, stored);
  }

  lemma {:induction false} SameEntitlement(a: Mirror, b: Mirror)
    requires a.status == b.status && a.planKey == b.planKey
    ensures EntitledPlan(a) == EntitledPlan(b) && EntitledStatus(a) == EntitledStatus(b)
  {
  }

  lemma {:induction false} FillingKeepsFollowing(billing: Billing, id: string, customerId: string, now: int)
    requires EntitlementsFollow(billing)
    ensures EntitlementsFollow(Filled(billing, id, customerId, now))
  {
    hide EntitlementsFollow, SoleRow;
    if id in billing.subscriptions {
      OneRowDecides(billing, Filled(billing, id, customerId, now), id);
      if Governs(billing, id) {
        FollowedBefore(billing, id);
      }
    }
  }

  lemma {:induction false} FollowedBefore(billing: Billing, id: string)
    requires EntitlementsFollow(billing) && Governs(billing, id)
    ensures Follows(billing.organizations[billing.subscriptions[id].mirror.organizationId], billing.subscriptions[id].mirror)
  {
  }

  /** One change, whatever it is. */
  lemma {:induction false} ChangeKeepsFollowingExactlyWhenFresh(billing: Billing, products: Products, m: Moment)
    requires EntitlementsFollow(billing) && OfItsRow(billing, m.change) && (m.change.Deliver? ==> Honest(m.change.provider))
    ensures EntitlementsFollow(After(billing, products, m)) <==> Fresh(billing, products, m.change)
  {
    hide EntitlementsFollow, Applied, Corrected, Synced, Filled, Honest, Governs, OfItsRow, SyncFits, CopyStillEntitles;
    match m.change {
      case Deliver(event, provider) =>
        if Applied(billing, event, m.at, provider, products).Ok? {
          DeliveryKeepsFollowing(billing, products, event, m.at, provider);
        }
      case Correct(c) => CorrectionKeepsFollowingExactlyWhen(billing, c, m.at);
      case Resync(id, copy, home, theirs) => SyncKeepsFollowingExactlyWhen(billing, id, copy, home, theirs, m.at, products);
      case FillCustomer(id, customerId) => FillingKeepsFollowing(billing, id, customerId, m.at);
    }
  }

  /** A copy nothing has overtaken is fresh: what the webhooks, the sweep and the button write then is one and the same. */
  lemma {:induction false} CurrentCopyIsFresh(billing: Billing, products: Products, change: Change)
    requires EntitlementsFollow(billing)
    requires change.Correct? && change.correction.id in billing.subscriptions ==>
               change.correction.copy == billing.subscriptions[change.correction.id].mirror
    requires change.Resync? && change.id in billing.subscriptions && change.copy.organizationId in billing.organizations ==>
               change.copy == billing.subscriptions[change.id].mirror && change.home == billing.organizations[change.copy.organizationId]
    requires OfItsRow(billing, change)
    ensures Fresh(billing, products, change)
  {
    hide EntitlementsFollow, SoleRow;
    if change.Resync? && Governs(billing, change.id) {
      FollowedBefore(billing, change.id);
    }
  }

  // ---------------------------------------------------------------- every run

  lemma {:induction false} RowsKeepTheirWorkspace(billing: Billing, products: Products, m: Moment, id: string)
    requires id in billing.subscriptions && (m.change.Deliver? ==> Honest(m.change.provider))
    ensures var after := After(billing, products, m);
            id in after.subscriptions && after.subscriptions[id].mirror.organizationId == billing.subscriptions[id].mirror.organizationId
  {
    hide PlanKeyOf, Notices, Entitle, Reentitle, DirtyHome, SyncedMirror, MergedPayment;
    match m.change {
      case Deliver(event, provider) =>
        var applied := Applied(billing, event, m.at, provider, products);
        if applied.Ok? && event.AboutSubscription() && event.subscription.Some? {
          var claimed := event.subscription.value;
          assert Trusted(event, claimed, provider).id == claimed.id;
        }
      case _ =>
    }
  }

  ghost predicate HonestRun(run: seq<Moment>) {
    forall k :: 0 <= k < |run| && run[k].change.Deliver? ==> Honest(run[k].change.provider)
  }

  lemma {:induction false} RowsStayInTheirWorkspace(billing: Billing, products: Products, run: seq<Moment>, j: nat, k: nat, id: string)
    requires j <= k <= |run| && HonestRun(run) && id in StateAt(billing, products, run, j).subscriptions
    ensures id in StateAt(billing, products, run, k).subscriptions
    ensures StateAt(billing, products, run, k).subscriptions[id].mirror.organizationId
         == StateAt(billing, products, run, j).subscriptions[id].mirror.organizationId
  {
    if j < k {
      hide After;
      RowsStayInTheirWorkspace(billing, products, run, j, k - 1, id);
      RowsKeepTheirWorkspace(StateAt(billing, products, run, k - 1), products, run[k - 1], id);
    }
  }

  /** The copies of `change` are what the tables held in `earlier`. */
  predicate LoadedIn(earlier: Billing, change: Change) {
    match change
    case Correct(c) => c.copy.status != c.status && Lookup(earlier.subscriptions, c.id).Some? && earlier.subscriptions[c.id].mirror == c.copy
    case Resync(id, copy, home, _) =>
      && Lookup(earlier.subscriptions, id).Some? && earlier.subscriptions[id].mirror == copy
      && Lookup(earlier.organizations, copy.organizationId) == Some(home)
    case _ => true
  }

  /** Each correction and each sync works on copies loaded at some earlier moment of the run. */
  ghost predicate LoadedRun(billing: Billing, products: Products, run: seq<Moment>) {
    forall k :: 0 <= k < |run| ==> exists j :: 0 <= j <= k && LoadedIn(StateAt(billing, products, run, j), run[k].change)
  }

  lemma {:induction false} CopiesAreOfTheirRows(billing: Billing, products: Products, run: seq<Moment>, k: nat)
    requires k < |run| && HonestRun(run) && LoadedRun(billing, products, run)
    ensures OfItsRow(StateAt(billing, products, run, k), run[k].change)
  {
    hide After, Honest;
    var j :| 0 <= j <= k && LoadedIn(StateAt(billing, products, run, j), run[k].change);
    match run[k].change {
      case Correct(c) => RowsStayInTheirWorkspace(billing, products, run, j, k, c.id);
      case Resync(id, _, _, _) => RowsStayInTheirWorkspace(billing, products, run, j, k, id);
      case _ =>
    }
  }

  ghost predicate FollowsThroughout(billing: Billing, products: Products, run: seq<Moment>, n: nat)
    requires n <= |run|
  {
    forall k :: 0 <= k <= n ==> EntitlementsFollow(StateAt(billing, products, run, k))
  }

  ghost predicate AllFresh(billing: Billing, products: Products, run: seq<Moment>, n: nat)
    requires n <= |run|
  {
    forall k :: 0 <= k < n ==> Fresh(StateAt(billing, products, run, k), products, run[k].change)
  }

  /**
   * Over any run of webhooks, corrections, syncs and portal visits, every
   * workspace with one subscription row has the entitlement that row gives, at
   * every moment, exactly when each correction and each sync finds its copies
   * fresh.
   */
  lemma {:induction false} EntitlementFollowsExactlyWhenFresh(billing: Billing, products: Products, run: seq<Moment>, n: nat)
    requires n <= |run| && EntitlementsFollow(billing) && HonestRun(run) && LoadedRun(billing, products, run)
    ensures FollowsThroughout(billing, products, run, n) <==> AllFresh(billing, products, run, n)
  {
    hide After, EntitlementsFollow, Fresh, LoadedRun, Honest;
    if n > 0 {
      EntitlementFollowsExactlyWhenFresh(billing, products, run, n - 1);
      CopiesAreOfTheirRows(billing, products, run, n - 1);
      assert FollowsThroughout(billing, products, run, n)
        <==> FollowsThroughout(billing, products, run, n - 1) && EntitlementsFollow(StateAt(billing, products, run, n));
      assert AllFresh(billing, products, run, n)
        <==> AllFresh(billing, products, run, n - 1) && Fresh(StateAt(billing, products, run, n - 1), products, run[n - 1].change);
      if FollowsThroughout(billing, products, run, n - 1) {
        assert EntitlementsFollow(StateAt(billing, products, run, n - 1));
        ChangeKeepsFollowingExactlyWhenFresh(StateAt(billing, products, run, n - 1), products, run[n - 1]);
      }
    }
  }

  /** Spelled out, for such a run. */
  lemma {:induction false} EntitlementFollowsTheSubscription(billing: Billing, products: Products, run: seq<Moment>, i: nat, id: string)
    requires i <= |run| && EntitlementsFollow(billing) && HonestRun(run) && LoadedRun(billing, products, run)
    requires AllFresh(billing, products, run, i) && Governs(StateAt(billing, products, run, i), id)
    ensures var now := StateAt(billing, products, run, i);
            var organization := now.organizations[now.subscriptions[id].mirror.organizationId];
            var (status, planKey) := (now.subscriptions[id].mirror.status, now.subscriptions[id].mirror.planKey);
            && (status == Trialing || status == Active || status == PastDue ==>
                  organization.planKey == if planKey == "pro" || planKey == "business" then planKey else "free")
            && (status == SubscriptionStatus.Paused || status == SubscriptionStatus.Canceled || status == SubscriptionStatus.Expired ==>
                  organization.planKey == "free")
            && (organization.status == Overdue <==> status == PastDue)
            && (organization.status == Running <==> status != PastDue)
  {
    hide EntitlementsFollow, AllFresh, LoadedRun, SoleRow, After;
    EntitlementFollowsExactlyWhenFresh(billing, products, run, i);
    FollowedBefore(StateAt(billing, products, run, i), id);
  }

  // ---------------------------------------------------------------- any number of rows

  /** The copy, if any, that a change entitles its workspace from. */
  function EntitlesFrom(billing: Billing, products: Products, m: Moment): Option<Mirror> {
    match m.change
    case Deliver(event, provider) =>
      if event.AboutSubscription() && event.subscription.Some? && Applied(billing, event, m.at, provider, products).Ok?
         && !IsStale(Lookup(billing.subscriptions, event.subscription.value.id), event.occurredAt)
      then Some(After(billing, products, m).subscriptions[Trusted(event, event.subscription.value, provider).id].mirror)
      else None
    case Correct(c) =>
      if c.id in billing.subscriptions && c.copy.organizationId in billing.organizations then Some(c.copy.(status := c.status)) else None
    case Resync(id, copy, _, theirs) =>
      if id in billing.subscriptions && copy.organizationId in billing.organizations then Some(SyncedMirror(copy, theirs, products)) else None
    case FillCustomer(_, _) => None
  }

  /** A sync whose workspace nobody has written to since it was loaded. */
  predicate HomeIsCurrent(billing: Billing, change: Change) {
    change.Resync? && change.copy.organizationId in billing.organizations ==>
      var workspace := billing.organizations[change.copy.organizationId];
      change.home.planKey == workspace.planKey && change.home.status == workspace.status
  }

  predicate Entitled(before: Organization, after: Organization, from: Option<Mirror>, o: nat) {
    if from.Some? && from.value.organizationId == o then Follows(after, from.value)
    else after.planKey == before.planKey && after.status == before.status
  }

  lemma {:induction false} PaymentsEntitleNobody(billing: Billing, event: Event)
    ensures AppliedPayment(billing, event).Ok? ==> AppliedPayment(billing, event).value.organizations == billing.organizations
    ensures AppliedDispute(billing, event).organizations == billing.organizations
  {
    hide MergedPayment, ResolveOrganization;
  }

  lemma {:induction false} DeliveryEntitles(billing: Billing, products: Products, event: Event, provider: Provider, at: int, o: nat)
    requires o in billing.organizations
    ensures var m := Moment(at, Deliver(event, provider));
            var after := After(billing, products, m);
            o in after.organizations && Entitled(billing.organizations[o], after.organizations[o], EntitlesFrom(billing, products, m), o)
  {
    hide PlanKeyOf, ResolveOrganization, EntitledPlan, EntitledStatus, Notices, AppliedPayment, AppliedDispute, Trusted, IsStale;
    PaymentsEntitleNobody(billing, event);
  }

  lemma {:induction false} SyncEntitles(billing: Billing, products: Products, change: Change, at: int, o: nat)
    requires o in billing.organizations && change.Resync? && HomeIsCurrent(billing, change)
    ensures var m := Moment(at, change);
            var after := After(billing, products, m);
            o in after.organizations && Entitled(billing.organizations[o], after.organizations[o], EntitlesFrom(billing, products, m), o)
  {
    hide SavedOver, EntitledPlan, EntitledStatus;
  }

  lemma {:induction false} OneChangeEntitles(billing: Billing, products: Products, m: Moment, o: nat)
    requires o in billing.organizations && HomeIsCurrent(billing, m.change)
    ensures var after := After(billing, products, m);
            o in after.organizations && Entitled(billing.organizations[o], after.organizations[o], EntitlesFrom(billing, products, m), o)
  {
    hide Applied, SavedOver, EntitledPlan, EntitledStatus, Synced;
    match m.change {
      case Deliver(event, provider) => DeliveryEntitles(billing, products, event, provider, m.at, o);
      case Resync(_, _, _, _) => SyncEntitles(billing, products, m.change, m.at, o);
      case _ =>
    }
  }

  /** The last copy that workspace `o` was entitled from in `run[..n]`. */
  function LastEntitledFrom(billing: Billing, products: Products, run: seq<Moment>, n: nat, o: nat): Option<Mirror>
    requires n <= |run|
  {
    if n == 0 then None else
      var from := EntitlesFrom(StateAt(billing, products, run, n - 1), products, run[n - 1]);
      if from.Some? && from.value.organizationId == o then from else LastEntitledFrom(billing, products, run, n - 1, o)
  }

  /**
   * Any workspace, with any number of rows: its plan and state are the function
   * of the copy it was last entitled from, or what it began with.
   */
  lemma {:induction false} EntitlementIsTheLastOneWritten(billing: Billing, products: Products, run: seq<Moment>, n: nat, o: nat)
    requires n <= |run| && o in billing.organizations
    requires forall k :: 0 <= k < n ==> HomeIsCurrent(StateAt(billing, products, run, k), run[k].change)
    ensures o in StateAt(billing, products, run, n).organizations
    ensures var (last, now) := (LastEntitledFrom(billing, products, run, n, o), StateAt(billing, products, run, n).organizations[o]);
            if last.Some? then Follows(now, last.value)
            else now.planKey == billing.organizations[o].planKey && now.status == billing.organizations[o].status
  {
    hide After, EntitlesFrom, HomeIsCurrent;
    if n > 0 {
      EntitlementIsTheLastOneWritten(billing, products, run, n - 1, o);
      OneChangeEntitles(StateAt(billing, products, run, n - 1), products, run[n - 1], o);
    }
  }

  // ---------------------------------------------------------------- a correction that comes too late

  const PRODUCTS: Products := Products(Some("prod_pro"), Some("prod_business"))

  function Row(planKey: string, status: SubscriptionStatus): Mirror {
    Mirror(1, None, planKey, status, None, None, false, None, None)
  }

  function Answered(product: string): ProviderSubscription {
    ProviderSubscription("sub", None, Some(product), Active, None, None, false, None, None)
  }

  /** One workspace and its one subscription. */
  function OneRow(row: Mirror, updatedAt: int, planKey: string, status: OrganizationStatus): Billing {
    Billing(map[1 := Organization(planKey, status, None, false, false)], map[],
            map["sub" := Subscription(row, 0, Some(updatedAt))], map[], [])
  }

  function Moved(): Event {
    Event(SubscriptionUpdated, 5000, None, Some(Answered("prod_business")), None)
  }

  function Late(): Correction {
    Correction("sub", Row("pro", PastDue), Active)
  }

  /** The sweep has read the row; a webhook moves it to business; the sweep corrects what it read. */
  function TooLate(): seq<Moment> {
    [Moment(5000, Deliver(Moved(), map[])), Moment(6000, Correct(Late()))]
  }

  function PastDueOnPro(): Billing {
    OneRow(Row("pro", PastDue), 0, "pro", Overdue)
  }

  lemma {:induction false} TheSweepDecidesOnIt()
    ensures AllWrong(PastDueOnPro().subscriptions, ["sub"], map["sub" := Found(Answered("prod_pro"))]) == [Late()]
  {
    assert ["sub"][..0] == [];
  }

  lemma {:induction false} TheWebhookMovesIt(status: SubscriptionStatus, planKey: string, entitled: OrganizationStatus)
    requires status in {PastDue, SubscriptionStatus.Paused}
    ensures After(OneRow(Row("pro", status), 0, planKey, entitled), PRODUCTS, TooLate()[0])
         == OneRow(Row("business", Active), 5000, "business", Running)
  {
    var billing := OneRow(Row("pro", status), 0, planKey, entitled);
    assert AppliedSubscription(billing, Moved(), 5000, map[], PRODUCTS)
        == Ok(WithSubscription(billing, 1, Answered("prod_business"), "business", Some(status), 5000));
  }

  lemma {:induction false} TheCorrectionStrandsIt()
    ensures After(OneRow(Row("business", Active), 5000, "business", Running), PRODUCTS, TooLate()[1])
         == OneRow(Row("business", Active), 6000, "pro", Running)
  {
  }

  lemma {:induction false} FollowedOrNot(row: Mirror, updatedAt: int, planKey: string, status: OrganizationStatus)
    requires row.organizationId == 1
    ensures EntitlementsFollow(OneRow(row, updatedAt, planKey, status)) <==> planKey == EntitledPlan(row) && status == EntitledStatus(row)
  {
    hide EntitledPlan, EntitledStatus;
    var billing := OneRow(row, updatedAt, planKey, status);
    assert billing.subscriptions.Keys == {"sub"} && SoleRow(billing.subscriptions, "sub");
    assert EntitlementsFollow(billing) <==> Follows(billing.organizations[1], row);
  }

  /** A correction decided on while the row said pro leaves the row on business and its workspace on pro. */
  lemma {:induction false} LateCorrectionStrandsThePlan()
    ensures EntitlementsFollow(PastDueOnPro()) && HonestRun(TooLate()) && TimelyRun(TooLate())
    ensures LoadedRun(PastDueOnPro(), PRODUCTS, TooLate())
    ensures StateAt(PastDueOnPro(), PRODUCTS, TooLate(), 2) == OneRow(Row("business", Active), 6000, "pro", Running)
    ensures !EntitlementsFollow(StateAt(PastDueOnPro(), PRODUCTS, TooLate(), 2))
  {
    hide After, EntitlementsFollow;
    FollowedOrNot(Row("pro", PastDue), 0, "pro", Overdue);
    FollowedOrNot(Row("business", Active), 6000, "pro", Running);
    TheWebhookMovesIt(PastDue, "pro", Overdue);
    TheCorrectionStrandsIt();
    LoadedBefore();
  }

  lemma {:induction false} LoadedBefore()
    ensures LoadedRun(PastDueOnPro(), PRODUCTS, TooLate())
  {
    hide After;
    assert LoadedIn(StateAt(PastDueOnPro(), PRODUCTS, TooLate(), 0), Correct(Late()));
    forall k | 0 <= k < 2
      ensures LoadedIn(StateAt(PastDueOnPro(), PRODUCTS, TooLate(), 0), TooLate()[k].change)
    {
    }
  }

  /** The button is pressed on a paused row, and answered after the same webhook. */
  function SyncedTooLate(): seq<Moment> {
    [TooLate()[0],
     Moment(6000, Resync("sub", Row("pro", SubscriptionStatus.Paused), PausedOnPro().organizations[1], Answered("prod_pro")))]
  }

  function PausedOnPro(): Billing {
    OneRow(Row("pro", SubscriptionStatus.Paused), 0, "free", Running)
  }

  lemma {:induction false} TheSyncStrandsIt()
    ensures After(OneRow(Row("business", Active), 5000, "business", Running), PRODUCTS, SyncedTooLate()[1])
         == OneRow(Row("business", Active), 6000, "pro", Running)
  {
  }

  lemma {:induction false} SyncLoadedBefore()
    ensures LoadedRun(PausedOnPro(), PRODUCTS, SyncedTooLate())
  {
    hide After;
    assert LoadedIn(StateAt(PausedOnPro(), PRODUCTS, SyncedTooLate(), 0), SyncedTooLate()[1].change);
    forall k | 0 <= k < 2
      ensures LoadedIn(StateAt(PausedOnPro(), PRODUCTS, SyncedTooLate(), 0), SyncedTooLate()[k].change)
    {
    }
  }

  /** So does a sync: the plan was no news to its copy of the row, and news to its copy of the workspace. */
  lemma {:induction false} LateSyncStrandsThePlan()
    ensures EntitlementsFollow(PausedOnPro()) && HonestRun(SyncedTooLate()) && TimelyRun(SyncedTooLate())
    ensures LoadedRun(PausedOnPro(), PRODUCTS, SyncedTooLate())
    ensures StateAt(PausedOnPro(), PRODUCTS, SyncedTooLate(), 2) == OneRow(Row("business", Active), 6000, "pro", Running)
    ensures !EntitlementsFollow(StateAt(PausedOnPro(), PRODUCTS, SyncedTooLate(), 2))
  {
    hide After, EntitlementsFollow;
    FollowedOrNot(Row("pro", SubscriptionStatus.Paused), 0, "free", Running);
    FollowedOrNot(Row("business", Active), 6000, "pro", Running);
    TheWebhookMovesIt(SubscriptionStatus.Paused, "free", Running);
    TheSyncStrandsIt();
    SyncLoadedBefore();
  }
}
