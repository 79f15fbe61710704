/**
 * What holds over whole runs of deliveries, redeliveries, replays, sweeps and
 * staff syncs, in any order.
 */
module BillingRuns {
  import opened Prelude
  import opened Plans
  import opened WebhookHandler
  import opened Reconciliation

  datatype Change =
    | Deliver(event: Event, provider: Provider)
    | Correct(correction: Correction)
    | Resync(id: string, copy: Mirror, home: Organization, theirs: ProviderSubscription)
    | FillCustomer(id: string, customerId: string)

  /** The customer portal stores a customer id the row was loaded without. */
  function Filled(billing: Billing, id: string, customerId: string, now: int): Billing {
    if id !in billing.subscriptions then billing else
      var row := billing.subscriptions[id];
      billing.(subscriptions := billing.subscriptions[id := Subscription(row.mirror.(customerId := Some(customerId)), row.createdAt, Some(now))])
  }

  datatype Moment = Moment(at: int, change: Change)

  function After(billing: Billing, products: Products, m: Moment): Billing {
    match m.change
    case Deliver(event, provider) =>
      var applied := Applied(billing, event, m.at, provider, products);
      if applied.Ok? then applied.value else billing
    case Correct(correction) => Corrected(billing, correction, m.at)
    case Resync(id, copy, home, theirs) => Synced(billing, id, copy, home, theirs, m.at, products)
    case FillCustomer(id, customerId) => Filled(billing, id, customerId, m.at)
  }

  /** The state before `run[i]`. */
  function StateAt(billing: Billing, products: Products, run: seq<Moment>, i: nat): Billing
    requires i <= |run|
  {
    if i == 0 then billing else After(StateAt(billing, products, run, i - 1), products, run[i - 1])
  }

  /** Time moves forward, events are not from the future, the provider answers about what it was asked. */
  ghost predicate Timely(m: Moment) {
    m.change.Deliver? ==> m.change.event.occurredAt <= m.at && Honest(m.change.provider)
  }

  ghost predicate TimelyRun(run: seq<Moment>) {
    && (forall i :: 0 <= i < |run| ==> Timely(run[i]))
    && forall i, j :: 0 <= i <= j < |run| ==> run[i].at <= run[j].at
  }

  /** Every row was written at or before `now`. */
  predicate WrittenBy(billing: Billing, now: int) {
    forall id :: id in billing.subscriptions ==> billing.subscriptions[id].Watermark() <= now
  }

  // ---------------------------------------------------------------- the watermark

  /** A change saves at most one subscription row; a delivery only the one its event is about, and never a stale one. */
  lemma {:induction false} SavesAtMostOneRow(billing: Billing, products: Products, m: Moment) returns (id: string, row: Option<Subscription>)
    ensures After(billing, products, m).subscriptions ==
            if row.None? then billing.subscriptions else billing.subscriptions[id := row.value]
    ensures row.Some? ==> row.value.updatedAt == Some(m.at) || Lookup(billing.subscriptions, id) == row
    ensures m.change.Deliver? && row.Some? && Honest(m.change.provider) ==>
              && m.change.event.subscription.Some? && id == m.change.event.subscription.value.id
              && !IsStale(Lookup(billing.subscriptions, id), m.change.event.occurredAt)
  {
    hide Applied, Corrected, Synced, Filled, Honest;
    id, row := "", None;
    match m.change {
      case Deliver(event, provider) =>
        id, row := DeliverySavesOneRow(billing, products, event, provider, m.at);
      case Correct(correction) =>
        id, row := correction.id, Lookup(After(billing, products, m).subscriptions, correction.id);
        RewritingSavesOneRow(billing, products, m, id);
      case Resync(other, _, _, _) =>
        id, row := other, Lookup(After(billing, products, m).subscriptions, other);
        RewritingSavesOneRow(billing, products, m, id);
      case FillCustomer(other, _) =>
        id, row := other, Lookup(After(billing, products, m).subscriptions, other);
        RewritingSavesOneRow(billing, products, m, id);
    }
  }

  lemma {:induction false} RewritingSavesOneRow(billing: Billing, products: Products, m: Moment, id: string)
    requires match m.change
      case Deliver(_, _) => false
      case Correct(correction) => id == correction.id
      case Resync(other, _, _, _) => id == other
      case FillCustomer(other, _) => id == other
    ensures var after := After(billing, products, m).subscriptions;
            if id !in after then after == billing.subscriptions
            else after == billing.subscriptions[id := after[id]]
                 && (after[id].updatedAt == Some(m.at) || Lookup(billing.subscriptions, id) == Some(after[id]))
  {
    hide SavedOver, DirtyHome, Reentitle, SyncedMirror;
    if id in billing.subscriptions {
      var row := billing.subscriptions[id];
      match m.change {
        case Correct(c) => SavingOver(row, c.copy, c.copy.(status := c.status), m.at);
        case Resync(_, copy, _, theirs) => SavingOver(row, copy, SyncedMirror(copy, theirs, products), m.at);
        case _ =>
      }
    }
  }

  lemma {:induction false} DeliverySavesOneRow(billing: Billing, products: Products, event: Event, provider: Provider, at: int)
    returns (id: string, row: Option<Subscription>)
    ensures var applied := Applied(billing, event, at, provider, products);
            (if applied.Ok? then applied.value else billing).subscriptions ==
            if row.None? then billing.subscriptions else billing.subscriptions[id := row.value]
    ensures row.Some? ==> row.value.updatedAt == Some(at) || Lookup(billing.subscriptions, id) == row
    ensures row.Some? && Honest(provider) ==>
              && event.subscription.Some? && id == event.subscription.value.id
              && !IsStale(Lookup(billing.subscriptions, id), event.occurredAt)
  {
    hide Entitle, Notices, MirrorOf, PlanKeyOf, MergedPayment;
    id, row := "", None;
    var applied := Applied(billing, event, at, provider, products);
    if applied.Ok? && event.AboutSubscription() && event.subscription.Some?
       && !IsStale(Lookup(billing.subscriptions, event.subscription.value.id), event.occurredAt) {
      id := Trusted(event, event.subscription.value, provider).id;
      row := Some(applied.value.subscriptions[id]);
    }
  }

  /** One change: no watermark falls, and a row that changes is stamped with the moment it changed. */
  lemma {:induction false} WatermarkNeverFalls(billing: Billing, products: Products, m: Moment, id: string)
    requires WrittenBy(billing, m.at) && id in billing.subscriptions
    ensures var after := After(billing, products, m);
            && id in after.subscriptions
            && (after.subscriptions[id] == billing.subscriptions[id] || after.subscriptions[id].Watermark() == m.at)
            && after.subscriptions[id].Watermark() >= billing.subscriptions[id].Watermark()
  {
    hide After;
    var saved, row := SavesAtMostOneRow(billing, products, m);
  }

  lemma {:induction false} ChangesAreStamped(billing: Billing, products: Products, m: Moment, id: string)
    requires WrittenBy(billing, m.at) && id in After(billing, products, m).subscriptions
    ensures Lookup(billing.subscriptions, id) == Some(After(billing, products, m).subscriptions[id])
            || After(billing, products, m).subscriptions[id].Watermark() == m.at
    ensures WrittenBy(After(billing, products, m), m.at)
  {
    hide After;
    var saved, row := SavesAtMostOneRow(billing, products, m);
  }

  lemma {:induction false} WrittenInThePast(billing: Billing, products: Products, run: seq<Moment>, i: nat, now: int)
    requires TimelyRun(run) && i <= |run|
    requires WrittenBy(billing, if i == 0 then now else run[0].at) && (i > 0 ==> run[i - 1].at <= now)
    ensures WrittenBy(StateAt(billing, products, run, i), now)
  {
    if i > 0 {
      WrittenInThePast(billing, products, run, i - 1, run[i - 1].at);
      var before := StateAt(billing, products, run, i - 1);
      var after := After(before, products, run[i - 1]);
      forall id | id in after.subscriptions
        ensures after.subscriptions[id].Watermark() <= now
      {
        ChangesAreStamped(before, products, run[i - 1], id);
      }
    }
  }

  lemma {:induction false} WatermarkOnlyRises(billing: Billing, products: Products, run: seq<Moment>, i: nat, j: nat, id: string)
    requires TimelyRun(run) && i <= j <= |run|
    requires |run| > 0 ==> WrittenBy(billing, run[0].at)
    requires id in StateAt(billing, products, run, i).subscriptions
    ensures id in StateAt(billing, products, run, j).subscriptions
    ensures StateAt(billing, products, run, i).subscriptions[id].Watermark() <= StateAt(billing, products, run, j).subscriptions[id].Watermark()
  {
    if i < j {
      WatermarkOnlyRises(billing, products, run, i, j - 1, id);
      WrittenInThePast(billing, products, run, j - 1, run[j - 1].at);
      WatermarkNeverFalls(StateAt(billing, products, run, j - 1), products, run[j - 1], id);
    }
  }

  /** A stale event about a row changes nothing at all; one that is not stale rewrites the row from its own content. */
  lemma {:induction false} StaleOrApplied(billing: Billing, products: Products, event: Event, now: int, provider: Provider)
    requires Honest(provider) && event.AboutSubscription() && event.subscription.Some?
    requires event.subscription.value.id in billing.subscriptions
    requires billing.subscriptions[event.subscription.value.id].mirror.organizationId in billing.organizations
    ensures var row := billing.subscriptions[event.subscription.value.id];
            var applied := Applied(billing, event, now, provider, products);
            && applied.Ok?
            && (event.occurredAt < row.Watermark() - 1000 ==> applied.value == billing)
            && (event.occurredAt >= row.Watermark() - 1000 ==>
                  var incoming := Trusted(event, event.subscription.value, provider);
                  var mirror := applied.value.subscriptions[event.subscription.value.id].mirror;
                  var organization := applied.value.organizations[row.mirror.organizationId];
                  && mirror.status == incoming.status && mirror.currentPeriodStart == incoming.currentPeriodStart
                  && mirror.currentPeriodEnd == incoming.currentPeriodEnd && mirror.cancelAtPeriodEnd == incoming.cancelAtPeriodEnd
                  && mirror.trialEndsAt == incoming.trialEndsAt && mirror.canceledAt == incoming.canceledAt
                  && mirror.organizationId == row.mirror.organizationId
                  && (incoming.customerId.Some? ==> mirror.customerId == incoming.customerId)
                  && (incoming.customerId.None? ==> mirror.customerId == row.mirror.customerId)
                  && (Some(mirror.planKey) == PlanKeyForProductId(products, incoming.productId)
                      || (PlanKeyForProductId(products, incoming.productId).None? && mirror.planKey == row.mirror.planKey))
                  && organization.planKey == EntitledPlan(mirror) && organization.status == EntitledStatus(mirror)
                  && applied.value.payments == billing.payments)
  {
  }

  /**
   * Once something has changed a row, no event that occurred more than a second
   * before that moment is ever applied to it, however often and whenever it is
   * delivered.
   */
  lemma {:induction false} LateEventIsIgnored(billing: Billing, products: Products, run: seq<Moment>, i: nat, j: nat, id: string)
    requires TimelyRun(run) && i < j < |run| && WrittenBy(billing, run[0].at)
    requires var (before, after) := (StateAt(billing, products, run, i), StateAt(billing, products, run, i + 1));
             id in after.subscriptions && Lookup(before.subscriptions, id) != Lookup(after.subscriptions, id)
    requires run[j].change.Deliver? && run[j].change.event.occurredAt < run[i].at - 1000
    ensures Lookup(StateAt(billing, products, run, j + 1).subscriptions, id) == Lookup(StateAt(billing, products, run, j).subscriptions, id)
  {
    WrittenInThePast(billing, products, run, i, run[i].at);
    ChangesAreStamped(StateAt(billing, products, run, i), products, run[i], id);
    WatermarkOnlyRises(billing, products, run, i + 1, j, id);
    assert Timely(run[j]);
    hide After;
    var saved, row := SavesAtMostOneRow(StateAt(billing, products, run, j), products, run[j]);
  }

  /** In particular an older event never undoes the newer one that was applied before it. */
  lemma {:induction false} OlderEventNeverUndoesNewer(billing: Billing, products: Products, run: seq<Moment>, i: nat, j: nat, id: string)
    requires TimelyRun(run) && i < j < |run| && WrittenBy(billing, run[0].at)
    requires run[i].change.Deliver? && run[j].change.Deliver?
    requires var (before, after) := (StateAt(billing, products, run, i), StateAt(billing, products, run, i + 1));
             id in after.subscriptions && Lookup(before.subscriptions, id) != Lookup(after.subscriptions, id)
    requires run[j].change.event.occurredAt < run[i].change.event.occurredAt - 1000
    ensures Lookup(StateAt(billing, products, run, j + 1).subscriptions, id) == Lookup(StateAt(billing, products, run, j).subscriptions, id)
  {
    assert Timely(run[i]);
    LateEventIsIgnored(billing, products, run, i, j, id);
  }

  /** A portal visit writes the customer id it was after, stamps the row, and moves nothing else. */
  lemma {:induction false} PortalFillsTheCustomer(billing: Billing, products: Products, id: string, customerId: string, now: int)
    requires id in billing.subscriptions
    ensures var after := After(billing, products, Moment(now, FillCustomer(id, customerId)));
            && after.subscriptions.Keys == billing.subscriptions.Keys
            && after.subscriptions[id].mirror.customerId == Some(customerId) && after.subscriptions[id].updatedAt == Some(now)
            && after.subscriptions[id].mirror.(customerId := billing.subscriptions[id].mirror.customerId) == billing.subscriptions[id].mirror
            && (forall other :: other in billing.subscriptions && other != id ==> after.subscriptions[other] == billing.subscriptions[other])
            && after.organizations == billing.organizations && after.payments == billing.payments && after.mails == billing.mails
  {
  }

  /** The watermark, from the columns. */
  lemma {:induction false} WatermarkFromColumns(row: Subscription)
    ensures row.updatedAt.Some? ==> row.Watermark() == row.updatedAt.value
    ensures row.updatedAt.None? ==> row.Watermark() == row.createdAt
  {
  }

  /**
   * Who an event is about. A recorded subscription belongs where it is recorded,
   * whatever the event carries; a new one belongs to the live workspace our own
   * checkout put into it, and without one the event is refused.
   */
  lemma {:induction false} EventsAreAttributed(billing: Billing, products: Products, event: Event, now: int, provider: Provider)
    requires Honest(provider) && event.AboutSubscription() && event.subscription.Some?
    ensures var (id, applied) := (event.subscription.value.id, Applied(billing, event, now, provider, products));
            if id in billing.subscriptions then
              var o := billing.subscriptions[id].mirror.organizationId;
              && (applied.Ok? <==> o in billing.organizations)
              && (applied.Ok? ==> id in applied.value.subscriptions && applied.value.subscriptions[id].mirror.organizationId == o)
            else
              && (applied.Ok? <==>
                    && event.organizationPublicId.Some? && event.organizationPublicId.value in billing.publicIds
                    && billing.publicIds[event.organizationPublicId.value] in billing.organizations
                    && !billing.organizations[billing.publicIds[event.organizationPublicId.value]].deleted)
              && (applied.Ok? ==>
                    && id in applied.value.subscriptions
                    && applied.value.subscriptions[id].mirror.organizationId == billing.publicIds[event.organizationPublicId.value])
  {
    hide PlanKeyOf, Notices, Entitle;
  }

  /**
   * A new subscription in columns: what the event says, on the plan of its
   * product or free, stamped now. A cancellation that does not say when the
   * period ends is not believed: what the provider answers, if it does, is
   * recorded in its place.
   */
  lemma {:induction false} NewSubscriptionColumns(billing: Billing, products: Products, event: Event, now: int, provider: Provider)
    requires Honest(provider) && event.AboutSubscription() && event.subscription.Some?
    requires event.subscription.value.id !in billing.subscriptions && Applied(billing, event, now, provider, products).Ok?
    ensures var (claimed, after) := (event.subscription.value, Applied(billing, event, now, provider, products).value);
            var told := if event.kind == EventType.SubscriptionCanceled && claimed.currentPeriodEnd == None && claimed.id in provider
                        then provider[claimed.id] else claimed;
            && claimed.id in after.subscriptions
            && var row := after.subscriptions[claimed.id];
            && row.createdAt == now && row.updatedAt == Some(now)
            && row.mirror.status == told.status && row.mirror.customerId == told.customerId
            && row.mirror.currentPeriodStart == told.currentPeriodStart && row.mirror.currentPeriodEnd == told.currentPeriodEnd
            && row.mirror.cancelAtPeriodEnd == told.cancelAtPeriodEnd && row.mirror.trialEndsAt == told.trialEndsAt
            && row.mirror.canceledAt == told.canceledAt
            && (PlanKeyForProductId(products, told.productId).Some? ==> Some(row.mirror.planKey) == PlanKeyForProductId(products, told.productId))
            && (PlanKeyForProductId(products, told.productId).None? ==> row.mirror.planKey == "free")
            && (forall other :: other in billing.subscriptions ==>
                                  other in after.subscriptions && after.subscriptions[other] == billing.subscriptions[other])
  {
    hide Notices, Entitle, ResolveOrganization, PlanKeyForProductId;
  }

  function StatusBefore(billing: Billing, id: string): Option<SubscriptionStatus> {
    if id in billing.subscriptions then Some(billing.subscriptions[id].mirror.status) else None
  }

  /** The transition, if any, that a mail tells the owner about. */
  predicate Announces(mail: Mail, organizationId: nat, id: string, before: Option<SubscriptionStatus>, after: SubscriptionStatus) {
    && before != Some(after)
    && match mail
       case ActivatedMail(o, s) => o == organizationId && s == id && after == Active && before != Some(PastDue)
       case PaymentFailedMail(o, s) => o == organizationId && s == id && after == PastDue
       case CanceledMail(o, s) => o == organizationId && s == id && after in {SubscriptionStatus.Canceled, SubscriptionStatus.Expired}
       case ReceiptMail(_, _) => false
  }

  /** `more` is the mail a transition calls for: one that announces it, or none when there is nothing to tell or nobody to tell it to. */
  predicate MailsFor(more: seq<Mail>, organizationId: nat, hasOwner: bool, id: string, before: Option<SubscriptionStatus>, after: SubscriptionStatus) {
    && |more| <= 1
    && (|more| == 1 ==> Announces(more[0], organizationId, id, before, after))
    && (more == [] <==> before == Some(after) || after == Trialing || after == SubscriptionStatus.Paused
                        || (after == Active && before == Some(PastDue)) || !hasOwner)
  }

  lemma {:induction false} NoticesSuit(organizationId: nat, organization: Organization, id: string, status: SubscriptionStatus,
                                       previous: Option<SubscriptionStatus>)
    ensures MailsFor(Notices(organizationId, organization, id, status, previous), organizationId, organization.hasOwner, id, previous, status)
  {
  }

  /**
   * A subscription event sends at most one mail, and sends it exactly when it took
   * the row to a new state worth telling, in a workspace that has an owner.
   */
  lemma {:induction false} MailFollowsTheTransition(billing: Billing, products: Products, event: Event, now: int, provider: Provider)
    returns (more: seq<Mail>)
    requires Honest(provider) && event.AboutSubscription() && event.subscription.Some?
    requires Applied(billing, event, now, provider, products).Ok?
    ensures var after := Applied(billing, event, now, provider, products).value;
            var id := event.subscription.value.id;
            && after.mails == billing.mails + more
            && id in after.subscriptions
            && ((after == billing && more == [])
                || (var organizationId := after.subscriptions[id].mirror.organizationId;
                    && organizationId in billing.organizations
                    && MailsFor(more, organizationId, billing.organizations[organizationId].hasOwner, id,
                                StatusBefore(billing, id), after.subscriptions[id].mirror.status)))
  {
    hide Notices, MailsFor, Entitle, PlanKeyOf;
    var claimed := event.subscription.value;
    more := [];
    if !IsStale(Lookup(billing.subscriptions, claimed.id), event.occurredAt) {
      var organizationId := ResolveOrganization(billing, event, Some(claimed.id)).value;
      var incoming := Trusted(event, claimed, provider);
      var previous := StatusBefore(billing, claimed.id);
      more := Notices(organizationId, billing.organizations[organizationId], claimed.id, incoming.status, previous);
      NoticesSuit(organizationId, billing.organizations[organizationId], claimed.id, incoming.status, previous);
    }
  }

  // ---------------------------------------------------------------- applying twice

  lemma {:induction false} SavingTwice(billing: Billing, organizationId: nat, incoming: ProviderSubscription, planKey: string,
                    previous: Option<SubscriptionStatus>, now: int, later: int)
    requires organizationId in billing.organizations
    ensures var once := WithSubscription(billing, organizationId, incoming, planKey, previous, now);
            var row := once.subscriptions[incoming.id].mirror;
            && row.organizationId == organizationId && row.planKey == planKey && row.status == incoming.status
            && WithSubscription(once, organizationId, incoming, planKey, Some(row.status), later) == once
  {
    var once := WithSubscription(billing, organizationId, incoming, planKey, previous, now);
    var row := once.subscriptions[incoming.id].mirror;
    var twice := WithSubscription(once, organizationId, incoming, planKey, Some(row.status), later);
    assert twice.subscriptions == once.subscriptions;
    assert twice.organizations == once.organizations;
    assert twice.mails == once.mails;
  }

  lemma {:induction false} ApplyingASubscriptionTwice(billing: Billing, products: Products, event: Event, now: int, later: int, provider: Provider)
    requires Honest(provider) && event.AboutSubscription()
    requires Applied(billing, event, now, provider, products).Ok?
    ensures var once := Applied(billing, event, now, provider, products).value;
            Applied(once, event, later, provider, products) == Ok(once)
  {
    if event.subscription.Some? && !IsStale(Lookup(billing.subscriptions, event.subscription.value.id), event.occurredAt) {
      var claimed := event.subscription.value;
      var existing := Lookup(billing.subscriptions, claimed.id);
      var organizationId := ResolveOrganization(billing, event, Some(claimed.id)).value;
      var incoming := Trusted(event, claimed, provider);
      var previous := if existing.Some? then Some(existing.value.mirror.status) else None;
      SavingTwice(billing, organizationId, incoming, PlanKeyOf(products, incoming, existing), previous, now, later);
      hide WithSubscription;
    }
  }

  lemma {:induction false} ApplyingAPaymentTwice(billing: Billing, event: Event)
    requires event.AboutPayment() && AppliedPayment(billing, event).Ok?
    ensures AppliedPayment(AppliedPayment(billing, event).value, event) == Ok(AppliedPayment(billing, event).value)
  {
    var once := AppliedPayment(billing, event).value;
    if event.payment.Some? {
      var twice := AppliedPayment(once, event).value;
      assert twice.payments == once.payments;
      assert twice.mails == once.mails;
    }
  }

  /** Any event applied a second time, at any later moment, changes nothing: no row, no entitlement, no mail. */
  lemma {:induction false} ApplyingTwiceIsApplyingOnce(billing: Billing, products: Products, event: Event, now: int, later: int, provider: Provider)
    requires Honest(provider)
    requires Applied(billing, event, now, provider, products).Ok?
    ensures var once := Applied(billing, event, now, provider, products).value;
            Applied(once, event, later, provider, products) == Ok(once)
  {
    if event.AboutSubscription() {
      ApplyingASubscriptionTwice(billing, products, event, now, later, provider);
    } else if event.AboutPayment() {
      ApplyingAPaymentTwice(billing, event);
    } else {
      var once := AppliedDispute(billing, event);
      assert AppliedDispute(once, event).payments == once.payments;
    }
  }

  // ---------------------------------------------------------------- replaying a ledger

  /** What a replay must not move: rows, entitlements, and the money of every order. */
  datatype Money = Money(amountCents: int, refundedCents: int, status: PaymentStatus)

  function MoneyOf(payment: Payment): Money {
    Money(payment.amountCents, payment.refundedAmountCents, payment.status)
  }

  function Monies(billing: Billing): map<string, Money> {
    map order | order in billing.payments :: MoneyOf(billing.payments[order])
  }

  ghost predicate SameBooks(a: Billing, b: Billing) {
    a.subscriptions == b.subscriptions && a.organizations == b.organizations && a.publicIds == b.publicIds && Monies(a) == Monies(b)
  }

  /** The books already reflect this event. */
  predicate Absorbed(billing: Billing, event: Event) {
    if event.AboutPayment() then
      event.payment.Some? ==>
        var incoming := event.payment.value;
        incoming.orderId in billing.payments &&
        var row := billing.payments[incoming.orderId];
        && (row.amountCents != 0 || incoming.amountCents == 0)
        && (event.kind.PaymentRefunded? ==> incoming.refundedAmountCents <= row.refundedAmountCents)
        && row.status == StatusOf(row.amountCents, row.refundedAmountCents)
    else
      event.AboutSubscription()
      && (event.subscription.Some? ==> IsStale(Lookup(billing.subscriptions, event.subscription.value.id), event.occurredAt))
  }

  lemma {:induction false} AbsorbedChangesNoBooks(billing: Billing, products: Products, m: Moment)
    requires m.change.Deliver? && Absorbed(billing, m.change.event)
    ensures SameBooks(billing, After(billing, products, m))
  {
    var event := m.change.event;
    if event.AboutPayment() && event.payment.Some? && AppliedPayment(billing, event).Ok? {
      var after := AppliedPayment(billing, event).value;
      var order := event.payment.value.orderId;
      assert MoneyOf(after.payments[order]) == MoneyOf(billing.payments[order]);
      assert Monies(after) == Monies(billing);
    }
  }

  lemma {:induction false} SameBooksAbsorbTheSame(a: Billing, b: Billing, event: Event)
    requires SameBooks(a, b) && Absorbed(a, event)
    ensures Absorbed(b, event)
  {
    if event.AboutPayment() && event.payment.Some? {
      var order := event.payment.value.orderId;
      assert order in Monies(a) && Monies(a)[order] == Monies(b)[order];
    }
  }

  /** Replaying any selection of absorbed events, in any order and any number of times, moves no books. */
  lemma {:induction false} ReplayMovesNoBooks(billing: Billing, products: Products, replay: seq<Moment>, i: nat)
    requires i <= |replay|
    requires forall k :: 0 <= k < |replay| ==> replay[k].change.Deliver? && Absorbed(billing, replay[k].change.event)
    ensures SameBooks(billing, StateAt(billing, products, replay, i))
  {
    if i > 0 {
      ReplayMovesNoBooks(billing, products, replay, i - 1);
      var before := StateAt(billing, products, replay, i - 1);
      SameBooksAbsorbTheSame(billing, before, replay[i - 1].change.event);
      AbsorbedChangesNoBooks(before, products, replay[i - 1]);
    }
  }

  /** An event of the ledger: not a dispute, and applied without error where it stood. */
  predicate Recorded(billing: Billing, products: Products, m: Moment) {
    m.change.Deliver? && !m.change.event.kind.DisputeCreated?
    && Applied(billing, m.change.event, m.at, m.change.provider, products).Ok?
  }

  ghost predicate Ledger(billing: Billing, products: Products, ledger: seq<Moment>) {
    forall j :: 0 <= j < |ledger| ==> Recorded(StateAt(billing, products, ledger, j), products, ledger[j])
  }

  /** A subscription event the row has left more than a second behind. */
  predicate Overtaken(billing: Billing, m: Moment) {
    m.change.Deliver? && m.change.event.AboutSubscription() && m.change.event.subscription.Some? ==>
      IsStale(Lookup(billing.subscriptions, m.change.event.subscription.value.id), m.change.event.occurredAt)
  }

  lemma {:induction false} PaymentsStayAbsorbed(billing: Billing, products: Products, m: Moment, event: Event)
    requires Recorded(billing, products, m)
    requires event.AboutPayment() && (Absorbed(billing, event) || event == m.change.event)
    ensures Absorbed(After(billing, products, m), event)
  {
  }

  lemma {:induction false} LedgerEntry(billing: Billing, products: Products, ledger: seq<Moment>, i: nat)
    requires i < |ledger| && Ledger(billing, products, ledger)
    ensures Recorded(StateAt(billing, products, ledger, i), products, ledger[i])
    ensures StateAt(billing, products, ledger, i + 1) == After(StateAt(billing, products, ledger, i), products, ledger[i])
  {
    hide After, Recorded;
  }

  lemma {:induction false} LedgerAbsorbsItsPayments(billing: Billing, products: Products, ledger: seq<Moment>, i: nat, k: nat)
    requires k < i <= |ledger| && Ledger(billing, products, ledger)
    requires ledger[k].change.Deliver? && ledger[k].change.event.AboutPayment()
    ensures Absorbed(StateAt(billing, products, ledger, i), ledger[k].change.event)
  {
    hide After, Absorbed, Recorded, Ledger, StateAt;
    LedgerEntry(billing, products, ledger, i - 1);
    if k < i - 1 {
      LedgerAbsorbsItsPayments(billing, products, ledger, i - 1, k);
    }
    PaymentsStayAbsorbed(StateAt(billing, products, ledger, i - 1), products, ledger[i - 1], ledger[k].change.event);
  }

  /**
   * Apply a ledger, then replay any of its events in any order and number, once
   * every subscription event is more than a second older than its row: the books
   * are what they were.
   */
  lemma {:induction false} LedgerReplayChangesNothing(billing: Billing, products: Products, ledger: seq<Moment>, replay: seq<Moment>)
    requires Ledger(billing, products, ledger)
    requires forall j :: 0 <= j < |ledger| ==> Overtaken(StateAt(billing, products, ledger, |ledger|), ledger[j])
    requires forall k :: 0 <= k < |replay| ==>
                           replay[k].change.Deliver?
                           && exists j :: 0 <= j < |ledger| && ledger[j].change == Deliver(replay[k].change.event, ledger[j].change.provider)
    ensures var final := StateAt(billing, products, ledger, |ledger|);
            SameBooks(final, StateAt(final, products, replay, |replay|))
  {
    var final := StateAt(billing, products, ledger, |ledger|);
    forall k | 0 <= k < |replay|
      ensures Absorbed(final, replay[k].change.event)
    {
      var j :| 0 <= j < |ledger| && ledger[j].change == Deliver(replay[k].change.event, ledger[j].change.provider);
      assert Recorded(StateAt(billing, products, ledger, j), products, ledger[j]);
      if ledger[j].change.event.AboutPayment() {
        LedgerAbsorbsItsPayments(billing, products, ledger, |ledger|, j);
      } else {
        assert Overtaken(final, ledger[j]);
      }
    }
    ReplayMovesNoBooks(final, products, replay, |replay|);
  }
}
