/**
 * Applying a normalised provider event: the subscription mirror behind its
 * watermark, the entitlement derived from it, and payments merged per order.
 * Instants are milliseconds.
 */
module WebhookHandler {
  import opened Prelude
  import opened Plans

  datatype SubscriptionStatus = Trialing | Active | PastDue | Paused | Canceled | Expired

  datatype OrganizationStatus = Running | Overdue | Suspended

  datatype PaymentStatus = Paid | Refunded | PartiallyRefunded | Disputed

  /** A subscription as the provider describes it. */
  datatype ProviderSubscription = ProviderSubscription(
    id: string,
    customerId: Option<string>,
    productId: Option<string>,
    status: SubscriptionStatus,
    currentPeriodStart: Option<int>,
    currentPeriodEnd: Option<int>,
    cancelAtPeriodEnd: bool,
    trialEndsAt: Option<int>,
    canceledAt: Option<int>)

  datatype ProviderPayment = ProviderPayment(
    orderId: string,
    subscriptionId: Option<string>,
    amountCents: int,
    currency: string,
    refundedAmountCents: int,
    description: Option<string>,
    receiptUrl: Option<string>,
    occurredAt: int)

  datatype EventType =
    | SubscriptionActivated | SubscriptionTrialing | SubscriptionUpdated
    | SubscriptionPastDue | SubscriptionPaused | SubscriptionCanceled
    | PaymentSucceeded | PaymentRefunded | DisputeCreated

  datatype Event = Event(
    kind: EventType,
    occurredAt: int,
    organizationPublicId: Option<string>,
    subscription: Option<ProviderSubscription>,
    payment: Option<ProviderPayment>)
  {
    predicate AboutSubscription() {
      !AboutPayment() && !kind.DisputeCreated?
    }

    predicate AboutPayment() {
      kind.PaymentSucceeded? || kind.PaymentRefunded?
    }
  }

  /** The columns a provider event writes. */
  datatype Mirror = Mirror(
    organizationId: nat,
    customerId: Option<string>,
    planKey: string,
    status: SubscriptionStatus,
    currentPeriodStart: Option<int>,
    currentPeriodEnd: Option<int>,
    cancelAtPeriodEnd: bool,
    trialEndsAt: Option<int>,
    canceledAt: Option<int>)
  {
    predicate IsEntitling() {
      status.Trialing? || status.Active? || status.PastDue?
    }

    predicate IsCanceled() {
      status.Canceled? || status.Expired?
    }
  }

  datatype Subscription = Subscription(mirror: Mirror, createdAt: int, updatedAt: Option<int>) {
    function Watermark(): int {
      if updatedAt.Some? then updatedAt.value else createdAt
    }
  }

  datatype Payment = Payment(
    organizationId: nat,
    subscriptionId: Option<string>,
    amountCents: int,
    currency: string,
    refundedAmountCents: int,
    status: PaymentStatus,
    description: Option<string>,
    receiptUrl: Option<string>,
    occurredAt: int)

  datatype Organization = Organization(
    planKey: string,
    status: OrganizationStatus,
    trialEndsAt: Option<int>,
    deleted: bool,
    hasOwner: bool)

  datatype Mail =
    | ActivatedMail(organizationId: nat, subscriptionId: string)
    | PaymentFailedMail(organizationId: nat, subscriptionId: string)
    | CanceledMail(organizationId: nat, subscriptionId: string)
    | ReceiptMail(organizationId: nat, orderId: string)

  /** Subscriptions and payments are keyed by the provider's own ids, which their tables hold unique. */
  datatype Billing = Billing(
    organizations: map<nat, Organization>,
    publicIds: map<string, nat>,
    subscriptions: map<string, Subscription>,
    payments: map<string, Payment>,
    mails: seq<Mail>)

  datatype ApplyError = Unattributable

  /** What `getSubscription` answers; an id without an answer is a miss or a failed call. */
  type Provider = map<string, ProviderSubscription>

  ghost predicate Honest(provider: Provider) {
    forall id :: id in provider ==> provider[id].id == id
  }

  function Lookup<K, V>(m: map<K, V>, k: K): Option<V> {
    if k in m then Some(m[k]) else None
  }

  function OrElse<T>(a: Option<T>, b: Option<T>): Option<T> {
    if a.Some? then a else b
  }

  // ---------------------------------------------------------------- subscriptions

  const SECOND: int := 1000

  predicate IsStale(existing: Option<Subscription>, occurredAt: int) {
    existing.Some? && occurredAt < existing.value.Watermark() - SECOND
  }

  /** A save writes, and moves `updated_at`, only when a column changed. */
  function Saved(existing: Option<Subscription>, mirror: Mirror, now: int): Subscription {
    if existing.None? then Subscription(mirror, now, Some(now))
    else if existing.value.mirror == mirror then existing.value
    else Subscription(mirror, existing.value.createdAt, Some(now))
  }

  function MirrorOf(incoming: ProviderSubscription, existing: Option<Subscription>, organizationId: nat, planKey: string): Mirror {
    Mirror(organizationId,
           OrElse(incoming.customerId, if existing.Some? then existing.value.mirror.customerId else None),
           planKey, incoming.status, incoming.currentPeriodStart, incoming.currentPeriodEnd,
           incoming.cancelAtPeriodEnd, incoming.trialEndsAt, incoming.canceledAt)
  }

  function EntitledPlan(mirror: Mirror): string {
    if mirror.IsEntitling() then PlanKeyFor(mirror.planKey) else DEFAULT_PLAN
  }

  function EntitledStatus(mirror: Mirror): OrganizationStatus {
    if mirror.status.PastDue? then Overdue else Running
  }

  function Entitle(organization: Organization, mirror: Mirror): Organization {
    organization.(
      planKey := EntitledPlan(mirror),
      status := EntitledStatus(mirror),
      trialEndsAt := if mirror.IsEntitling() then mirror.trialEndsAt else organization.trialEndsAt)
  }

  function Notices(organizationId: nat, organization: Organization, id: string, status: SubscriptionStatus,
                   previous: Option<SubscriptionStatus>): seq<Mail> {
    if previous == Some(status) || !organization.hasOwner then []
    else if status.Active? && previous != Some(PastDue) then [ActivatedMail(organizationId, id)]
    else if status.PastDue? then [PaymentFailedMail(organizationId, id)]
    else if status.Canceled? || status.Expired? then [CanceledMail(organizationId, id)]
    else []
  }

  function OrganizationFromEvent(billing: Billing, event: Event): Option<nat> {
    if event.organizationPublicId.None? || event.organizationPublicId.value !in billing.publicIds then None
    else
      var id := billing.publicIds[event.organizationPublicId.value];
      if id in billing.organizations && !billing.organizations[id].deleted then Some(id) else None
  }

  function Existing(billing: Billing, organizationId: nat): Option<nat> {
    if organizationId in billing.organizations then Some(organizationId) else None
  }

  /** The tenant: the subscription already recorded, otherwise the id our own checkout put in. */
  function ResolveOrganization(billing: Billing, event: Event, subscriptionId: Option<string>): Option<nat> {
    if subscriptionId.Some? && subscriptionId.value in billing.subscriptions
    then Existing(billing, billing.subscriptions[subscriptionId.value].mirror.organizationId)
    else OrganizationFromEvent(billing, event)
  }

  /** A cancellation without a period end is ambiguous: the provider is asked what is true. */
  function Trusted(event: Event, incoming: ProviderSubscription, provider: Provider): ProviderSubscription {
    if event.kind.SubscriptionCanceled? && incoming.currentPeriodEnd.None? && incoming.id in provider
    then provider[incoming.id] else incoming
  }

  function PlanKeyOf(products: Products, incoming: ProviderSubscription, existing: Option<Subscription>): string {
    var bought := PlanKeyForProductId(products, incoming.productId);
    if bought.Some? then bought.value
    else if existing.Some? then existing.value.mirror.planKey
    else DEFAULT_PLAN
  }

  function AppliedSubscription(billing: Billing, event: Event, now: int, provider: Provider, products: Products)
    : Result<Billing, ApplyError>
  {
    if event.subscription.None? then Ok(billing) else
      var claimed := event.subscription.value;
      var existing := Lookup(billing.subscriptions, claimed.id);
      var resolved := ResolveOrganization(billing, event, Some(claimed.id));
      if resolved.None? then Err(Unattributable)
      else if IsStale(existing, event.occurredAt) then Ok(billing)
      else
        var incoming := Trusted(event, claimed, provider);
        var planKey := PlanKeyOf(products, incoming, existing);
        Ok(WithSubscription(billing, resolved.value, incoming, planKey,
                            if existing.Some? then Some(existing.value.mirror.status) else None, now))
  }

  function WithSubscription(billing: Billing, organizationId: nat, incoming: ProviderSubscription, planKey: string,
                            previous: Option<SubscriptionStatus>, now: int): Billing
    requires organizationId in billing.organizations
  {
    var row := Lookup(billing.subscriptions, incoming.id);
    var saved := Saved(row, MirrorOf(incoming, row, organizationId, planKey), now);
    var organization := billing.organizations[organizationId];
    billing.(
      subscriptions := billing.subscriptions[incoming.id := saved],
      organizations := billing.organizations[organizationId := Entitle(organization, saved.mirror)],
      mails := billing.mails + Notices(organizationId, organization, incoming.id, saved.mirror.status, previous))
  }

  // ---------------------------------------------------------------- payments

  function StatusOf(amountCents: int, refundedCents: int): PaymentStatus {
    if refundedCents <= 0 then Paid
    else if refundedCents >= amountCents then Refunded
    else PartiallyRefunded
  }

  function PaymentSubscription(event: Event, incoming: ProviderPayment): Option<string> {
    OrElse(incoming.subscriptionId, if event.subscription.Some? then Some(event.subscription.value.id) else None)
  }

  function MergedPayment(row: Option<Payment>, incoming: ProviderPayment, isRefund: bool, organizationId: nat,
                         subscriptionId: Option<string>): Payment {
    var already := if row.Some? then row.value.refundedAmountCents else 0;
    var refunded := if isRefund then Max(already, incoming.refundedAmountCents) else already;
    var amount := if row.Some? && row.value.amountCents != 0 then row.value.amountCents else incoming.amountCents;
    Payment(
      organizationId,
      OrElse(subscriptionId, if row.Some? then row.value.subscriptionId else None),
      amount,
      incoming.currency,
      refunded,
      StatusOf(amount, refunded),
      OrElse(incoming.description, if row.Some? then row.value.description else None),
      OrElse(incoming.receiptUrl, if row.Some? then row.value.receiptUrl else None),
      if row.Some? then row.value.occurredAt else incoming.occurredAt)
  }

  function AppliedPayment(billing: Billing, event: Event): Result<Billing, ApplyError> {
    if event.payment.None? then Ok(billing) else
      var incoming := event.payment.value;
      var reference := PaymentSubscription(event, incoming);
      var known := if reference.Some? && reference.value in billing.subscriptions then reference else None;
      var resolved := ResolveOrganization(billing, event, reference);
      if resolved.None? then Err(Unattributable) else
        var isRefund := event.kind.PaymentRefunded?;
        var row := Lookup(billing.payments, incoming.orderId);
        var merged := MergedPayment(row, incoming, isRefund, resolved.value, known);
        var receipt :=
          if row.None? && !isRefund && billing.organizations[resolved.value].hasOwner
          then [ReceiptMail(resolved.value, incoming.orderId)] else [];
        Ok(billing.(payments := billing.payments[incoming.orderId := merged], mails := billing.mails + receipt))
  }

  function AppliedDispute(billing: Billing, event: Event): Billing {
    if event.payment.Some? && event.payment.value.orderId in billing.payments then
      var orderId := event.payment.value.orderId;
      billing.(payments := billing.payments[orderId := billing.payments[orderId].(status := Disputed)])
    else billing
  }

  function Applied(billing: Billing, event: Event, now: int, provider: Provider, products: Products): Result<Billing, ApplyError> {
    if event.AboutSubscription() then AppliedSubscription(billing, event, now, provider, products)
    else if event.AboutPayment() then AppliedPayment(billing, event)
    else Ok(AppliedDispute(billing, event))
  }

  // ---------------------------------------------------------------- the handler

  class WebhookHandler {
    const products: Products
    var organizations: map<nat, Organization>
    var publicIds: map<string, nat>
    var subscriptions: map<string, Subscription>
    var payments: map<string, Payment>
    var mails: seq<Mail>

    constructor (products: Products, organizations: map<nat, Organization>, publicIds: map<string, nat>)
      ensures State() == Billing(organizations, publicIds, map[], map[], []) && this.products == products
    {
      this.products := products;
      this.organizations := organizations;
      this.publicIds := publicIds;
      this.subscriptions := map[];
      this.payments := map[];
      this.mails := [];
    }

    function State(): Billing
      reads this
    {
      Billing(organizations, publicIds, subscriptions, payments, mails)
    }

    method Apply(event: Event, now: int, provider: Provider) returns (result: Result<(), ApplyError>)
      modifies this
      ensures var applied := Applied(old(State()), event, now, provider, products);
              if applied.Ok? then result == Ok(()) && State() == applied.value
              else result == Err(applied.error) && State() == old(State())
    {
      match event.kind {
        case PaymentSucceeded => result := ApplyPayment(event);
        case PaymentRefunded => result := ApplyPayment(event);
        case DisputeCreated => ApplyDispute(event); result := Ok(());
        case _ => result := ApplySubscription(event, now, provider);
      }
    }

    method ApplySubscription(event: Event, now: int, provider: Provider) returns (result: Result<(), ApplyError>)
      requires event.AboutSubscription()
      modifies this
      ensures var applied := AppliedSubscription(old(State()), event, now, provider, products);
              if applied.Ok? then result == Ok(()) && State() == applied.value
              else result == Err(applied.error) && State() == old(State())
    {
      if event.subscription.None? {
        return Ok(());
      }
      var incoming := event.subscription.value;
      var organizationId := ResolveOrganization(State(), event, Some(incoming.id));
      if organizationId.None? {
        return Err(Unattributable);
      }
      var existing := Lookup(subscriptions, incoming.id);
      if existing.Some? && event.occurredAt < existing.value.Watermark() - SECOND {
        return Ok(());
      }
      var previous := if existing.Some? then Some(existing.value.mirror.status) else None;
      if event.kind.SubscriptionCanceled? && incoming.currentPeriodEnd.None? {
        if incoming.id in provider {
          incoming := provider[incoming.id];
        }
      }
      var planKey := PlanKeyForProductId(products, incoming.productId);
      if planKey.None? {
        planKey := Some(if existing.Some? then existing.value.mirror.planKey else "free");
      }
      var subscription := UpsertSubscription(organizationId.value, incoming, planKey.value, now);
      var recipient := organizations[organizationId.value];
      SyncEntitlement(organizationId.value, subscription.mirror);
      Notify(organizationId.value, recipient, incoming.id, subscription.mirror.status, previous);
      return Ok(());
    }

    /** Keyed on the provider's id, so a redelivery updates rather than inserts. */
    method UpsertSubscription(organizationId: nat, incoming: ProviderSubscription, planKey: string, now: int)
      returns (subscription: Subscription)
      modifies this`subscriptions
      ensures var row := Lookup(old(subscriptions), incoming.id);
              && subscription == Saved(row, MirrorOf(incoming, row, organizationId, planKey), now)
              && subscriptions == old(subscriptions)[incoming.id := subscription]
    {
      var row := Lookup(subscriptions, incoming.id);
      var mirror := MirrorOf(incoming, row, organizationId, planKey);
      if row.None? {
        subscription := Subscription(mirror, now, Some(now));
      } else if mirror != row.value.mirror {
        subscription := Subscription(mirror, row.value.createdAt, Some(now));
      } else {
        subscription := row.value;
      }
      subscriptions := subscriptions[incoming.id := subscription];
    }

    method SyncEntitlement(organizationId: nat, mirror: Mirror)
      requires organizationId in organizations
      modifies this`organizations
      ensures organizations == old(organizations)[organizationId := Entitle(old(organizations[organizationId]), mirror)]
    {
      var organization := organizations[organizationId];
      if mirror.IsEntitling() {
        organization := organization.(planKey := PlanKeyFor(mirror.planKey));
        organization := organization.(status := if mirror.status.PastDue? then Overdue else Running);
        organization := organization.(trialEndsAt := mirror.trialEndsAt);
      } else {
        organization := organization.(planKey := "free", status := Running);
      }
      organizations := organizations[organizationId := organization];
    }

    /** Mail on a transition, never on a repeat of the same state. */
    method Notify(organizationId: nat, organization: Organization, id: string, status: SubscriptionStatus,
                  previous: Option<SubscriptionStatus>)
      modifies this`mails
      ensures mails == old(mails) + Notices(organizationId, organization, id, status, previous)
    {
      if previous == Some(status) || !organization.hasOwner {
        return;
      }
      if status.Active? && previous != Some(PastDue) {
        mails := mails + [ActivatedMail(organizationId, id)];
      } else if status.PastDue? {
        mails := mails + [PaymentFailedMail(organizationId, id)];
      } else if status.Canceled? || status.Expired? {
        mails := mails + [CanceledMail(organizationId, id)];
      }
    }

    method ApplyPayment(event: Event) returns (result: Result<(), ApplyError>)
      requires event.AboutPayment()
      modifies this
      ensures var applied := AppliedPayment(old(State()), event);
              if applied.Ok? then result == Ok(()) && State() == applied.value
              else result == Err(applied.error) && State() == old(State())
    {
      if event.payment.None? {
        return Ok(());
      }
      var incoming := event.payment.value;
      var reference := PaymentSubscription(event, incoming);
      var organizationId := ResolveOrganization(State(), event, reference);
      if organizationId.None? {
        return Err(Unattributable);
      }
      var known := if reference.Some? && reference.value in subscriptions then reference else None;
      var isRefund := event.kind.PaymentRefunded?;
      var row := Lookup(payments, incoming.orderId);
      payments := payments[incoming.orderId := MergedPayment(row, incoming, isRefund, organizationId.value, known)];
      if row.None? && !isRefund {
        if organizations[organizationId.value].hasOwner {
          mails := mails + [ReceiptMail(organizationId.value, incoming.orderId)];
        }
      }
      return Ok(());
    }

    method ApplyDispute(event: Event)
      modifies this
      ensures State() == AppliedDispute(old(State()), event)
    {
      if event.payment.Some? {
        var orderId := event.payment.value.orderId;
        if orderId in payments {
          payments := payments[orderId := payments[orderId].(status := Disputed)];
        }
      }
    }
  }
}
