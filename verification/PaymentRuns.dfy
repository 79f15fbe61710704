/** The money of one order over a whole run: how it converges, and how often a receipt goes out. */
module PaymentRuns {
  import opened Prelude
  import opened Plans
  import opened WebhookHandler
  import opened Reconciliation
  import opened BillingRuns

  predicate PaysInto(event: Event, order: string) {
    event.AboutPayment() && event.payment.Some? && event.payment.value.orderId == order
  }

  predicate Counts(billing: Billing, m: Moment, order: string) {
    m.change.Deliver? && PaysInto(m.change.event, order) && AppliedPayment(billing, m.change.event).Ok?
  }

  /** The payment events of `order` that took effect in `run[..i]`, in the order they were applied. */
  function AppliedTo(billing: Billing, products: Products, run: seq<Moment>, i: nat, order: string): seq<Event>
    requires i <= |run|
    ensures forall k :: 0 <= k < |AppliedTo(billing, products, run, i, order)| ==> PaysInto(AppliedTo(billing, products, run, i, order)[k], order)
  {
    if i == 0 then [] else
      AppliedTo(billing, products, run, i - 1, order)
      + (if Counts(StateAt(billing, products, run, i - 1), run[i - 1], order) then [run[i - 1].change.event] else [])
  }

  predicate Disputes(m: Moment, order: string) {
    m.change.Deliver? && m.change.event.kind.DisputeCreated?
    && m.change.event.payment.Some? && m.change.event.payment.value.orderId == order
  }

  predicate PaymentEvents(events: seq<Event>) {
    forall k :: 0 <= k < |events| ==> events[k].AboutPayment() && events[k].payment.Some?
  }

  function RefundOf(event: Event): int
    requires event.payment.Some?
  {
    if event.kind.PaymentRefunded? then event.payment.value.refundedAmountCents else 0
  }

  /** The largest refund anyone reported, 0 when nobody did. */
  function LargestRefund(events: seq<Event>): int
    requires PaymentEvents(events)
  {
    if events == [] then 0 else Max(LargestRefund(events[..|events| - 1]), RefundOf(events[|events| - 1]))
  }

  /** The first charge that was not zero. */
  function FirstCharge(events: seq<Event>): int
    requires PaymentEvents(events)
  {
    if events == [] then 0 else
      var earlier := FirstCharge(events[..|events| - 1]);
      if earlier != 0 then earlier else events[|events| - 1].payment.value.amountCents
  }

  /** All charges up to some point are zero, and it is the one there; or all are zero. */
  lemma {:induction false} FirstChargeIsTheFirst(events: seq<Event>)
    requires PaymentEvents(events)
    ensures (FirstCharge(events) == 0 && forall k :: 0 <= k < |events| ==> events[k].payment.value.amountCents == 0)
            || exists k :: 0 <= k < |events| && events[k].payment.value.amountCents == FirstCharge(events) != 0
                           && forall j :: 0 <= j < k ==> events[j].payment.value.amountCents == 0
  {
    if events != [] {
      var rest := events[..|events| - 1];
      FirstChargeIsTheFirst(rest);
      if FirstCharge(rest) != 0 {
        var k :| 0 <= k < |rest| && rest[k].payment.value.amountCents == FirstCharge(rest)
                 && forall j :: 0 <= j < k ==> rest[j].payment.value.amountCents == 0;
        assert events[k] == rest[k] && forall j :: 0 <= j < k ==> events[j] == rest[j];
      } else {
        assert forall j :: 0 <= j < |rest| ==> events[j] == rest[j];
        assert events[|events| - 1].payment.value.amountCents == FirstCharge(events);
      }
    }
  }

  /** Paid with nothing refunded, refunded with at least the charge, partially refunded in between. */
  predicate StatusFits(status: PaymentStatus, charge: int, refunded: int) {
    && (status == Paid <==> refunded == 0)
    && (status == Refunded <==> 0 < refunded && charge <= refunded)
    && (status == PartiallyRefunded <==> 0 < refunded < charge)
  }

  lemma {:induction false} OneMorePayment(billing: Billing, event: Event, events: seq<Event>, order: string)
    requires PaymentEvents(events) && PaysInto(event, order) && AppliedPayment(billing, event).Ok?
    requires order in billing.payments <==> events != []
    requires order in billing.payments ==>
               && billing.payments[order].amountCents == FirstCharge(events)
               && billing.payments[order].refundedAmountCents == LargestRefund(events)
    ensures var after := AppliedPayment(billing, event).value;
            && order in after.payments
            && MoneyOf(after.payments[order]) == Money(FirstCharge(events + [event]), LargestRefund(events + [event]),
                                                       StatusOf(FirstCharge(events + [event]), LargestRefund(events + [event])))
  {
    assert (events + [event])[..|events|] == events;
    LargestRefundIsLargest(events);
  }

  lemma {:induction false} OthersLeaveTheOrderAlone(billing: Billing, products: Products, m: Moment, order: string)
    requires !Disputes(m, order) && !Counts(billing, m, order)
    ensures Lookup(After(billing, products, m).payments, order) == Lookup(billing.payments, order)
  {
  }

  /**
   * At every point of any run without a dispute of the order there is one row for
   * it exactly when one of its events took effect, and its amount, refund and
   * status are a function of those events alone.
   */
  lemma {:induction false} OrderFollowsItsEvents(billing: Billing, products: Products, run: seq<Moment>, i: nat, order: string)
    requires i <= |run| && order !in billing.payments
    requires forall k :: 0 <= k < |run| ==> !Disputes(run[k], order)
    ensures var now := StateAt(billing, products, run, i);
            var events := AppliedTo(billing, products, run, i, order);
            && (order in now.payments <==> events != [])
            && (events != [] ==> MoneyOf(now.payments[order]) == Money(FirstCharge(events), LargestRefund(events),
                                                                       StatusOf(FirstCharge(events), LargestRefund(events))))
  {
    if i > 0 {
      OrderFollowsItsEvents(billing, products, run, i - 1, order);
      var before := StateAt(billing, products, run, i - 1);
      var events := AppliedTo(billing, products, run, i - 1, order);
      if Counts(before, run[i - 1], order) {
        OneMorePayment(before, run[i - 1].change.event, events, order);
        assert After(before, products, run[i - 1]) == AppliedPayment(before, run[i - 1].change.event).value;
      } else {
        OthersLeaveTheOrderAlone(before, products, run[i - 1], order);
        assert AppliedTo(billing, products, run, i, order) == events;
      }
    }
  }

  lemma {:induction false} StatusOfFits(charge: int, refunded: int)
    requires 0 <= refunded
    ensures StatusFits(StatusOf(charge, refunded), charge, refunded)
  {
  }

  /**
   * So the status of an order says, of its events alone: paid while no refund is
   * reported, refunded once the largest reaches the charge, and partially refunded
   * strictly between.
   */
  lemma {:induction false} OrderStatusFitsItsEvents(billing: Billing, products: Products, run: seq<Moment>, i: nat, order: string)
    requires i <= |run| && order !in billing.payments
    requires forall k :: 0 <= k < |run| ==> !Disputes(run[k], order)
    ensures var (now, events) := (StateAt(billing, products, run, i), AppliedTo(billing, products, run, i, order));
            var (charge, refunded) := (FirstCharge(events), LargestRefund(events));
            events != [] ==>
              && order in now.payments && 0 <= refunded
              && now.payments[order].amountCents == charge && now.payments[order].refundedAmountCents == refunded
              && (now.payments[order].status == Paid <==> refunded == 0)
              && (now.payments[order].status == Refunded <==> 0 < refunded && charge <= refunded)
              && (now.payments[order].status == PartiallyRefunded <==> 0 < refunded && refunded < charge)
  {
    hide StatusOf, StateAt, AppliedTo, FirstCharge, LargestRefund;
    var events := AppliedTo(billing, products, run, i, order);
    OrderFollowsItsEvents(billing, products, run, i, order);
    LargestRefundIsLargest(events);
    StatusOfFits(FirstCharge(events), LargestRefund(events));
  }

  lemma {:induction false} LargestRefundIsLargest(events: seq<Event>)
    requires PaymentEvents(events)
    ensures 0 <= LargestRefund(events)
    ensures forall k :: 0 <= k < |events| ==> RefundOf(events[k]) <= LargestRefund(events)
    ensures LargestRefund(events) == 0 || exists k :: 0 <= k < |events| && RefundOf(events[k]) == LargestRefund(events)
  {
    if events != [] {
      var rest := events[..|events| - 1];
      LargestRefundIsLargest(rest);
      if LargestRefund(events) == LargestRefund(rest) && LargestRefund(rest) != 0 {
        var k :| 0 <= k < |rest| && RefundOf(rest[k]) == LargestRefund(rest);
        assert events[k] == rest[k];
      }
    }
  }

  ghost predicate SameEvents(a: seq<Event>, b: seq<Event>) {
    && (a == [] <==> b == [])
    && (forall k :: 0 <= k < |a| ==> a[k] in b)
    && (forall k :: 0 <= k < |b| ==> b[k] in a)
  }

  lemma {:induction false} RefundAtMost(a: seq<Event>, b: seq<Event>)
    requires PaymentEvents(a) && PaymentEvents(b)
    requires forall k :: 0 <= k < |a| ==> a[k] in b
    ensures LargestRefund(a) <= LargestRefund(b)
  {
    LargestRefundIsLargest(a);
    LargestRefundIsLargest(b);
    if LargestRefund(a) != 0 {
      var k :| 0 <= k < |a| && RefundOf(a[k]) == LargestRefund(a);
      assert a[k] in b;
      var j :| 0 <= j < |b| && b[j] == a[k];
    }
  }

  lemma {:induction false} SameChargeThroughout(events: seq<Event>, charge: int)
    requires PaymentEvents(events) && events != []
    requires forall k :: 0 <= k < |events| ==> events[k].payment.value.amountCents == charge
    ensures FirstCharge(events) == charge
  {
    if |events| > 1 {
      SameChargeThroughout(events[..|events| - 1], charge);
    }
  }

  /**
   * Two runs that applied the same events to an order, in any order and any number
   * of times each, all carrying the same charge, end with the same amount, the same
   * refund and the same status.
   */
  lemma {:induction false} PaymentsConverge(a: Billing, b: Billing, products: Products, left: seq<Moment>, right: seq<Moment>, order: string, charge: int)
    requires order !in a.payments && order !in b.payments
    requires forall k :: 0 <= k < |left| ==> !Disputes(left[k], order)
    requires forall k :: 0 <= k < |right| ==> !Disputes(right[k], order)
    requires SameEvents(AppliedTo(a, products, left, |left|, order), AppliedTo(b, products, right, |right|, order))
    requires var events := AppliedTo(a, products, left, |left|, order);
             forall k :: 0 <= k < |events| ==> events[k].payment.value.amountCents == charge
    ensures var (leftEnd, rightEnd) := (StateAt(a, products, left, |left|), StateAt(b, products, right, |right|));
            && (order in leftEnd.payments <==> order in rightEnd.payments)
            && (order in leftEnd.payments ==>
                  && MoneyOf(leftEnd.payments[order]) == MoneyOf(rightEnd.payments[order])
                  && leftEnd.payments[order].amountCents == charge)
  {
    var (one, other) := (AppliedTo(a, products, left, |left|, order), AppliedTo(b, products, right, |right|, order));
    OrderFollowsItsEvents(a, products, left, |left|, order);
    OrderFollowsItsEvents(b, products, right, |right|, order);
    RefundAtMost(one, other);
    RefundAtMost(other, one);
    if one != [] {
      assert one[0] in other;
      forall k | 0 <= k < |other|
        ensures other[k].payment.value.amountCents == charge
      {
        assert other[k] in one;
      }
      SameChargeThroughout(one, charge);
      SameChargeThroughout(other, charge);
    }
  }

  /** Nor does the mark leave anything else behind: the next payment event writes the row it would have written without it. */
  lemma {:induction false} DisputeMarkIsOverwritten(billing: Billing, dispute: Event, event: Event, order: string)
    requires order in billing.payments && dispute.kind.DisputeCreated?
    requires dispute.payment.Some? && dispute.payment.value.orderId == order && PaysInto(event, order)
    ensures var marked := AppliedDispute(billing, dispute);
            && marked.payments[order].status == Disputed
            && AppliedPayment(marked, event).Ok? == AppliedPayment(billing, event).Ok?
            && (AppliedPayment(billing, event).Ok? ==>
                  AppliedPayment(marked, event).value.payments[order] == AppliedPayment(billing, event).value.payments[order])
  {
    assert ResolveOrganization(AppliedDispute(billing, dispute), event, PaymentSubscription(event, event.payment.value))
        == ResolveOrganization(billing, event, PaymentSubscription(event, event.payment.value));
  }

  predicate IsDisputed(billing: Billing, order: string) {
    order in billing.payments && billing.payments[order].status == Disputed
  }

  /** `m` puts the mark: a dispute of an order that has a row. */
  predicate Marks(billing: Billing, m: Moment, order: string) {
    Disputes(m, order) && order in billing.payments
  }

  predicate MarksAt(billing: Billing, products: Products, run: seq<Moment>, k: nat, order: string)
    requires k < |run|
  {
    Marks(StateAt(billing, products, run, k), run[k], order)
  }

  predicate CountsAt(billing: Billing, products: Products, run: seq<Moment>, k: nat, order: string)
    requires k < |run|
  {
    Counts(StateAt(billing, products, run, k), run[k], order)
  }

  predicate NoPaymentSince(billing: Billing, products: Products, run: seq<Moment>, k: nat, i: nat, order: string)
    requires i <= |run|
  {
    forall j :: k <= j < i ==> !CountsAt(billing, products, run, j, order)
  }

  /** Some dispute in `run[..i]` took effect, and no payment event of the order did after it. */
  ghost predicate MarkStands(billing: Billing, products: Products, run: seq<Moment>, i: nat, order: string)
    requires i <= |run|
  {
    exists k :: 0 <= k < i && MarksAt(billing, products, run, k, order) && NoPaymentSince(billing, products, run, k + 1, i, order)
  }

  lemma {:induction false} MarkStandsStep(billing: Billing, products: Products, run: seq<Moment>, i: nat, order: string)
    requires 0 < i <= |run|
    ensures MarkStands(billing, products, run, i, order)
       <==> MarksAt(billing, products, run, i - 1, order)
            || (MarkStands(billing, products, run, i - 1, order) && !CountsAt(billing, products, run, i - 1, order))
  {
    hide MarksAt, CountsAt;
    if MarksAt(billing, products, run, i - 1, order) {
      assert NoPaymentSince(billing, products, run, i - 1 + 1, i, order);
    } else if MarkStands(billing, products, run, i - 1, order) && !CountsAt(billing, products, run, i - 1, order) {
      var k :| 0 <= k < i - 1 && MarksAt(billing, products, run, k, order) && NoPaymentSince(billing, products, run, k + 1, i - 1, order);
      assert NoPaymentSince(billing, products, run, k + 1, i, order);
    }
  }

  lemma {:induction false} OneChangeAndTheMark(billing: Billing, products: Products, m: Moment, order: string)
    ensures IsDisputed(After(billing, products, m), order)
       <==> Marks(billing, m, order) || (IsDisputed(billing, order) && !Counts(billing, m, order))
  {
    if !Disputes(m, order) && !Counts(billing, m, order) {
      hide After;
      OthersLeaveTheOrderAlone(billing, products, m, order);
    }
  }

  /**
   * Over any run an order shows as disputed exactly when the last change that
   * took effect on it was a dispute: one of the run, or the one it began with.
   */
  lemma {:induction false} DisputedExactlyWhenLastChangeDisputed(billing: Billing, products: Products, run: seq<Moment>, i: nat, order: string)
    requires i <= |run|
    ensures IsDisputed(StateAt(billing, products, run, i), order)
       <==> MarkStands(billing, products, run, i, order)
            || (IsDisputed(billing, order) && NoPaymentSince(billing, products, run, 0, i, order))
  {
    hide After, Marks, Counts, IsDisputed, MarkStands, NoPaymentSince;
    PaymentSinceStep(billing, products, run, i, order);
    if i > 0 {
      DisputedExactlyWhenLastChangeDisputed(billing, products, run, i - 1, order);
      OneChangeAndTheMark(StateAt(billing, products, run, i - 1), products, run[i - 1], order);
      MarkStandsStep(billing, products, run, i, order);
      MarkAndPaymentExclude(StateAt(billing, products, run, i - 1), run[i - 1], order);
    }
  }

  lemma {:induction false} PaymentSinceStep(billing: Billing, products: Products, run: seq<Moment>, i: nat, order: string)
    requires i <= |run|
    ensures i == 0 ==> NoPaymentSince(billing, products, run, 0, i, order) && !MarkStands(billing, products, run, i, order)
    ensures i > 0 ==> (NoPaymentSince(billing, products, run, 0, i, order)
                       <==> NoPaymentSince(billing, products, run, 0, i - 1, order) && !CountsAt(billing, products, run, i - 1, order))
  {
    hide CountsAt, MarksAt;
  }

  lemma {:induction false} MarkAndPaymentExclude(billing: Billing, m: Moment, order: string)
    ensures !(Marks(billing, m, order) && Counts(billing, m, order))
  {
  }

  /**
   * Whose a payment is. One that refers to a recorded subscription, itself or
   * through its event, belongs where that is recorded and is linked to it; any
   * other belongs to the live workspace the event carries, and without one it is
   * refused.
   */
  lemma {:induction false} PaymentsAreAttributed(billing: Billing, event: Event)
    requires event.AboutPayment() && event.payment.Some?
    ensures var (incoming, applied) := (event.payment.value, AppliedPayment(billing, event));
            var reference := if incoming.subscriptionId.Some? then incoming.subscriptionId
                             else if event.subscription.Some? then Some(event.subscription.value.id) else None;
            if reference.Some? && reference.value in billing.subscriptions then
              var o := billing.subscriptions[reference.value].mirror.organizationId;
              && (applied.Ok? <==> o in billing.organizations)
              && (applied.Ok? ==>
                    && incoming.orderId in applied.value.payments
                    && applied.value.payments[incoming.orderId].organizationId == o
                    && applied.value.payments[incoming.orderId].subscriptionId == reference)
            else
              && (applied.Ok? <==>
                    && event.organizationPublicId.Some? && event.organizationPublicId.value in billing.publicIds
                    && billing.publicIds[event.organizationPublicId.value] in billing.organizations
                    && !billing.organizations[billing.publicIds[event.organizationPublicId.value]].deleted)
              && (applied.Ok? ==>
                    && incoming.orderId in applied.value.payments
                    && applied.value.payments[incoming.orderId].organizationId == billing.publicIds[event.organizationPublicId.value])
  {
  }

  /** One payment event in columns: what it writes, and what it keeps of an earlier row. */
  lemma {:induction false} PaymentColumns(billing: Billing, event: Event)
    requires event.AboutPayment() && event.payment.Some? && AppliedPayment(billing, event).Ok?
    ensures var (incoming, after) := (event.payment.value, AppliedPayment(billing, event).value);
            && incoming.orderId in after.payments
            && var row := after.payments[incoming.orderId];
            && row.currency == incoming.currency
            && (forall other :: other in billing.payments && other != incoming.orderId ==>
                                  other in after.payments && after.payments[other] == billing.payments[other])
            && (incoming.description.Some? ==> row.description == incoming.description)
            && (incoming.receiptUrl.Some? ==> row.receiptUrl == incoming.receiptUrl)
            && (incoming.orderId !in billing.payments ==>
                  && row.amountCents == incoming.amountCents && row.occurredAt == incoming.occurredAt
                  && row.description == incoming.description && row.receiptUrl == incoming.receiptUrl
                  && row.refundedAmountCents == (if event.kind.PaymentRefunded? && incoming.refundedAmountCents > 0
                                                 then incoming.refundedAmountCents else 0))
  {
  }

  /** Later rows of an order know at least as much as earlier ones. */
  predicate Learns(before: Payment, after: Payment) {
    && after.occurredAt == before.occurredAt
    && after.refundedAmountCents >= before.refundedAmountCents
    && (before.amountCents != 0 ==> after.amountCents == before.amountCents)
    && (before.description.Some? ==> after.description.Some?)
    && (before.receiptUrl.Some? ==> after.receiptUrl.Some?)
    && (before.subscriptionId.Some? ==> after.subscriptionId.Some?)
  }

  lemma {:induction false} ChangeTeaches(billing: Billing, products: Products, m: Moment, order: string)
    requires order in billing.payments
    ensures order in After(billing, products, m).payments
    ensures Learns(billing.payments[order], After(billing, products, m).payments[order])
  {
    if Counts(billing, m, order) {
    } else if Disputes(m, order) {
    } else {
      hide After;
      OthersLeaveTheOrderAlone(billing, products, m, order);
    }
  }

  /**
   * Over any run, disputes included: an order's row stays, the moment of the
   * purchase and a charge once known are fixed, a refund never shrinks, and a
   * description, receipt or subscription once known is never lost.
   */
  lemma {:induction false} OrderOnlyLearns(billing: Billing, products: Products, run: seq<Moment>, i: nat, j: nat, order: string)
    requires i <= j <= |run| && order in StateAt(billing, products, run, i).payments
    ensures order in StateAt(billing, products, run, j).payments
    ensures Learns(StateAt(billing, products, run, i).payments[order], StateAt(billing, products, run, j).payments[order])
  {
    if i < j {
      OrderOnlyLearns(billing, products, run, i, j - 1, order);
      ChangeTeaches(StateAt(billing, products, run, j - 1), products, run[j - 1], order);
    }
  }

  // ---------------------------------------------------------------- receipts

  function Receipts(mails: seq<Mail>, order: string): nat {
    if mails == [] then 0 else
      Receipts(mails[..|mails| - 1], order)
      + (if mails[|mails| - 1].ReceiptMail? && mails[|mails| - 1].orderId == order then 1 else 0)
  }

  lemma {:induction false} ReceiptsAfterOneMore(mails: seq<Mail>, more: seq<Mail>, order: string)
    requires |more| <= 1
    ensures Receipts(mails + more, order)
         == Receipts(mails, order) + (if |more| == 1 && more[0].ReceiptMail? && more[0].orderId == order then 1 else 0)
  {
    if more == [] {
      assert mails + more == mails;
    } else {
      assert (mails + more)[..|mails|] == mails;
    }
  }

  /** A change sends a receipt exactly when it inserts the order's row from a charge to a workspace with an owner. */
  lemma {:induction false} ReceiptForTheFirstCharge(billing: Billing, products: Products, m: Moment, order: string)
    ensures var after := After(billing, products, m);
            && (order in billing.payments || Counts(billing, m, order) ==> order in after.payments)
            && Receipts(after.mails, order) - Receipts(billing.mails, order)
            == (if order !in billing.payments && Counts(billing, m, order) && m.change.event.kind.PaymentSucceeded?
                   && billing.organizations[after.payments[order].organizationId].hasOwner
                then 1 else 0)
  {
    match m.change {
      case Deliver(event, provider) =>
        if event.AboutSubscription() {
          SubscriptionsSendNoReceipt(billing, products, event, m.at, provider, order);
        } else if event.AboutPayment() && AppliedPayment(billing, event).Ok? {
          PaymentReceipt(billing, event, order);
        }
      case _ =>
    }
  }

  lemma {:induction false} NoticesAreNoReceipts(mails: seq<Mail>, organizationId: nat, organization: Organization, id: string,
                                                status: SubscriptionStatus, previous: Option<SubscriptionStatus>, order: string)
    ensures Receipts(mails + Notices(organizationId, organization, id, status, previous), order) == Receipts(mails, order)
  {
    ReceiptsAfterOneMore(mails, Notices(organizationId, organization, id, status, previous), order);
  }

  lemma {:induction false} SubscriptionsSendNoReceipt(billing: Billing, products: Products, event: Event, now: int, provider: Provider, order: string)
    ensures var applied := AppliedSubscription(billing, event, now, provider, products);
            applied.Ok? ==> applied.value.payments == billing.payments
                            && Receipts(applied.value.mails, order) == Receipts(billing.mails, order)
  {
    if event.subscription.Some? {
      var claimed := event.subscription.value;
      var existing := Lookup(billing.subscriptions, claimed.id);
      var resolved := ResolveOrganization(billing, event, Some(claimed.id));
      if resolved.Some? && !IsStale(existing, event.occurredAt) {
        var incoming := Trusted(event, claimed, provider);
        var row := Lookup(billing.subscriptions, incoming.id);
        var saved := Saved(row, MirrorOf(incoming, row, resolved.value, PlanKeyOf(products, incoming, existing)), now);
        var previous := if existing.Some? then Some(existing.value.mirror.status) else None;
        NoticesAreNoReceipts(billing.mails, resolved.value, billing.organizations[resolved.value], incoming.id,
                             saved.mirror.status, previous, order);
        hide Saved, MirrorOf, PlanKeyOf, Entitle, Notices, Receipts, Trusted, ResolveOrganization;
      }
    }
  }

  lemma {:induction false} PaymentReceipt(billing: Billing, event: Event, order: string)
    requires AppliedPayment(billing, event).Ok?
    ensures var after := AppliedPayment(billing, event).value;
            Receipts(after.mails, order) - Receipts(billing.mails, order)
            == (if order !in billing.payments && event.payment.Some? && event.payment.value.orderId == order && !event.kind.PaymentRefunded?
                   && billing.organizations[after.payments[order].organizationId].hasOwner
                then 1 else 0)
  {
    if event.payment.Some? {
      var paid := event.payment.value.orderId;
      var after := AppliedPayment(billing, event).value;
      var organizationId := after.payments[paid].organizationId;
      var sent := if paid !in billing.payments && !event.kind.PaymentRefunded? && billing.organizations[organizationId].hasOwner
                  then [ReceiptMail(organizationId, paid)] else [];
      assert after.mails == billing.mails + sent;
      ReceiptsAfterOneMore(billing.mails, sent, order);
    }
  }

  /** However often a charge is redelivered or replayed, whatever else happens, its receipt goes out at most once. */
  lemma {:induction false} AtMostOneReceipt(billing: Billing, products: Products, run: seq<Moment>, i: nat, order: string)
    requires i <= |run|
    requires Receipts(billing.mails, order) == 0
    ensures Receipts(StateAt(billing, products, run, i).mails, order) <= 1
    ensures order !in StateAt(billing, products, run, i).payments ==> Receipts(StateAt(billing, products, run, i).mails, order) == 0
  {
    hide After, Counts;
    if i > 0 {
      AtMostOneReceipt(billing, products, run, i - 1, order);
      ReceiptForTheFirstCharge(StateAt(billing, products, run, i - 1), products, run[i - 1], order);
    }
  }
}
