/**
 * The sweep that diffs local subscriptions against the provider and corrects a
 * status mismatch, and the staff button that re-fetches one subscription. Both
 * wait for the provider between loading a row and saving it, so what they save
 * is worked out on a copy that may be out of date by then.
 */
module Reconciliation {
  import opened Prelude
  import opened Plans
  import opened WebhookHandler

  /** `getSubscription` as the sweep meets it; a fatal answer is a non-retryable refusal, which aborts the sweep. */
  datatype Answer = Found(theirs: ProviderSubscription) | NoRecord | Unreachable(fatal: bool)

  type Answers = map<string, Answer>

  datatype Field = Existence | Status | PlanKey | CurrentPeriodEnd

  datatype Reading = Absent | StatusReading(status: SubscriptionStatus) | PlanReading(planKey: string) | InstantReading(at: int)

  datatype DriftEntry = DriftEntry(id: string, organizationId: nat, field: Field, ours: Reading, theirs: Reading)

  datatype Report = Report(checked: nat, drifted: seq<DriftEntry>, missing: seq<DriftEntry>, corrected: nat)

  /** `copy` is the row as the sweep loaded it. */
  datatype Correction = Correction(id: string, copy: Mirror, status: SubscriptionStatus)

  datatype SweepError = ProviderRefused

  type Subscriptions = map<string, Subscription>

  // ---------------------------------------------------------------- one subscription

  function AnswerFor(answers: Answers, id: string): Answer {
    if id in answers then answers[id] else NoRecord
  }

  function Instant(at: Option<int>): Reading {
    if at.Some? then InstantReading(at.value) else Absent
  }

  function StatusDrift(id: string, ours: Mirror, theirs: ProviderSubscription): seq<DriftEntry> {
    if theirs.status == ours.status then []
    else [DriftEntry(id, ours.organizationId, Status, StatusReading(ours.status), StatusReading(theirs.status))]
  }

  function PlanDrift(id: string, ours: Mirror, theirs: ProviderSubscription, products: Products): seq<DriftEntry> {
    var theirPlan := PlanKeyForProductId(products, theirs.productId);
    if theirPlan.None? || theirPlan.value == ours.planKey then []
    else [DriftEntry(id, ours.organizationId, PlanKey, PlanReading(ours.planKey), PlanReading(theirPlan.value))]
  }

  function PeriodDrift(id: string, ours: Mirror, theirs: ProviderSubscription): seq<DriftEntry> {
    if ours.currentPeriodEnd == theirs.currentPeriodEnd then []
    else [DriftEntry(id, ours.organizationId, CurrentPeriodEnd, Instant(ours.currentPeriodEnd), Instant(theirs.currentPeriodEnd))]
  }

  function Drift(id: string, ours: Mirror, answer: Answer, products: Products): seq<DriftEntry> {
    if !answer.Found? then [] else
      StatusDrift(id, ours, answer.theirs) + PlanDrift(id, ours, answer.theirs, products) + PeriodDrift(id, ours, answer.theirs)
  }

  function Missing(id: string, ours: Mirror, answer: Answer): seq<DriftEntry> {
    if answer.NoRecord? then [DriftEntry(id, ours.organizationId, Existence, StatusReading(ours.status), Absent)] else []
  }

  function Wrong(id: string, ours: Mirror, answer: Answer): seq<Correction> {
    if answer.Found? && answer.theirs.status != ours.status then [Correction(id, ours, answer.theirs.status)] else []
  }

  // ---------------------------------------------------------------- the sweep, in the order the rows come back

  predicate Covers(subscriptions: Subscriptions, order: seq<string>) {
    forall k :: 0 <= k < |order| ==> order[k] in subscriptions
  }

  function AllDrift(subscriptions: Subscriptions, order: seq<string>, answers: Answers, products: Products): seq<DriftEntry>
    requires Covers(subscriptions, order)
  {
    if order == [] then [] else
      var id := order[|order| - 1];
      AllDrift(subscriptions, order[..|order| - 1], answers, products)
      + Drift(id, subscriptions[id].mirror, AnswerFor(answers, id), products)
  }

  function AllMissing(subscriptions: Subscriptions, order: seq<string>, answers: Answers): seq<DriftEntry>
    requires Covers(subscriptions, order)
  {
    if order == [] then [] else
      var id := order[|order| - 1];
      AllMissing(subscriptions, order[..|order| - 1], answers) + Missing(id, subscriptions[id].mirror, AnswerFor(answers, id))
  }

  function AllWrong(subscriptions: Subscriptions, order: seq<string>, answers: Answers): seq<Correction>
    requires Covers(subscriptions, order)
  {
    if order == [] then [] else
      var id := order[|order| - 1];
      AllWrong(subscriptions, order[..|order| - 1], answers) + Wrong(id, subscriptions[id].mirror, AnswerFor(answers, id))
  }

  predicate Aborts(order: seq<string>, answers: Answers) {
    exists k :: 0 <= k < |order| && AnswerFor(answers, order[k]) == Unreachable(true)
  }

  /** Only a refusal that is not worth repeating aborts; a failed call or a missing record lets the sweep go on. */
  lemma {:induction false} AbortsExactlyOnARefusal(order: seq<string>, answers: Answers)
    ensures Aborts(order, answers) <==> exists id :: id in order && id in answers && answers[id].Unreachable? && answers[id].fatal
  {
    if id :| id in order && id in answers && answers[id].Unreachable? && answers[id].fatal {
      var k :| 0 <= k < |order| && order[k] == id;
      assert AnswerFor(answers, order[k]) == Unreachable(true);
    }
    if k :| 0 <= k < |order| && AnswerFor(answers, order[k]) == Unreachable(true) {
      assert order[k] in order && order[k] in answers;
    }
  }

  predicate Distinct(order: seq<string>) {
    forall i, j :: 0 <= i < j < |order| ==> order[i] != order[j]
  }

  /** The rows the query returns: every subscription that is not cancelled or expired, once. */
  ghost predicate OpenOrder(subscriptions: Subscriptions, order: seq<string>) {
    && Covers(subscriptions, order) && Distinct(order)
    && (forall k :: 0 <= k < |order| ==> !subscriptions[order[k]].mirror.IsCanceled())
    && (forall id :: id in subscriptions && !subscriptions[id].mirror.IsCanceled() ==> id in order)
  }

  // ---------------------------------------------------------------- corrections

  /** The entitlement without the trial date, which only a webhook carries. */
  function Reentitle(organization: Organization, mirror: Mirror): Organization {
    organization.(planKey := EntitledPlan(mirror), status := EntitledStatus(mirror))
  }

  /** A save writes the columns in which the instance differs from the copy it was loaded as. */
  function Dirty(row: Mirror, copy: Mirror, instance: Mirror): Mirror {
    Mirror(
      row.organizationId,
      if instance.customerId != copy.customerId then instance.customerId else row.customerId,
      if instance.planKey != copy.planKey then instance.planKey else row.planKey,
      if instance.status != copy.status then instance.status else row.status,
      if instance.currentPeriodStart != copy.currentPeriodStart then instance.currentPeriodStart else row.currentPeriodStart,
      if instance.currentPeriodEnd != copy.currentPeriodEnd then instance.currentPeriodEnd else row.currentPeriodEnd,
      if instance.cancelAtPeriodEnd != copy.cancelAtPeriodEnd then instance.cancelAtPeriodEnd else row.cancelAtPeriodEnd,
      if instance.trialEndsAt != copy.trialEndsAt then instance.trialEndsAt else row.trialEndsAt,
      if instance.canceledAt != copy.canceledAt then instance.canceledAt else row.canceledAt)
  }

  function DirtyHome(row: Organization, copy: Organization, instance: Organization): Organization {
    row.(planKey := if instance.planKey != copy.planKey then instance.planKey else row.planKey,
         status := if instance.status != copy.status then instance.status else row.status)
  }

  /** Nothing to write leaves the row alone; otherwise it is stamped, even when it already said the same. */
  function SavedOver(row: Subscription, copy: Mirror, instance: Mirror, now: int): Subscription {
    if instance == copy then row else Subscription(Dirty(row.mirror, copy, instance), row.createdAt, Some(now))
  }

  lemma {:induction false} SavingOver(row: Subscription, copy: Mirror, instance: Mirror, now: int)
    ensures var saved := SavedOver(row, copy, instance, now);
            && (saved == row || saved.updatedAt == Some(now))
            && saved.mirror.organizationId == row.mirror.organizationId
            && saved.mirror.status == (if instance.status != copy.status then instance.status else row.mirror.status)
            && saved.mirror.planKey == (if instance.planKey != copy.planKey then instance.planKey else row.mirror.planKey)
  {
  }

  function Rewritten(billing: Billing, id: string, copy: Mirror, instance: Mirror, now: int): Billing
    requires id in billing.subscriptions
  {
    billing.(subscriptions := billing.subscriptions[id := SavedOver(billing.subscriptions[id], copy, instance, now)])
  }

  /** The workspace is loaded afresh; what it is entitled to comes from the copy. */
  function Corrected(billing: Billing, correction: Correction, now: int): Billing {
    if correction.id !in billing.subscriptions then billing else
      var instance := correction.copy.(status := correction.status);
      var rewritten := Rewritten(billing, correction.id, correction.copy, instance, now);
      if instance.organizationId !in billing.organizations then rewritten else
        rewritten.(organizations := billing.organizations[instance.organizationId :=
                     Reentitle(billing.organizations[instance.organizationId], instance)])
  }

  function CorrectAll(billing: Billing, corrections: seq<Correction>, now: int): Billing {
    if corrections == [] then billing else
      Corrected(CorrectAll(billing, corrections[..|corrections| - 1], now), corrections[|corrections| - 1], now)
  }

  /** The staff button: everything the provider says except the customer and trial dates. */
  function SyncedMirror(ours: Mirror, theirs: ProviderSubscription, products: Products): Mirror {
    var theirPlan := PlanKeyForProductId(products, theirs.productId);
    ours.(status := theirs.status,
          currentPeriodStart := theirs.currentPeriodStart,
          currentPeriodEnd := theirs.currentPeriodEnd,
          cancelAtPeriodEnd := theirs.cancelAtPeriodEnd,
          canceledAt := theirs.canceledAt,
          planKey := if theirPlan.Some? then theirPlan.value else ours.planKey)
  }

  /** Row and workspace were both loaded before the provider answered. */
  function Synced(billing: Billing, id: string, copy: Mirror, home: Organization, theirs: ProviderSubscription, now: int, products: Products)
    : Billing
  {
    if id !in billing.subscriptions || copy.organizationId !in billing.organizations then billing else
      var instance := SyncedMirror(copy, theirs, products);
      Rewritten(billing, id, copy, instance, now).(
        organizations := billing.organizations[copy.organizationId :=
          DirtyHome(billing.organizations[copy.organizationId], home, Reentitle(home, instance))])
  }

  // ---------------------------------------------------------------- the service

  class ReconciliationService {
    const products: Products
    var billing: Billing

    constructor (products: Products, billing: Billing)
      ensures this.products == products && this.billing == billing
    {
      this.products := products;
      this.billing := billing;
    }

    /** One subscription against what the provider says of it. */
    method Examine(id: string, subscription: Mirror, answer: Answer)
      returns (drifted: seq<DriftEntry>, missing: seq<DriftEntry>, corrections: seq<Correction>)
      ensures drifted == Drift(id, subscription, answer, products)
      ensures missing == Missing(id, subscription, answer)
      ensures corrections == Wrong(id, subscription, answer)
    {
      drifted, missing, corrections := [], [], [];
      var base := DriftEntry(id, subscription.organizationId, Existence, StatusReading(subscription.status), Absent);
      match answer {
        case Unreachable(_) =>
        case NoRecord =>
          missing := [base];
        case Found(theirs) =>
          if theirs.status != subscription.status {
            drifted := [base.(field := Status, theirs := StatusReading(theirs.status))];
            corrections := [Correction(id, subscription, theirs.status)];
          }
          var theirPlan := PlanKeyForProductId(products, theirs.productId);
          if theirPlan.Some? && theirPlan.value != subscription.planKey {
            drifted := drifted + [base.(field := PlanKey, ours := PlanReading(subscription.planKey), theirs := PlanReading(theirPlan.value))];
          }
          if subscription.currentPeriodEnd != theirs.currentPeriodEnd {
            drifted := drifted + [base.(field := CurrentPeriodEnd, ours := Instant(subscription.currentPeriodEnd),
                                        theirs := Instant(theirs.currentPeriodEnd))];
          }
      }
    }

    /** The read-only pass. */
    method Scan(order: seq<string>, answers: Answers)
      returns (result: Result<(Report, seq<Correction>), SweepError>)
      requires OpenOrder(billing.subscriptions, order)
      ensures result.Err? <==> Aborts(order, answers)
      ensures result.Ok? ==>
                && result.value.0 == Report(|order|, AllDrift(billing.subscriptions, order, answers, products),
                                            AllMissing(billing.subscriptions, order, answers), 0)
                && result.value.1 == AllWrong(billing.subscriptions, order, answers)
    {
      hide Drift, Missing, Wrong;
      var report := Report(0, [], [], 0);
      var corrections: seq<Correction> := [];
      var i := 0;
      while i < |order|
        invariant 0 <= i <= |order|
        invariant forall k :: 0 <= k < i ==> AnswerFor(answers, order[k]) != Unreachable(true)
        invariant report == Report(i, AllDrift(billing.subscriptions, order[..i], answers, products),
                                   AllMissing(billing.subscriptions, order[..i], answers), 0)
        invariant corrections == AllWrong(billing.subscriptions, order[..i], answers)
      {
        var id := order[i];
        assert order[..i + 1][..i] == order[..i] && order[..i + 1][i] == id;
        var answer := AnswerFor(answers, id);
        report := report.(checked := report.checked + 1);
        if answer == Unreachable(true) {
          return Err(ProviderRefused);
        }
        var drifted, missing, wrong := Examine(id, billing.subscriptions[id].mirror, answer);
        report := report.(drifted := report.drifted + drifted, missing := report.missing + missing);
        corrections := corrections + wrong;
        i := i + 1;
      }
      assert order[..i] == order;
      return Ok((report, corrections));
    }

    /**
     * Scan first, correct afterwards: a refused call aborts before anything is
     * written. `meanwhile` is what others have made of the tables by the end of
     * the scan.
     */
    method Reconcile(order: seq<string>, answers: Answers, meanwhile: Billing, now: int) returns (result: Result<Report, SweepError>)
      requires OpenOrder(billing.subscriptions, order)
      modifies this
      ensures result.Err? <==> Aborts(order, answers)
      ensures result.Err? ==> billing == meanwhile
      ensures result.Ok? ==>
                var wrong := AllWrong(old(billing).subscriptions, order, answers);
                && billing == CorrectAll(meanwhile, wrong, now)
                && result.value == Report(|order|, AllDrift(old(billing).subscriptions, order, answers, products),
                                          AllMissing(old(billing).subscriptions, order, answers), |wrong|)
    {
      hide Corrected, AllDrift, AllMissing, AllWrong;
      var scanned := Scan(order, answers);
      billing := meanwhile;
      if scanned.Err? {
        return Err(scanned.error);
      }
      var (report, corrections) := scanned.value;
      var i := 0;
      while i < |corrections|
        invariant 0 <= i <= |corrections|
        invariant report == scanned.value.0.(corrected := i)
        invariant billing == CorrectAll(meanwhile, corrections[..i], now)
      {
        assert corrections[..i + 1][..i] == corrections[..i];
        CorrectStatus(corrections[i], now);
        report := report.(corrected := report.corrected + 1);
        i := i + 1;
      }
      assert corrections[..i] == corrections;
      return Ok(report);
    }

    method CorrectStatus(correction: Correction, now: int)
      modifies this
      ensures billing == Corrected(old(billing), correction, now)
    {
      if correction.id !in billing.subscriptions {
        return;
      }
      var subscription := correction.copy.(status := correction.status);
      Save(correction.id, correction.copy, subscription, now);
      if subscription.organizationId !in billing.organizations {
        return;
      }
      var organization := billing.organizations[subscription.organizationId];
      if subscription.IsEntitling() {
        organization := organization.(planKey := PlanKeyFor(subscription.planKey));
        organization := organization.(status := if correction.status.PastDue? then Overdue else Running);
      } else {
        organization := organization.(planKey := "free", status := Running);
      }
      billing := billing.(organizations := billing.organizations[subscription.organizationId := organization]);
    }

    method Save(id: string, copy: Mirror, subscription: Mirror, now: int)
      requires id in billing.subscriptions
      modifies this
      ensures billing == Rewritten(old(billing), id, copy, subscription, now)
    {
      if subscription == copy {
        return;
      }
      var row := billing.subscriptions[id];
      billing := billing.(subscriptions :=
        billing.subscriptions[id := row.(mirror := Dirty(row.mirror, copy, subscription), updatedAt := Some(now))]);
    }

    /**
     * The admin button. The provider not answering, or having no record, changes
     * nothing. `meanwhile` is what others have made of the tables by the time it
     * answers.
     */
    method Sync(id: string, answer: Answer, meanwhile: Billing, now: int) returns (synced: bool)
      modifies this
      ensures synced <==> answer.Found? && id in old(billing).subscriptions
                          && old(billing).subscriptions[id].mirror.organizationId in old(billing).organizations
      ensures billing == if !synced then meanwhile else
                var copy := old(billing).subscriptions[id].mirror;
                Synced(meanwhile, id, copy, old(billing).organizations[copy.organizationId], answer.theirs, now, products)
    {
      if id !in billing.subscriptions || billing.subscriptions[id].mirror.organizationId !in billing.organizations || !answer.Found? {
        billing := meanwhile;
        return false;
      }
      var copy := billing.subscriptions[id].mirror;
      var home := billing.organizations[copy.organizationId];
      billing := meanwhile;
      var theirs := answer.theirs;
      var subscription := copy.(
        status := theirs.status, currentPeriodStart := theirs.currentPeriodStart, currentPeriodEnd := theirs.currentPeriodEnd,
        cancelAtPeriodEnd := theirs.cancelAtPeriodEnd, canceledAt := theirs.canceledAt);
      var theirPlan := PlanKeyForProductId(products, theirs.productId);
      if theirPlan.Some? {
        subscription := subscription.(planKey := theirPlan.value);
      }
      if id !in billing.subscriptions || copy.organizationId !in billing.organizations {
        return true;
      }
      Save(id, copy, subscription, now);
      var organization := home;
      if subscription.IsEntitling() {
        organization := organization.(planKey := PlanKeyFor(subscription.planKey));
        organization := organization.(status := if subscription.status.PastDue? then Overdue else Running);
      } else {
        organization := organization.(planKey := "free", status := Running);
      }
      var stored := billing.organizations[copy.organizationId];
      billing := billing.(organizations := billing.organizations[copy.organizationId := DirtyHome(stored, home, organization)]);
      return true;
    }
  }

  // ---------------------------------------------------------------- the fixpoint

  /** What one sweep makes of a subscription: their status, everything else ours. */
  function Settled(ours: Mirror, answer: Answer): Mirror {
    if answer.Found? then ours.(status := answer.theirs.status) else ours
  }

  lemma {:induction false} SweepSettlesEachRow(billing: Billing, order: seq<string>, answers: Answers, now: int, id: string)
    requires Covers(billing.subscriptions, order)
    requires Distinct(order) && id in billing.subscriptions
    ensures var after := CorrectAll(billing, AllWrong(billing.subscriptions, order, answers), now).subscriptions;
            && after.Keys == billing.subscriptions.Keys
            && after[id].mirror == if id in order then Settled(billing.subscriptions[id].mirror, AnswerFor(answers, id))
                                   else billing.subscriptions[id].mirror
  {
    if order != [] {
      var last := order[|order| - 1];
      var before := order[..|order| - 1];
      assert order == before + [last] && last !in before;
      SweepSettlesEachRow(billing, before, answers, now, id);
      SweepSettlesEachRow(billing, before, answers, now, last);
      OneMoreCorrection(billing, AllWrong(billing.subscriptions, before, answers), last, AnswerFor(answers, last), now);
    }
  }

  lemma {:induction false} OneMoreCorrection(billing: Billing, done: seq<Correction>, id: string, answer: Answer, now: int)
    requires id in billing.subscriptions
    requires var current := CorrectAll(billing, done, now).subscriptions;
             id in current && current[id].mirror == billing.subscriptions[id].mirror
    ensures var current := CorrectAll(billing, done, now).subscriptions;
            var after := CorrectAll(billing, done + Wrong(id, billing.subscriptions[id].mirror, answer), now).subscriptions;
            && after.Keys == current.Keys
            && after[id].mirror == Settled(billing.subscriptions[id].mirror, answer)
            && forall other :: other in current && other != id ==> after[other] == current[other]
  {
    var wrong := Wrong(id, billing.subscriptions[id].mirror, answer);
    if wrong == [] {
      assert done + wrong == done;
    } else {
      assert (done + wrong)[..|done|] == done;
    }
  }

  /** An entry is reported exactly when the two sides differ on its field, and it says what each side has. */
  lemma {:induction false} EntryNamesTheDifference(id: string, ours: Mirror, answer: Answer, products: Products, entry: DriftEntry)
    ensures entry in Drift(id, ours, answer, products) <==>
              && answer.Found? && entry.id == id && entry.organizationId == ours.organizationId
              && match entry.field
                 case Existence => false
                 case Status =>
                   ours.status != answer.theirs.status
                   && entry.ours == StatusReading(ours.status) && entry.theirs == StatusReading(answer.theirs.status)
                 case PlanKey =>
                   var theirPlan := PlanKeyForProductId(products, answer.theirs.productId);
                   theirPlan.Some? && theirPlan.value != ours.planKey
                   && entry.ours == PlanReading(ours.planKey) && entry.theirs == PlanReading(theirPlan.value)
                 case CurrentPeriodEnd =>
                   ours.currentPeriodEnd != answer.theirs.currentPeriodEnd
                   && entry.ours == Instant(ours.currentPeriodEnd) && entry.theirs == Instant(answer.theirs.currentPeriodEnd)
  {
    if answer.Found? {
      var (status, plan, period) := (StatusDrift(id, ours, answer.theirs), PlanDrift(id, ours, answer.theirs, products),
                                     PeriodDrift(id, ours, answer.theirs));
      assert entry in Drift(id, ours, answer, products) <==> entry in status || entry in plan || entry in period;
    }
  }

  /** A sweep looks at every row that is neither cancelled nor expired, and at no other. */
  lemma {:induction false} OpenRowsAreSwept(subscriptions: Subscriptions, order: seq<string>, id: string)
    requires OpenOrder(subscriptions, order)
    ensures id in order <==> id in subscriptions && subscriptions[id].mirror.status != SubscriptionStatus.Canceled
                             && subscriptions[id].mirror.status != SubscriptionStatus.Expired
  {
  }

  /** A row is reported missing exactly when it was swept and the provider has no record of it, and the entry says what ours is. */
  lemma {:induction false} MissingIsPerRow(subscriptions: Subscriptions, order: seq<string>, answers: Answers, entry: DriftEntry)
    requires Covers(subscriptions, order)
    ensures entry in AllMissing(subscriptions, order, answers)
       <==> && entry.id in order && (entry.id !in answers || answers[entry.id].NoRecord?)
            && entry.organizationId == subscriptions[entry.id].mirror.organizationId
            && entry.field == Existence && entry.ours == StatusReading(subscriptions[entry.id].mirror.status) && entry.theirs == Absent
  {
    if order != [] {
      var (last, before) := (order[|order| - 1], order[..|order| - 1]);
      MissingIsPerRow(subscriptions, before, answers, entry);
      assert order == before + [last];
    }
  }

  lemma {:induction false} DriftNamesItsRow(id: string, ours: Mirror, answer: Answer, products: Products, entry: DriftEntry)
    requires entry in Drift(id, ours, answer, products)
    ensures entry.id == id
  {
  }

  lemma {:induction false} DriftIsPerRow(subscriptions: Subscriptions, order: seq<string>, answers: Answers, products: Products, entry: DriftEntry)
    requires Covers(subscriptions, order)
    ensures entry in AllDrift(subscriptions, order, answers, products)
       <==> entry.id in order && entry in Drift(entry.id, subscriptions[entry.id].mirror, AnswerFor(answers, entry.id), products)
  {
    hide Drift;
    if order != [] {
      var last := order[|order| - 1];
      var before := order[..|order| - 1];
      DriftIsPerRow(subscriptions, before, answers, products, entry);
      assert order == before + [last];
      var drift := Drift(last, subscriptions[last].mirror, AnswerFor(answers, last), products);
      if entry in drift {
        DriftNamesItsRow(last, subscriptions[last].mirror, AnswerFor(answers, last), products, entry);
      }
    }
  }

  lemma {:induction false} OneCorrectionPerStatusDrift(id: string, ours: Mirror, answer: Answer, products: Products)
    ensures |Wrong(id, ours, answer)| == StatusEntries(Drift(id, ours, answer, products))
  {
    if answer.Found? {
      var (status, plan, period) := (StatusDrift(id, ours, answer.theirs), PlanDrift(id, ours, answer.theirs, products),
                                     PeriodDrift(id, ours, answer.theirs));
      StatusEntriesAppend(status + plan, period);
      StatusEntriesAppend(status, plan);
    }
  }

  lemma {:induction false} OneCorrectionPerStatusEntry(subscriptions: Subscriptions, order: seq<string>, answers: Answers, products: Products)
    requires Covers(subscriptions, order)
    ensures |AllWrong(subscriptions, order, answers)| == StatusEntries(AllDrift(subscriptions, order, answers, products))
  {
    hide Drift, Wrong;
    if order != [] {
      var id := order[|order| - 1];
      var before := order[..|order| - 1];
      OneCorrectionPerStatusEntry(subscriptions, before, answers, products);
      OneCorrectionPerStatusDrift(id, subscriptions[id].mirror, AnswerFor(answers, id), products);
      StatusEntriesAppend(AllDrift(subscriptions, before, answers, products),
                          Drift(id, subscriptions[id].mirror, AnswerFor(answers, id), products));
    }
  }

  function StatusEntries(entries: seq<DriftEntry>): nat {
    if entries == [] then 0 else
      var last := |entries| - 1;
      StatusEntries(entries[..last]) + (if entries[last].field.Status? then 1 else 0)
  }

  lemma {:induction false} StatusEntriesAppend(a: seq<DriftEntry>, b: seq<DriftEntry>)
    ensures StatusEntries(a + b) == StatusEntries(a) + StatusEntries(b)
  {
    if b == [] {
      assert a + b == a;
    } else {
      var last := |b| - 1;
      assert (a + b)[..|a| + last] == a + b[..last];
      StatusEntriesAppend(a, b[..last]);
    }
  }

  /**
   * Sweep twice against the same answers: the second report has no status drift
   * at all, and exactly the plan and period entries of the first one for
   * subscriptions that are still open.
   */
  lemma {:induction false} SecondSweepFindsNoStatusDrift(billing: Billing, first: seq<string>, second: seq<string>, answers: Answers,
                                      products: Products, now: int, entry: DriftEntry)
    requires OpenOrder(billing.subscriptions, first)
    requires OpenOrder(CorrectAll(billing, AllWrong(billing.subscriptions, first, answers), now).subscriptions, second)
    ensures var after := CorrectAll(billing, AllWrong(billing.subscriptions, first, answers), now).subscriptions;
            && AllWrong(after, second, answers) == []
            && (entry in AllDrift(after, second, answers, products)
                <==> entry in AllDrift(billing.subscriptions, first, answers, products)
                     && !entry.field.Status? && entry.id in second)
  {
    var after := CorrectAll(billing, AllWrong(billing.subscriptions, first, answers), now).subscriptions;
    forall id | id in second
      ensures id in first && after[id].mirror == Settled(billing.subscriptions[id].mirror, AnswerFor(answers, id))
    {
      assert id in after;
      if first != [] {
        SweepSettlesEachRow(billing, first, answers, now, first[0]);
      }
      SweepSettlesEachRow(billing, first, answers, now, id);
    }
    NothingLeftToCorrect(billing.subscriptions, after, second, answers);
    DriftIsPerRow(after, second, answers, products, entry);
    DriftIsPerRow(billing.subscriptions, first, answers, products, entry);
    if entry.id in second {
      SettledDrift(entry.id, billing.subscriptions[entry.id].mirror, AnswerFor(answers, entry.id), products, entry);
    }
  }

  lemma {:induction false} SettledDrift(id: string, ours: Mirror, answer: Answer, products: Products, entry: DriftEntry)
    ensures entry in Drift(id, Settled(ours, answer), answer, products)
       <==> entry in Drift(id, ours, answer, products) && !entry.field.Status?
  {
    if answer.Found? {
      assert Drift(id, Settled(ours, answer), answer, products)
          == PlanDrift(id, ours, answer.theirs, products) + PeriodDrift(id, ours, answer.theirs);
    }
  }

  lemma {:induction false} NothingLeftToCorrect(before: Subscriptions, after: Subscriptions, order: seq<string>, answers: Answers)
    requires Covers(before, order) && Covers(after, order)
    requires forall k :: 0 <= k < |order| ==> after[order[k]].mirror == Settled(before[order[k]].mirror, AnswerFor(answers, order[k]))
    ensures AllWrong(after, order, answers) == []
  {
    if order != [] {
      var last := |order| - 1;
      NothingLeftToCorrect(before, after, order[..last], answers);
    }
  }
}
