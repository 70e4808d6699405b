/** Several deliveries handled one after another. The handler keeps no memory
    of earlier events and does not look up existing orders, so what it does to
    the store over a run of deliveries follows from what one call does. */
module Deliveries {
  import opened JsValues
  import opened StripeEvents
  import opened Orders
  import opened Persistence
  import opened WebhookController

  /** One webhook request together with how the store's writes turn out for it. */
  datatype Delivery = Delivery(request: Request, faults: Faults)

  /** The store after handling `deliveries` in order. */
  function Replay(db: Db, env: Env, deliveries: seq<Delivery>): Db
    decreases |deliveries|
  {
    if deliveries == [] then db
    else
      var first := deliveries[0];
      Replay(Webhook(db, first.request, env, first.faults).db, env, deliveries[1..])
  }

  /** `n` copies of `x`. */
  function Copies<T>(x: T, n: nat): (s: seq<T>)
    ensures |s| == n
    ensures forall i :: 0 <= i < n ==> s[i] == x
  {
    if n == 0 then [] else [x] + Copies(x, n - 1)
  }

  /** `after` has the same plans as `before`, each unchanged or marked paid. */
  ghost predicate OnlyMarkedPaid(before: map<string, CustomPlan>, after: map<string, CustomPlan>) {
    && after.Keys == before.Keys
    && forall k :: k in before ==>
         after[k] == before[k] || after[k] == before[k].(paymentStatus := PLAN_PAID)
  }

  /** Over any run of deliveries, saved Orders are never changed or removed,
      at most one Order is added per delivery, no CustomPlan is created or
      removed, and a plan's only possible change is being marked paid. */
  lemma {:induction false} OrderHistoryKept(db: Db, env: Env, deliveries: seq<Delivery>)
    ensures var r := Replay(db, env, deliveries);
      && db.orders <= r.orders
      && |r.orders| <= |db.orders| + |deliveries|
      && OnlyMarkedPaid(db.plans, r.plans)
    decreases |deliveries|
  {
    if deliveries != [] {
      var first := deliveries[0];
      var next := Webhook(db, first.request, env, first.faults).db;
      WritesAndTheirOrder(db, first.request, env, first.faults);
      OrderHistoryKept(next, env, deliveries[1..]);
      var r := Replay(next, env, deliveries[1..]);
      assert OnlyMarkedPaid(db.plans, next.plans);
      forall k | k in db.plans
        ensures r.plans[k] == db.plans[k] || r.plans[k] == db.plans[k].(paymentStatus := PLAN_PAID)
      {
        assert k in next.plans;
      }
    }
  }

  /** Each request delivered once, with both store writes succeeding. */
  function FaultFree(reqs: seq<Request>): (ds: seq<Delivery>)
    ensures |ds| == |reqs|
    ensures forall i :: 0 <= i < |reqs| ==> ds[i] == Delivery(reqs[i], NO_FAULTS)
  {
    if reqs == [] then [] else [Delivery(reqs[0], NO_FAULTS)] + FaultFree(reqs[1..])
  }

  /** No deduplication: the same verified success event delivered in any
      number of requests (Stripe redelivers with a fresh signature header, so
      the requests may all differ) saves one identical Order per request; the
      CustomPlan it names is marked paid by the first delivery and stays so. */
  lemma {:induction false} RedeliveryDuplicatesOrders(
    db: Db, env: Env, reqs: seq<Request>, event: Event, kind: SuccessKind, data: PaymentData)
    requires forall i :: 0 <= i < |reqs| ==> VerifiedEvent(reqs[i], env) == Some(event)
    requires KindOf(event.tag) == Some(kind)
    requires Normalise(kind, event.dataObject) == Some(data)
    ensures var r := Replay(db, env, FaultFree(reqs));
      var target := CustomPlanTarget(data);
      && r.orders == db.orders + Copies(BuildOrder(data), |reqs|)
      && r.plans == (if |reqs| > 0 && target.Some? then MarkPaid(db.plans, target.value) else db.plans)
    decreases |reqs|
  {
    if reqs != [] {
      var n := |reqs|;
      var target := CustomPlanTarget(data);
      var order := BuildOrder(data);
      assert VerifiedEvent(reqs[0], env) == Some(event);
      PaymentProjected(db, reqs[0], env, NO_FAULTS, event, kind, data);
      var next := Webhook(db, reqs[0], env, NO_FAULTS).db;
      assert FaultFree(reqs)[1..] == FaultFree(reqs[1..]);
      assert forall i :: 0 <= i < |reqs[1..]| ==> reqs[1..][i] == reqs[i + 1];
      RedeliveryDuplicatesOrders(next, env, reqs[1..], event, kind, data);
      assert next.orders + Copies(order, n - 1) == db.orders + Copies(order, n);
      if target.Some? {
        MarkPaidIdempotent(db.plans, target.value);
      }
    }
  }

  /** The paired intent-level and charge-level events for one payment are two
      deliveries, and they save two Orders pointing at the same payment intent. */
  lemma PairedEventsSaveTwoOrders(
    db: Db, env: Env, intentReq: Request, chargeReq: Request, intent: StripeObject, charge: StripeObject)
    requires VerifiedEvent(intentReq, env) == Some(Event(PAYMENT_INTENT_SUCCEEDED, Some(intent)))
    requires VerifiedEvent(chargeReq, env) == Some(Event(CHARGE_SUCCEEDED, Some(charge)))
    requires intent.id.Some? && charge.paymentIntent == intent.id
    ensures var r := Replay(db, env, [Delivery(intentReq, NO_FAULTS), Delivery(chargeReq, NO_FAULTS)]);
      && |r.orders| == |db.orders| + 2
      && r.orders[|db.orders|].stripePaymentIntentId == intent.id
      && r.orders[|db.orders| + 1].stripePaymentIntentId == intent.id
  {
    var ds := [Delivery(intentReq, NO_FAULTS), Delivery(chargeReq, NO_FAULTS)];
    var intentData := Normalise(PaymentIntentSucceeded, Some(intent)).value;
    var chargeData := Normalise(ChargeSucceeded, Some(charge)).value;
    PaymentProjected(db, intentReq, env, NO_FAULTS, Event(PAYMENT_INTENT_SUCCEEDED, Some(intent)),
      PaymentIntentSucceeded, intentData);
    var next := Webhook(db, intentReq, env, NO_FAULTS).db;
    PaymentProjected(next, chargeReq, env, NO_FAULTS, Event(CHARGE_SUCCEEDED, Some(charge)),
      ChargeSucceeded, chargeData);
    var last := Webhook(next, chargeReq, env, NO_FAULTS).db;
    assert ds[1..] == [Delivery(chargeReq, NO_FAULTS)];
    assert Replay(db, env, ds) == Replay(next, env, ds[1..]);
    assert Replay(next, env, ds[1..]) == Replay(last, env, []);
  }
}
