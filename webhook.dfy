/** The Stripe webhook handler `stripeWebhook`: gatekeeping on the signature
    header and the configured secret, signature verification, dispatch on the
    event type, and projection of a successful payment into the store.

    `Webhook` is the handler as a function from the store's contents and the
    request to the response, the new contents and the external calls made, in
    order; `StripeWebhook` is the handler as the step-by-step procedure over a
    `Store`, proved to agree with it. The lemmas state what callers and the
    provider can rely on. */
module WebhookController {
  import opened JsValues
  import opened StripeEvents
  import opened Orders
  import opened Persistence

  /** The parts of the HTTP request the handler reads: the `stripe-signature`
      header and `req.body`. */
  datatype Request = Request(signature: Option<string>, body: Body)

  datatype ResponseBody = PlainText(text: string) | ReceivedTrue

  /** An HTTP status and body; `ReceivedTrue` is the JSON `{ received: true }`. */
  datatype Response = Response(status: int, body: ResponseBody)

  const NO_SIGNATURE := Response(400, PlainText("No Stripe signature found"))
  const NO_SECRET := Response(500, PlainText("Webhook secret not configured"))
  const ACKNOWLEDGED := Response(200, ReceivedTrue)

  /** The reply for every error thrown while preparing or verifying the body. */
  function Rejection(message: string): (r: Response)
    ensures r.status == 400 && r.body.PlainText?
    ensures |r.body.text| == |"Webhook Error: "| + |message|
    ensures r.body.text[..|"Webhook Error: "|] == "Webhook Error: "
    ensures r.body.text[|"Webhook Error: "|..] == message
  {
    Response(400, PlainText("Webhook Error: " + message))
  }

  /** The handler's collaborators: the configured endpoint secret, and the two
      library calls whose internals are not modelled, `JSON.stringify` and
      `stripe.webhooks.constructEvent(payload, signature, secret)` (which
      either returns the event or throws with a message). */
  datatype Env = Env(
    secret: Option<string>,
    stringify: Json -> string,
    constructEvent: (Payload, string, string) -> Result<Event>)

  /** Whether each store write reports an error. */
  datatype Faults = Faults(saveFails: bool, updateFails: bool)

  const NO_FAULTS := Faults(false, false)

  /** An external call made by the handler. */
  datatype Call =
    | Verify(payload: Payload, signature: string, secret: string)
    | SaveOrder(order: Order)
    | UpdatePlan(planId: string)

  /** The response, the store's new contents and the calls made, in order. */
  datatype Outcome = Outcome(response: Response, db: Db, calls: seq<Call>)

  /** The body handed to verification: a string or Buffer unchanged, a parsed
      object re-encoded with `JSON.stringify`; any other type throws. */
  function ToPayload(body: Body, stringify: Json -> string): (r: Result<Payload>)
    ensures body.StringBody? ==> r == Success(Text(body.text))
    ensures body.BufferBody? ==> r == Success(Bytes(body.bytes))
    ensures body.ObjectBody? ==> r == Success(Text(stringify(body.parsed)))
    ensures body.OtherBody? ==> r == Failure("Unexpected body type: " + body.kind.Name())
  {
    match body
    case StringBody(text) => Success(Text(text))
    case BufferBody(bytes) => Success(Bytes(bytes))
    case ObjectBody(parsed) => Success(Text(stringify(parsed)))
    case OtherBody(kind) => Failure("Unexpected body type: " + kind.Name())
  }

  /** The store's new contents and the calls made by event processing. */
  datatype Effects = Effects(db: Db, calls: seq<Call>)

  /** Save the Order for a payment; only when the save succeeds, and only
      when the metadata names a CustomPlan, mark that plan paid. Errors from
      either write are swallowed. */
  function Project(db: Db, data: PaymentData, faults: Faults): Effects {
    var order := BuildOrder(data);
    if faults.saveFails then Effects(db, [SaveOrder(order)])
    else
      var saved := db.(orders := db.orders + [order]);
      match CustomPlanTarget(data)
      case None => Effects(saved, [SaveOrder(order)])
      case Some(id) =>
        var plans := if faults.updateFails then saved.plans else MarkPaid(saved.plans, id);
        Effects(saved.(plans := plans), [SaveOrder(order), UpdatePlan(id)])
  }

  /** Event processing after verification: only the two success events are
      projected; a success event without a data object throws before any
      write, and that error is swallowed too. */
  function Dispatch(db: Db, event: Event, faults: Faults): Effects {
    match KindOf(event.tag)
    case None => Effects(db, [])
    case Some(kind) =>
      match Normalise(kind, event.dataObject)
      case None => Effects(db, [])
      case Some(data) => Project(db, data, faults)
  }

  /** The handler, as a function of the store's contents and the request. */
  function Webhook(db: Db, req: Request, env: Env, faults: Faults): Outcome {
    if !Truthy(req.signature) then Outcome(NO_SIGNATURE, db, [])
    else if !Truthy(env.secret) then Outcome(NO_SECRET, db, [])
    else
      var signature, secret := req.signature.value, env.secret.value;
      match ToPayload(req.body, env.stringify)
      case Failure(message) => Outcome(Rejection(message), db, [])
      case Success(payload) =>
        var verify := Verify(payload, signature, secret);
        match env.constructEvent(payload, signature, secret)
        case Failure(message) => Outcome(Rejection(message), db, [verify])
        case Success(event) =>
          var effects := Dispatch(db, event, faults);
          Outcome(ACKNOWLEDGED, effects.db, [verify] + effects.calls)
  }

  /** The handler as the sequence of steps it performs on the store. */
  method StripeWebhook(store: Store, req: Request, env: Env, faults: Faults)
    returns (res: Response, ghost calls: seq<Call>)
    modifies store
    ensures Webhook(old(store.Snapshot()), req, env, faults) == Outcome(res, store.Snapshot(), calls)
  {
    calls := [];
    var sig := req.signature;
    if !Truthy(sig) {
      return NO_SIGNATURE, calls;
    }
    if !Truthy(env.secret) {
      return NO_SECRET, calls;
    }
    var body: Payload;
    match req.body {
      case StringBody(text) =>
        body := Text(text);
      case BufferBody(bytes) =>
        body := Bytes(bytes);
      case ObjectBody(parsed) =>
        body := Text(env.stringify(parsed));
      case OtherBody(kind) =>
        return Rejection("Unexpected body type: " + kind.Name()), calls;
    }
    calls := calls + [Verify(body, sig.value, env.secret.value)];
    var verified := env.constructEvent(body, sig.value, env.secret.value);
    if verified.Failure? {
      return Rejection(verified.error), calls;
    }
    var event := verified.value;
    var kind := KindOf(event.tag);
    if kind.Some? {
      var paymentData := Normalise(kind.value, event.dataObject);
      if paymentData.Some? {
        var newOrder := BuildOrder(paymentData.value);
        calls := calls + [SaveOrder(newOrder)];
        var saved := store.Save(newOrder, faults.saveFails);
        if saved {
          var customPlanId := CustomPlanTarget(paymentData.value);
          if customPlanId.Some? {
            calls := calls + [UpdatePlan(customPlanId.value)];
            var _ := store.FindByIdAndMarkPaid(customPlanId.value, faults.updateFails);
          }
        }
      }
    }
    res := ACKNOWLEDGED;
  }

  /** The event the request carries, when the header and secret are present,
      the body has a supported type and `constructEvent` accepts it. */
  function VerifiedEvent(req: Request, env: Env): (e: Option<Event>)
    ensures e.Some? ==> Truthy(req.signature) && Truthy(env.secret)
  {
    if !Truthy(req.signature) || !Truthy(env.secret) then None
    else match ToPayload(req.body, env.stringify)
      case Failure(_) => None
      case Success(payload) =>
        match env.constructEvent(payload, req.signature.value, env.secret.value)
        case Failure(_) => None
        case Success(event) => Some(event)
  }

  /** A missing or empty signature header is answered with 400 before
      anything else, even when the secret is missing too; nothing is verified
      and nothing is written. */
  lemma MissingSignatureRejected(db: Db, req: Request, env: Env, faults: Faults)
    requires !Truthy(req.signature)
    ensures Webhook(db, req, env, faults) == Outcome(NO_SIGNATURE, db, [])
  {
  }

  /** With a signature but no configured secret the reply is 500; nothing is
      verified and nothing is written. */
  lemma MissingSecretRejected(db: Db, req: Request, env: Env, faults: Faults)
    requires Truthy(req.signature) && !Truthy(env.secret)
    ensures Webhook(db, req, env, faults) == Outcome(NO_SECRET, db, [])
  {
  }

  /** Once header and secret are present: a string or Buffer body reaches
      verification unchanged, a parsed object as its `JSON.stringify` text, and
      a body of any other type is rejected with 400 without verification or
      writes. */
  lemma BodyHandedToVerification(db: Db, req: Request, env: Env, faults: Faults)
    requires Truthy(req.signature) && Truthy(env.secret)
    ensures var out := Webhook(db, req, env, faults);
      var sig, secret := req.signature.value, env.secret.value;
      && (req.body.StringBody? ==> out.calls[0] == Verify(Text(req.body.text), sig, secret))
      && (req.body.BufferBody? ==> out.calls[0] == Verify(Bytes(req.body.bytes), sig, secret))
      && (req.body.ObjectBody? ==> out.calls[0] == Verify(Text(env.stringify(req.body.parsed)), sig, secret))
      && (req.body.OtherBody? ==>
            out == Outcome(Rejection("Unexpected body type: " + req.body.kind.Name()), db, []))
  {
  }

  /** A body that fails verification is rejected with 400 and the library's
      message; it was verified once and nothing is written. */
  lemma VerificationFailureRejected(db: Db, req: Request, env: Env, faults: Faults, payload: Payload, message: string)
    requires Truthy(req.signature) && Truthy(env.secret)
    requires ToPayload(req.body, env.stringify) == Success(payload)
    requires env.constructEvent(payload, req.signature.value, env.secret.value) == Failure(message)
    ensures Webhook(db, req, env, faults)
         == Outcome(Rejection(message), db, [Verify(payload, req.signature.value, env.secret.value)])
  {
  }

  /** The acknowledgement policy: the reply is 200 `{ received: true }`
      exactly when the event was verified, whatever the store does; every
      other reply is 400 or 500. */
  lemma AcknowledgedIffVerified(db: Db, req: Request, env: Env, faults: Faults)
    ensures var out := Webhook(db, req, env, faults);
      && (out.response.status == 200 <==> VerifiedEvent(req, env).Some?)
      && (VerifiedEvent(req, env).Some? ==> out.response == ACKNOWLEDGED)
      && (out.response.status == 500 <==> Truthy(req.signature) && !Truthy(env.secret))
      && out.response.status in {200, 400, 500}
  {
  }

  /** A verified event of any other type is acknowledged and changes nothing. */
  lemma UnhandledEventIgnored(db: Db, req: Request, env: Env, faults: Faults, event: Event)
    requires VerifiedEvent(req, env) == Some(event)
    requires event.tag != PAYMENT_INTENT_SUCCEEDED && event.tag != CHARGE_SUCCEEDED
    ensures var out := Webhook(db, req, env, faults);
      out.response == ACKNOWLEDGED && out.db == db && |out.calls| == 1 && out.calls[0].Verify?
  {
  }

  /** A success event without a data object throws before the save; the
      error is swallowed: acknowledged, and nothing is written. */
  lemma SuccessEventWithoutObjectIgnored(db: Db, req: Request, env: Env, faults: Faults, event: Event)
    requires VerifiedEvent(req, env) == Some(event)
    requires KindOf(event.tag).Some? && event.dataObject.None?
    ensures var out := Webhook(db, req, env, faults);
      out.response == ACKNOWLEDGED && out.db == db && |out.calls| == 1
  {
  }

  /** A verified success event saves exactly one Order, built from the
      normalised payment data and appended without looking at existing orders;
      the named CustomPlan is updated after the save and only when the save
      succeeded; a failed update leaves the saved Order in place; and the
      reply is 200 `{ received: true }` in every case. */
  lemma PaymentProjected(db: Db, req: Request, env: Env, faults: Faults, event: Event, kind: SuccessKind, data: PaymentData)
    requires VerifiedEvent(req, env) == Some(event)
    requires KindOf(event.tag) == Some(kind)
    requires Normalise(kind, event.dataObject) == Some(data)
    ensures var out := Webhook(db, req, env, faults);
      var order, target := BuildOrder(data), CustomPlanTarget(data);
      var updates := !faults.saveFails && target.Some?;
      && out.response == ACKNOWLEDGED
      && out.calls[1..] == [SaveOrder(order)] + (if updates then [UpdatePlan(target.value)] else [])
      && out.db.orders == (if faults.saveFails then db.orders else db.orders + [order])
      && out.db.plans == (if updates && !faults.updateFails then MarkPaid(db.plans, target.value) else db.plans)
  {
  }

  /** What may change, whatever the request: the calls are, in order, one
      verification, one Order save and one CustomPlan update, each present
      only when the one before it is (the update only after a successful
      save); the only writes are that Order appended and that plan marked
      paid. */
  lemma WritesAndTheirOrder(db: Db, req: Request, env: Env, faults: Faults)
    ensures var out := Webhook(db, req, env, faults);
      && |out.calls| <= 3
      && (out.calls != [] ==> out.calls[0].Verify?)
      && (|out.calls| >= 2 ==> out.calls[1].SaveOrder?)
      && (|out.calls| == 3 ==> out.calls[2].UpdatePlan? && !faults.saveFails)
      && (out.db.orders == db.orders || (|out.calls| >= 2 && out.db.orders == db.orders + [out.calls[1].order]))
      && (out.db.plans == db.plans || (|out.calls| == 3 && out.db.plans == MarkPaid(db.plans, out.calls[2].planId)))
  {
  }

  /** An example: the Order built for a payment intent carrying the usual
      metadata. */
  lemma IntentExampleOrder(db: Db)
    ensures var m := map["userId" := "u1", "serviceId" := "s1", "planId" := "p1", "amount" := "9.99",
                         "planName" := "Pro", "serviceName" := "Hosting"];
      var intent := StripeObject(Some("pi_1"), None, m, Some(999));
      var effects := Dispatch(db, Event(PAYMENT_INTENT_SUCCEEDED, Some(intent)), NO_FAULTS);
      && effects.db.plans == db.plans
      && |effects.db.orders| == |db.orders| + 1
      && var o := effects.db.orders[|db.orders|];
      && o.price == ParseFloatOf("9.99")
      && o.paymentStatus == "succeeded" && o.status == "completed"
      && o.description == "Payment for Pro under Hosting"
      && o.user == Some("u1") && o.service == Some("s1") && o.plan == Some("p1")
      && o.stripePaymentIntentId == Some("pi_1")
  {
    var m := map["userId" := "u1", "serviceId" := "s1", "planId" := "p1", "amount" := "9.99",
                 "planName" := "Pro", "serviceName" := "Hosting"];
    var data := PaymentData(Some("pi_1"), m, Some(999));
    assert Lookup(m, "customPlanId") == None;
    assert Lookup(m, "amount") == Some("9.99");
    assert PriceOf(data) == ParseFloatOf("9.99");
    assert Lookup(m, "planName") == Some("Pro");
    assert Lookup(m, "serviceName") == Some("Hosting");
    var o := BuildOrder(data);
    assert o.description == "Payment for Pro under Hosting";
    assert Project(db, data, NO_FAULTS) == Effects(db.(orders := db.orders + [o]), [SaveOrder(o)]);
  }

  /** An example: a charge of 1999 minor units without a metadata amount is
      priced 19.99, filed under its payment intent, and settles its CustomPlan;
      missing names are interpolated as "undefined". */
  lemma ChargeExampleOrder(db: Db)
    ensures var charge := StripeObject(Some("ch_1"), Some("pi_1"), map["customPlanId" := "cp1"], Some(1999));
      var effects := Dispatch(db, Event(CHARGE_SUCCEEDED, Some(charge)), NO_FAULTS);
      && effects.db.plans == MarkPaid(db.plans, "cp1")
      && |effects.db.orders| == |db.orders| + 1
      && var o := effects.db.orders[|db.orders|];
      && o.price == Decimal(19.99)
      && o.stripePaymentIntentId == Some("pi_1")
      && o.service == None && o.plan == None
      && o.description == "Payment for undefined under undefined"
  {
    var m := map["customPlanId" := "cp1"];
    assert Lookup(m, "amount") == None && Lookup(m, "planName") == None && Lookup(m, "serviceName") == None;
  }
}
