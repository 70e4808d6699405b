/** Stripe's side of the webhook: the bytes handed to signature verification,
    the verified event, the two event types the handler acts on, and the
    normalisation of both payload shapes into one payment record. */
module StripeEvents {
  import opened JsValues

  /** The payload given to `stripe.webhooks.constructEvent`: a string or a Buffer. */
  datatype Payload = Text(text: string) | Bytes(bytes: seq<bv8>)

  /** The fields of `event.data.object` that the handler reads. A payment intent
      carries `id`; a charge carries `payment_intent` (the intent it belongs to).
      Metadata maps keys to strings; a missing metadata object is the empty map,
      since every read of it goes through optional chaining. */
  datatype StripeObject = StripeObject(
    id: Option<string>,
    paymentIntent: Option<string>,
    metadata: map<string, string>,
    amount: Option<int>)

  /** A verified event: its type tag and `event.data.object`, which is `None`
      when the event has no data object. */
  datatype Event = Event(tag: string, dataObject: Option<StripeObject>)

  /** The event types treated as a successful payment. */
  datatype SuccessKind = PaymentIntentSucceeded | ChargeSucceeded

  const PAYMENT_INTENT_SUCCEEDED := "payment_intent.succeeded"
  const CHARGE_SUCCEEDED := "charge.succeeded"

  /** Dispatch on the event type tag; every other tag is ignored. */
  function KindOf(tag: string): (k: Option<SuccessKind>)
    ensures k == Some(PaymentIntentSucceeded) <==> tag == PAYMENT_INTENT_SUCCEEDED
    ensures k == Some(ChargeSucceeded) <==> tag == CHARGE_SUCCEEDED
  {
    if tag == PAYMENT_INTENT_SUCCEEDED then Some(PaymentIntentSucceeded)
    else if tag == CHARGE_SUCCEEDED then Some(ChargeSucceeded)
    else None
  }

  /** The canonical record both success events are turned into. */
  datatype PaymentData = PaymentData(id: Option<string>, metadata: map<string, string>, amount: Option<int>)

  /** Normalisation of a success event's data object. A payment intent is used
      as it is; for a charge the record's id is the charge's `payment_intent`,
      not the charge's own id. Without a data object the handler's next field
      access throws, which is `None` here. */
  function Normalise(kind: SuccessKind, dataObject: Option<StripeObject>): (r: Option<PaymentData>)
    ensures r.Some? <==> dataObject.Some?
    ensures r.Some? ==> r.value.metadata == dataObject.value.metadata && r.value.amount == dataObject.value.amount
    ensures r.Some? && kind == PaymentIntentSucceeded ==> r.value.id == dataObject.value.id
    ensures r.Some? && kind == ChargeSucceeded ==> r.value.id == dataObject.value.paymentIntent
  {
    match dataObject
    case None => None
    case Some(o) =>
      match kind
      case PaymentIntentSucceeded => Some(PaymentData(o.id, o.metadata, o.amount))
      case ChargeSucceeded => Some(PaymentData(o.paymentIntent, o.metadata, o.amount))
  }
}
