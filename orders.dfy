/** The Order record the handler builds from a payment's metadata, and the
    CustomPlan the payment may settle. */
module Orders {
  import opened JsValues
  import opened StripeEvents

  /** `paymentData?.metadata?.[key]`: the metadata value, or `undefined`. */
  function Lookup(metadata: map<string, string>, key: string): (v: Option<string>)
    ensures v.Some? <==> key in metadata
    ensures v.Some? ==> v.value == metadata[key]
  {
    if key in metadata then Some(metadata[key]) else None
  }

  /** The price stored on an order. `parseFloat` of the metadata text is left
      uninterpreted; the fallback `amount / 100` is the exact quotient (no
      floating-point rounding); a missing amount gives `NaN`. */
  datatype Price = ParseFloatOf(text: string) | Decimal(value: real) | NotANumber

  /** `parseFloat(metadata.amount || amount / 100)`: the metadata amount when it
      is truthy, otherwise the amount in minor units divided by 100. */
  function PriceOf(data: PaymentData): (p: Price)
    ensures p.ParseFloatOf? <==> Truthy(Lookup(data.metadata, "amount"))
    ensures p.ParseFloatOf? ==> p.text == data.metadata["amount"]
    ensures p.Decimal? ==> data.amount.Some? && p.value * 100.0 == data.amount.value as real
    ensures p.NotANumber? <==> !Truthy(Lookup(data.metadata, "amount")) && data.amount.None?
  {
    var text := Lookup(data.metadata, "amount");
    if Truthy(text) then ParseFloatOf(text.value)
    else match data.amount
      case Some(minor) => Decimal(minor as real / 100.0)
      case None => NotANumber
  }

  const PAYMENT_SUCCEEDED := "succeeded"
  const ORDER_COMPLETED := "completed"

  /** An Order document as the handler constructs it. `None` is `null` for
      `service` and `plan`, and `undefined` elsewhere. */
  datatype Order = Order(
    user: Option<string>,
    service: Option<string>,
    plan: Option<string>,
    price: Price,
    description: string,
    stripePaymentIntentId: Option<string>,
    paymentStatus: string,
    status: string,
    planName: Option<string>,
    serviceName: Option<string>,
    planDescription: Option<string>)

  /** The Order built for one successful payment: it is created already paid and
      completed, points at the payment intent, names the user, service and plan
      from the metadata (a falsy service or plan id becomes null), carries the
      plan and service names verbatim, and describes itself from them. */
  function BuildOrder(data: PaymentData): (o: Order)
    ensures o.paymentStatus == PAYMENT_SUCCEEDED && o.status == ORDER_COMPLETED
    ensures o.stripePaymentIntentId == data.id
    ensures o.user == Lookup(data.metadata, "userId")
    ensures o.service.Some? <==> Truthy(Lookup(data.metadata, "serviceId"))
    ensures o.service.Some? ==> o.service.value == data.metadata["serviceId"]
    ensures o.plan.Some? <==> Truthy(Lookup(data.metadata, "planId"))
    ensures o.plan.Some? ==> o.plan.value == data.metadata["planId"]
    ensures o.price == PriceOf(data)
    ensures o.planName == Lookup(data.metadata, "planName")
    ensures o.serviceName == Lookup(data.metadata, "serviceName")
    ensures o.planDescription == Lookup(data.metadata, "planDescription")
    ensures o.description == "Payment for " + Interpolated(o.planName) + " under " + Interpolated(o.serviceName)
  {
    var m := data.metadata;
    var planName := Lookup(m, "planName");
    var serviceName := Lookup(m, "serviceName");
    Order(
      user := Lookup(m, "userId"),
      service := OrNull(Lookup(m, "serviceId")),
      plan := OrNull(Lookup(m, "planId")),
      price := PriceOf(data),
      description := "Payment for " + Interpolated(planName) + " under " + Interpolated(serviceName),
      stripePaymentIntentId := data.id,
      paymentStatus := PAYMENT_SUCCEEDED,
      status := ORDER_COMPLETED,
      planName := planName,
      serviceName := serviceName,
      planDescription := Lookup(m, "planDescription"))
  }

  /** The CustomPlan to mark as paid: `metadata.customPlanId` when it is truthy. */
  function CustomPlanTarget(data: PaymentData): (t: Option<string>)
    ensures t.Some? <==> Truthy(Lookup(data.metadata, "customPlanId"))
    ensures t.Some? ==> t.value == data.metadata["customPlanId"] && t.value != ""
  {
    var id := Lookup(data.metadata, "customPlanId");
    if Truthy(id) then id else None
  }
}
