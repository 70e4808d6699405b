/** The catch block around body preparation and verification, as written.
    Before replying it logs a sample of the body, computed as
    `JSON.stringify(req.body).substring(0, 100)` for every body that is not a
    string. `JSON.stringify` returns `undefined` for an undefined, symbol or
    function value and throws on a bigint, so for those bodies the log line
    itself throws: the handler's promise rejects and no reply is sent, although
    the code just threw "Unexpected body type" to reply 400. The rest of the
    model uses the evidently intended catch block, `WebhookController.Rejection`. */
module WebhookFindings {
  import opened JsValues
  import opened WebhookController

  /** Whether the diagnostic sample of the body throws. */
  predicate SampleThrows(body: Body) {
    match body
    case StringBody(_) => false  // sampled with `substring` directly
    case BufferBody(_) => false  // stringified through `Buffer.toJSON`
    case ObjectBody(_) => false
    case OtherBody(kind) =>
      match kind
      case Number => false
      case Boolean => false
      case Undefined => true  // `JSON.stringify` returns undefined
      case Symbol => true     // likewise
      case Function => true   // likewise
      case BigInt => true     // `JSON.stringify` throws a TypeError
  }

  /** The catch block as written: `None` when the handler throws from inside
      it and sends no reply, otherwise the 400 reply with the error's message. */
  function CatchAsWritten(body: Body, message: string): (r: Option<Response>)
    ensures r.None? <==> body in {OtherBody(Undefined), OtherBody(Symbol), OtherBody(Function), OtherBody(BigInt)}
    ensures r.Some? ==> r.value == Rejection(message)
  {
    if SampleThrows(body) then None else Some(Rejection(message))
  }

  /** The input that shows it: a signed request whose `req.body` is undefined
      (no body parser ran) throws "Unexpected body type: undefined" into the
      catch block, which as written sends nothing; the intended reply is 400. */
  lemma UndefinedBodyGetsNoReply(db: Persistence.Db, req: Request, env: Env, faults: Faults)
    requires Truthy(req.signature) && Truthy(env.secret)
    requires req.body == OtherBody(Undefined)
    ensures ToPayload(req.body, env.stringify) == Failure("Unexpected body type: undefined")
    ensures CatchAsWritten(req.body, "Unexpected body type: undefined") == None
    ensures Webhook(db, req, env, faults).response == Rejection("Unexpected body type: undefined")
  {
  }

  /** With the intended catch block every request that passes the header and
      secret checks but is not verified is answered with 400 and a
      "Webhook Error: " message, the body of whatever type it is; and the
      written catch block agrees with it on every string, Buffer or object body. */
  lemma CorrectedCatchAlwaysAnswers(db: Persistence.Db, req: Request, env: Env, faults: Faults)
    requires Truthy(req.signature) && Truthy(env.secret)
    requires VerifiedEvent(req, env).None?
    ensures var out := Webhook(db, req, env, faults);
      && out.response.status == 400
      && out.response.body.PlainText?
      && out.response.body.text[..15] == "Webhook Error: "
      && out.db == db
      && (!req.body.OtherBody? ==> CatchAsWritten(req.body, out.response.body.text[15..]) == Some(out.response))
  {
  }
}
