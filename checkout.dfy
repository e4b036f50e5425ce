/**
 * The checkout function (supabase/functions/create-checkout/index.ts): from a
 * request to the payment session it asks for and the response it sends.
 * The payment processor is outside the model: its reply is an input.
 */
module Checkout {
  import opened Wrappers

  /** The JSON body: job id, price, the name shown on the line item, and the two return addresses. */
  datatype CheckoutBody = CheckoutBody(jobId: string, price: real, serviceName: string, successUrl: string, cancelUrl: string)

  /** A request: its method, and its body, or the message of the error reading it as JSON. */
  datatype Request = Request(httpMethod: string, body: BodyRead)
  datatype BodyRead = Parsed(fields: CheckoutBody) | Unreadable(message: string)

  datatype LineItem = LineItem(currency: string, productName: string, unitAmount: int, quantity: nat)

  /** The parameters of the hosted checkout session. */
  datatype SessionParams = SessionParams(
    paymentMethodTypes: seq<string>,
    lineItems: seq<LineItem>,
    mode: string,
    successUrl: string,
    cancelUrl: string)

  /** The processor's answer to a session request. */
  datatype ProcessorReply = SessionCreated(url: string) | ProcessorError(message: string)

  /** A response body: plain text, or a JSON object with one string member. */
  datatype Body = Text(text: string) | Json(key: string, value: string)

  datatype Response = Response(status: nat, body: Body, headers: map<string, string>)

  /** What one request produces: the response, and the session requested from the processor, if any. */
  datatype Exchange = Exchange(response: Response, session: Option<SessionParams>)

  function CorsHeaders(): map<string, string>
  {
    map["Access-Control-Allow-Origin" := "*",
        "Access-Control-Allow-Headers" := "authorization, x-client-info, apikey, content-type"]
  }

  function JsonHeaders(): (h: map<string, string>)
    ensures h.Keys == CorsHeaders().Keys + {"Content-Type"}
    ensures h["Content-Type"] == "application/json"
    ensures forall k :: k in CorsHeaders() ==> h[k] == CorsHeaders()[k]
  {
    CorsHeaders()["Content-Type" := "application/json"]
  }

  /** `Math.round(price * 100)`: the nearest whole number of cents, halves rounded up. */
  function UnitAmount(price: real): (cents: int)
    ensures price * 100.0 - 0.5 < cents as real <= price * 100.0 + 0.5
  {
    (price * 100.0 + 0.5).Floor
  }

  /** A price that is a whole number of cents is charged exactly. */
  lemma WholeCentsExact(price: real, n: int)
    requires price * 100.0 == n as real
    ensures UnitAmount(price) == n
  {
  }

  /** `${successUrl}?job_id=${jobId}&payment_success=true`: a '?' is appended whatever the base holds. */
  function SuccessUrl(base: string, jobId: string): (u: string)
    ensures |u| > |base|
    ensures u[..|base|] == base && u[|base|] == '?'
  {
    base + "?job_id=" + jobId + "&payment_success=true"
  }

  /** The query a URL carries, written as `key=value` pairs joined by '&'. */
  function EncodeQuery(pairs: seq<(string, string)>): string
  {
    if pairs == [] then ""
    else if |pairs| == 1 then pairs[0].0 + "=" + pairs[0].1
    else pairs[0].0 + "=" + pairs[0].1 + "&" + EncodeQuery(pairs[1..])
  }

  /** The parameters the success URL hands back to the client page. */
  function ReturnQuery(jobId: string): seq<(string, string)>
  {
    [("job_id", jobId), ("payment_success", "true")]
  }

  /** The success URL is the base, one '?', and exactly the return query. */
  lemma SuccessUrlShape(base: string, jobId: string)
    ensures SuccessUrl(base, jobId) == base + "?" + EncodeQuery(ReturnQuery(jobId))
  {
    var q := ReturnQuery(jobId);
    assert q[1..] == [("payment_success", "true")];
    assert EncodeQuery(q) == "job_id" + "=" + jobId + "&" + ("payment_success" + "=" + "true");
  }

  /** The session asked for: one card payment of one item, priced in cents. */
  function SessionFor(b: CheckoutBody): (s: SessionParams)
    ensures |s.lineItems| == 1 && s.lineItems[0].quantity == 1 && s.lineItems[0].currency == "usd"
    ensures s.lineItems[0].productName == b.serviceName && s.lineItems[0].unitAmount == UnitAmount(b.price)
    ensures s.mode == "payment" && s.paymentMethodTypes == ["card"]
    ensures s.successUrl == SuccessUrl(b.successUrl, b.jobId) && s.cancelUrl == b.cancelUrl
  {
    SessionParams(["card"], [LineItem("usd", b.serviceName, UnitAmount(b.price), 1)], "payment",
                  SuccessUrl(b.successUrl, b.jobId), b.cancelUrl)
  }

  function ErrorResponse(message: string): Response
  {
    Response(400, Json("error", message), JsonHeaders())
  }

  /**
   * The handler: a preflight answers 'ok' with the CORS headers; anything else
   * reads the body and requests a session; the session's URL comes back as
   * JSON, and any error becomes a 400 carrying its message.
   */
  function Handle(req: Request, reply: ProcessorReply): (x: Exchange)
    ensures req.httpMethod == "OPTIONS" ==> x == Exchange(Response(200, Text("ok"), CorsHeaders()), None)
    ensures req.httpMethod != "OPTIONS" ==> x.response.headers == JsonHeaders()
    ensures req.httpMethod != "OPTIONS" && req.body.Unreadable? ==>
      x == Exchange(ErrorResponse(req.body.message), None)
    ensures req.httpMethod != "OPTIONS" && req.body.Parsed? ==> x.session == Some(SessionFor(req.body.fields))
    ensures x.response.status == 200 <==>
      req.httpMethod == "OPTIONS" || (req.body.Parsed? && reply.SessionCreated?)
    ensures x.response.status == 200 && req.httpMethod != "OPTIONS" ==> x.response.body == Json("url", reply.url)
    ensures x.response.status != 200 ==> x.response.status == 400 && x.response.body.Json? && x.response.body.key == "error"
    ensures req.httpMethod != "OPTIONS" && req.body.Parsed? && reply.ProcessorError? ==>
      x.response == ErrorResponse(reply.message)
  {
    if req.httpMethod == "OPTIONS" then
      Exchange(Response(200, Text("ok"), CorsHeaders()), None)
    else
      match req.body
      case Unreadable(m) => Exchange(ErrorResponse(m), None)
      case Parsed(b) =>
        var session := SessionFor(b);
        match reply
        case SessionCreated(url) => Exchange(Response(200, Json("url", url), JsonHeaders()), Some(session))
        case ProcessorError(m) => Exchange(ErrorResponse(m), Some(session))
  }
}
