/**
 * The starter ("checkout") controller. It keeps no state: each handler sends
 * one request to the processor and turns the processor's reply into what it
 * answers, so each is a function from its inputs and that reply to an
 * `Exchange`.
 */
module CheckoutApi {
  import opened Wrappers
  import opened Classification
  import opened Processor
  import WorkshopApi

  /** The request a handler sends to the processor and what it then answers. */
  datatype Exchange<Req, Out> = Exchange(sent: Req, answered: Out)

  datatype Environment = Test

  /** The SDK client the controller builds from its API key. */
  datatype ClientConfig = ClientConfig(apiKey: string, environment: Environment)

  datatype StartupError = ApiKeyUndefined

  /** Construction fails exactly when no API key is configured; an empty key is accepted. */
  function NewApiController(apiKey: Option<string>): (r: Result<ClientConfig, StartupError>)
    ensures r.Err? <==> apiKey.None?
    ensures r.Err? ==> r.error == ApiKeyUndefined
    ensures r.Ok? ==> r.value.apiKey == apiKey.value && r.value.environment == Test
  {
    if apiKey.None? then Err(ApiKeyUndefined) else Ok(ClientConfig(apiKey.value, Test))
  }

  /** Forwards the caller's details request and answers the processor's reply, both unchanged. */
  function PaymentsDetails(detailsRequest: DetailsRequest, reply: Result<Response, ApiError>)
    : (x: Exchange<DetailsRequest, Result<Response, ApiError>>)
    ensures x.sent == detailsRequest && x.answered == reply
  {
    Exchange(detailsRequest, reply)
  }

  /** The redirect after a payment-details response; this controller's own copy of the mapping. */
  function GetRedirectView(resultCode: Option<ResultCode>): (r: Result<string, HandlerError>)
    ensures r.Err? <==> resultCode.None?
    ensures r.Ok? ==> ParseTarget(r.value) == Some(Target(BucketOf(resultCode.value), resultCode.value))
  {
    match resultCode
    case None => Err(NullResultCode)
    case Some(c) =>
      var page := match c
        case AUTHORISED => "success"
        case PENDING | RECEIVED => "pending"
        case REFUSED => "failed"
        case _ => "error";
      assert page == BucketName(BucketOf(c));
      ParseTargetOf(BucketOf(c), CodeText(c));
      CodeTextRoundTrip(c);
      Ok("/result/" + page + "?reason=" + CodeText(c))
  }

  /** This controller's mapping and the workshop controller's agree on every response. */
  lemma SameRedirectViewAsWorkshop(resultCode: Option<ResultCode>)
    ensures GetRedirectView(resultCode) == WorkshopApi.GetRedirectView(resultCode)
  {
  }

  /**
   * Handles the shopper's return from a redirect: whatever `payload` and
   * `redirectResult` hold, it sends a details request with no details.
   */
  function Redirect(payload: Option<string>, redirectResult: Option<string>, reply: Result<Response, ApiError>)
    : (x: Exchange<DetailsRequest, Result<string, HandlerError>>)
    ensures x.sent == DetailsRequest(None)
    ensures reply.Err? ==> x.answered == Err(Upstream(reply.error))
    ensures reply.Ok? ==> x.answered == GetRedirectView(reply.value.resultCode)
  {
    match reply
    case Err(e) => Exchange(DetailsRequest(None), Err(Upstream(e)))
    case Ok(response) => Exchange(DetailsRequest(None), GetRedirectView(response.resultCode))
  }

  /** The redirect handler's arguments make no difference to what it sends or answers. */
  lemma RedirectIgnoresArguments(payload1: Option<string>, redirectResult1: Option<string>,
                                 payload2: Option<string>, redirectResult2: Option<string>,
                                 reply: Result<Response, ApiError>)
    ensures Redirect(payload1, redirectResult1, reply) == Redirect(payload2, redirectResult2, reply)
  {
  }
}
