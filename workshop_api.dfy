/**
 * The workshop's REST controller: it shapes the payment request, forwards
 * payment details, resolves the shopper's return from a redirect into a
 * result page, and refunds the last payment it saw. The reference of that
 * payment lives in a single process-wide slot (`SessionManager`).
 */
module WorkshopApi {
  import opened Wrappers
  import opened Classification
  import opened Processor

  /** Java's `s != null && !s.isEmpty()`. */
  predicate Present(s: Option<string>)
    ensures Present(s) <==> s != None && s != Some("")
  {
    s.Some? && |s.value| > 0
  }

  /**
   * The details object sent after a redirect: a present `redirectResult` wins
   * and `payload` is then ignored; `payload` is used only when there is no
   * present `redirectResult`; when neither is present, neither field is set.
   */
  function SelectDetails(payload: Option<string>, redirectResult: Option<string>): (d: CompletionDetails)
    ensures !(d.redirectResult.Some? && d.payload.Some?)
    ensures d.redirectResult.Some? <==> Present(redirectResult)
    ensures d.payload.Some? <==> !Present(redirectResult) && Present(payload)
    ensures d.redirectResult.Some? ==> d.redirectResult == redirectResult
    ensures d.payload.Some? ==> d.payload == payload
  {
    if Present(redirectResult) then CompletionDetails(redirectResult, None)
    else if Present(payload) then CompletionDetails(None, payload)
    else CompletionDetails(None, None)
  }

  /** With a present `redirectResult`, what `payload` holds makes no difference. */
  lemma RedirectResultShadowsPayload(payload1: Option<string>, payload2: Option<string>, redirectResult: Option<string>)
    requires Present(redirectResult)
    ensures SelectDetails(payload1, redirectResult) == SelectDetails(payload2, redirectResult)
  {
  }

  /** The parts of the browser's payment request the controller copies. */
  datatype PaymentInput = PaymentInput(browserInfo: JsonText, paymentMethod: JsonText)

  /** The parts of the HTTP request the controller reads. */
  datatype ServletRequest = ServletRequest(scheme: string, remoteAddr: string)

  const ReturnPath: string := "/api/handleShopperRedirect?orderRef="

  /**
   * The payment request for one checkout attempt; `orderRef` is the freshly
   * generated order reference, supplied by the caller.
   */
  function BuildPaymentRequest(merchantAccount: string, host: string, request: ServletRequest,
                               body: PaymentInput, orderRef: string): (p: PaymentRequest)
    ensures p.reference == orderRef
    ensures p.origin == request.scheme + "://" + host
    ensures p.returnUrl == p.origin + ReturnPath + p.reference
    ensures p.amount == Amount("EUR", 9999) && p.merchantAccount == merchantAccount
    ensures p.channel == Web && p.attemptAuthentication == Always
    ensures p.browserInfo == body.browserInfo && p.paymentMethod == body.paymentMethod
    ensures p.shopperIP == request.remoteAddr
  {
    PaymentRequest(
      amount := Amount("EUR", 9999),
      merchantAccount := merchantAccount,
      channel := Web,
      reference := orderRef,
      returnUrl := request.scheme + "://" + host + ReturnPath + orderRef,
      attemptAuthentication := Always,
      origin := request.scheme + "://" + host,
      browserInfo := body.browserInfo,
      shopperIP := request.remoteAddr,
      paymentMethod := body.paymentMethod)
  }

  /** The order reference the shopper's return URL hands back, read from after the origin and return path. */
  function OrderRefOf(returnUrl: string, origin: string): Option<string>
  {
    var prefix := origin + ReturnPath;
    if prefix <= returnUrl then Some(returnUrl[|prefix|..]) else None
  }

  /** The `orderRef` in the return URL is the payment's reference. */
  lemma ReturnUrlCarriesReference(merchantAccount: string, host: string, request: ServletRequest,
                                  body: PaymentInput, orderRef: string)
    ensures var p := BuildPaymentRequest(merchantAccount, host, request, body, orderRef);
            OrderRefOf(p.returnUrl, p.origin) == Some(p.reference)
  {
    var p := BuildPaymentRequest(merchantAccount, host, request, body, orderRef);
    var prefix := p.origin + ReturnPath;
    assert p.returnUrl == prefix + p.reference;
    assert p.returnUrl[|prefix|..] == p.reference;
  }

  const RefundReference: string := "YOUR_UNIQUE_REFERENCE_REFUND"

  /** The refund request; the psp reference it applies to travels beside it. */
  function BuildRefundRequest(merchantAccount: string): (r: RefundRequest)
    ensures r.merchantAccount == merchantAccount && r.reference == RefundReference
  {
    RefundRequest(Amount("EUR", 9999), merchantAccount, RefundReference)
  }

  /** A refund returns the whole amount the payment charged. */
  lemma RefundAmountIsPaymentAmount(merchantAccount: string, host: string, request: ServletRequest,
                                    body: PaymentInput, orderRef: string)
    ensures BuildRefundRequest(merchantAccount).amount
         == BuildPaymentRequest(merchantAccount, host, request, body, orderRef).amount
  {
  }

  /**
   * The redirect after a payment-details response: the result page of its
   * code with the code as the reason; a response without a code makes the
   * switch on it throw.
   */
  function GetRedirectView(resultCode: Option<ResultCode>): (r: Result<string, HandlerError>)
    ensures r.Err? <==> resultCode.None?
    ensures r.Err? ==> r.error == NullResultCode
    ensures r.Ok? ==> ParseTarget(r.value) == Some(Target(BucketOf(resultCode.value), resultCode.value))
  {
    match resultCode
    case None => Err(NullResultCode)
    case Some(c) =>
      RedirectTargetRoundTrip(c);
      Ok(RedirectTarget(c))
  }

  /** The process-wide slot holding the psp reference of the last payment or details response. */
  class SessionManager {
    var pspReference: Option<string>

    constructor ()
      ensures pspReference == None
    {
      pspReference := None;
    }

    method SetPspReference(reference: Option<string>)
      modifies this
      ensures pspReference == reference
    {
      pspReference := reference;
    }

    method GetPspReference() returns (reference: Option<string>)
      ensures reference == pspReference
    {
      reference := pspReference;
    }
  }

  /** What the refund endpoint answers. */
  datatype RefundOutcome =
    | Unprocessable                     // no stored reference: 422 with an empty body
    | Refunded(response: RefundResponse) // 200 with the processor's acknowledgement
    | RefundFailed(error: ApiError)     // the SDK threw; the exception propagates

  class ApiController {
    const merchantAccount: string
    const session: SessionManager
    const client: Client

    constructor (merchantAccount: string, session: SessionManager, client: Client)
      ensures this.merchantAccount == merchantAccount && this.session == session && this.client == client
    {
      this.merchantAccount := merchantAccount;
      this.session := session;
      this.client := client;
    }

    /** Lists the payment methods for the merchant account on the web channel. */
    method PaymentMethods(reply: Result<PaymentMethodsResponse, ApiError>)
      returns (r: Result<PaymentMethodsResponse, ApiError>)
      modifies client
      ensures client.calls == old(client.calls) + [PaymentMethodsCall(PaymentMethodsRequest(merchantAccount, Web))]
      ensures r == reply
    {
      r := client.PaymentMethods(PaymentMethodsRequest(merchantAccount, Web), reply);
    }

    /**
     * Submits a payment. `orderRef` and `idempotencyKey` are the two freshly
     * generated identifiers; `reply` is the processor's answer. On an answer
     * the slot takes its psp reference, replacing whatever it held (a missing
     * reference clears it); when the call throws, the slot is left alone.
     */
    method Payments(host: string, body: PaymentInput, request: ServletRequest, orderRef: string,
                    idempotencyKey: string, reply: Result<Response, ApiError>)
      returns (r: Result<Response, ApiError>)
      modifies session, client
      ensures client.calls == old(client.calls)
        + [PaymentsCall(BuildPaymentRequest(merchantAccount, host, request, body, orderRef), RequestOptions(idempotencyKey))]
      ensures r == reply
      ensures session.pspReference == if reply.Ok? then reply.value.pspReference else old(session.pspReference)
    {
      var paymentRequest := BuildPaymentRequest(merchantAccount, host, request, body, orderRef);
      r := client.Payments(paymentRequest, RequestOptions(idempotencyKey), reply);
      if r.Ok? {
        session.SetPspReference(r.value.pspReference);
      }
    }

    /** Forwards the browser's details request unchanged and stores the response's psp reference. */
    method PaymentsDetails(detailsRequest: DetailsRequest, reply: Result<Response, ApiError>)
      returns (r: Result<Response, ApiError>)
      modifies session, client
      ensures client.calls == old(client.calls) + [DetailsCall(detailsRequest)]
      ensures r == reply
      ensures session.pspReference == if reply.Ok? then reply.value.pspReference else old(session.pspReference)
    {
      r := client.PaymentsDetails(detailsRequest, reply);
      if r.Ok? {
        session.SetPspReference(r.value.pspReference);
      }
    }

    /**
     * Handles the shopper's return from a redirect: one details call is always
     * made, even when neither parameter is present, and the slot is not touched.
     */
    method Redirect(payload: Option<string>, redirectResult: Option<string>, reply: Result<Response, ApiError>)
      returns (r: Result<string, HandlerError>)
      modifies client
      ensures client.calls == old(client.calls) + [DetailsCall(DetailsRequest(Some(SelectDetails(payload, redirectResult))))]
      ensures reply.Err? ==> r == Err(Upstream(reply.error))
      ensures reply.Ok? ==> r == GetRedirectView(reply.value.resultCode)
    {
      var detailsRequest := DetailsRequest(Some(SelectDetails(payload, redirectResult)));
      var response := client.PaymentsDetails(detailsRequest, reply);
      match response
      case Err(e) => r := Err(Upstream(e));
      case Ok(resp) => r := GetRedirectView(resp.resultCode);
    }

    /**
     * Refunds the payment whose reference the slot holds. Without one it
     * answers unprocessable and makes no call; otherwise it makes exactly one
     * refund call, for that reference.
     */
    method Refund(reply: Result<RefundResponse, ApiError>) returns (r: RefundOutcome)
      modifies client
      ensures session.pspReference.None? ==> r == Unprocessable && client.calls == old(client.calls)
      ensures session.pspReference.Some? ==>
        client.calls == old(client.calls) + [RefundCall(session.pspReference.value, BuildRefundRequest(merchantAccount))]
      ensures session.pspReference.Some? ==>
        r == if reply.Ok? then Refunded(reply.value) else RefundFailed(reply.error)
    {
      var refundRequest := BuildRefundRequest(merchantAccount);
      var reference := session.GetPspReference();
      if reference.None? {
        return Unprocessable;
      }
      var response := client.RefundCapturedPayment(reference.value, refundRequest, reply);
      match response
      case Err(e) => r := RefundFailed(e);
      case Ok(resp) => r := Refunded(resp);
    }
  }

  /**
   * Whatever an earlier response left in the slot, a payment answered with psp
   * reference `psp` (and any result code or action), then a refund: the
   * refund call goes to `psp` and is the last call made.
   */
  method PaymentThenRefund(merchantAccount: string, earlier: Option<string>, host: string, body: PaymentInput,
                           request: ServletRequest, orderRef: string, idempotencyKey: string,
                           code: Option<ResultCode>, action: Option<Action>, psp: string, refundReply: RefundResponse)
    returns (outcome: RefundOutcome, calls: seq<Call>)
    ensures outcome == Refunded(refundReply)
    ensures |calls| == 2 && calls[1] == RefundCall(psp, BuildRefundRequest(merchantAccount))
  {
    var session := new SessionManager();
    session.SetPspReference(earlier);
    var client := new Client();
    var api := new ApiController(merchantAccount, session, client);
    var _ := api.Payments(host, body, request, orderRef, idempotencyKey, Ok(Response(code, Some(psp), action)));
    outcome := api.Refund(Ok(refundReply));
    calls := client.calls;
  }

  /**
   * Whatever an earlier response left in the slot, a payment answered with psp
   * reference `psp`, then a details response with no reference (whatever the
   * result codes): the later response overwrites the slot, so the refund is
   * refused without a refund call.
   */
  method DetailsWithoutReferenceBlocksRefund(merchantAccount: string, earlier: Option<string>, host: string,
                                             body: PaymentInput, request: ServletRequest, orderRef: string,
                                             idempotencyKey: string, paymentCode: Option<ResultCode>, psp: string,
                                             detailsRequest: DetailsRequest, detailsCode: Option<ResultCode>,
                                             refundReply: RefundResponse)
    returns (outcome: RefundOutcome, calls: seq<Call>)
    ensures outcome == Unprocessable
    ensures |calls| == 2 && !calls[0].RefundCall? && !calls[1].RefundCall?
  {
    var session := new SessionManager();
    session.SetPspReference(earlier);
    var client := new Client();
    var api := new ApiController(merchantAccount, session, client);
    var _ := api.Payments(host, body, request, orderRef, idempotencyKey, Ok(Response(paymentCode, Some(psp), None)));
    var _ := api.PaymentsDetails(detailsRequest, Ok(Response(detailsCode, None, None)));
    outcome := api.Refund(Ok(refundReply));
    calls := client.calls;
  }
}
