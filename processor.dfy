/**
 * The payment processor as the controllers see it: the requests they send,
 * the responses they get back, and a client object that stands in for the
 * processor's SDK. The network is outside the model, so every client method
 * takes the processor's reply as a parameter and records the call it made.
 */
module Processor {
  import opened Wrappers
  import opened Classification

  /** A JSON fragment the controllers pass along without looking inside. */
  type JsonText = string

  datatype Amount = Amount(currency: string, value: int)
  datatype Channel = Web
  datatype AttemptAuthentication = Always

  datatype PaymentMethodsRequest = PaymentMethodsRequest(merchantAccount: string, channel: Channel)

  datatype PaymentRequest = PaymentRequest(
    amount: Amount,
    merchantAccount: string,
    channel: Channel,
    reference: string,
    returnUrl: string,
    attemptAuthentication: AttemptAuthentication,
    origin: string,
    browserInfo: JsonText,
    shopperIP: string,
    paymentMethod: JsonText)

  /** Per-call options; the idempotency key lets the processor deduplicate retries. */
  datatype RequestOptions = RequestOptions(idempotencyKey: string)

  /** The details object of a payment-details request; a field left unset is `None`. */
  datatype CompletionDetails = CompletionDetails(redirectResult: Option<string>, payload: Option<string>)

  datatype DetailsRequest = DetailsRequest(details: Option<CompletionDetails>)

  datatype RefundRequest = RefundRequest(amount: Amount, merchantAccount: string, reference: string)

  /** A follow-up step (a 3-D Secure challenge, say) the shopper's browser has to perform. */
  datatype Action = Action(json: JsonText)

  /** What a payment or payment-details response carries that the controllers read. */
  datatype Response = Response(resultCode: Option<ResultCode>, pspReference: Option<string>, action: Option<Action>)

  datatype PaymentMethodsResponse = PaymentMethodsResponse(json: JsonText)
  datatype RefundResponse = RefundResponse(json: JsonText)

  /** A failure the SDK throws (an I/O failure or an error status from the processor). */
  datatype ApiError = ApiError(message: string)

  /** Why a redirect handler ends without a redirect. */
  datatype HandlerError =
    | Upstream(error: ApiError)  // the SDK call threw; the exception propagates
    | NullResultCode             // the response had no result code; the switch on it throws

  /** One outbound call to the processor. */
  datatype Call =
    | PaymentMethodsCall(methodsRequest: PaymentMethodsRequest)
    | PaymentsCall(paymentRequest: PaymentRequest, options: RequestOptions)
    | DetailsCall(detailsRequest: DetailsRequest)
    | RefundCall(pspReference: string, refundRequest: RefundRequest)

  /** Stands in for the processor's SDK: `calls` lists every call made through it, oldest first. */
  class Client {
    var calls: seq<Call>

    constructor ()
      ensures calls == []
    {
      calls := [];
    }

    method PaymentMethods(request: PaymentMethodsRequest, reply: Result<PaymentMethodsResponse, ApiError>)
      returns (r: Result<PaymentMethodsResponse, ApiError>)
      modifies this
      ensures calls == old(calls) + [PaymentMethodsCall(request)]
      ensures r == reply
    {
      calls := calls + [PaymentMethodsCall(request)];
      r := reply;
    }

    method Payments(request: PaymentRequest, options: RequestOptions, reply: Result<Response, ApiError>)
      returns (r: Result<Response, ApiError>)
      modifies this
      ensures calls == old(calls) + [PaymentsCall(request, options)]
      ensures r == reply
    {
      calls := calls + [PaymentsCall(request, options)];
      r := reply;
    }

    method PaymentsDetails(request: DetailsRequest, reply: Result<Response, ApiError>)
      returns (r: Result<Response, ApiError>)
      modifies this
      ensures calls == old(calls) + [DetailsCall(request)]
      ensures r == reply
    {
      calls := calls + [DetailsCall(request)];
      r := reply;
    }

    method RefundCapturedPayment(pspReference: string, request: RefundRequest, reply: Result<RefundResponse, ApiError>)
      returns (r: Result<RefundResponse, ApiError>)
      modifies this
      ensures calls == old(calls) + [RefundCall(pspReference, request)]
      ensures r == reply
    {
      calls := calls + [RefundCall(pspReference, request)];
      r := reply;
    }
  }
}
