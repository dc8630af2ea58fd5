# Adyen integration workshop — payment controllers and result-page routing, in Dafny

This project models the decision logic of a small Spring application that takes
payments through the Adyen processor, together with its browser script:

- **Result pages.** Both REST controllers map a result code from a payment-details
  response to one of four result pages (`success`, `pending`, `failed`, `error`).
  They then redirect to `/result/<page>?reason=<code>`. The browser script has its own
  copy of the mapping, without the reason.
- **Redirect details.** When the shopper returns from a redirect, the workshop
  controller builds the details request from `redirectResult` or, failing that, from
  `payload`.
- **The stored reference and refunds.** Every response of the workshop controller's
  `/api/payments` and `/api/payments/details` handlers overwrites one process-wide
  psp-reference slot (`SessionManager`). The redirect handler does not touch it. A refund uses that slot. When the slot is empty, the refund
  answers "unprocessable" and calls nothing.
- **Payment-request shaping.** The order reference is a generated UUID, and the
  return URL embeds it. The return URL and the origin are built from the request's
  scheme and host.

Modules, one per concern:

| file | module | contents |
|---|---|---|
| wrappers.dfy | `Wrappers` | `Option` (Java `null`, JavaScript `undefined`) and `Result` (a value, or an exception thrown) |
| classification.dfy | `Classification` | the result-code enumeration and its text, the pages, `BucketOf`, `RedirectTarget` and a parser for redirect targets |
| processor.dfy | `Processor` | request and response datatypes, and a `Client` class that stands in for the processor SDK |
| workshop_api.dfy | `WorkshopApi` | the workshop controller: pure request builders, the `SessionManager` slot class, and the `ApiController` class |
| checkout_api.dfy | `CheckoutApi` | the stateless starter controller, with each handler written as a function |
| web_client.dfy | `WebClient` | the script's `handleResponse`, `onSubmit` and `onAdditionalDetails` |

Things taken from outside the model:

- **The processor.** Each `Processor.Client` method takes the processor's reply as a
  parameter. It records the call in `calls`, so "no refund call is made" is stated as
  `calls` being unchanged.
- **Generated UUIDs.** The order reference and the idempotency key are parameters.
  Nothing here claims they are unique.
- **Request state and configuration.** The request's scheme, host and remote address
  are parameters, as are the merchant account and the API key.

Behaviour of the code worth noting:

- The code keeps one process-wide slot that every response of `/api/payments` and
  `/api/payments/details` overwrites. There is no per-session, write-once store. A response without a psp reference clears the slot.
- A result code's text is the SDK's spelling (`Authorised`, `Received`, `Refused`,
  …). So the redirect for an authorised payment is `/result/success?reason=Authorised`.
- The refund amount (EUR 9999) and the refund reference are fixed constants. They
  are not taken from a session.
- A redirect request with neither redirect field is not rejected locally: the
  details call is made anyway.

## Model

| member | source | states |
|---|---|---|
| `Classification.BucketOf` | src/main/java/com/adyen/workshop/controllers/ApiController.java:148-162 | AUTHORISED maps to success; PENDING and RECEIVED map to pending; REFUSED maps to failed; every other code maps to error (each as an if-and-only-if) |
| `Classification.BucketName` | src/main/java/com/adyen/workshop/controllers/ApiController.java:150-160 | a page's path segment is one of success, pending, failed, error |
| `Classification.CodeOfText` | src/main/java/com/adyen/workshop/controllers/ApiController.java:163 | reading a code from its text gives back a code whose text is that text |
| `Classification.CodeTextRoundTrip` | src/main/java/com/adyen/workshop/controllers/ApiController.java:163 | every result code's text reads back as that code |
| `Classification.CodeTextInjective` | src/main/java/com/adyen/workshop/controllers/ApiController.java:163 | two codes with the same text are the same code, so the reason identifies the code |
| `Classification.CodeText` | src/main/java/com/adyen/workshop/controllers/ApiController.java:163 | a result code's text is non-empty and made of letters only, so it sits in the reason query parameter unescaped |
| `Classification.RedirectTarget` | src/main/java/com/adyen/workshop/controllers/ApiController.java:147-163 | the target starts with "/result/" and ends with "?reason=" followed by the original code |
| `Classification.ParseTargetInjective` | src/main/java/com/adyen/workshop/controllers/ApiController.java:147-163 | a string that parses as a target is exactly "/result/" + page + "?reason=" + code, so the parse fixes the target string |
| `Classification.RedirectTargetRoundTrip` | src/main/java/com/adyen/workshop/controllers/ApiController.java:147-163 | a redirect target parses back to the page of its code, with the original code as the reason, for every code including those on the error page |
| `WorkshopApi.GetRedirectView` | src/main/java/com/adyen/workshop/controllers/ApiController.java:145-164 | a missing result code throws; otherwise the target is `/result/<page>?reason=<code>`, naming the code's page and the code |
| `WorkshopApi.Present` | src/main/java/com/adyen/workshop/controllers/ApiController.java:127-132 | a value is present exactly when it is neither null nor the empty string |
| `WorkshopApi.SelectDetails` | src/main/java/com/adyen/workshop/controllers/ApiController.java:127-134 | a present redirectResult is used and payload is ignored; payload is used only when redirectResult is null or empty; never both fields; neither when both are absent |
| `WorkshopApi.RedirectResultShadowsPayload` | src/main/java/com/adyen/workshop/controllers/ApiController.java:127-131 | with a present redirectResult, the payload makes no difference to the details |
| `WorkshopApi.BuildPaymentRequest` | src/main/java/com/adyen/workshop/controllers/ApiController.java:60-82 | the reference is the order reference; the origin is scheme + "://" + host; the return URL is origin + the redirect path + the reference; EUR 9999, web channel, always attempt authentication, browser data copied |
| `WorkshopApi.ReturnUrlCarriesReference` | src/main/java/com/adyen/workshop/controllers/ApiController.java:70-79 | the orderRef read back from the return URL equals the payment's reference |
| `WorkshopApi.BuildRefundRequest` | src/main/java/com/adyen/workshop/controllers/ApiController.java:169-175 | the refund request carries the merchant account and the fixed refund reference |
| `WorkshopApi.RefundAmountIsPaymentAmount` | src/main/java/com/adyen/workshop/controllers/ApiController.java:62-64 | the refund amount equals the payment amount |
| `WorkshopApi.SessionManager.constructor` | src/main/java/com/adyen/workshop/controllers/ApiController.java:177 | the slot starts out empty |
| `WorkshopApi.SessionManager.SetPspReference` | src/main/java/com/adyen/workshop/controllers/ApiController.java:104 | the slot holds exactly the value written, replacing the old one |
| `WorkshopApi.SessionManager.GetPspReference` | src/main/java/com/adyen/workshop/controllers/ApiController.java:177 | reading returns the slot's value and changes nothing |
| `WorkshopApi.ApiController.constructor` | src/main/java/com/adyen/workshop/controllers/ApiController.java:31-35 | the controller keeps the configuration and collaborators it is given |
| `WorkshopApi.ApiController.PaymentMethods` | src/main/java/com/adyen/workshop/controllers/ApiController.java:43-54 | exactly one call, for the merchant account on the web channel; the reply is answered unchanged |
| `WorkshopApi.ApiController.Payments` | src/main/java/com/adyen/workshop/controllers/ApiController.java:56-106 | exactly one payments call with the shaped request and the supplied idempotency key; on a reply, the slot becomes the reply's psp reference (even a missing one); when the call throws, the slot is unchanged |
| `WorkshopApi.ApiController.PaymentsDetails` | src/main/java/com/adyen/workshop/controllers/ApiController.java:108-117 | the details request is forwarded unchanged; on a reply, the slot becomes its psp reference |
| `WorkshopApi.ApiController.Redirect` | src/main/java/com/adyen/workshop/controllers/ApiController.java:120-143 | exactly one details call is made, even when both fields are absent; the redirect is the result-page target of the reply's code; the slot is not touched |
| `WorkshopApi.ApiController.Refund` | src/main/java/com/adyen/workshop/controllers/ApiController.java:166-187 | with an empty slot, unprocessable and no call; otherwise exactly one refund call for the stored reference, answering the reply |
| `WorkshopApi.PaymentThenRefund` | src/main/java/com/adyen/workshop/controllers/ApiController.java:177-183 | whatever the slot held before and whatever result code the payment reply carries, after a payment answered with reference P the refund succeeds and its call is for P |
| `WorkshopApi.DetailsWithoutReferenceBlocksRefund` | src/main/java/com/adyen/workshop/controllers/ApiController.java:115 | whatever the slot held before and whatever result codes the replies carry, a later details response without a reference overwrites the slot, so the refund is unprocessable and no refund call is made |
| `Processor.Client.constructor` | src/main/java/com/adyen/workshop/controllers/ApiController.java:28-29 | no calls have been made yet |
| `Processor.Client.PaymentMethods` | src/main/java/com/adyen/workshop/controllers/ApiController.java:51 | records one payment-methods call and answers the reply |
| `Processor.Client.Payments` | src/main/java/com/adyen/workshop/controllers/ApiController.java:101 | records one payments call, with its options, and answers the reply |
| `Processor.Client.PaymentsDetails` | src/main/java/com/adyen/workshop/controllers/ApiController.java:113 | records one details call and answers the reply |
| `Processor.Client.RefundCapturedPayment` | src/main/java/com/adyen/workshop/controllers/ApiController.java:183 | records one refund call for the given reference and answers the reply |
| `CheckoutApi.NewApiController` | src/main/java/com/adyen/checkout/controllers/ApiController.java:40-51 | construction fails exactly when the API key is null; otherwise the client uses that key on the test environment |
| `CheckoutApi.PaymentsDetails` | src/main/java/com/adyen/checkout/controllers/ApiController.java:85-91 | forwards the caller's request unchanged and answers the reply unchanged |
| `CheckoutApi.GetRedirectView` | src/main/java/com/adyen/checkout/controllers/ApiController.java:106-125 | a missing code throws; otherwise the target parses back to the code's page, with the code as the reason |
| `CheckoutApi.SameRedirectViewAsWorkshop` | src/main/java/com/adyen/checkout/controllers/ApiController.java:109-124 | this controller's mapping and redirect target equal the workshop controller's for every code |
| `CheckoutApi.Redirect` | src/main/java/com/adyen/checkout/controllers/ApiController.java:94-104 | always sends a details request with no details; answers the redirect for the reply's code |
| `CheckoutApi.RedirectIgnoresArguments` | src/main/java/com/adyen/checkout/controllers/ApiController.java:95-99 | payload and redirectResult make no difference to what is sent or answered |
| `WebClient.HandleResponse` | src/main/resources/static/adyenWebImplementation.js:50-71 | an action takes precedence and nothing navigates; otherwise "Authorised" goes to success, "Pending" and "Received" to pending, "Refused" to failed, and anything else or nothing to error (each an if-and-only-if); no target carries a "?" |
| `WebClient.ClientPageOfCode` | src/main/resources/static/adyenWebImplementation.js:55-69 | for every result code, the browser's page for that code's text is the server's page for the code |
| `WebClient.ClientPageMatchesServer` | src/main/resources/static/adyenWebImplementation.js:55-69 | for every code text, the browser's page is the server's page for the code with that text, and the error page for text that names no code |
| `WebClient.ClientAgreesWithServer` | src/main/resources/static/adyenWebImplementation.js:52-69 | for a final response, the browser's target is the server's page, and the server's redirect is that target plus "?reason=" and the code |
| `WebClient.OnSubmit` | src/main/resources/static/adyenWebImplementation.js:28-33 | the payment data is posted to /api/payments exactly when the state is valid |
| `WebClient.OnAdditionalDetails` | src/main/resources/static/adyenWebImplementation.js:34-37 | additional details are always posted to /api/payments/details |

## Left out

- Processor SDK calls (`paymentsApi.*`, `modificationsApi.refundCapturedPayment`): these are network calls. `Processor.Client` records each call and passes through the reply it is given. Its contents are not modelled.
- `UUID.randomUUID()`: the order reference and idempotency key are parameters, and their uniqueness is not claimed.
- Spring routing, `ResponseEntity` and `RedirectView`, and `HttpServletRequest`: the model keeps only the values they carry (the status kind, the target string, the scheme, host and remote address).
- The hard-coded billing address, country code and shopper email in the payment request: these are constant literals with no behaviour.
- Logging, and the warning logged before the checkout controller throws.
- `CartService` and the internals of `SessionManager`: these files are not part of this model. The slot is the one field of `WorkshopApi.SessionManager`.
- Concurrency on the shared slot: the code has no synchronisation. The model runs one handler at a time.
- The checkout controller's `paymentMethods` and `payments`: each only sends a nearly empty request. They are not among the modelled operations.
- `WorkshopApi.GetRedirectView`, `CheckoutApi.GetRedirectView`: when the code is null, Java throws a `NullPointerException` in the `switch`. This is modelled as the error `NullResultCode`, not as an exception's stack unwinding.
- The browser's `startCheckout` and `sendPostRequest`: these do DOM, fetch and JSON I/O. `WebClient.ToClient` stands for the JSON encoding of a response.
- `ViewController.java`: it only routes to templates and copies attributes into the UI model.
- The Java `long` width of amounts: the amount values are small constants, so the model uses unbounded `int`.
