/**
 * The browser side of the checkout: the drop-in's submit callback and the
 * handler that turns the server's JSON answer into either a follow-up action
 * for the payment component or a navigation to a result page.
 */
module WebClient {
  import opened Wrappers
  import opened Classification
  import opened Processor

  /** The server's answer as the script sees it, after JSON decoding. */
  datatype ClientResponse = ClientResponse(action: Option<Action>, resultCode: Option<string>)

  /** What handling a response does: hand an action to the component, or navigate. */
  datatype Effect = HandleAction(action: Action) | Navigate(href: string)

  const ClientPages: set<string> := {"/result/success", "/result/pending", "/result/failed", "/result/error"}

  /**
   * An action takes precedence over the result code. Without one, the page is
   * chosen from the result code by exact string match; any other or missing
   * code leads to the error page. No target carries a reason.
   */
  function HandleResponse(response: ClientResponse): (e: Effect)
    ensures response.action.Some? ==> e == HandleAction(response.action.value)
    ensures response.action.None? ==> e.Navigate? && e.href in ClientPages
    ensures e.Navigate? ==> forall i | 0 <= i < |e.href| :: e.href[i] != '?'
    ensures e.Navigate? ==> (e.href == "/result/success" <==> response.resultCode == Some("Authorised"))
    ensures e.Navigate? ==>
      (e.href == "/result/pending" <==> response.resultCode in {Some("Pending"), Some("Received")})
    ensures e.Navigate? ==> (e.href == "/result/failed" <==> response.resultCode == Some("Refused"))
  {
    if response.action.Some? then HandleAction(response.action.value)
    else
      match response.resultCode
      case Some("Authorised") => Navigate("/result/success")
      case Some("Pending") => Navigate("/result/pending")
      case Some("Received") => Navigate("/result/pending")
      case Some("Refused") => Navigate("/result/failed")
      case _ => Navigate("/result/error")
  }

  /** The JSON the server sends for a processor response: a result code travels as its text. */
  function ToClient(response: Response): ClientResponse
  {
    ClientResponse(
      response.action,
      match response.resultCode
      case Some(c) => Some(CodeText(c))
      case None => None)
  }

  /**
   * For every result-code text, the page the browser navigates to is the page
   * the server's redirect names for the code with that text, and the error
   * page for a text that names no code.
   */
  lemma {:induction false} ClientPageMatchesServer(code: string)
    ensures HandleResponse(ClientResponse(None, Some(code)))
         == Navigate(ResultPrefix + BucketName(match CodeOfText(code) case Some(c) => BucketOf(c) case None => Error))
  {
    match CodeOfText(code)
    case Some(c) =>
      assert CodeText(c) == code;
      ClientPageOfCode(c);
    case None =>
      assert CodeOfText("Authorised").Some? && CodeOfText("Pending").Some?;
      assert CodeOfText("Received").Some? && CodeOfText("Refused").Some?;
  }

  /** The browser's page for a code's text is the server's page for that code. */
  lemma ClientPageOfCode(c: ResultCode)
    ensures HandleResponse(ClientResponse(None, Some(CodeText(c)))) == Navigate(ResultPrefix + BucketName(BucketOf(c)))
  {
    match c
    case AUTHORISED =>
    case PENDING =>
    case RECEIVED =>
    case REFUSED =>
    case _ =>
      assert CodeText(c) !in {"Authorised", "Pending", "Received", "Refused"};
  }

  /**
   * For a final processor response, the browser lands on the page the
   * server-side redirect names, and the server's redirect is that page with
   * the code appended as the reason.
   */
  lemma ClientAgreesWithServer(response: Response)
    requires response.action.None? && response.resultCode.Some?
    ensures HandleResponse(ToClient(response)) == Navigate(ResultPrefix + BucketName(BucketOf(response.resultCode.value)))
    ensures RedirectTarget(response.resultCode.value)
         == HandleResponse(ToClient(response)).href + ReasonParam + CodeText(response.resultCode.value)
  {
    var c := response.resultCode.value;
    ClientPageMatchesServer(CodeText(c));
    CodeTextRoundTrip(c);
  }

  /** The drop-in's state as its callbacks receive it. */
  datatype ComponentState = ComponentState(isValid: bool, data: JsonText)

  /** A POST the script sends to its own server. */
  datatype Post = Post(url: string, data: JsonText)

  /** Submitting posts the payment data to the payments endpoint exactly when the form is valid. */
  function OnSubmit(state: ComponentState): (p: Option<Post>)
    ensures p.Some? <==> state.isValid
    ensures p.Some? ==> p.value.url == "/api/payments" && p.value.data == state.data
  {
    if state.isValid then Some(Post("/api/payments", state.data)) else None
  }

  /** Additional details are always posted to the details endpoint. */
  function OnAdditionalDetails(state: ComponentState): (p: Post)
    ensures p.url == "/api/payments/details" && p.data == state.data
  {
    Post("/api/payments/details", state.data)
  }
}
