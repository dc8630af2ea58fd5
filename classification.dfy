/**
 * The processor's result codes and the server-side mapping from a result code
 * to one of four result pages, together with the redirect target that carries
 * the original code as the `reason` query parameter.
 */
module Classification {
  import opened Wrappers

  /** The closed enumeration of result codes a payment or payment-details response can carry. */
  datatype ResultCode =
    | AUTHENTICATIONFINISHED | AUTHENTICATIONNOTREQUIRED | AUTHORISED | CANCELLED
    | CHALLENGESHOPPER | ERROR | IDENTIFYSHOPPER | PARTIALLYAUTHORISED | PENDING
    | PRESENTTOSHOPPER | RECEIVED | REDIRECTSHOPPER | REFUSED

  /** The text of a result code: what its `toString` prints and what its JSON form carries. */
  function CodeText(c: ResultCode): (t: string)
    ensures |t| > 0
    ensures forall i | 0 <= i < |t| :: 'a' <= t[i] <= 'z' || 'A' <= t[i] <= 'Z'
  {
    match c
    case AUTHENTICATIONFINISHED => "AuthenticationFinished"
    case AUTHENTICATIONNOTREQUIRED => "AuthenticationNotRequired"
    case AUTHORISED => "Authorised"
    case CANCELLED => "Cancelled"
    case CHALLENGESHOPPER => "ChallengeShopper"
    case ERROR => "Error"
    case IDENTIFYSHOPPER => "IdentifyShopper"
    case PARTIALLYAUTHORISED => "PartiallyAuthorised"
    case PENDING => "Pending"
    case PRESENTTOSHOPPER => "PresentToShopper"
    case RECEIVED => "Received"
    case REDIRECTSHOPPER => "RedirectShopper"
    case REFUSED => "Refused"
  }

  /** Reads a result code back from its text; `None` for any text that names no code. */
  function CodeOfText(t: string): (r: Option<ResultCode>)
    ensures r.Some? ==> CodeText(r.value) == t
  {
    if t == "AuthenticationFinished" then Some(AUTHENTICATIONFINISHED)
    else if t == "AuthenticationNotRequired" then Some(AUTHENTICATIONNOTREQUIRED)
    else if t == "Authorised" then Some(AUTHORISED)
    else if t == "Cancelled" then Some(CANCELLED)
    else if t == "ChallengeShopper" then Some(CHALLENGESHOPPER)
    else if t == "Error" then Some(ERROR)
    else if t == "IdentifyShopper" then Some(IDENTIFYSHOPPER)
    else if t == "PartiallyAuthorised" then Some(PARTIALLYAUTHORISED)
    else if t == "Pending" then Some(PENDING)
    else if t == "PresentToShopper" then Some(PRESENTTOSHOPPER)
    else if t == "Received" then Some(RECEIVED)
    else if t == "RedirectShopper" then Some(REDIRECTSHOPPER)
    else if t == "Refused" then Some(REFUSED)
    else None
  }

  /** Every code's text reads back as that code, so no two codes share a text. */
  lemma CodeTextRoundTrip(c: ResultCode)
    ensures CodeOfText(CodeText(c)) == Some(c)
  {
  }

  lemma CodeTextInjective(c: ResultCode, d: ResultCode)
    ensures CodeText(c) == CodeText(d) ==> c == d
  {
    CodeTextRoundTrip(c);
    CodeTextRoundTrip(d);
  }

  /** The four result pages a payment outcome is shown on. */
  datatype Bucket = Success | Pending | Failed | Error

  /** The path segment of a result page. */
  function BucketName(b: Bucket): (n: string)
    ensures n in {"success", "pending", "failed", "error"}
  {
    match b
    case Success => "success"
    case Pending => "pending"
    case Failed => "failed"
    case Error => "error"
  }

  /** Distinct pages have names that differ already in their first letter. */
  lemma BucketNamesDifferFirst(a: Bucket, b: Bucket)
    requires a != b
    ensures |BucketName(a)| > 0 && |BucketName(b)| > 0 && BucketName(a)[0] != BucketName(b)[0]
  {
  }

  /**
   * The result page of a result code: AUTHORISED is a success, PENDING and
   * RECEIVED are pending, REFUSED is a failure and every other code is an error.
   */
  function BucketOf(c: ResultCode): (b: Bucket)
    ensures b == Success <==> c == AUTHORISED
    ensures b == Pending <==> c == PENDING || c == RECEIVED
    ensures b == Failed <==> c == REFUSED
    ensures b == Error <==> c !in {AUTHORISED, PENDING, RECEIVED, REFUSED}
  {
    match c
    case AUTHORISED => Success
    case PENDING | RECEIVED => Pending
    case REFUSED => Failed
    case _ => Error
  }

  const ResultPrefix: string := "/result/"
  const ReasonParam: string := "?reason="

  /** The redirect target for a result code: its result page, with the code itself as the reason. */
  function RedirectTarget(c: ResultCode): (url: string)
    ensures ResultPrefix <= url
    ensures var reason := ReasonParam + CodeText(c);
            |reason| <= |url| && url[|url| - |reason|..] == reason
  {
    ResultPrefix + BucketName(BucketOf(c)) + ReasonParam + CodeText(c)
  }

  /** What a redirect target says: the page it shows and the code it gives as the reason. */
  datatype Target = Target(page: Bucket, reason: ResultCode)

  const AllBuckets: seq<Bucket> := [Success, Pending, Failed, Error]

  /** Reads a redirect target of the form `/result/<page>?reason=<code>`; `None` for anything else. */
  function ParseTarget(url: string): Option<Target>
  {
    if ResultPrefix <= url then ParsePage(url[|ResultPrefix|..], AllBuckets) else None
  }

  /** Reads `<page>?reason=<code>`, trying the candidate pages in order. */
  function ParsePage(rest: string, pages: seq<Bucket>): Option<Target>
    decreases |pages|
  {
    if pages == [] then None
    else
      var head := BucketName(pages[0]) + ReasonParam;
      if head <= rest then ParseReason(pages[0], rest[|head|..]) else ParsePage(rest, pages[1..])
  }

  function ParseReason(page: Bucket, text: string): Option<Target>
  {
    match CodeOfText(text)
    case Some(c) => Some(Target(page, c))
    case None => None
  }

  /** The page `b` is found in `<b>?reason=<text>` whenever `b` is among the candidate pages. */
  lemma {:induction false} ParsePageFinds(b: Bucket, text: string, pages: seq<Bucket>)
    requires b in pages
    ensures ParsePage(BucketName(b) + ReasonParam + text, pages) == ParseReason(b, text)
    decreases |pages|
  {
    var rest := BucketName(b) + ReasonParam + text;
    var head := BucketName(pages[0]) + ReasonParam;
    if pages[0] == b {
      assert head <= rest;
      assert rest[|head|..] == text;
    } else {
      BucketNamesDifferFirst(pages[0], b);
      assert rest[0] == BucketName(b)[0];
      assert head[0] == BucketName(pages[0])[0];
      assert !(head <= rest);
      ParsePageFinds(b, text, pages[1..]);
    }
  }

  /** Any `/result/<b>?reason=<text>` reads back as page `b` with the code named by `text`. */
  lemma ParseTargetOf(b: Bucket, text: string)
    ensures ParseTarget(ResultPrefix + BucketName(b) + ReasonParam + text) == ParseReason(b, text)
  {
    var rest := BucketName(b) + ReasonParam + text;
    var url := ResultPrefix + BucketName(b) + ReasonParam + text;
    assert url == ResultPrefix + rest;
    assert url[|ResultPrefix|..] == rest;
    ParsePageFinds(b, text, AllBuckets);
  }

  /**
   * Round trip: a redirect target names exactly the page of its code and
   * surfaces the original code as the reason, for every code including those
   * shown on the error page.
   */
  lemma RedirectTargetRoundTrip(c: ResultCode)
    ensures ParseTarget(RedirectTarget(c)) == Some(Target(BucketOf(c), c))
  {
    ParseTargetOf(BucketOf(c), CodeText(c));
    CodeTextRoundTrip(c);
  }

  /** Whatever `<page>?reason=<code>` reads as a target is exactly that page's name, the parameter and the code's text. */
  lemma {:induction false} ParsePageExact(rest: string, pages: seq<Bucket>, b: Bucket, c: ResultCode)
    requires ParsePage(rest, pages) == Some(Target(b, c))
    ensures rest == BucketName(b) + ReasonParam + CodeText(c)
    decreases |pages|
  {
    var head := BucketName(pages[0]) + ReasonParam;
    if head <= rest {
      assert ParseReason(pages[0], rest[|head|..]) == Some(Target(b, c));
      assert CodeText(c) == rest[|head|..];
      assert rest == head + rest[|head|..];
    } else {
      ParsePageExact(rest, pages[1..], b, c);
    }
  }

  /** The parser accepts only the targets it was built for: its answer fixes the string it read. */
  lemma ParseTargetInjective(url: string, b: Bucket, c: ResultCode)
    requires ParseTarget(url) == Some(Target(b, c))
    ensures url == ResultPrefix + BucketName(b) + ReasonParam + CodeText(c)
  {
    ParsePageExact(url[|ResultPrefix|..], AllBuckets, b, c);
    assert url == ResultPrefix + url[|ResultPrefix|..];
  }
}
