/** Values shared by the payment gateway's callback core: optional values,
    Python exceptions as a result type, query strings, the DevMessage codes,
    the responses a view can return and the jobs it can enqueue. */
module Common {

  datatype Option<+T> = None | Some(value: T)

  /** The exceptions the core raises or lets through. A `DevMessage` carries
      the stable code that ends up in the failure URL. */
  datatype Exc =
    | DevMessage(code: string)
    | NotImplementedError
    | KeyError
    | ValueError
    | TransactionError
    | RecursionError
    | ResourceModified // a write whose If-Match etag is stale (HTTP 412)
    | NoReverseMatch   // `reverse` found no URL pattern that accepts the arguments

  /** A Python call that either returns a value or raises. */
  datatype Result<+T> = Ok(value: T) | Raise(exc: Exc) {
    predicate IsFailure() {
      Raise?
    }

    function PropagateFailure<U>(): Result<U>
      requires Raise?
    {
      Raise(exc)
    }

    function Extract(): T
      requires Ok?
    {
      value
    }
  }

  /** A parsed query string (`request.GET` or a signed notice); `get` returns
      the value of a key when it is present. */
  type Query = map<string, string>

  function Get(q: Query, key: string): (r: Option<string>)
    ensures r.Some? <==> key in q
    ensures r.Some? ==> r.value == q[key]
  {
    if key in q then Some(q[key]) else None
  }

  /** Python truthiness of an optional string: `None` and `''` are false. */
  predicate Truthy(s: Option<string>) {
    s.Some? && s.value != ""
  }

  // DevMessage codes (webpay.base.dev_messages).
  const TransMissing: string := "TRANS_MISSING"
  const NoActiveTrans: string := "NO_ACTIVE_TRANS"
  const NoticeException: string := "NOTICE_EXCEPTION"
  const NoticeError: string := "NOTICE_ERROR"
  const BadBangoCode: string := "BAD_BANGO_CODE"
  const BangoError: string := "BANGO_ERROR"
  const UserCancelled: string := "USER_CANCELLED"
  const UnsupportedPay: string := "UNSUPPORTED_PAY"
  const ExtError: string := "EXT_ERROR"
  const TransEnded: string := "TRANS_ENDED"
  const TransConfigFailed: string := "TRANS_CONFIG_FAILED"
  const PayDisabled: string := "PAY_DISABLED"
  const ExpiredJwt: string := "EXPIRED_JWT"
  const InvalidJwt: string := "INVALID_JWT"
  const MalformedUrl: string := "MALFORMED_URL"
  const BadPricePoint: string := "BAD_PRICE_POINT"

  /** The shape `[A-Z_]+` that the payment-failure URL accepts for a code. */
  predicate IsErrorCode(code: string) {
    |code| > 0 && forall i :: 0 <= i < |code| ==> ('A' <= code[i] <= 'Z' || code[i] == '_')
  }

  /** A reply from a remote Solitude/provider endpoint that answers with a
      `result` field, or the client error the HTTP library raises. */
  datatype RemoteReply = Reply(result: string) | HttpClientError

  /** A named URL route and its arguments, as given to `reverse`. */
  datatype Route = Route(name: string, args: seq<string>)

  /** The user's mobile network as (mcc, mnc); either may be unknown. */
  datatype Network = Network(mcc: Option<string>, mnc: Option<string>)

  /** An asynchronous job handed to the task queue. */
  datatype Job = PaymentNotify(transId: Option<string>) | ChargebackNotify(chargedTransId: string)

  /** What a view returns to the HTTP client. */
  datatype Response =
    | Forbidden                                   // 403
    | NotFound                                    // 404
    | BadRequest                                  // 400 without a body
    | NoContent                                   // 204
    | Render(template: string, status: int, transactionStatusUrl: Option<Route>)
    | FailureRedirect(provider: string, code: string)   // 302 to spa.payment_failure
    | Redirect(url: string)                       // 302 to another URL
    | AppError(appCode: string)
    | CustomError(customCode: string, customStatus: int)
    | SystemError(systemCode: string)
    | TransStartJson(startUrl: Option<string>, transStatus: Option<int>, providerName: Option<string>)
    | ConfiguredJson(simulation: Option<string>)  // {'status': 'ok', 'simulation': ...}
    | ServerError(exc: Exc)                       // an exception nothing caught: 500

  /** The outcome of a request: the response and the jobs enqueued, in order. */
  datatype ViewResult = ViewResult(response: Response, jobs: seq<Job>)

  /** The settings the core reads. */
  datatype Settings = Settings(
    spaEnable: bool,
    spaEnableUrls: bool,
    paymentProviders: set<string>,
    paymentProvider: string,
    productDescriptionLength: int,
    allowAndroidPayments: bool,
    allowTarakoPayments: bool,
    onlySimulations: bool,
    simulatedNetwork: Option<Network>)
}
