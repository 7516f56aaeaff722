/** The pay-flow helpers (webpay/pay/views.py): validating a purchase
    request and writing it to the session, trimming long descriptions, the
    provider's server-to-server callbacks, the bounce page, disabling payments
    by user agent, and the views that wait for a transaction to be ready or
    configure it. */
module PayViews {
  import opened Common
  import opened SolitudeApi

  // ---------------------------------------------------------------------
  // Trimming descriptions

  const Ellipsis: string := "..."

  /** Python's `st[0:cut]`: a negative end counts back from the end of the
      string and is clipped at its start. */
  function SlicePrefix(st: string, cut: int): (r: string)
    ensures cut >= 0 ==> |r| == (if cut <= |st| then cut else |st|)
    ensures cut < 0 ==> |r| == (if |st| + cut >= 0 then |st| + cut else 0)
    ensures r <= st
  {
    if cut >= 0 then (if cut <= |st| then st[..cut] else st)
    else if |st| + cut >= 0 then st[..|st| + cut]
    else ""
  }

  /** `_trim`: a description longer than the limit keeps its first
      `limit - 3` characters and ends in an ellipsis. */
  function Trim(st: string, limit: int): (r: string)
    ensures |st| <= limit ==> r == st
    ensures |st| > limit && limit >= |Ellipsis| ==>
      |r| == limit && r[..limit - |Ellipsis|] == st[..limit - |Ellipsis|] && r[limit - |Ellipsis|..] == Ellipsis
    ensures limit >= |Ellipsis| ==> |r| <= limit
  {
    if |st| > limit then SlicePrefix(st, limit - |Ellipsis|) + Ellipsis else st
  }

  /** Trimming a trimmed description changes nothing (for a limit that has
      room for the ellipsis). */
  lemma TrimIdempotent(st: string, limit: int)
    requires limit >= |Ellipsis|
    ensures Trim(Trim(st, limit), limit) == Trim(st, limit)
  {
  }

  /** The part of a purchase request the trimming touches: its description,
      each locale's description, and the simulation it asks for. */
  datatype PayRequest = PayRequest(description: string, locales: map<string, string>, simulate: Option<string>)

  /** The request after `_trim_pay_request`. */
  function TrimmedRequest(req: PayRequest, limit: int): (r: PayRequest)
    ensures r.description == Trim(req.description, limit) && r.simulate == req.simulate
    ensures r.locales.Keys == req.locales.Keys
    ensures forall k :: k in r.locales ==> r.locales[k] == Trim(req.locales[k], limit)
  {
    req.(description := Trim(req.description, limit),
         locales := map k | k in req.locales :: Trim(req.locales[k], limit))
  }

  /** Every description of a trimmed request fits the limit. */
  predicate FitsLimit(req: PayRequest, limit: int) {
    |req.description| <= limit && forall k :: k in req.locales ==> |req.locales[k]| <= limit
  }

  lemma TrimmedRequestFits(req: PayRequest, limit: int)
    requires limit >= |Ellipsis|
    ensures FitsLimit(TrimmedRequest(req, limit), limit)
    ensures TrimmedRequest(TrimmedRequest(req, limit), limit) == TrimmedRequest(req, limit)
    ensures FitsLimit(req, limit) ==> TrimmedRequest(req, limit) == req
  {
    var once := TrimmedRequest(req, limit);
    var twice := TrimmedRequest(once, limit);
    forall k | k in once.locales
      ensures twice.locales[k] == once.locales[k]
    {
      TrimIdempotent(req.locales[k], limit);
    }
    TrimIdempotent(req.description, limit);
    assert twice.locales == once.locales;
    if FitsLimit(req, limit) {
      assert once.locales == req.locales;
    }
  }

  /** `_trim_pay_request`: trims the description, then each locale's in
      turn. */
  method TrimPayRequest(req: PayRequest, limit: int) returns (trimmed: PayRequest)
    ensures trimmed == TrimmedRequest(req, limit)
  {
    var locales := req.locales;
    var pending := req.locales.Keys;
    while pending != {}
      invariant pending <= req.locales.Keys
      invariant locales.Keys == req.locales.Keys
      invariant forall k :: k in locales ==>
        locales[k] == if k in pending then req.locales[k] else Trim(req.locales[k], limit)
      decreases pending
    {
      var k :| k in pending;
      locales := locales[k := Trim(locales[k], limit)];
      pending := pending - {k};
    }
    trimmed := req.(description := Trim(req.description, limit), locales := locales);
  }

  // ---------------------------------------------------------------------
  // Server-to-server callbacks

  /** `_callback_url`: the provider confirms a success (or an error) with a
      signed notice. A valid token naming a transaction is acknowledged with
      204 and enqueues `payment_notify` for a success or `chargeback_notify`
      for an error; anything else is a 400 that enqueues nothing. A POST
      without `signed_notice` (`None` here) raises `KeyError` before
      anything else happens. */
  function CallbackUrl(s: Settings, signedNotice: Option<Query>, isSuccess: bool, reply: RemoteReply): (v: ViewResult)
    ensures signedNotice.None? ==> v == ViewResult(ServerError(KeyError), [])
    ensures signedNotice.Some? && s.paymentProvider !in Registered ==> v == ViewResult(ServerError(KeyError), [])
    ensures signedNotice.Some? && s.paymentProvider in Registered ==>
      (v.response == NoContent <==> IsCallbackTokenValid(reply) && "ext_transaction_id" in signedNotice.value)
    ensures signedNotice.Some? && s.paymentProvider in Registered && v.response != NoContent ==>
      v == ViewResult(BadRequest, [])
    ensures v.response == NoContent ==>
      var transId := signedNotice.value["ext_transaction_id"];
      v.jobs == [if isSuccess then PaymentNotify(Some(transId)) else ChargebackNotify(transId)]
  {
    match signedNotice
    case None => ViewResult(ServerError(KeyError), [])
    case Some(notice) =>
      match ProviderHelper(s.paymentProvider)
      case Raise(e) => ViewResult(ServerError(e), [])
      case Ok(_) =>
        if IsCallbackTokenValid(reply) && "ext_transaction_id" in notice then
          var transId := notice["ext_transaction_id"];
          if isSuccess then ViewResult(NoContent, [PaymentNotify(Some(transId))])
          else ViewResult(NoContent, [ChargebackNotify(transId)])
        else ViewResult(BadRequest, [])
  }

  /** A callback never enqueues both jobs, and enqueues one exactly when it
      is acknowledged. */
  lemma CallbackEnqueuesAtMostOne(s: Settings, signedNotice: Option<Query>, isSuccess: bool, reply: RemoteReply)
    ensures var v := CallbackUrl(s, signedNotice, isSuccess, reply);
      |v.jobs| <= 1 && (v.jobs != [] <==> v.response == NoContent) &&
      (v.jobs != [] ==> (v.jobs[0].PaymentNotify? <==> isSuccess))
  {
  }

  // ---------------------------------------------------------------------
  // Small views

  predicate StartsWith(st: string, prefix: string) {
    |prefix| <= |st| && st[..|prefix|] == prefix
  }

  /** `bounce`: only a `next` path inside the payment site is bounced to. */
  function Bounce(next: Option<string>): (r: Response)
    ensures r == Forbidden <==> !(next.Some? && StartsWith(next.value, "/mozpay/"))
    ensures r != Forbidden ==> r == Render("pay/bounce.html", 200, None) && Truthy(next)
  {
    if !Truthy(next) || !StartsWith(next.value, "/mozpay/") then Forbidden
    else Render("pay/bounce.html", 200, None)
  }

  /** The user agent disables payments when Android payments are off and it
      looks like Firefox for Android, or Tarako payments are off and it looks
      like a Tarako phone. The two patterns are given as predicates. */
  predicate BlocksUserAgent(s: Settings, userAgent: Option<string>, isAndroid: string -> bool, isTarako: string -> bool)
    ensures BlocksUserAgent(s, userAgent, isAndroid, isTarako) ==> !s.allowAndroidPayments || !s.allowTarakoPayments
    ensures BlocksUserAgent(s, userAgent, isAndroid, isTarako) && s.allowTarakoPayments ==>
      isAndroid(if Truthy(userAgent) then userAgent.value else "")
    ensures BlocksUserAgent(s, userAgent, isAndroid, isTarako) && s.allowAndroidPayments ==>
      isTarako(if Truthy(userAgent) then userAgent.value else "")
  {
    var ua := if Truthy(userAgent) then userAgent.value else "";
    (!s.allowAndroidPayments && isAndroid(ua)) || (!s.allowTarakoPayments && isTarako(ua))
  }

  /** `disabled_by_user_agent`: a missing user agent is matched as `''`. */
  method DisabledByUserAgent(s: Settings, userAgent: Option<string>, isAndroid: string -> bool, isTarako: string -> bool)
    returns (isDisabled: bool)
    ensures isDisabled == BlocksUserAgent(s, userAgent, isAndroid, isTarako)
    ensures s.allowAndroidPayments && s.allowTarakoPayments ==> !isDisabled
    ensures userAgent == None ==> isDisabled == BlocksUserAgent(s, Some(""), isAndroid, isTarako)
  {
    isDisabled := false;
    var ua := if userAgent.None? then "" else userAgent.value;
    if !s.allowAndroidPayments {
      if isAndroid(ua) {
        isDisabled := true;
      }
    }
    if !s.allowTarakoPayments {
      if isTarako(ua) {
        isDisabled := true;
      }
    }
  }

  // ---------------------------------------------------------------------
  // Waiting for a transaction

  /** A Solitude transaction as the views read it. */
  datatype Transaction = Transaction(status: int, payUrl: string, provider: int)

  /** The Solitude status constants the views compare against. */
  datatype StatusConstants = StatusConstants(pending: int, ended: set<int>)

  /** `wait_to_start`: a finished transaction is an error, a pending one is
      started at its pay URL, and anything else, a missing transaction
      included (status `None`), waits. The lookup runs even when the session
      has no transaction. */
  function WaitToStart(c: StatusConstants, sessionTransId: Option<string>,
                       getTransaction: Option<string> -> Option<Transaction>): (r: Response)
    ensures var t := getTransaction(sessionTransId);
      && (t.Some? && t.value.status in c.ended ==> r == SystemError(TransEnded))
      && (t.Some? && t.value.status !in c.ended && t.value.status == c.pending ==> r == Redirect(t.value.payUrl))
      && (t.Some? && t.value.status !in c.ended && t.value.status != c.pending ==> r == Render("pay/wait-to-start.html", 200, None))
      && (t.None? ==> r == Render("pay/wait-to-start.html", 200, None))
    ensures r.Redirect? || r == SystemError(TransEnded) || r == Render("pay/wait-to-start.html", 200, None)
  {
    var status := match getTransaction(sessionTransId)
      case Some(t) => Some(t.status)
      case None => None;
    if status.Some? && status.value in c.ended then SystemError(TransEnded)
    else if status == Some(c.pending) then Redirect(getTransaction(sessionTransId).value.payUrl)
    else Render("pay/wait-to-start.html", 200, None)
  }

  /** `trans_start_url`: without a session transaction, 400; otherwise the
      transaction's status and provider, with its pay URL only once it is
      pending. A provider id outside `PROVIDERS_INVERTED` is not caught. */
  function TransStartUrl(c: StatusConstants, sessionTransId: Option<string>,
                         getTransaction: string -> Option<Transaction>, providersInverted: map<int, string>): (r: Response)
    ensures !Truthy(sessionTransId) <==> r == BadRequest
    ensures Truthy(sessionTransId) && getTransaction(sessionTransId.value).None? ==> r == TransStartJson(None, None, None)
    ensures Truthy(sessionTransId) && getTransaction(sessionTransId.value).Some? ==>
      var t := getTransaction(sessionTransId.value).value;
      && (t.provider !in providersInverted ==> r == ServerError(KeyError))
      && (t.provider in providersInverted ==>
            r == TransStartJson(if t.status == c.pending then Some(t.payUrl) else None, Some(t.status),
                                Some(providersInverted[t.provider])))
    ensures r.TransStartJson? ==> (r.startUrl.Some? <==> r.transStatus == Some(c.pending))
    ensures r.TransStartJson? && r.startUrl.Some? ==>
      Truthy(sessionTransId) && getTransaction(sessionTransId.value).Some? &&
      r.startUrl.value == getTransaction(sessionTransId.value).value.payUrl
    ensures r.ServerError? ==> r.exc == KeyError
  {
    if !Truthy(sessionTransId) then BadRequest
    else match getTransaction(sessionTransId.value)
      case None => TransStartJson(None, None, None)
      case Some(t) =>
        if t.provider !in providersInverted then ServerError(KeyError)
        else
          var url := if t.status == c.pending then Some(t.payUrl) else None;
          TransStartJson(url, Some(t.status), Some(providersInverted[t.provider]))
  }

  // ---------------------------------------------------------------------
  // The session and the purchase request

  /** A value stored under the session's `notes`. */
  datatype Note = PayRequestNote(request: PayRequest) | IssuerKeyNote(key: string) | OtherNote(text: string)

  /** The keys of the user's session that the pay flow reads and writes. */
  class Session {
    var transId: Option<string>
    var isSimulation: Option<bool>
    var notes: map<string, Note>

    constructor ()
      ensures transId == None && isSimulation == None && notes == map[]
    {
      transId := None;
      isSimulation := None;
      notes := map[];
    }
  }

  /** The verification form: its error codes in order (valid when there
      are none), whether the request is a simulation, and the issuer key. */
  datatype VerifyForm = VerifyForm(errors: seq<string>, isSimulation: bool, key: string)

  /** The outcome of `verify_jwt`. */
  datatype JwtCheck = JwtVerified(payReq: PayRequest) | JwtExpired | JwtInvalid

  /** Collaborators of `process_pay_req`: the JWT check, `verify_urls`
      (given the request and whether it is a simulation), the marketplace
      price lookup, and the two user-agent patterns. */
  datatype PayReqChecks = PayReqChecks(jwt: JwtCheck, urlsValid: (PayRequest, bool) -> bool,
                                       pricePointKnown: PayRequest -> bool,
                                       isAndroid: string -> bool, isTarako: string -> bool)

  /** `', '.join(codes)`. */
  function Join(codes: seq<string>, sep: string): (r: string)
    ensures codes == [] ==> r == ""
    ensures |codes| == 1 ==> r == codes[0]
  {
    if codes == [] then ""
    else if |codes| == 1 then codes[0]
    else codes[0] + sep + Join(codes[1..], sep)
  }

  /** The checks of `process_pay_req`, in order: form errors, payments
      disabled (503), an expired or invalid JWT, malformed URLs, an unknown
      price point. `None` means every check passed. */
  function PayReqVerdict(s: Settings, form: VerifyForm, userAgent: Option<string>, c: PayReqChecks): (r: Option<Response>)
    ensures form.errors != [] ==> r == Some(AppError(Join(form.errors, ", ")))
    ensures form.errors == [] && (BlocksUserAgent(s, userAgent, c.isAndroid, c.isTarako) || (s.onlySimulations && !form.isSimulation)) ==>
      r == Some(CustomError(PayDisabled, 503))
    ensures form.errors == [] && r.Some? && r.value.AppError? ==>
      r.value.appCode in {ExpiredJwt, InvalidJwt, MalformedUrl, BadPricePoint} &&
      !BlocksUserAgent(s, userAgent, c.isAndroid, c.isTarako) && !(s.onlySimulations && !form.isSimulation)
    ensures form.errors == [] && !BlocksUserAgent(s, userAgent, c.isAndroid, c.isTarako) &&
            !(s.onlySimulations && !form.isSimulation) ==>
      && (c.jwt == JwtExpired ==> r == Some(AppError(ExpiredJwt)))
      && (c.jwt == JwtInvalid ==> r == Some(AppError(InvalidJwt)))
      && (c.jwt.JwtVerified? && !c.urlsValid(c.jwt.payReq, form.isSimulation) ==> r == Some(AppError(MalformedUrl)))
      && (c.jwt.JwtVerified? && c.urlsValid(c.jwt.payReq, form.isSimulation) && !c.pricePointKnown(c.jwt.payReq) ==>
            r == Some(AppError(BadPricePoint)))
    ensures r == Some(AppError(ExpiredJwt)) && form.errors == [] ==> c.jwt == JwtExpired
    ensures r == Some(AppError(InvalidJwt)) && form.errors == [] ==> c.jwt == JwtInvalid
    ensures r == Some(AppError(MalformedUrl)) && form.errors == [] ==>
      c.jwt.JwtVerified? && !c.urlsValid(c.jwt.payReq, form.isSimulation)
    ensures r == Some(AppError(BadPricePoint)) && form.errors == [] ==>
      c.jwt.JwtVerified? && c.urlsValid(c.jwt.payReq, form.isSimulation) && !c.pricePointKnown(c.jwt.payReq)
    ensures r.None? <==>
      form.errors == [] && !BlocksUserAgent(s, userAgent, c.isAndroid, c.isTarako) &&
      !(s.onlySimulations && !form.isSimulation) && c.jwt.JwtVerified? &&
      c.urlsValid(c.jwt.payReq, form.isSimulation) && c.pricePointKnown(c.jwt.payReq)
  {
    if form.errors != [] then Some(AppError(Join(form.errors, ", ")))
    else if BlocksUserAgent(s, userAgent, c.isAndroid, c.isTarako) || (s.onlySimulations && !form.isSimulation) then
      Some(CustomError(PayDisabled, 503))
    else match c.jwt
      case JwtExpired => Some(AppError(ExpiredJwt))
      case JwtInvalid => Some(AppError(InvalidJwt))
      case JwtVerified(payReq) =>
        if !c.urlsValid(payReq, form.isSimulation) then Some(AppError(MalformedUrl))
        else if !c.pricePointKnown(payReq) then Some(AppError(BadPricePoint))
        else None
  }

  /** `process_pay_req`: runs the checks and, only when all pass, stores the
      trimmed request and the issuer key in the session's notes (keeping its
      other notes), records whether it is a simulation, and starts a new
      transaction id. A failed check leaves the session as it was. */
  method ProcessPayReq(s: Settings, session: Session, form: VerifyForm, userAgent: Option<string>,
                       c: PayReqChecks, newTransId: string)
    returns (r: Option<Response>)
    modifies session
    ensures r == PayReqVerdict(s, form, userAgent, c)
    ensures r.Some? ==> unchanged(session)
    ensures r.None? ==>
      && session.transId == Some(newTransId)
      && session.isSimulation == Some(form.isSimulation)
      && session.notes == old(session.notes)["pay_request" := PayRequestNote(TrimmedRequest(c.jwt.payReq, s.productDescriptionLength))]
                                            ["issuer_key" := IssuerKeyNote(form.key)]
  {
    if form.errors != [] {
      return Some(AppError(Join(form.errors, ", ")));
    }
    var disabled := DisabledByUserAgent(s, userAgent, c.isAndroid, c.isTarako);
    if disabled || (s.onlySimulations && !form.isSimulation) {
      return Some(CustomError(PayDisabled, 503));
    }
    var payReq: PayRequest;
    match c.jwt {
      case JwtExpired => return Some(AppError(ExpiredJwt));
      case JwtInvalid => return Some(AppError(InvalidJwt));
      case JwtVerified(p) => payReq := p;
    }
    if !c.urlsValid(payReq, form.isSimulation) {
      return Some(AppError(MalformedUrl));
    }
    if !c.pricePointKnown(payReq) {
      return Some(AppError(BadPricePoint));
    }
    payReq := TrimPayRequest(payReq, s.productDescriptionLength);
    session.isSimulation := Some(form.isSimulation);
    var notes := session.notes;
    notes := notes["pay_request" := PayRequestNote(payReq)];
    notes := notes["issuer_key" := IssuerKeyNote(form.key)];
    session.notes := notes;
    session.transId := Some(newTransId);
    r := None;
  }

  /** What `tasks.configure_transaction` reports: whether the transaction
      was configured, and an error code when it was not. */
  datatype Configured = Configured(wasConfigured: bool, errorCode: Option<string>)

  /** The network `configure_transaction` passes on: `SIMULATED_NETWORK`
      overrides what the client's form detected. */
  function ChosenNetwork(s: Settings, formNetwork: Option<Network>): (net: Network)
    ensures s.simulatedNetwork.Some? ==> net == s.simulatedNetwork.value
    ensures s.simulatedNetwork.None? && formNetwork.Some? ==> net == formNetwork.value
    ensures s.simulatedNetwork.None? && formNetwork.None? ==> net == Network(None, None)
  {
    if s.simulatedNetwork.Some? then s.simulatedNetwork.value
    else if formNetwork.Some? then formNetwork.value
    else Network(None, None)
  }

  /** `session['notes']['pay_request']['request']['simulate']`, when each
      step of that lookup exists. */
  function StoredSimulation(session: Session): (r: Option<string>)
    reads session
    ensures r.Some? ==> "pay_request" in session.notes && session.notes["pay_request"].PayRequestNote?
  {
    if "pay_request" in session.notes && session.notes["pay_request"].PayRequestNote? then
      session.notes["pay_request"].request.simulate
    else None
  }

  /** `configure_transaction`: a failed configuration outside a simulation
      is a system error whose code defaults to `TRANS_CONFIG_FAILED`; in a
      simulation session the answer is "ok" with the requested simulation
      even when configuring failed. */
  function ConfigureTransaction(s: Settings, session: Session, formNetwork: Option<Network>,
                                configure: (Option<string>, Network) -> Configured): (r: Response)
    reads session
    ensures var outcome := configure(session.transId, ChosenNetwork(s, formNetwork));
      var isSimulation := session.isSimulation == Some(true);
      && (r.SystemError? <==> !outcome.wasConfigured && !isSimulation)
      && (r.SystemError? ==> r.systemCode == if Truthy(outcome.errorCode) then outcome.errorCode.value else TransConfigFailed)
      && (isSimulation ==> r == (if StoredSimulation(session).Some? then ConfiguredJson(StoredSimulation(session)) else ServerError(KeyError)))
      && (outcome.wasConfigured && !isSimulation ==> r == ConfiguredJson(None))
  {
    var isSimulation := session.isSimulation == Some(true);
    var outcome := configure(session.transId, ChosenNetwork(s, formNetwork));
    if !outcome.wasConfigured && !isSimulation then
      SystemError(if Truthy(outcome.errorCode) then outcome.errorCode.value else TransConfigFailed)
    else if !isSimulation then ConfiguredJson(None)
    else match StoredSimulation(session)
      case Some(sim) => ConfiguredJson(Some(sim))
      case None => ServerError(KeyError)
  }

  /** `reconfigure_transaction`: replaces the session's transaction with a
      new id and configures that one on the given network. The old id is
      read first (for the log), so a session without one raises `KeyError`
      and is left as it was. */
  method ReconfigureTransaction(session: Session, net: Network, newTransId: string,
                                configure: (Option<string>, Network) -> Configured)
    returns (r: Result<Configured>)
    modifies session
    ensures old(session.transId).None? ==> r == Raise(KeyError) && unchanged(session)
    ensures old(session.transId).Some? ==>
      && r == Ok(configure(Some(newTransId), net))
      && session.transId == Some(newTransId)
      && session.notes == old(session.notes) && session.isSimulation == old(session.isSimulation)
  {
    if session.transId.None? {
      return Raise(KeyError);
    }
    session.transId := Some(newTransId);
    r := Ok(configure(session.transId, net));
  }

  /** A simulated purchase, end to end: once the request is accepted, the
      configure step answers "ok" with the requested simulation, however the
      configuration itself went. */
  method SimulatedPurchase(s: Settings, form: VerifyForm, userAgent: Option<string>, c: PayReqChecks,
                           newTransId: string, formNetwork: Option<Network>,
                           configure: (Option<string>, Network) -> Configured)
    returns (verdict: Option<Response>, configured: Option<Response>)
    requires form.isSimulation && c.jwt.JwtVerified? && c.jwt.payReq.simulate.Some?
    ensures verdict == PayReqVerdict(s, form, userAgent, c)
    ensures verdict.None? ==> configured == Some(ConfiguredJson(c.jwt.payReq.simulate))
    ensures verdict.Some? ==> configured == None
  {
    var session := new Session();
    verdict := ProcessPayReq(s, session, form, userAgent, c, newTransId);
    if verdict.None? {
      assert StoredSimulation(session) == TrimmedRequest(c.jwt.payReq, s.productDescriptionLength).simulate;
      configured := Some(ConfigureTransaction(s, session, formNetwork, configure));
    } else {
      configured := None;
    }
  }
}
