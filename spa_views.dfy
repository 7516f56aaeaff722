/** The single-page-app callback router (webpay/spa/views.py): the views a
    payment provider redirects the buyer to after a payment, and the failure
    page they redirect on. Each view is a chain of checks that ends in one
    response; its one effect, enqueueing `payment_notify`, is part of the
    result. */
module SpaViews {
  import opened Common
  import opened SolitudeApi

  /** The template that serves the single-page app. */
  const SpaPage: string := "spa/index.html"

  /** What `_record` (Bango's signature check and transaction record)
      answers: `RECORDED_OK` or the code of the failure. */
  datatype RecordResult = RecordedOk | NotRecorded(code: string)

  /** Everything a provider callback brings: the query string, the session's
      `trans_id`, what `_record` would answer and what the provider would
      answer to the notice check. */
  datatype Callback = Callback(query: Query, sessionTransId: Option<string>, record: RecordResult,
                               noticeReply: RemoteReply)

  /** A redirect to `spa.payment_failure`: `reverse` only builds it for a
      code that fits the URL pattern, and raises otherwise. */
  function Redirected(provider: string, code: string): (v: ViewResult)
    ensures v.jobs == []
    ensures v.response.FailureRedirect? <==> IsErrorCode(code)
    ensures v.response.FailureRedirect? ==> v.response == FailureRedirect(provider, code)
    ensures !IsErrorCode(code) ==> v.response == ServerError(NoReverseMatch)
  {
    if IsErrorCode(code) then ViewResult(FailureRedirect(provider, code), [])
    else ViewResult(ServerError(NoReverseMatch), [])
  }

  function Plain(r: Response): ViewResult {
    ViewResult(r, [])
  }

  /** `index`: the app, unless the SPA is switched off. */
  function Index(s: Settings): (r: Response)
    ensures r == Forbidden <==> !s.spaEnable
    ensures s.spaEnable ==> r == Render(SpaPage, 200, None)
  {
    if !s.spaEnable then Forbidden else Render(SpaPage, 200, None)
  }

  /** `payment_failure`: renders the app with status 400 for any configured
      provider. The URL pattern only lets `[A-Z_]+` codes through, and the
      view itself never looks at the code. */
  function PaymentFailure(s: Settings, providerName: string, errorCode: string): (r: Response)
    requires IsErrorCode(errorCode)
    ensures !s.spaEnable ==> r == Forbidden
    ensures s.spaEnable ==> (r == NotFound <==> providerName !in s.paymentProviders)
    ensures s.spaEnable && providerName in s.paymentProviders ==> r == Render(SpaPage, 400, None)
  {
    if !s.spaEnable then Forbidden
    else if providerName !in s.paymentProviders then NotFound
    else Render(SpaPage, 400, None)
  }

  lemma PaymentFailureIgnoresCode(s: Settings, providerName: string, code1: string, code2: string)
    requires IsErrorCode(code1) && IsErrorCode(code2)
    ensures PaymentFailure(s, providerName, code1) == PaymentFailure(s, providerName, code2)
  {
  }

  /** `_bango_error`: Bango's error redirect. In priority order: an `OK`
      code is itself an error, a failed record gives the record's code, then
      `CANCEL` and `NOT_SUPPORTED` have their own codes and anything else is
      `BANGO_ERROR`. It never notifies, and it redirects unless the record's
      failure code cannot be put in the failure URL. */
  function BangoErrorView(cb: Callback): (v: ViewResult)
    ensures v.jobs == []
    ensures var code := Get(cb.query, "ResponseCode");
      v == Redirected("bango",
        if code == Some("OK") then BadBangoCode
        else if cb.record.NotRecorded? then cb.record.code
        else if code == Some("CANCEL") then UserCancelled
        else if code == Some("NOT_SUPPORTED") then UnsupportedPay
        else BangoError)
    ensures v.response.ServerError? ==>
      Get(cb.query, "ResponseCode") != Some("OK") && cb.record.NotRecorded? && !IsErrorCode(cb.record.code)
  {
    var code := Get(cb.query, "ResponseCode");
    if code == Some("OK") then Redirected(Bango.Name(), BadBangoCode)
    else match cb.record
      case NotRecorded(failure) => Redirected(Bango.Name(), failure)
      case RecordedOk =>
        if code == Some("CANCEL") then Redirected(Bango.Name(), UserCancelled)
        else if code == Some("NOT_SUPPORTED") then Redirected(Bango.Name(), UnsupportedPay)
        else Redirected(Bango.Name(), BangoError)
  }

  /** An `OK` code in Bango's error redirect is rejected before anything is
      recorded: the record's answer makes no difference. */
  lemma BangoErrorOkSkipsRecord(cb: Callback, other: RecordResult)
    requires Get(cb.query, "ResponseCode") == Some("OK")
    ensures BangoErrorView(cb) == BangoErrorView(cb.(record := other))
    ensures BangoErrorView(cb).response == FailureRedirect("bango", BadBangoCode)
  {
  }

  /** `_provider_error`: the generic provider's error redirect. A failed
      notice check redirects with its code; a notice that checks out is still
      a provider error, `EXT_ERROR`. */
  function ProviderErrorView(providerName: string, cb: Callback): (v: ViewResult)
    ensures v.jobs == []
    ensures providerName == "reference" ==> v.response.FailureRedirect? && v.response.provider == "reference"
    ensures providerName == "reference" ==> IsErrorCode(v.response.code)
    ensures providerName == "reference" ==>
      var notice := PrepareNotice(Reference, cb.query, cb.sessionTransId, cb.noticeReply);
      v.response.code == if notice.Ok? then ExtError else notice.exc.code
    ensures providerName != "reference" ==> v.response.ServerError?
  {
    match ProviderHelper(providerName)
    case Raise(e) => Plain(ServerError(e))
    case Ok(kind) =>
      if kind.Name() != "reference" then Plain(ServerError(NotImplementedError))
      else match PrepareNotice(kind, cb.query, cb.sessionTransId, cb.noticeReply)
        case Raise(DevMessage(code)) => Redirected(kind.Name(), code)
        case Raise(e) => Plain(ServerError(e))
        case Ok(_) => Redirected(kind.Name(), ExtError)
  }

  /** `payment_error`: dispatches Bango and the generic provider; every other
      name, Boku included, is not found. */
  function PaymentError(s: Settings, providerName: string, cb: Callback): (v: ViewResult)
    ensures !s.spaEnable ==> v == Plain(Forbidden)
    ensures s.spaEnable && (providerName !in s.paymentProviders || providerName !in {"bango", "reference"}) ==>
      v == Plain(NotFound)
    ensures s.spaEnable && providerName in s.paymentProviders && providerName == "bango" ==> v == BangoErrorView(cb)
    ensures s.spaEnable && providerName in s.paymentProviders && providerName == "reference" ==>
      v == ProviderErrorView(providerName, cb)
  {
    if !s.spaEnable then Plain(Forbidden)
    else if providerName in s.paymentProviders && providerName == Bango.Name() then BangoErrorView(cb)
    else if providerName in s.paymentProviders && providerName == Reference.Name() then ProviderErrorView(providerName, cb)
    else Plain(NotFound)
  }

  /** `_complete_bango`: Bango's success redirect. Only an `OK` code that is
      then recorded notifies, once, with `MerchantTransactionId`. */
  function CompleteBango(cb: Callback): (v: ViewResult)
    ensures Get(cb.query, "ResponseCode") != Some("OK") ==> v == Redirected("bango", BadBangoCode)
    ensures Get(cb.query, "ResponseCode") == Some("OK") && cb.record.NotRecorded? ==>
      v == Redirected("bango", cb.record.code)
    ensures v.jobs != [] <==> Get(cb.query, "ResponseCode") == Some("OK") && cb.record == RecordedOk
    ensures v.jobs != [] ==>
      v.jobs == [PaymentNotify(Get(cb.query, "MerchantTransactionId"))] && v.response == Render(SpaPage, 200, None)
  {
    if Get(cb.query, "ResponseCode") != Some("OK") then Redirected(Bango.Name(), BadBangoCode)
    else match cb.record
      case NotRecorded(failure) => Redirected(Bango.Name(), failure)
      case RecordedOk =>
        ViewResult(Render(SpaPage, 200, None), [PaymentNotify(Get(cb.query, "MerchantTransactionId"))])
  }

  /** `_poll_for_completion`: for a provider that is polled, serves the app
      with the status URL of the transaction named in the query string. */
  function PollForCompletion(providerName: string, q: Query): (v: ViewResult)
    ensures v.jobs == []
    ensures providerName == "boku" ==>
      (v.response == NotFound <==> !Truthy(Get(q, "param")))
    ensures providerName == "boku" && Truthy(Get(q, "param")) ==>
      v.response == Render(SpaPage, 200, Some(Route("provider.transaction_status", [q["param"]])))
  {
    match ProviderHelper(providerName)
    case Raise(e) => Plain(ServerError(e))
    case Ok(kind) =>
      match TransactionFromNotice(kind, q)
      case Raise(e) => Plain(ServerError(e))
      case Ok(transUuid) =>
        if !Truthy(transUuid) then Plain(NotFound)
        else Plain(Render(SpaPage, 200, Some(Route("provider.transaction_status", [transUuid.value]))))
  }

  /** `_complete_provider`: the generic provider's success redirect. A
      failed notice check redirects with its code and notifies nothing;
      otherwise the confirmed transaction is notified exactly once. */
  function CompleteProvider(providerName: string, cb: Callback): (v: ViewResult)
    ensures providerName != "reference" ==> v.response.ServerError? && v.jobs == []
    ensures providerName == "reference" ==>
      var notice := PrepareNotice(Reference, cb.query, cb.sessionTransId, cb.noticeReply);
      if notice.Ok? then v == ViewResult(Render(SpaPage, 200, None), [PaymentNotify(Some(notice.value))])
      else v == Redirected("reference", notice.exc.code)
  {
    match ProviderHelper(providerName)
    case Raise(e) => Plain(ServerError(e))
    case Ok(kind) =>
      if kind.Name() != "reference" then Plain(ServerError(NotImplementedError))
      else match PrepareNotice(kind, cb.query, cb.sessionTransId, cb.noticeReply)
        case Raise(DevMessage(code)) => Redirected(kind.Name(), code)
        case Raise(e) => Plain(ServerError(e))
        case Ok(transId) => ViewResult(Render(SpaPage, 200, None), [PaymentNotify(Some(transId))])
  }

  /** `complete_payment`: dispatches Boku, Bango and the generic provider to
      their handlers; any other name is not found, even a configured one. */
  function CompletePayment(s: Settings, providerName: string, cb: Callback): (v: ViewResult)
    ensures !s.spaEnable ==> v == Plain(Forbidden)
    ensures s.spaEnable && (providerName !in s.paymentProviders || providerName !in {"boku", "bango", "reference"}) ==>
      v == Plain(NotFound)
    ensures s.spaEnable && providerName in s.paymentProviders && providerName == "boku" ==>
      v == PollForCompletion(providerName, cb.query)
    ensures s.spaEnable && providerName in s.paymentProviders && providerName == "bango" ==> v == CompleteBango(cb)
    ensures s.spaEnable && providerName in s.paymentProviders && providerName == "reference" ==>
      v == CompleteProvider(providerName, cb)
  {
    if !s.spaEnable then Plain(Forbidden)
    else if providerName in s.paymentProviders && providerName == Boku.Name() then PollForCompletion(providerName, cb.query)
    else if providerName in s.paymentProviders && providerName == Bango.Name() then CompleteBango(cb)
    else if providerName in s.paymentProviders && providerName == Reference.Name() then CompleteProvider(providerName, cb)
    else Plain(NotFound)
  }

  // ---------------------------------------------------------------------
  // Properties of the router

  /** With the SPA switched off every public view is forbidden, whatever the
      request, and nothing is enqueued. */
  lemma SpaDisabledForbidsEverything(s: Settings, providerName: string, errorCode: string, cb: Callback)
    requires !s.spaEnable && IsErrorCode(errorCode)
    ensures Index(s) == Forbidden
    ensures PaymentFailure(s, providerName, errorCode) == Forbidden
    ensures PaymentError(s, providerName, cb) == ViewResult(Forbidden, [])
    ensures CompletePayment(s, providerName, cb) == ViewResult(Forbidden, [])
  {
  }

  /** The marketplace is notified exactly when a payment is confirmed: at
      most one job, always `payment_notify`, and only for a Bango `OK` that
      was recorded or a generic-provider notice that checked out against the
      session. A rejection never notifies. */
  lemma CompletePaymentNotifiesExactlyOnSuccess(s: Settings, providerName: string, cb: Callback)
    ensures var v := CompletePayment(s, providerName, cb);
      && |v.jobs| <= 1
      && (v.response.FailureRedirect? ==> v.jobs == [])
      && (v.jobs != [] <==>
            s.spaEnable && providerName in s.paymentProviders &&
            ((providerName == "bango" && Get(cb.query, "ResponseCode") == Some("OK") && cb.record == RecordedOk) ||
             (providerName == "reference" && PrepareNotice(Reference, cb.query, cb.sessionTransId, cb.noticeReply).Ok?)))
      && (v.jobs != [] ==> v.jobs[0].PaymentNotify? && v.response == Render(SpaPage, 200, None))
  {
    var v := CompletePayment(s, providerName, cb);
    if s.spaEnable && providerName in s.paymentProviders {
      if providerName == "reference" {
        assert v == CompleteProvider(providerName, cb);
      } else if providerName == "bango" {
        assert v == CompleteBango(cb);
      }
    }
  }

  /** The error redirects never notify. */
  lemma PaymentErrorNeverNotifies(s: Settings, providerName: string, cb: Callback)
    ensures PaymentError(s, providerName, cb).jobs == []
  {
  }

  /** A generic-provider success notifies the session's own transaction,
      and a redirect naming another transaction is rejected with
      `NO_ACTIVE_TRANS` without notifying, whatever the provider says. */
  lemma CompleteProviderTrustsOnlySession(s: Settings, cb: Callback, other: RemoteReply)
    requires s.spaEnable && "reference" in s.paymentProviders
    ensures var v := CompletePayment(s, "reference", cb);
      v.jobs != [] ==> v.jobs == [PaymentNotify(cb.sessionTransId)] && Truthy(cb.sessionTransId)
    ensures Truthy(Get(cb.query, "ext_transaction_id")) && Get(cb.query, "ext_transaction_id") != cb.sessionTransId ==>
      CompletePayment(s, "reference", cb) == Redirected("reference", NoActiveTrans) &&
      CompletePayment(s, "reference", cb) == CompletePayment(s, "reference", cb.(noticeReply := other))
  {
    assert CompletePayment(s, "reference", cb) == CompleteProvider("reference", cb);
    assert CompletePayment(s, "reference", cb.(noticeReply := other)) == CompleteProvider("reference", cb.(noticeReply := other));
  }

  /** Within the model, no provider callback reaches an unhandled
      exception, provided `_record`'s failure codes fit the failure URL: the
      dispatch only hands registered names to helpers, and every code the
      views choose themselves fits the pattern. */
  lemma CallbacksNeverFail(s: Settings, providerName: string, cb: Callback)
    requires cb.record.NotRecorded? ==> IsErrorCode(cb.record.code)
    ensures !CompletePayment(s, providerName, cb).response.ServerError?
    ensures !PaymentError(s, providerName, cb).response.ServerError?
  {
  }

  /** The premise above is needed: a Bango redirect whose record fails with
      a code outside `[A-Z_]+` makes `reverse` raise, a 500. */
  lemma MalformedRecordCodeFails(s: Settings, cb: Callback)
    requires s.spaEnable && "bango" in s.paymentProviders
    requires Get(cb.query, "ResponseCode") == Some("OK") && cb.record == NotRecorded("bad-code")
    ensures CompletePayment(s, "bango", cb).response == ServerError(NoReverseMatch)
  {
    assert !IsErrorCode("bad-code") by {
      assert "bad-code"[3] == '-';
    }
  }

  lemma DevCodesAreErrorCodes()
    ensures IsErrorCode(TransMissing) && IsErrorCode(NoActiveTrans)
    ensures IsErrorCode(NoticeException) && IsErrorCode(NoticeError)
    ensures IsErrorCode(BadBangoCode) && IsErrorCode(BangoError)
    ensures IsErrorCode(UserCancelled) && IsErrorCode(UnsupportedPay) && IsErrorCode(ExtError)
  {
  }

  /** Every failure redirect lands on a failure page that renders: its
      provider is a configured one and its code fits the URL pattern (given
      that `_record`'s own failure codes do). */
  lemma FailureRedirectsRender(s: Settings, providerName: string, cb: Callback)
    requires cb.record.NotRecorded? ==> IsErrorCode(cb.record.code)
    ensures var v := CompletePayment(s, providerName, cb);
      v.response.FailureRedirect? ==>
        v.response.provider in s.paymentProviders && IsErrorCode(v.response.code) &&
        PaymentFailure(s, v.response.provider, v.response.code) == Render(SpaPage, 400, None)
    ensures var v := PaymentError(s, providerName, cb);
      v.response.FailureRedirect? ==>
        v.response.provider in s.paymentProviders && IsErrorCode(v.response.code) &&
        PaymentFailure(s, v.response.provider, v.response.code) == Render(SpaPage, 400, None)
  {
    DevCodesAreErrorCodes();
  }

  /** The URLs each provider is given when the SPA URLs are on lead back to
      that provider's own handler. */
  lemma ProviderUrlsReachTheirHandlers(s: Settings, cb: Callback)
    requires SpaUrlsOn(s) && {"boku", "bango", "reference"} <= s.paymentProviders
    ensures ReferenceSuccessUrlName(s) == "spa.complete_payment" &&
      CompletePayment(s, "reference", cb) == CompleteProvider("reference", cb)
    ensures ReferenceErrorUrlName(s) == "spa.payment_error" &&
      PaymentError(s, "reference", cb) == ProviderErrorView("reference", cb)
    ensures BokuForwardUrlName(s) == "spa.complete_payment" &&
      CompletePayment(s, "boku", cb) == PollForCompletion("boku", cb.query)
    ensures BangoSuccessUrl(s).name == "spa.complete_payment" &&
      CompletePayment(s, BangoSuccessUrl(s).args[0], cb) == CompleteBango(cb)
    ensures BangoErrorUrl(s).name == "spa.payment_error" &&
      PaymentError(s, BangoErrorUrl(s).args[0], cb) == BangoErrorView(cb)
  {
  }
}
