# Webpay provider callbacks, modelled in Dafny

Webpay is the payment front end of the Firefox Marketplace. A buyer starts a purchase with a signed JWT
request. Webpay configures a transaction and sends the buyer to a payment provider: Bango, Boku, or the
generic "reference" provider. The provider later redirects the buyer back, or calls the server directly,
to say how the payment ended.

This project models the decision logic of that round trip:

- **Provider helper and registry** (`SolitudeApi`, from `lib/solitude/api.py`):
  - the registry of provider classes;
  - which providers suit a mobile network;
  - how each provider reads a transaction id from a query string;
  - the `prepare_notice` check, which matches the redirect against the session's transaction and then asks
    the provider to confirm;
  - callback-token and server-notification validation;
  - the URL names handed to providers;
  - Boku's network and price selection;
  - the Solitude client's buyer payloads and its etag cache, a class whose two maps stand for the cache
    keys `etag:<uuid>` and `buyer:<etag>`.
- **Single-page-app router** (`SpaViews`, from `webpay/spa/views.py`): the index page, the failure page,
  the error dispatcher and the completion dispatcher. Each of these is a function returning the HTTP
  response and the background jobs it enqueues.
- **Pay flow** (`PayViews`, from `webpay/pay/views.py`):
  - validating a purchase request and writing it to the session (a `Session` class, changed only when
    every check passes);
  - trimming long descriptions (a loop over the locales);
  - the provider's server-to-server callbacks;
  - the bounce page;
  - disabling payments by user agent;
  - waiting for a transaction to become ready;
  - configuring and reconfiguring a transaction.

Everything remote is an input to the model:

- Solitude, Bango and Boku replies, including what the buyer endpoint answers to a fetch (the
  cache itself is state: the maps of `SolitudeClient`);
- JWT verification;
- the marketplace price list;
- the user-agent regular expressions.

So a property such as "the provider is not contacted" is stated as "the outcome is the same whatever the
provider would answer". A Python exception is a `Result.Raise` carrying the exception. An exception that
no view catches becomes `Response.ServerError`, the 500 page.

Four behaviours of the code that a reader might expect to be otherwise:

- `prepare_notice` looks the transaction id up once, with the provider's own key (`ext_transaction_id`
  for the reference provider, `param` for Boku). It has no fallback to another key.
- `payment_failure` never looks at the error code. Only the URL pattern `[A-Z_]+` (`webpay/urls.py:37`)
  restricts it. An unknown but well-formed code still renders the app with status 400.
- No view clears the session's `trans_id` after a payment completes.
- `_complete_bango` itself does no session check: it never compares the redirect's transaction with the
  session's.

## Model

| member | source | states |
|---|---|---|
| SolitudeApi.ProviderKind.Name | lib/solitude/api.py:554 | every provider class has a non-empty name |
| SolitudeApi.NameInjective | lib/solitude/api.py:442-444 | two providers share a name only if they are the same provider, so the name-keyed registry can hold all three |
| SolitudeApi.Registry.constructor | lib/solitude/api.py:435 | the registry starts empty and well formed |
| SolitudeApi.Registry.Register | lib/solitude/api.py:442-444 | registering files the class under its own name, replacing only that entry, and keeps every entry under its own name |
| SolitudeApi.LoadRegistry | lib/solitude/api.py:541-542 | after the three decorated classes register, the registry maps exactly `reference`, `boku` and `bango` to their classes |
| SolitudeApi.ProviderCls | lib/solitude/api.py:438-439 | lookup succeeds exactly for a registered name and returns the class of that name; otherwise `KeyError` |
| SolitudeApi.ProviderHelper | lib/solitude/api.py:222-226 | a helper exists exactly for the three registered names, and its `name` is the requested one; any other name raises `KeyError` |
| SolitudeApi.HelpersFor | lib/solitude/api.py:255 | one helper per name, in order, exactly when every name is registered; otherwise `KeyError` |
| SolitudeApi.SupportedProviders | lib/solitude/api.py:228-255 | Boku as the default raises `ValueError`. An unregistered default raises `KeyError`. Otherwise Boku leads the list exactly on a Boku network, and the default provider is always last |
| SolitudeApi.TransactionFromNotice | lib/solitude/api.py:502-507 | the reference provider reads `ext_transaction_id`, Boku reads `param` (lines 748-749), and Bango raises `NotImplementedError` (lines 862-863) |
| SolitudeApi.PrepareNotice | lib/solitude/api.py:376-410 | a missing id gives `TRANS_MISSING` and an id other than the session's gives `NO_ACTIVE_TRANS`. A client error gives `NOTICE_EXCEPTION` and a result other than `OK` gives `NOTICE_ERROR`. Success returns the session's own non-empty id, and only after an `OK` |
| SolitudeApi.PrepareNoticeAfterIdCheck | lib/solitude/api.py:396-410 | once the ids agree, the provider's answer alone decides the outcome |
| SolitudeApi.PrepareNoticeRejectsWithoutProvider | lib/solitude/api.py:385-394 | a missing or foreign id is rejected, with the same outcome whatever the provider would answer |
| SolitudeApi.PrepareNoticeNeedsSession | lib/solitude/api.py:383-394 | a session without a transaction accepts no notice; a notice that names an id gets `NO_ACTIVE_TRANS` |
| SolitudeApi.IsCallbackTokenValid | lib/solitude/api.py:362-374 | a token is valid exactly when the provider answers `OK`; a client error means invalid and is not raised |
| SolitudeApi.ServerNotification | lib/solitude/api.py:412-432 | only Boku reads notifications. A failed verification post becomes `NOTICE_ERROR`. Otherwise the notice's `param` is returned, and a notice without one raises `KeyError` |
| SolitudeApi.SolitudeClient.constructor | lib/solitude/api.py:41-42 | a new client works on the shared cache as it stands; creating it writes nothing to the cache |
| SolitudeApi.ReferenceSuccessUrlName | lib/solitude/api.py:556-560 | the success URL is the SPA's `complete_payment` exactly when the SPA and its URLs are on; otherwise `provider.success` |
| SolitudeApi.ReferenceErrorUrlName | lib/solitude/api.py:562-566 | the error URL is the SPA's `payment_error` exactly when the SPA URLs are on; otherwise `provider.error` |
| SolitudeApi.BokuForwardUrlName | lib/solitude/api.py:659-663 | Boku forwards to the SPA's `complete_payment` exactly when the SPA URLs are on; otherwise `provider.wait_to_finish` |
| SolitudeApi.BangoSuccessUrl | lib/solitude/api.py:817-821 | the SPA route carries the provider name `bango`; the legacy route `bango.success` has no arguments |
| SolitudeApi.BangoErrorUrl | lib/solitude/api.py:823-827 | the SPA error route carries `bango`; the legacy route is `bango.error` |
| SolitudeApi.FirstRegionMatch | lib/solitude/api.py:684-690 | the index of the first price for the region, with no match before it, or the list length when there is none |
| SolitudeApi.BokuPrice | lib/solitude/api.py:684-696 | the search stops at the first entry of the region. Its price is returned, and a missing or empty price raises `TransactionError` |
| SolitudeApi.BokuCreateTransaction | lib/solitude/api.py:670-729 | A network Boku does not serve raises `TransactionError`, and so does a region whose first price is missing or empty. Otherwise the call succeeds. On success Boku was posted the first matching price, the network's country, the forward and notification routes, and the seller, transaction and user ids, and Boku's transaction id and buy URL are returned |
| SolitudeApi.CreateBuyerPayload | lib/solitude/api.py:52-56 | the PIN counts as confirmed only when a non-empty PIN is given and the caller confirmed it |
| SolitudeApi.SolitudeClient.CreateBuyer | lib/solitude/api.py:44-65 | returns what Solitude answered; an answer with an etag is cached under the buyer's uuid and under the etag, and nothing else changes |
| SolitudeApi.CachedEtag | lib/solitude/api.py:73-74 | the etag starts as the one cached under `etag:<uuid>`, and only when etags are in use |
| SolitudeApi.IfNoneMatch | lib/solitude/api.py:75 | the If-None-Match header is sent exactly for a non-empty etag, and carries it |
| SolitudeApi.CacheHit | lib/solitude/api.py:80 | the cached buyer counts only when present and non-empty |
| SolitudeApi.SolitudeClient.GetBuyer | lib/solitude/api.py:67-88 | A fresh answer is returned and cached by its etag. A missing buyer, whatever header was sent, is `{}` and leaves the cache unchanged. "Not modified" is answered from a non-empty cached object under `buyer:<etag>`, with the cache unchanged. Otherwise one retry without etags is made, and its three outcomes are stated. A "not modified" without etags and without a cached object is `RecursionError` |
| SolitudeApi.ChangePinPayload | lib/solitude/api.py:134-136 | the patch carries the PIN (`None` removes it) and its confirmation; `pin_was_locked_out=False` is present exactly when clearing was asked for |
| SolitudeApi.PatchOutcome | lib/solitude/api.py:137-144 | a 412 for a stale etag, and only that, raises `ResourceModified`; a reply with `errors` is handed back as is; any other reply becomes `{}` |
| SolitudeApi.SolitudeClient.ChangePin | lib/solitude/api.py:120-144 | For each way the buyer lookup can end, the retry without etags included: the record named by the looked-up buyer's `resource_pk` (none for a missing buyer) is patched with the PIN payload. The PIN may be `None`, which removes it. The result is that patch's outcome, so a stale etag raises `ResourceModified`, and the cache is what the lookup left. A lookup that recurses forever is `RecursionError` with the cache unchanged. No other exception is raised |
| SpaViews.Index | webpay/spa/views.py:18-25 | forbidden exactly when the SPA is off; otherwise the app page |
| SpaViews.Redirected | webpay/urls.py:37-38 | a redirect to the failure page is built exactly for a code matching `[A-Z_]+`; any other code makes `reverse` raise |
| SpaViews.PaymentFailure | webpay/spa/views.py:28-40 | forbidden when the SPA is off, and not found exactly for an unconfigured provider. Otherwise the app renders with status 400 |
| SpaViews.PaymentFailureIgnoresCode | webpay/spa/views.py:28-40 | any two well-formed codes give the same response |
| SpaViews.BangoErrorView | webpay/spa/views.py:91-121 | Never a job. It redirects to Bango's failure page with the code chosen in priority order: `BAD_BANGO_CODE` for an `OK`, the record's failure, `USER_CANCELLED`, `UNSUPPORTED_PAY`, `BANGO_ERROR`. A 500 happens only for a record failure whose code cannot be put in the URL |
| SpaViews.BangoErrorOkSkipsRecord | webpay/spa/views.py:96-101 | an `OK` in an error redirect is rejected whatever `_record` would say |
| SpaViews.ProviderErrorView | webpay/spa/views.py:68-88 | the reference provider redirects with the notice's failure code, or `EXT_ERROR` when the notice checks out. Other providers end in an uncaught exception, and no jobs are enqueued |
| SpaViews.PaymentError | webpay/spa/views.py:44-65 | forbidden when the SPA is off. Configured `bango` and `reference` go to their handlers. Any other name, Boku included, is not found |
| SpaViews.CompleteBango | webpay/spa/views.py:154-187 | a code other than `OK` gives `BAD_BANGO_CODE` and a failed record gives its code. Exactly a recorded `OK` enqueues one `payment_notify` with `MerchantTransactionId` and renders the app |
| SpaViews.PollForCompletion | webpay/spa/views.py:190-207 | for Boku, not found exactly when `param` is missing or empty; otherwise the app with the status URL of that transaction; never a job |
| SpaViews.CompleteProvider | webpay/spa/views.py:210-226 | a failed notice redirects with its code. A confirmed notice enqueues exactly one `payment_notify` for the confirmed id and renders the app |
| SpaViews.CompletePayment | webpay/spa/views.py:124-151 | forbidden when the SPA is off. Configured `boku`, `bango` and `reference` go to their handlers; any other name is not found |
| SpaViews.SpaDisabledForbidsEverything | webpay/spa/views.py:22-23 | with the SPA off, all four views are forbidden and enqueue nothing |
| SpaViews.CompletePaymentNotifiesExactlyOnSuccess | webpay/spa/views.py:124-226 | At most one job, always `payment_notify`, never with a failure redirect. A job is enqueued exactly for a recorded Bango `OK` or a confirmed reference notice |
| SpaViews.PaymentErrorNeverNotifies | webpay/spa/views.py:44-121 | the error views never enqueue a job |
| SpaViews.CompleteProviderTrustsOnlySession | webpay/spa/views.py:210-226 | A notified id is always the session's own. A redirect naming another transaction gets `NO_ACTIVE_TRANS`, whatever the provider says |
| SpaViews.CallbacksNeverFail | webpay/spa/views.py:124-151 | within the model, and given that `_record`'s failure codes match `[A-Z_]+`, the dispatchers never reach an uncaught exception |
| SpaViews.MalformedRecordCodeFails | webpay/spa/views.py:180-183 | the premise is needed: a record failure code outside the URL pattern turns Bango's success redirect into a 500 |
| SpaViews.DevCodesAreErrorCodes | webpay/urls.py:37 | every code these views redirect with fits the failure URL's `[A-Z_]+` pattern |
| SpaViews.FailureRedirectsRender | webpay/urls.py:37-38 | every failure redirect names a configured provider and a well-formed code, so the failure page renders it with status 400 (given that `_record`'s own codes are well formed) |
| SpaViews.ProviderUrlsReachTheirHandlers | lib/solitude/api.py:556-566 | with the SPA URLs on, each URL a provider is handed leads to that provider's own handler |
| PayViews.SlicePrefix | webpay/pay/views.py:470 | Python's `st[0:cut]`: a prefix of the string, clipped at both ends, counted from the end when `cut` is negative |
| PayViews.Trim | webpay/pay/views.py:466-471 | A description within the limit is unchanged. A longer one has exactly the limit's length and keeps its first `limit-3` characters, then `...` |
| PayViews.TrimIdempotent | webpay/pay/views.py:466-471 | trimming twice is trimming once |
| PayViews.TrimmedRequest | webpay/pay/views.py:464-479 | the description and every locale's description are trimmed; the locales and the simulation are unchanged |
| PayViews.TrimmedRequestFits | webpay/pay/views.py:464-479 | A trimmed request fits the limit, and trimming it again changes nothing. A request that already fits is left as is |
| PayViews.TrimPayRequest | webpay/pay/views.py:464-479 | the loop over the locales yields exactly the trimmed request |
| PayViews.CallbackUrl | webpay/pay/views.py:413-443 | A POST without `signed_notice` is an uncaught `KeyError`, and so is an unknown configured provider. Otherwise 204 exactly when the token is valid and the notice names `ext_transaction_id`, enqueueing one `payment_notify` (success) or `chargeback_notify` (error) for it. Anything else is a 400 with no job |
| PayViews.CallbackEnqueuesAtMostOne | webpay/pay/views.py:446-461 | a callback enqueues at most one job, exactly when it is acknowledged, and of the kind its URL says |
| PayViews.Bounce | webpay/pay/views.py:231-237 | forbidden unless `next` starts with `/mozpay/`; otherwise the bounce page |
| PayViews.BlocksUserAgent | webpay/pay/views.py:492-501 | a user agent is blocked only when a setting disallows its kind of device, and it matches that device's pattern |
| PayViews.DisabledByUserAgent | webpay/pay/views.py:488-507 | Disabled exactly when Android payments are off and the agent matches the Android pattern, or Tarako payments are off and it matches Tarako. A missing agent is matched as empty. With both allowed, never disabled |
| PayViews.WaitToStart | webpay/pay/views.py:329-373 | An ended transaction gives `TRANS_ENDED`, and a pending one redirects to its pay URL. Any other status, or a missing transaction, renders the waiting page. The lookup runs even without a session transaction |
| PayViews.TransStartUrl | webpay/pay/views.py:379-410 | 400 exactly without a session transaction. A missing transaction has no status, provider or URL. A found one reports its own status and provider name, and its pay URL exactly when pending. An unknown provider id is an uncaught `KeyError` |
| PayViews.Join | webpay/pay/views.py:48 | joining no codes is empty; joining one code is that code |
| PayViews.PayReqVerdict | webpay/pay/views.py:38-98 | Checks in order, each answer exactly when every earlier check passed and its own failed: form errors (their codes joined), payments disabled (503 `PAY_DISABLED`), `EXPIRED_JWT`/`INVALID_JWT`, `MALFORMED_URL`, `BAD_PRICE_POINT`. It passes exactly when every check does |
| PayViews.ProcessPayReq | webpay/pay/views.py:38-113 | The answer is the verdict. A failed check leaves the session untouched. On success: `is_simulation` is recorded, the trimmed request and issuer key are added to the notes (other notes kept), and the new transaction id is stored |
| PayViews.Session.constructor | webpay/pay/views.py:107 | a new session has no transaction, no simulation flag and no notes |
| PayViews.ChosenNetwork | webpay/pay/views.py:131-143 | a simulated network overrides the network the client detected |
| PayViews.StoredSimulation | webpay/pay/views.py:155-156 | a simulation is found only under the session's stored pay request |
| PayViews.ConfigureTransaction | webpay/pay/views.py:116-157 | A system error exactly when configuring failed outside a simulation, with its code or `TRANS_CONFIG_FAILED`. A simulation session answers "ok" with the stored simulation even on failure, or an uncaught `KeyError` when none is stored |
| PayViews.ReconfigureTransaction | webpay/pay/views.py:285-298 | Without a session transaction, `KeyError` and the session unchanged. Otherwise the session gets the new id, only that changes, and the new transaction is configured on the given network |
| PayViews.SimulatedPurchase | webpay/pay/views.py:100-157 | after an accepted simulated request, configuring answers "ok" with the request's simulation, however configuring went |

## Left out

- HTTP, Slumber, the Django cache backend, Celery, statsd, logging and template rendering are not modelled.
  - Remote replies are parameters. The cache is the state of `SolitudeClient`.
  - Cache eviction is not modelled. Eviction is what makes the retry without etags in `get_buyer`
    necessary; the model covers the retry through an etag whose `buyer:` entry is missing or empty.
  - Enqueued jobs are part of a view's result.
  - A rendered page is its template and status, plus the transaction status URL where the view passes one.
  - The bounce page's `next` context is not modelled.
- JWT decoding, the verification and network forms, `verify_urls`, the marketplace price lookup and the
  two user-agent regular expressions are not modelled; their outcomes are inputs.
  - The form's errors are the flattened list of its error codes.
  - The Boku region of an mcc (`COUNTRIES[mcc]`) and its country code (`mobile_codes.mcc(mcc)`) are
    inputs.
- `_record`, Bango's signature check and the recording of its transaction, is not modelled. It is
  represented by the answer it gives.
- The client's handling of HTTP errors (`SlumberWrapper.safe_run`) is not part of this model. For a
  buyer patch its effect is an input: a reply object, which carries `errors` for a rejected field, or a
  412, which it turns into `ResourceModified`.
- A provider reply that lacks its `result` field is not modelled. The source then raises `KeyError` in
  `is_callback_token_valid` and `prepare_notice`.
- The second post in `BokuProvider.create_transaction`, which creates the Solitude generic transaction,
  is not modelled. Its reply is not used.
- `start_transaction`, `create_product`, and the providers' `get_product`, `get_seller` and
  `create_product` are not modelled. They only forward data to remote APIs.
- The remaining buyer calls are not modelled. Each is one remote call after at most a buyer lookup:
  - `set_needs_pin_reset`, `unset_was_locked` and `set_new_pin` patch the buyer the way `change_pin` does,
    with a different payload;
  - `confirm_pin` and `reset_confirm_pin` post the PIN and return the reply's `confirmed` flag;
  - `verify_pin` posts the PIN and returns the reply;
  - `get_active_product` fetches an active product, failing with a 404;
  - `get_transaction` fetches a transaction and decodes its JSON notes.
- The lobby and the PIN flow of `webpay/pay/views.py` (`index`, `lobby`, `simulate`, `super_simulate`,
  `fake_bango_url`, `send_simulated_notification`) are not modelled.
- A pay request holds only its description, its locales' descriptions and its simulation.
  - The other JWT fields are not modelled.
  - A locale without a `description` (a `KeyError` in the source) is not modelled.
- The simulation parameter is treated as a string; in the source it is a small dictionary.
- PayViews.TrimPayRequest: the request is trimmed into a new value. In the source the dictionary that is
  later stored in the session is changed in place.
- PayViews.WaitToStart: the `@user_verified` check and the timing of the payment start are not modelled.
  The pay URL is assumed present on a found transaction.
- PayViews.TransStartUrl: the `@user_verified` check and the timing of the payment start are not modelled.
  For a missing transaction the source's JSON leaves out the `provider` key; the model does not tell an
  absent key from a null, so both are `None`.
- PayViews.Trim: its length bound is proved for limits of at least 3. With a smaller configured limit
  the source's negative slice makes the result longer than the limit; the model computes that result
  exactly.
