/** The provider side of the gateway (lib/solitude/api.py): which payment
    providers exist, how each reads a transaction id from a provider's query
    string, the session-versus-callback check `prepare_notice`, token and
    notification validation, Boku's network and price selection, the URL
    names each provider hands out, and the buyer payloads and etag cache of
    the Solitude client. Remote calls are inputs: their replies are
    parameters of the operations. */
module SolitudeApi {
  import opened Common

  /** The registered payment provider classes. */
  datatype ProviderKind = Reference | Boku | Bango {
    /** The class attribute `name`. */
    function Name(): (n: string)
      ensures n != ""
    {
      match this
      case Reference => "reference"
      case Boku => "boku"
      case Bango => "bango"
    }
  }

  lemma NameInjective(a: ProviderKind, b: ProviderKind)
    ensures a.Name() == b.Name() <==> a == b
  {
  }

  // ---------------------------------------------------------------------
  // The provider registry

  /** The module-level `_registry` dict, keyed by provider name. */
  class Registry {
    var entries: map<string, ProviderKind>

    /** Every provider is filed under its own name. */
    ghost predicate Valid()
      reads this
    {
      forall name :: name in entries ==> entries[name].Name() == name
    }

    constructor ()
      ensures Valid() && entries == map[]
    {
      entries := map[];
    }

    /** `register_provider`: files the class under its name, replacing any
        earlier class of that name. */
    method Register(kind: ProviderKind)
      requires Valid()
      modifies this
      ensures Valid()
      ensures entries == old(entries)[kind.Name() := kind]
    {
      entries := entries[kind.Name() := kind];
    }
  }

  /** The registry once the module is imported: the three decorated classes. */
  const Registered: map<string, ProviderKind> :=
    map["reference" := Reference, "boku" := Boku, "bango" := Bango]

  /** Runs the three `@register_provider` decorators in source order. */
  method LoadRegistry() returns (reg: Registry)
    ensures fresh(reg) && reg.Valid()
    ensures reg.entries == Registered
  {
    reg := new Registry();
    reg.Register(Reference);
    reg.Register(Boku);
    reg.Register(Bango);
  }

  /** `provider_cls`: the class registered under `name`, or `KeyError`. */
  function ProviderCls(registry: map<string, ProviderKind>, name: string): (r: Result<ProviderKind>)
    requires forall n :: n in registry ==> registry[n].Name() == n
    ensures r.Ok? <==> name in registry
    ensures r.Ok? ==> r.value.Name() == name
    ensures r.Raise? ==> r.exc == KeyError
  {
    if name in registry then Ok(registry[name]) else Raise(KeyError)
  }

  /** `ProviderHelper(name)`: the helper wraps the registered class, and its
      `name` is the class's name. */
  function ProviderHelper(name: string): (r: Result<ProviderKind>)
    ensures r.Ok? <==> name in {"reference", "boku", "bango"}
    ensures r.Ok? ==> r.value.Name() == name
    ensures r.Raise? ==> r.exc == KeyError
  {
    ProviderCls(Registered, name)
  }

  // ---------------------------------------------------------------------
  // Provider selection

  /** Boku's `network_data`: the (mcc, mnc) pairs it serves, with currency. */
  const BokuNetworks: map<Network, string> := map[Network(Some("334"), Some("020")) := "MXN"]

  /** Builds one helper per name, in order; the first unknown name raises. */
  function HelpersFor(names: seq<string>): (r: Result<seq<ProviderKind>>)
    ensures r.Ok? <==> forall i :: 0 <= i < |names| ==> names[i] in Registered
    ensures r.Ok? ==> |r.value| == |names|
    ensures r.Ok? ==> forall i :: 0 <= i < |names| ==> r.value[i].Name() == names[i]
    ensures r.Raise? ==> r.exc == KeyError
  {
    if names == [] then Ok([])
    else
      var head :- ProviderHelper(names[0]);
      var tail :- HelpersFor(names[1..]);
      assert forall i :: 1 <= i < |names| ==> names[i] == names[1..][i - 1];
      Ok([head] + tail)
  }

  /** `ProviderHelper.supported_providers`: the providers suitable for the
      user's network, in order of preference. */
  function SupportedProviders(defaultProvider: string, net: Network): (r: Result<seq<ProviderKind>>)
    ensures defaultProvider == "boku" ==> r == Raise(ValueError)
    ensures defaultProvider != "boku" && defaultProvider !in Registered ==> r == Raise(KeyError)
    ensures defaultProvider != "boku" && defaultProvider in Registered ==> r.Ok?
    ensures r.Ok? ==> |r.value| == (if net in BokuNetworks then 2 else 1)
    ensures r.Ok? ==> r.value[|r.value| - 1].Name() == defaultProvider
    ensures r.Ok? && net in BokuNetworks ==> r.value[0] == Boku
    ensures r.Ok? ==> (Boku in r.value <==> net in BokuNetworks)
  {
    if defaultProvider == Boku.Name() then Raise(ValueError)
    else
      var names := (if net in BokuNetworks then [Boku.Name()] else []) + [defaultProvider];
      var r := HelpersFor(names);
      assert r.Ok? ==> forall i :: 0 <= i < |r.value| ==> (r.value[i] == Boku <==> names[i] == "boku");
      r
  }

  // ---------------------------------------------------------------------
  // Reading a notice

  /** `transaction_from_notice`: the generic provider reads
      `ext_transaction_id`, Boku reads `param`, Bango does not implement it. */
  function TransactionFromNotice(kind: ProviderKind, q: Query): (r: Result<Option<string>>)
    ensures r.Raise? <==> kind == Bango
    ensures r.Raise? ==> r.exc == NotImplementedError
    ensures kind == Reference ==> r.Ok? && (r.value.Some? <==> "ext_transaction_id" in q)
    ensures kind == Reference && r.value.Some? ==> r.value.value == q["ext_transaction_id"]
    ensures kind == Boku ==> r.Ok? && (r.value.Some? <==> "param" in q)
    ensures kind == Boku && r.value.Some? ==> r.value.value == q["param"]
  {
    match kind
    case Reference => Ok(Get(q, "ext_transaction_id"))
    case Boku => Ok(Get(q, "param"))
    case Bango => Raise(NotImplementedError)
  }

  /** `ProviderHelper.prepare_notice`: checks the transaction id of a
      provider's redirect against the session, then asks the provider to
      confirm the notice (`reply`). Returns the confirmed transaction id. */
  function PrepareNotice(kind: ProviderKind, q: Query, sessionTransId: Option<string>, reply: RemoteReply): (r: Result<string>)
    ensures kind == Bango ==> r == Raise(NotImplementedError)
    ensures kind != Bango && !Truthy(TransactionFromNotice(kind, q).value) ==>
      r == Raise(DevMessage(TransMissing))
    ensures kind != Bango && Truthy(TransactionFromNotice(kind, q).value) &&
            TransactionFromNotice(kind, q).value != sessionTransId ==>
              r == Raise(DevMessage(NoActiveTrans))
    ensures r.Ok? ==> sessionTransId == Some(r.value) && r.value != "" && reply == Reply("OK")
    ensures r.Raise? && r.exc == DevMessage(NoticeException) ==> reply == HttpClientError
    ensures r.Raise? && r.exc == DevMessage(NoticeError) ==> reply.Reply? && reply.result != "OK"
    ensures r.Raise? && r.exc.DevMessage? ==> IsErrorCode(r.exc.code)
  {
    var transId :- TransactionFromNotice(kind, q);
    if !Truthy(transId) then Raise(DevMessage(TransMissing))
    else if transId != sessionTransId then Raise(DevMessage(NoActiveTrans))
    else match reply
      case HttpClientError => Raise(DevMessage(NoticeException))
      case Reply(result) =>
        if result != "OK" then Raise(DevMessage(NoticeError)) else Ok(transId.value)
  }

  /** Once the ids agree, the provider's answer alone decides. */
  lemma PrepareNoticeAfterIdCheck(kind: ProviderKind, q: Query, transId: string, reply: RemoteReply)
    requires kind != Bango
    requires TransactionFromNotice(kind, q) == Ok(Some(transId)) && transId != ""
    ensures reply == HttpClientError ==>
      PrepareNotice(kind, q, Some(transId), reply) == Raise(DevMessage(NoticeException))
    ensures reply.Reply? && reply.result != "OK" ==>
      PrepareNotice(kind, q, Some(transId), reply) == Raise(DevMessage(NoticeError))
    ensures reply == Reply("OK") ==> PrepareNotice(kind, q, Some(transId), reply) == Ok(transId)
  {
  }

  /** A missing or mismatched transaction id is rejected before the provider
      is contacted: the outcome is the same whatever the provider would say. */
  lemma PrepareNoticeRejectsWithoutProvider(kind: ProviderKind, q: Query, sessionTransId: Option<string>,
                                            reply1: RemoteReply, reply2: RemoteReply)
    requires kind != Bango
    requires var t := TransactionFromNotice(kind, q).value; !Truthy(t) || t != sessionTransId
    ensures PrepareNotice(kind, q, sessionTransId, reply1) == PrepareNotice(kind, q, sessionTransId, reply2)
    ensures PrepareNotice(kind, q, sessionTransId, reply1).Raise?
  {
  }

  /** A session without a transaction accepts no notice at all. */
  lemma PrepareNoticeNeedsSession(kind: ProviderKind, q: Query, reply: RemoteReply)
    ensures PrepareNotice(kind, q, None, reply).Raise?
    ensures kind != Bango && Truthy(TransactionFromNotice(kind, q).value) ==>
      PrepareNotice(kind, q, None, reply) == Raise(DevMessage(NoActiveTrans))
  {
  }

  /** `ProviderHelper.is_callback_token_valid`: the provider's verdict on a
      signed notice; a client error counts as invalid and is not raised. */
  function IsCallbackTokenValid(reply: RemoteReply): (valid: bool)
    ensures valid <==> reply.Reply? && reply.result == "OK"
    ensures reply == HttpClientError ==> !valid
  {
    match reply
    case HttpClientError => false
    case Reply(result) => result == "OK"
  }

  /** `ProviderHelper.server_notification`: only Boku reads notification
      data; its verification is a post whose client error becomes
      `NOTICE_ERROR`, after which the notice's `param` is the transaction. */
  function ServerNotification(kind: ProviderKind, data: Query, post: RemoteReply): (r: Result<string>)
    ensures kind != Boku ==> r == Raise(NotImplementedError)
    ensures kind == Boku && post == HttpClientError ==> r == Raise(DevMessage(NoticeError))
    ensures kind == Boku && post.Reply? ==> (r.Ok? <==> "param" in data)
    ensures kind == Boku && post.Reply? && "param" !in data ==> r == Raise(KeyError)
    ensures r.Ok? ==> "param" in data && r.value == data["param"]
    ensures r.Raise? && r.exc.DevMessage? ==> r.exc.code == NoticeError && post == HttpClientError
  {
    if kind != Boku then Raise(NotImplementedError)   // get_notification_data is abstract
    else match post
      case HttpClientError => Raise(DevMessage(NoticeError))
      case Reply(_) => if "param" in data then Ok(data["param"]) else Raise(KeyError)
  }

  // ---------------------------------------------------------------------
  // URL names handed to providers

  predicate SpaUrlsOn(s: Settings) {
    s.spaEnable && s.spaEnableUrls
  }

  /** `ReferenceProvider.get_success_url_name`. */
  function ReferenceSuccessUrlName(s: Settings): (name: string)
    ensures name == "spa.complete_payment" <==> SpaUrlsOn(s)
    ensures !SpaUrlsOn(s) ==> name == "provider.success"
  {
    if SpaUrlsOn(s) then "spa.complete_payment" else "provider.success"
  }

  /** `ReferenceProvider.get_error_url_name`. */
  function ReferenceErrorUrlName(s: Settings): (name: string)
    ensures name == "spa.payment_error" <==> SpaUrlsOn(s)
    ensures !SpaUrlsOn(s) ==> name == "provider.error"
  {
    if SpaUrlsOn(s) then "spa.payment_error" else "provider.error"
  }

  /** `BokuProvider.get_forward_url_name`. */
  function BokuForwardUrlName(s: Settings): (name: string)
    ensures name == "spa.complete_payment" <==> SpaUrlsOn(s)
    ensures !SpaUrlsOn(s) ==> name == "provider.wait_to_finish"
  {
    if SpaUrlsOn(s) then "spa.complete_payment" else "provider.wait_to_finish"
  }

  /** `BangoProvider.get_success_url`: the SPA route carries the provider
      name, the legacy route none. */
  function BangoSuccessUrl(s: Settings): (route: Route)
    ensures SpaUrlsOn(s) <==> route == Route("spa.complete_payment", ["bango"])
    ensures !SpaUrlsOn(s) ==> route == Route("bango.success", [])
  {
    if SpaUrlsOn(s) then Route("spa.complete_payment", [Bango.Name()]) else Route("bango.success", [])
  }

  /** `BangoProvider.get_error_url`. */
  function BangoErrorUrl(s: Settings): (route: Route)
    ensures SpaUrlsOn(s) <==> route == Route("spa.payment_error", ["bango"])
    ensures !SpaUrlsOn(s) ==> route == Route("bango.error", [])
  {
    if SpaUrlsOn(s) then Route("spa.payment_error", [Bango.Name()]) else Route("bango.error", [])
  }

  // ---------------------------------------------------------------------
  // Boku transactions

  /** One entry of the marketplace's price list for a price point. */
  datatype Price = Price(region: string, amount: string)

  /** The index of the first price for `region`, or |prices| when none is. */
  function FirstRegionMatch(prices: seq<Price>, region: string): (k: nat)
    ensures k <= |prices|
    ensures forall j :: 0 <= j < k ==> prices[j].region != region
    ensures k < |prices| ==> prices[k].region == region
  {
    if prices == [] then 0
    else if prices[0].region == region then 0
    else 1 + FirstRegionMatch(prices[1..], region)
  }

  /** The price loop of `BokuProvider.create_transaction`: the first entry
      whose region matches gives the price (and the search stops there); no
      match, or an empty price, raises `TransactionError`. */
  method BokuPrice(prices: seq<Price>, region: string) returns (r: Result<string>)
    ensures var k := FirstRegionMatch(prices, region);
      r == if k < |prices| && prices[k].amount != "" then Ok(prices[k].amount) else Raise(TransactionError)
    ensures r.Ok? ==> exists i :: 0 <= i < |prices| && prices[i].region == region && prices[i].amount == r.value
  {
    var price: Option<string> := None;
    var i := 0;
    while i < |prices|
      invariant 0 <= i <= |prices|
      invariant price == None
      invariant forall j :: 0 <= j < i ==> prices[j].region != region
    {
      if prices[i].region == region {
        price := Some(prices[i].amount);
        break;
      }
      i := i + 1;
    }
    assert price.Some? ==> i < |prices| && prices[i].region == region && price.value == prices[i].amount;
    assert FirstRegionMatch(prices, region) == i;
    if !Truthy(price) {
      r := Raise(TransactionError);
    } else {
      r := Ok(price.value);
    }
  }

  /** What Webpay posts to Boku's transaction endpoint. */
  datatype BokuTransRequest = BokuTransRequest(forward: Route, callback: Route, country: string, price: string,
                                               sellerUuid: string, transactionUuid: string, userUuid: string)

  /** Boku's answer: its transaction id and the buy URL. */
  datatype BokuTransReply = BokuTransReply(transactionId: string, buyUrl: string)

  /** The transaction Boku opened when charged the first matching price. */
  ghost predicate BokuCharged(s: Settings, prices: seq<Price>, mccRegion: string, country: string, sellerUuid: string,
                              transactionUuid: string, userUuid: string,
                              post: BokuTransRequest -> BokuTransReply, started: (string, string))
  {
    var k := FirstRegionMatch(prices, mccRegion);
    && k < |prices|
    && prices[k].amount != ""
    && var reply := post(BokuTransRequest(Route(BokuForwardUrlName(s), ["boku"]),
                                          Route("provider.notification", ["boku"]),
                                          country, prices[k].amount, sellerUuid, transactionUuid, userUuid));
       started == (reply.transactionId, reply.buyUrl)
  }

  /** `BokuProvider.create_transaction`: refuses networks Boku does not
      serve, picks the price for the user's region (`COUNTRIES[mcc]`, given
      as `mccRegion`; the network's two-letter country code is `country`)
      and posts the transaction. */
  method BokuCreateTransaction(s: Settings, net: Network, prices: seq<Price>, mccRegion: string, country: string,
                               sellerUuid: string, transactionUuid: string, userUuid: string,
                               post: BokuTransRequest -> BokuTransReply)
    returns (r: Result<(string, string)>)
    ensures net !in BokuNetworks ==> r == Raise(TransactionError)
    ensures var k := FirstRegionMatch(prices, mccRegion);
      net in BokuNetworks && (k == |prices| || prices[k].amount == "") ==> r == Raise(TransactionError)
    ensures var k := FirstRegionMatch(prices, mccRegion);
      net in BokuNetworks && k < |prices| && prices[k].amount != "" ==> r.Ok?
    ensures r.Raise? ==> r.exc == TransactionError
    ensures r.Ok? ==> net in BokuNetworks
    ensures r.Ok? ==> BokuCharged(s, prices, mccRegion, country, sellerUuid, transactionUuid, userUuid, post, r.value)
  {
    if net !in BokuNetworks {
      return Raise(TransactionError);
    }
    var price := BokuPrice(prices, mccRegion);
    if price.Raise? {
      return Raise(price.exc);
    }
    var reply := post(BokuTransRequest(Route(BokuForwardUrlName(s), [Boku.Name()]),
                                       Route("provider.notification", [Boku.Name()]),
                                       country, price.value, sellerUuid, transactionUuid, userUuid));
    r := Ok((reply.transactionId, reply.buyUrl));
  }

  // ---------------------------------------------------------------------
  // Buyers and the etag cache

  /** A JSON object returned by Solitude, flattened to string fields. */
  type Obj = map<string, string>

  /** The body of `create_buyer`'s post. */
  datatype BuyerPayload = BuyerPayload(uuid: string, pin: Option<string>, pinConfirmed: bool)

  /** `create_buyer`'s payload: a PIN counts as confirmed only when one is
      given and the caller says it was confirmed. */
  function CreateBuyerPayload(uuid: string, pin: Option<string>, pinConfirmed: bool): (p: BuyerPayload)
    ensures p.uuid == uuid && p.pin == pin
    ensures p.pinConfirmed <==> pinConfirmed && Truthy(pin)
    ensures pin == None ==> !p.pinConfirmed
  {
    BuyerPayload(uuid, pin, pinConfirmed && Truthy(pin))
  }

  /** The body of `change_pin`'s patch: a `None` PIN removes the buyer's
      PIN; `pinWasLockedOut` is absent unless set. */
  datatype PinPatch = PinPatch(pin: Option<string>, pinConfirmed: bool, pinWasLockedOut: Option<bool>)

  /** `change_pin`'s payload: `pin_was_locked_out=False` is added only when
      the locked-out state is to be cleared. */
  function ChangePinPayload(pin: Option<string>, pinConfirmed: bool, clearWasLocked: bool): (p: PinPatch)
    ensures p.pin == pin && p.pinConfirmed == pinConfirmed
    ensures p.pinWasLockedOut.Some? <==> clearWasLocked
    ensures p.pinWasLockedOut != Some(true)
  {
    PinPatch(pin, pinConfirmed, if clearWasLocked then Some(false) else None)
  }

  /** What the buyer endpoint answers to a GET carrying an optional
      If-None-Match header. */
  datatype BuyerFetch = Fetched(obj: Obj) | NotModified | DoesNotExist

  /** The cache key suffix that `'buyer:%s' % etag` produces. */
  function EtagText(etag: Option<string>): string {
    match etag
    case Some(e) => e
    case None => "None"
  }

  /** The etag `get_buyer` starts from: the one cached for the buyer, when
      etags are in use. */
  function CachedEtag(etags: map<string, string>, uuid: string, useEtags: bool): (etag: Option<string>)
    ensures etag.Some? <==> useEtags && uuid in etags
    ensures etag.Some? ==> etag.value == etags[uuid]
  {
    if useEtags && uuid in etags then Some(etags[uuid]) else None
  }

  /** The If-None-Match header: sent only for a non-empty etag. */
  function IfNoneMatch(etag: Option<string>): (header: Option<string>)
    ensures header.Some? <==> Truthy(etag)
    ensures header.Some? ==> header == etag
  {
    if Truthy(etag) then etag else None
  }

  /** `cache.get('buyer:<etag>')` when it is truthy: a missing entry and an
      empty object both miss. */
  function CacheHit(buyers: map<string, Obj>, key: string): (hit: Option<Obj>)
    ensures hit.Some? <==> key in buyers && buyers[key] != map[]
    ensures hit.Some? ==> hit.value == buyers[key]
  {
    if key in buyers && buyers[key] != map[] then Some(buyers[key]) else None
  }

  /** What the buyer record's PATCH answers once the client has handled
      HTTP errors: a JSON object (a rejected field comes back as an `errors`
      object) or a 412 for a stale If-Match etag. */
  datatype PatchReply = Patched(obj: Obj) | PreconditionFailed

  /** A patch reply as `change_pin` hands it back: the reply itself when it
      carries errors, else an empty object; a 412 raises `ResourceModified`. */
  function PatchOutcome(res: PatchReply): (r: Result<Obj>)
    ensures res == PreconditionFailed <==> r == Raise(ResourceModified)
    ensures res.Patched? && "errors" in res.obj ==> r == Ok(res.obj)
    ensures res.Patched? && "errors" !in res.obj ==> r == Ok(map[])
  {
    match res
    case PreconditionFailed => Raise(ResourceModified)
    case Patched(obj) => Ok(if "errors" in obj then obj else map[])
  }

  /** The Solitude client and the shared Django cache it writes: keys
      `etag:<uuid>` live in `etags`, keys `buyer:<etag>` in `buyers`. */
  class SolitudeClient {
    var etags: map<string, string>
    var buyers: map<string, Obj>

    /** A client over the shared cache as it currently stands: creating
        the client writes nothing to it. */
    constructor (cachedEtags: map<string, string>, cachedBuyers: map<string, Obj>)
      ensures etags == cachedEtags && buyers == cachedBuyers
    {
      etags := cachedEtags;
      buyers := cachedBuyers;
    }

    /** The cache after remembering `obj` for `uuid`: only an object carrying
        an etag is remembered. */
    ghost predicate Remembered(oldEtags: map<string, string>, oldBuyers: map<string, Obj>, uuid: string, obj: Obj)
      reads this
    {
      if "etag" in obj then etags == oldEtags[uuid := obj["etag"]] && buyers == oldBuyers[obj["etag"] := obj]
      else etags == oldEtags && buyers == oldBuyers
    }

    /** `create_buyer`: posts the payload and caches the answer by etag. */
    method CreateBuyer(uuid: string, pin: Option<string>, pinConfirmed: bool, post: BuyerPayload -> Obj)
      returns (obj: Obj)
      modifies this
      ensures obj == post(CreateBuyerPayload(uuid, pin, pinConfirmed))
      ensures Remembered(old(etags), old(buyers), uuid, obj)
      ensures "etag" in obj ==> etags[uuid] == obj["etag"] && buyers[etags[uuid]] == obj
    {
      obj := post(CreateBuyerPayload(uuid, pin, pinConfirmed));
      if "etag" in obj {
        etags := etags[uuid := obj["etag"]];
        buyers := buyers[obj["etag"] := obj];
      }
    }

    /** `get_buyer`: sends the cached etag (when `useEtags` and truthy) as
        If-None-Match. On "not modified" it answers from the cache, or asks
        again without etags; a fresh answer (or `{}` for a missing buyer) is
        cached by its etag. A second "not modified" without etags would repeat
        the same call forever: that is `RecursionError`. */
    method GetBuyer(uuid: string, useEtags: bool, fetch: Option<string> -> BuyerFetch) returns (r: Result<Obj>)
      modifies this
      decreases if useEtags then 1 else 0
      ensures var header := IfNoneMatch(CachedEtag(old(etags), uuid, useEtags));
        fetch(header).Fetched? ==> r == Ok(fetch(header).obj) && Remembered(old(etags), old(buyers), uuid, r.value)
      ensures var header := IfNoneMatch(CachedEtag(old(etags), uuid, useEtags));
        fetch(header) == DoesNotExist ==> r == Ok(map[]) && etags == old(etags) && buyers == old(buyers)
      ensures var etag := CachedEtag(old(etags), uuid, useEtags);
        var hit := CacheHit(old(buyers), EtagText(etag));
        fetch(IfNoneMatch(etag)) == NotModified && hit.Some? ==>
          r == Ok(hit.value) && etags == old(etags) && buyers == old(buyers)
      ensures var etag := CachedEtag(old(etags), uuid, useEtags);
        fetch(IfNoneMatch(etag)) == NotModified && CacheHit(old(buyers), EtagText(etag)).None? && !useEtags ==>
          r == Raise(RecursionError) && etags == old(etags) && buyers == old(buyers)
      ensures var etag := CachedEtag(old(etags), uuid, useEtags);
        fetch(IfNoneMatch(etag)) == NotModified && CacheHit(old(buyers), EtagText(etag)).None? && useEtags ==>
          match fetch(None)
          case Fetched(o) => r == Ok(o) && Remembered(old(etags), old(buyers), uuid, o)
          case DoesNotExist => r == Ok(map[]) && etags == old(etags) && buyers == old(buyers)
          case NotModified =>
            && etags == old(etags) && buyers == old(buyers)
            && r == (if CacheHit(old(buyers), "None").Some? then Ok(CacheHit(old(buyers), "None").value)
                     else Raise(RecursionError))
      ensures r.Raise? ==> r.exc == RecursionError && etags == old(etags) && buyers == old(buyers)
    {
      var etag: Option<string> := if useEtags && uuid in etags then Some(etags[uuid]) else None;
      var header := if Truthy(etag) then etag else None;
      var obj: Obj;
      match fetch(header) {
        case NotModified =>
          var key := EtagText(etag);
          if key in buyers && buyers[key] != map[] {
            return Ok(buyers[key]);
          }
          if useEtags {
            r := GetBuyer(uuid, false, fetch);
          } else {
            r := Raise(RecursionError);
          }
          return;
        case DoesNotExist =>
          obj := map[];
        case Fetched(o) =>
          obj := o;
      }
      if "etag" in obj {
        etags := etags[uuid := obj["etag"]];
        buyers := buyers[obj["etag"] := obj];
      }
      r := Ok(obj);
    }

    /** `change_pin`: looks the buyer up (through the cache) and patches the
        record named by its `resource_pk` with the PIN payload (a `None` PIN
        removes it); only a reply with errors is handed back, and a stale
        etag raises `ResourceModified`. */
    method ChangePin(uuid: string, pin: Option<string>, etag: string, pinConfirmed: bool, clearWasLocked: bool,
                     fetch: Option<string> -> BuyerFetch, patch: (Option<string>, PinPatch, string) -> PatchReply)
      returns (r: Result<Obj>)
      modifies this
      ensures var header := IfNoneMatch(CachedEtag(old(etags), uuid, true));
        fetch(header).Fetched? ==>
          var buyer := fetch(header).obj;
          && r == PatchOutcome(patch(Get(buyer, "resource_pk"), ChangePinPayload(pin, pinConfirmed, clearWasLocked), etag))
          && Remembered(old(etags), old(buyers), uuid, buyer)
      ensures var header := IfNoneMatch(CachedEtag(old(etags), uuid, true));
        fetch(header) == DoesNotExist ==>
          && r == PatchOutcome(patch(None, ChangePinPayload(pin, pinConfirmed, clearWasLocked), etag))
          && etags == old(etags) && buyers == old(buyers)
      ensures var cached := CachedEtag(old(etags), uuid, true);
        var hit := CacheHit(old(buyers), EtagText(cached));
        fetch(IfNoneMatch(cached)) == NotModified && hit.Some? ==>
          && r == PatchOutcome(patch(Get(hit.value, "resource_pk"), ChangePinPayload(pin, pinConfirmed, clearWasLocked), etag))
          && etags == old(etags) && buyers == old(buyers)
      ensures var cached := CachedEtag(old(etags), uuid, true);
        var payload := ChangePinPayload(pin, pinConfirmed, clearWasLocked);
        fetch(IfNoneMatch(cached)) == NotModified && CacheHit(old(buyers), EtagText(cached)).None? ==>
          match fetch(None)
          case Fetched(o) =>
            r == PatchOutcome(patch(Get(o, "resource_pk"), payload, etag)) && Remembered(old(etags), old(buyers), uuid, o)
          case DoesNotExist =>
            r == PatchOutcome(patch(None, payload, etag)) && etags == old(etags) && buyers == old(buyers)
          case NotModified =>
            && etags == old(etags) && buyers == old(buyers)
            && var hit := CacheHit(old(buyers), "None");
               r == (if hit.Some? then PatchOutcome(patch(Get(hit.value, "resource_pk"), payload, etag))
                     else Raise(RecursionError))
      ensures r.Raise? ==> r.exc == RecursionError || r.exc == ResourceModified
      ensures r == Raise(RecursionError) ==> etags == old(etags) && buyers == old(buyers)
      ensures r.Ok? ==> r.value == map[] || "errors" in r.value
    {
      var payload := ChangePinPayload(pin, pinConfirmed, clearWasLocked);
      var buyer := GetBuyer(uuid, true, fetch);
      if buyer.Raise? {
        return Raise(buyer.exc);
      }
      var id := Get(buyer.value, "resource_pk");
      r := PatchOutcome(patch(id, payload, etag));
    }
  }
}
