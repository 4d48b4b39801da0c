/** The fastboot adapter mixin: the client-side consume-once lookup
    (`_getStorefrontBoxedQuery`), the server-side store continuation
    (`_makeStorefrontQueryBoxer`) and the `ajax` override that joins them.
    Framework services are passed in as explicit state. */
module FastbootAdapter {
  import opened Common
  import opened JsValues
  import opened Collaborators
  import opened Exclusion

  /** The fastboot service: whether this is the server render, and the
      `queries` map of the shoebox's 'ember-data-storefront' entry (`None`
      when the shoebox, that entry or its `queries` is missing). */
  datatype FastbootService = FastbootService(isFastBoot: bool, queries: Option<map<string, string>>)

  /** What the adapter reads and writes: the fastboot service, absent outside
      a fastboot-aware app, and the storefront's `fastbootDataRequests`, the
      server-side cache that is later shipped to the client. */
  datatype State = State(fastboot: Option<FastbootService>, fastbootDataRequests: map<string, string>)

  /** The adapter's own configuration, read on every call: the value of
      `extraCacheKeyProps()` (`Undefined` when the hook is absent) and
      `excludeFromFastbootCache`. */
  datatype Config = Config(extraCacheKeyProps: Value, excludeFromFastbootCache: ExcludeList)

  /** `fastboot && fastboot.get('isFastBoot')`. */
  predicate IsFastBoot(st: State)
  {
    st.fastboot.Some? && st.fastboot.value.isFastBoot
  }

  /** The lookup guard: on the client, with a box whose `queries` is non-empty. */
  predicate ConsultsBox(st: State)
  {
    && st.fastboot.Some?
    && !st.fastboot.value.isFastBoot
    && st.fastboot.value.queries.Some?
    && |st.fastboot.value.queries.value| > 0
  }

  /** The entry the client would find under `key`, if it looked. */
  function Boxed(st: State, key: string): Option<string>
  {
    if ConsultsBox(st) && key in st.fastboot.value.queries.value
    then Some(st.fastboot.value.queries.value[key])
    else None
  }

  /** JavaScript truthiness of a looked-up payload: `undefined` and "" are falsy. */
  predicate IsHit(payload: Option<string>)
  {
    payload.Some? && payload.value != ""
  }

  /** The key of a request under this configuration. */
  function KeyOf(h: Host, cfg: Config, requestType: string, url: string, params: Value): string
  {
    DeriveKey(h, requestType, url, params, cfg.extraCacheKeyProps)
  }

  /** `excludeFromFastbootCache` makes `_isExclusion` throw. */
  predicate ExcludeListThrows(h: Host, cfg: Config)
  {
    cfg.excludeFromFastbootCache.Entries? && SomeEntryMalformed(h, cfg.excludeFromFastbootCache.entries)
  }

  /** `url` is matched by an entry of `excludeFromFastbootCache`. */
  predicate Excluded(h: Host, cfg: Config, url: string)
  {
    cfg.excludeFromFastbootCache.Entries? && SomeEntryMatches(h, cfg.excludeFromFastbootCache.entries, url)
  }

  datatype Lookup = Lookup(payload: Option<string>, state: State)

  /** `_getStorefrontBoxedQuery`: on the client, take the entry for the
      request's key out of the box and return it. Anywhere else it is a no-op
      returning `undefined`. */
  function BoxedQuery(h: Host, cfg: Config, st: State, requestType: string, url: string, params: Value): (r: Lookup)
    ensures r.payload == Boxed(st, KeyOf(h, cfg, requestType, url, params))
    ensures r.state.fastbootDataRequests == st.fastbootDataRequests
    ensures IsFastBoot(r.state) == IsFastBoot(st)
    ensures !ConsultsBox(st) ==> r.state == st
    ensures ConsultsBox(st) ==>
      var key := KeyOf(h, cfg, requestType, url, params);
      var q := st.fastboot.value.queries.value;
      && r.state.fastboot.Some? && r.state.fastboot.value.queries.Some?
      && var q' := r.state.fastboot.value.queries.value;
      && key !in q'
      && forall k :: k != key ==> (k in q' <==> k in q) && (k in q' ==> q'[k] == q[k])
    ensures Boxed(r.state, KeyOf(h, cfg, requestType, url, params)) == None
    ensures forall k :: k != KeyOf(h, cfg, requestType, url, params) ==> Boxed(r.state, k) == Boxed(st, k)
  {
    if ConsultsBox(st) then
      var fb := st.fastboot.value;
      var q := fb.queries.value;
      var key := KeyOf(h, cfg, requestType, url, params);
      var payload := if key in q then Some(q[key]) else None;
      Lookup(payload, st.(fastboot := Some(fb.(queries := Some(q - {key})))))
    else
      Lookup(None, st)
  }

  /** What `_makeStorefrontQueryBoxer` captures when the request starts. */
  datatype Boxer = Boxer(
    isFastBoot: bool,
    includeInCache: bool,
    requestType: string,
    url: string,
    params: Value,
    extra: Value)

  /** `_makeStorefrontQueryBoxer`: reads the server flag and decides
      exclusion from the URL alone. `_isExclusion` runs on the client too, so
      a malformed pattern throws there as well. */
  function MakeBoxer(h: Host, cfg: Config, st: State, requestType: string, url: string, params: Value): (r: Result<Boxer, string>)
    ensures r.Failure? <==> ExcludeListThrows(h, cfg)
    ensures r.Success? ==> r.value.isFastBoot == IsFastBoot(st)
    ensures r.Success? ==> (r.value.includeInCache <==> !Excluded(h, cfg, url))
    ensures r.Success? ==>
      DeriveKey(h, r.value.requestType, r.value.url, r.value.params, r.value.extra)
        == KeyOf(h, cfg, requestType, url, params)
  {
    match IsExclusion(h, url, cfg.excludeFromFastbootCache)
    case Failure(pattern) => Failure(pattern)
    case Success(excluded) =>
      Success(Boxer(IsFastBoot(st), !excluded, requestType, url, params, cfg.extraCacheKeyProps))
  }

  /** Whether a boxer writes the response it is handed. */
  predicate Writes(b: Boxer)
  {
    b.isFastBoot && b.includeInCache
  }

  datatype Passed = Passed(response: Value, state: State)

  /** The continuation returned by `_makeStorefrontQueryBoxer`: on the server,
      for a URL that is not excluded, it stores the serialized response under
      the request's key, overwriting any earlier entry. The response is always
      handed on unchanged. */
  function Continue(h: Host, b: Boxer, st: State, response: Value): (r: Passed)
    ensures r.response == response
    ensures r.state.fastboot == st.fastboot
    ensures !Writes(b) ==> r.state == st
    ensures
      var key := DeriveKey(h, b.requestType, b.url, b.params, b.extra);
      var c := st.fastbootDataRequests;
      var c' := r.state.fastbootDataRequests;
      && (Writes(b) ==> key in c' && c'[key] == h.stringify(response))
      && forall k :: k != key ==> (k in c' <==> k in c) && (k in c' ==> c'[k] == c[k])
  {
    if Writes(b) then
      var key := DeriveKey(h, b.requestType, b.url, b.params, b.extra);
      Passed(response, st.(fastbootDataRequests := st.fastbootDataRequests[key := h.stringify(response)]))
    else
      Passed(response, st)
  }

  /** How the request made by the base adapter settles. */
  datatype Settlement = Fulfilled(value: Value) | Rejected(reason: Value)

  /** Errors `ajax` throws before any promise exists. */
  datatype AjaxError = PatternError(pattern: string) | ParseError(payload: string)

  datatype Outcome = Threw(error: AjaxError) | Settled(settlement: Settlement)

  /** The result of `ajax`: its outcome, the state afterwards, and whether the
      base adapter's request was issued. */
  datatype Call = Call(outcome: Outcome, state: State, requested: bool)

  /** `ajax(url, type, options)`: consult the box, build the boxer, then
      either answer from the box or issue the base request (whose settlement
      is `base`) and pass its response through the boxer. */
  function Ajax(h: Host, cfg: Config, st: State, url: string, requestType: string, params: Value, base: Settlement): (r: Call)
    ensures r.outcome.Threw? && r.outcome.error.PatternError? <==> ExcludeListThrows(h, cfg)
    ensures r.requested <==>
      !ExcludeListThrows(h, cfg) && !IsHit(Boxed(st, KeyOf(h, cfg, requestType, url, params)))
    ensures r.requested ==> r.outcome == Settled(base)
    ensures !r.requested && !ExcludeListThrows(h, cfg) ==>
      var text := Boxed(st, KeyOf(h, cfg, requestType, url, params)).value;
      r.outcome == match h.parse(text)
        case None => Threw(ParseError(text))
        case Some(v) => Settled(Fulfilled(v))
    ensures IsFastBoot(r.state) == IsFastBoot(st)
    ensures Boxed(r.state, KeyOf(h, cfg, requestType, url, params)) == None
    ensures forall k :: k != KeyOf(h, cfg, requestType, url, params) ==> Boxed(r.state, k) == Boxed(st, k)
    ensures r.state.fastbootDataRequests ==
      if r.requested && base.Fulfilled? && IsFastBoot(st) && !Excluded(h, cfg, url)
      then st.fastbootDataRequests[KeyOf(h, cfg, requestType, url, params) := h.stringify(base.value)]
      else st.fastbootDataRequests
  {
    var lookup := BoxedQuery(h, cfg, st, requestType, url, params);
    match MakeBoxer(h, cfg, lookup.state, requestType, url, params)
    case Failure(pattern) => Call(Threw(PatternError(pattern)), lookup.state, false)
    case Success(boxer) =>
      if IsHit(lookup.payload) then
        var text := lookup.payload.value;
        match h.parse(text)
        case None => Call(Threw(ParseError(text)), lookup.state, false)
        case Some(v) => Call(Settled(Fulfilled(v)), lookup.state, false)
      else
        match base
        case Rejected(reason) => Call(Settled(Rejected(reason)), lookup.state, true)
        case Fulfilled(response) =>
          var passed := Continue(h, boxer, lookup.state, response);
          Call(Settled(Fulfilled(passed.response)), passed.state, true)
  }

}
