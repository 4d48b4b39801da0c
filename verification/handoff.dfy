/** Properties of the two-phase protocol: what the server render stores is
    what the client boot consumes, once. The transfer of the server's
    `fastbootDataRequests` into the client's shoebox happens outside the mixin
    and is modelled by `ClientBoot`. */
module Handoff {
  import opened Common
  import opened JsValues
  import opened Collaborators
  import opened Exclusion
  import opened FastbootAdapter

  /** The client boot after a server render that finished in `server`: the
      fastboot service reports the client side and its shoebox carries the
      server's cache as `queries`. */
  function ClientBoot(server: State, clientRequests: map<string, string>): (st: State)
    ensures !IsFastBoot(st)
    ensures forall k :: Boxed(st, k) == if k in server.fastbootDataRequests then Some(server.fastbootDataRequests[k]) else None
  {
    State(Some(FastbootService(false, Some(server.fastbootDataRequests))), clientRequests)
  }

  /** A fulfilled request on the server stores its response; after the
      handoff, the same request on the client is answered from the box with
      the original response, without reaching the network, and consumes it. */
  lemma ServerStoreClientHit(
    h: Host, cfg: Config, server: State, url: string, requestType: string, params: Value,
    response: Value, clientRequests: map<string, string>, clientBase: Settlement)
    requires IsFastBoot(server)
    requires IsExclusion(h, url, cfg.excludeFromFastbootCache) == Success(false)
    requires h.stringify(response) != ""
    requires h.parse(h.stringify(response)) == Some(response)
    ensures
      var s := Ajax(h, cfg, server, url, requestType, params, Fulfilled(response));
      var c := Ajax(h, cfg, ClientBoot(s.state, clientRequests), url, requestType, params, clientBase);
      && s.requested && s.outcome == Settled(Fulfilled(response))
      && !c.requested && c.outcome == Settled(Fulfilled(response))
      && Boxed(c.state, KeyOf(h, cfg, requestType, url, params)) == None
  {
  }

  /** Consume-once: whatever the first call on the client did, a second
      identical call finds nothing in the box and issues the base request. */
  lemma ClientConsumesOnce(
    h: Host, cfg: Config, st: State, url: string, requestType: string, params: Value,
    first: Settlement, second: Settlement)
    requires !IsFastBoot(st)
    requires !ExcludeListThrows(h, cfg)
    ensures
      var c1 := Ajax(h, cfg, st, url, requestType, params, first);
      var c2 := Ajax(h, cfg, c1.state, url, requestType, params, second);
      c2.requested && c2.outcome == Settled(second) && c2.state.fastbootDataRequests == st.fastbootDataRequests
  {
  }

  /** An excluded URL is never written on the server, so a key the server
      cache did not already hold is still absent on the client. */
  lemma ExcludedNeverHandedOff(
    h: Host, cfg: Config, server: State, url: string, requestType: string, params: Value,
    response: Value, clientRequests: map<string, string>, clientBase: Settlement)
    requires IsExclusion(h, url, cfg.excludeFromFastbootCache) == Success(true)
    requires KeyOf(h, cfg, requestType, url, params) !in server.fastbootDataRequests
    ensures
      var s := Ajax(h, cfg, server, url, requestType, params, Fulfilled(response));
      var c := Ajax(h, cfg, ClientBoot(s.state, clientRequests), url, requestType, params, clientBase);
      && s.state.fastbootDataRequests == server.fastbootDataRequests
      && c.requested && c.outcome == Settled(clientBase)
  {
  }

  /** Outside fastboot both halves are inert: nothing is read from or written
      to any box, and the caller sees the base request's settlement, unless
      the exclusion list itself throws. */
  lemma NoFastbootIsInert(
    h: Host, cfg: Config, st: State, url: string, requestType: string, params: Value, base: Settlement)
    requires st.fastboot == None
    ensures
      var c := Ajax(h, cfg, st, url, requestType, params, base);
      && c.state == st
      && (c.requested <==> !ExcludeListThrows(h, cfg))
      && (c.requested ==> c.outcome == Settled(base))
  {
  }

  /** The server render never answers from the box: every call that does not
      throw issues the base request, and the box is left alone. */
  lemma ServerAlwaysRequests(
    h: Host, cfg: Config, st: State, url: string, requestType: string, params: Value, base: Settlement)
    requires IsFastBoot(st)
    requires !ExcludeListThrows(h, cfg)
    ensures
      var c := Ajax(h, cfg, st, url, requestType, params, base);
      c.requested && c.outcome == Settled(base) && c.state.fastboot == st.fastboot
  {
  }

  /** The hit test is JavaScript truthiness: an entry holding "" is removed
      from the box like any other, yet the request still goes to the base
      adapter. */
  lemma EmptyPayloadConsumedButMissed(
    h: Host, cfg: Config, st: State, url: string, requestType: string, params: Value, base: Settlement)
    requires !ExcludeListThrows(h, cfg)
    requires Boxed(st, KeyOf(h, cfg, requestType, url, params)) == Some("")
    ensures
      var c := Ajax(h, cfg, st, url, requestType, params, base);
      && c.requested && c.outcome == Settled(base)
      && Boxed(c.state, KeyOf(h, cfg, requestType, url, params)) == None
  {
  }

  /** The store decision depends on the URL alone: requests that differ only
      in type, parameters or extra key properties are written alike. */
  lemma ExclusionIgnoresKeyComponents(
    h: Host, cfg1: Config, cfg2: Config, st: State, url: string,
    type1: string, type2: string, params1: Value, params2: Value)
    requires cfg1.excludeFromFastbootCache == cfg2.excludeFromFastbootCache
    requires !ExcludeListThrows(h, cfg1)
    ensures MakeBoxer(h, cfg1, st, type1, url, params1).value.includeInCache
      == MakeBoxer(h, cfg2, st, type2, url, params2).value.includeInCache
  {
  }

  /** Two fulfilled server requests with the same key: the later response
      overwrites the earlier one in the cache. */
  lemma ServerOverwrites(
    h: Host, cfg: Config, st: State, url: string, requestType: string, params: Value,
    first: Value, second: Value)
    requires IsFastBoot(st)
    requires IsExclusion(h, url, cfg.excludeFromFastbootCache) == Success(false)
    ensures
      var s1 := Ajax(h, cfg, st, url, requestType, params, Fulfilled(first));
      var s2 := Ajax(h, cfg, s1.state, url, requestType, params, Fulfilled(second));
      s2.state.fastbootDataRequests ==
        st.fastbootDataRequests[KeyOf(h, cfg, requestType, url, params) := h.stringify(second)]
  {
  }

}
