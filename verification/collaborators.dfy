/** The collaborators of the fastboot adapter whose code lies outside the mixin:
    the storefront key utilities, the JavaScript RegExp engine and the JSON
    codec. Each is an arbitrary total function, so every result proved about
    the adapter holds for every implementation of them. */
module Collaborators {
  import opened Common
  import opened JsValues

  datatype Host = Host(
    /** `cacheKey([type, url, params, extra])` from the storefront utilities. */
    cacheKey: seq<Value> -> string,
    /** `shoeboxize(key)`: turns a cache key into a shoebox property name. */
    shoeboxize: string -> string,
    /** Whether `new RegExp(pattern)` succeeds instead of throwing. */
    regexCompiles: string -> bool,
    /** `new RegExp(pattern).test(url)`, meaningful when the pattern compiles. */
    regexTest: (string, string) -> bool,
    /** `JSON.stringify(response)`. */
    stringify: Value -> string,
    /** `JSON.parse(text)`; `None` when it throws. */
    parse: string -> Option<Value>
  )

  /** The shoebox key of a request, computed identically by the server-side
      store and the client-side retrieve. */
  function DeriveKey(h: Host, requestType: string, url: string, params: Value, extra: Value): string
  {
    h.shoeboxize(h.cacheKey([Str(requestType), Str(url), params, extra]))
  }

}
