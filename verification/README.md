# Fastboot adapter cache handoff, modelled in Dafny

The `FastbootAdapter` mixin of ember-data-storefront lets a data adapter reuse
responses fetched during the server (fastboot) render when the client boots.

- **Server render.** Every fulfilled `ajax` response is serialized into the
  storefront's `fastbootDataRequests` cache. The key is derived from
  `(type, url, params, extraCacheKeyProps())`. URLs matched by
  `excludeFromFastbootCache` are not written.
- **Client boot.** That cache arrives as the shoebox's `queries`. Before
  issuing a request, `ajax` removes the entry under the request's key. If the
  entry is truthy, `ajax` answers with the parsed payload and does not issue
  the request.

The model is functional: the fastboot service and the server cache form an
immutable `State`, and each operation returns its result together with the
new state. The collaborators outside the mixin are the fields of a `Host`
record: `cacheKey`, `shoeboxize`, RegExp construction and testing,
`JSON.stringify` and `JSON.parse`. Each is an arbitrary total function, so
every property holds for every implementation of them that never derives a key
naming an `Object.prototype` member (see "## Left out").

Files:
- `common.dfy` holds `Option` and `Result`.
- `js_values.dfy` holds the JavaScript values.
- `collaborators.dfy` holds `Host` and the key derivation.
- `exclusion.dfy` models `_isExclusion`.
- `fastboot_adapter.dfy` models `_getStorefrontBoxedQuery`, `_makeStorefrontQueryBoxer`, its continuation and `ajax`.
- `handoff.dfy` holds the properties of the server-to-client protocol.

Several behaviours of the code are easy to misread; the model follows the code:
- **Truthiness.** A hit is a *truthy* payload. An entry holding `""` is removed from the box, yet the request still goes to the network (`Handoff.EmptyPayloadConsumedButMissed`).
- **Every RegExp is built.** The reduce builds the RegExp of every `/…/` entry before it consults the accumulated result. A malformed pattern therefore throws even when an earlier entry already matched.
- **Exclusion runs on every call.** `_isExclusion` runs in `_makeStorefrontQueryBoxer` on every `ajax` call, including on the client. So a malformed pattern makes `ajax` throw on the client too.
- **The box is consumed before the throw.** `ajax` consumes the box entry before that throw.
- **`type` is the `ajax` argument.** The first key component is the `type` argument of `ajax(url, type, options)`. In an ember-data adapter that is the HTTP method, not a model name.
- **Delimited literals are patterns.** A literal URL that begins and ends with `/` is treated as a pattern, and so is the one-character entry `"/"`.

## Model

| member | source | states |
|---|---|---|
| Exclusion.Interior | addon/mixins/fastboot-adapter.js:78-81 | the pattern is the entry with its delimiting slashes removed; for the one-character entry "/" it is empty |
| Exclusion.Reduce | addon/mixins/fastboot-adapter.js:77-87 | the left fold throws iff some delimited entry's pattern fails to compile, reporting the first such pattern; otherwise it yields the seed OR'ed with "some entry matches the URL" (pattern test for `/…/` entries, string equality for the rest) |
| Exclusion.IsExclusion | addon/mixins/fastboot-adapter.js:73-88 | a non-array list and the empty list exclude nothing; otherwise the verdict is true iff some entry matches, and the call throws iff some pattern is malformed |
| Exclusion.PermutationInvariant | addon/mixins/fastboot-adapter.js:77-87 | reordering the entries changes neither whether the matcher throws nor its verdict |
| Exclusion.Concatenation | addon/mixins/fastboot-adapter.js:77-87 | the verdict on a concatenated list is the OR of the verdicts on its parts, and it throws iff either part throws |
| Exclusion.SlashEntryIsEmptyPattern | addon/mixins/fastboot-adapter.js:78-82 | the entry "/" is tested as a regular expression with an empty pattern |
| Exclusion.LiteralEntryIsExact | addon/mixins/fastboot-adapter.js:84-86 | an undelimited entry (including "") excludes exactly the URL equal to it |
| Exclusion.ExampleConfiguration | addon/mixins/fastboot-adapter.js:77-87 | with a literal "/posts/1" and the pattern entry "/^\/users\//", "/posts/1" and "/users/42" are excluded and "/comments/1" is not |
| FastbootAdapter.IsFastBoot | addon/mixins/fastboot-adapter.js:41-42 | definition; no contract: the server flag is set only when the fastboot service exists and reports `isFastBoot` |
| FastbootAdapter.ConsultsBox | addon/mixins/fastboot-adapter.js:58-64 | definition; no contract: the box is consulted only off the server, with a shoebox `queries` that has at least one key |
| FastbootAdapter.IsHit | addon/mixins/fastboot-adapter.js:35 | definition; no contract: a looked-up payload is a hit when it is defined and not the empty string (JavaScript truthiness) |
| Collaborators.DeriveKey | addon/mixins/fastboot-adapter.js:48 | definition; no contract: the key is `shoeboxize(cacheKey([type, url, params, extra]))`, the same function on both sides |
| FastbootAdapter.BoxedQuery | addon/mixins/fastboot-adapter.js:56-71 | on the client with a non-empty box it returns the entry under the request's key and removes exactly that key, leaving every other entry; otherwise it returns nothing and changes nothing; the server cache is never touched |
| FastbootAdapter.MakeBoxer | addon/mixins/fastboot-adapter.js:40-45 | the boxer captures the server flag and an inclusion decision that holds iff no exclusion entry matches the URL; it throws iff the exclusion list has a malformed pattern; it writes under the same key the lookup reads |
| FastbootAdapter.Continue | addon/mixins/fastboot-adapter.js:46-53 | the continuation returns its response unchanged; on the server for an included URL it stores the serialized response under the key, overwriting; no other key ever changes, and otherwise the state is untouched |
| FastbootAdapter.Ajax | addon/mixins/fastboot-adapter.js:31-38 | the base request is issued iff the exclusion list does not throw and the box holds no truthy entry for the key; then the caller sees exactly the base settlement; on a hit it sees the parsed payload (or a parse error); the key is consumed from the box; the cache gains the serialized response iff a fulfilled request was issued on the server for an unexcluded URL |
| Handoff.ClientBoot | addon/mixins/fastboot-adapter.js:58-64 | the client state after the handoff is not fastboot, and its box holds exactly the server cache's entries |
| Handoff.ServerStoreClientHit | addon/mixins/fastboot-adapter.js:31-71 | a response stored on the server is, after the handoff, returned to the identical client request without a network request, and removed from the box |
| Handoff.ClientConsumesOnce | addon/mixins/fastboot-adapter.js:64-67 | a second identical client call always misses and issues the base request |
| Handoff.ExcludedNeverHandedOff | addon/mixins/fastboot-adapter.js:45-50 | an excluded URL leaves the server cache unchanged, so the client misses for a key the cache did not already hold |
| Handoff.NoFastbootIsInert | addon/mixins/fastboot-adapter.js:58-64 | without the fastboot service the state is unchanged and the caller sees the base settlement (unless the exclusion list throws) |
| Handoff.ServerAlwaysRequests | addon/mixins/fastboot-adapter.js:59-64 | on the server the box is never consulted and every non-throwing call issues the base request |
| Handoff.EmptyPayloadConsumedButMissed | addon/mixins/fastboot-adapter.js:35-37 | an empty-string entry is removed from the box but counts as a miss |
| Handoff.ExclusionIgnoresKeyComponents | addon/mixins/fastboot-adapter.js:44-48 | the store decision depends only on the URL and the exclusion list, not on type, params or extra key properties |
| Handoff.ServerOverwrites | addon/mixins/fastboot-adapter.js:47-49 | a later server response for the same key overwrites the earlier cache entry |

## Left out

- Ember plumbing is left out: `Mixin.create`, the `fastboot` and `storefront` service injections and `this.get` lookups. The services appear as explicit `State`.
- RSVP promises and the `_super` chain are left out. The base request is represented by its settlement value, and `requested` records whether it was issued.
- `cacheKey` and `shoeboxize` are not part of this model. They are uninterpreted total functions: the model assumes neither injectivity nor insensitivity to property order, and an encoding error they might throw is not modelled.
- JavaScript RegExp semantics are left out. Compilation and testing are uninterpreted, and the example configuration takes the pattern's behaviour as a hypothesis.
- `JSON.stringify` and `JSON.parse` are uninterpreted. The round-trip lemma assumes `parse(stringify(response)) == response` and a non-empty serialization for that one response. `JSON.stringify` returning `undefined` is not modelled.
- The transfer of the server cache into the client shoebox happens outside the mixin. `Handoff.ClientBoot` stands in for it.
- FastbootAdapter.BoxedQuery: the shoebox `queries` is a plain JavaScript object, not a map. The model assumes no derived key names an `Object.prototype` member (`"constructor"`, `"toString"`, ...). For such a key, `box.queries[key]` yields the inherited function and `delete` removes nothing, so `ajax` would go on to throw a SyntaxError from `JSON.parse`. The model instead reports a miss.
- FastbootAdapter.Continue: `fastbootDataRequests` is a plain JavaScript object, not a map. The model assumes no derived key is `"__proto__"`, whose assignment JavaScript silently ignores; the model stores it.
- FastbootAdapter.MakeBoxer: the model reads `extraCacheKeyProps()` once per call and fixes the key when the request starts. The code calls the hook twice (lines 44 and 62) and derives the store key when the response settles (line 48), from the captured `params` and extra-properties references. "Writes under the same key the lookup reads" therefore assumes a hook that returns equal values on both calls, and objects that are not mutated while the request is in flight.
- FastbootAdapter.Ajax: each call is modelled as one atomic step, from lookup to store. Overlapping requests write the cache in settlement order, so "later" in `Handoff.ServerOverwrites` means later settlement. `ajax(url, type, null)` throws a TypeError at `options.data`, because the `= {}` default replaces only `undefined`; the model takes the request parameters as a value and does not represent a `null` options argument.
- Exclusion-list entries that are not strings are left out. They could only fail to match or throw a TypeError.
- A missing shoebox, a missing 'ember-data-storefront' entry and a missing `queries` are all represented by `queries: None`, because the code treats them alike.
- Numbers are integers. Floating point plays no part in the adapter's logic.
