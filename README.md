# Blockthrough bid adapter, modelled in Dafny

This project models the Prebid.js bid adapter for Blockthrough (`modules/BTBidAdapter.js`). It covers:

- the bid-request validator;
- the three hooks the adapter gives Prebid's OpenRTB converter:
  - `imp` builds an impression;
  - `request` builds the outbound request;
  - `bidResponse` labels a bid with its seat;
- the two wrappers around the converter, `buildRequests` and `interpretResponse`;
- the user-sync builder `getUserSyncs`.

The project has three modules:

- `JsValues` (`js_values.dfy`) is the slice of JavaScript's object model the adapter relies on.
  - Every object is a heap `JsObject` with a mutable property map, so aliasing is real. The `delete blockthrough.auctionID` in `imp` is seen through the same object when `request` later stores it at `site.ext.blockthrough`.
  - `Descend` is one step of `deepSetValue`: an object already on the path is kept, and anything else is replaced by a new `{}`.
- `UrlSearchParams` (`url_search_params.dfy`) is the query of a `URL` object. It is an ordered list of name/value pairs, and `set` updates it in place by the URL Standard's rule: the first pair with the name takes the value, later ones are removed, and the pair is appended when there is none. The `.href` serialisation is a function supplied by the caller.
- `BTBidAdapter` (`bt_bid_adapter.dfy`) is the adapter itself.
  - The converter is not modelled. The objects it builds (`imp`, `request`, the bid response) are inputs of the hooks, and its `toORTB`/`fromORTB` entry points are function parameters of the wrappers.
  - `ImpThenRequest` runs the imp hook on the first bid and then the request hook. It states the property that comes from the two sharing one object: the promoted `site.ext.blockthrough` no longer carries the auctionID that `imp` moved into the impression.

The adapter's test file (`test/spec/modules/BTBidAdapte_spec.js`) is out of date with the adapter, and the contracts follow the adapter:

- Its lines 45-62 expect a bid without a `blockthrough` object to be valid, but the adapter's lines 107-113 reject it.
- Its line 91 expects `imp.ext` to lack `ab` and `siteId`, but line 41 copies every parameter except `blockthrough`.

## Model

| member | source | states |
|---|---|---|
| BTBidAdapter.IsBidRequestValid | modules/BTBidAdapter.js:106-131 | A nullish `params` throws a TypeError. Otherwise the bid is accepted iff `params.blockthrough` is an object with at least one key, `orgID` and `websiteID` are non-empty strings and `ab` is a boolean. A rejection names the first failing guard, in the order blockthrough, orgID, websiteID, ab, and logs exactly one warning; acceptance logs none. |
| BTBidAdapter.ValidBidHasBlockthroughObject | modules/BTBidAdapter.js:107-113 | An accepted bid has an object `params.blockthrough` with at least one key, which is what `imp` reads at line 44. |
| BTBidAdapter.Imp | modules/BTBidAdapter.js:36-58 | When `params` is truthy, `imp.ext` becomes a new object holding `params` without `blockthrough`. A truthy `blockthrough.auctionID` is moved to a new `ext.prebid.blockthrough` chain and deleted from the shared blockthrough object, which keeps every other key. `gpid` is set iff `ortb2Imp?.ext.gpid` is truthy. Nothing else in `imp` changes, and the hook throws exactly when `ortb2Imp` is present without an `ext`. |
| BTBidAdapter.MoveBlockthroughParams | modules/BTBidAdapter.js:40-51 | The new `imp.ext` equals `params` minus `blockthrough`, plus `prebid.blockthrough.auctionID` when the auctionID is truthy. The blockthrough object loses exactly `auctionID` in that case and is unchanged otherwise. |
| BTBidAdapter.CopyGpid | modules/BTBidAdapter.js:53-55 | `imp.gpid` is set to `ortb2Imp.ext.gpid` iff that is truthy. The step throws iff `ortb2Imp` is present and its `ext` is null or undefined. |
| BTBidAdapter.Request | modules/BTBidAdapter.js:69-82 | When the first bid has truthy params, `site.ext.blockthrough` is that bid's `params.blockthrough` value, by reference. Existing `site`/`site.ext` objects are kept with their other keys, and missing ones are created empty. `test` becomes 1 exactly when debug is on. Nothing else in the request changes; when nothing is promoted, `site` and `site.ext` keep their contents too. |
| BTBidAdapter.ImpThenRequest | modules/BTBidAdapter.js:44-50 | After `imp` on the first bid and then `request`, `site.ext.blockthrough` is the first bid's own blockthrough object. That object has lost a truthy `auctionID` and keeps everything else, so it has no truthy auctionID left. If `imp` throws, no request is built. |
| BTBidAdapter.BidResponse | modules/BTBidAdapter.js:92-98 | `btBidderCode` becomes `context.seatbid.seat`, or undefined when `seatbid` is falsy. Nothing else in the bid response changes. |
| BTBidAdapter.BuildRequests | modules/BTBidAdapter.js:140-154 | The result is exactly one descriptor: a POST to `ENDPOINT_URL` with the converter's request as `data` and the input bids as `bids`. |
| BTBidAdapter.InterpretResponse | modules/BTBidAdapter.js:163-172 | The result is no bids when the server response or the request is missing. Otherwise it is the converter's bids for the response body against the request's data. |
| BTBidAdapter.InterpretBuiltRequest | modules/BTBidAdapter.js:140-172 | Interpreting a response to the descriptor `buildRequests` made hands the converter exactly the request `toORTB` built. |
| BTBidAdapter.GetUserSyncs | modules/BTBidAdapter.js:184-211 | With iframes disabled there are no syncs, whatever the consents. Otherwise there is exactly one iframe sync, whose URL is `SYNC_URL` with the query that the `searchParams.set` calls build, `SyncQuery`. |
| BTBidAdapter.SyncQueryKey | modules/BTBidAdapter.js:195-205 | For every name, the values the sync query holds under it are those `SyncValues` reads off the consents. Any name other than the five sync keys has no value. |
| BTBidAdapter.SyncQueryValues | modules/BTBidAdapter.js:195-205 | `gdpr` is "1", "0" or "NaN" (for `Number(gdprApplies)`) and `gdpr_consent` is the consent string, once each, when there is a GDPR consent. `gpp` and `gpp_sid` (the sections joined by commas) appear once each when there is a GPP consent. `us_privacy` appears once when the US privacy string is non-empty. |
| BTBidAdapter.SyncQueryNames | modules/BTBidAdapter.js:195-205 | `gdpr` and `gdpr_consent` are present iff there is a GDPR consent, `gpp` and `gpp_sid` iff there is a GPP consent, and `us_privacy` iff the US privacy string is non-empty. An empty string omits it. |
| BTBidAdapter.SyncQueryOrder | modules/BTBidAdapter.js:195-205 | The names of the query come in the order gdpr, gdpr_consent, gpp, gpp_sid, us_privacy, none twice, and no other name appears. |
| BTBidAdapter.SyncQuerySplit | modules/BTBidAdapter.js:195-205 | The values of a name in the query are those of the GDPR group, then the GPP group, then the US privacy group. |
| BTBidAdapter.HasNameValues | modules/BTBidAdapter.js:195-205 | A name is in the query iff it has at least one value there. |
| UrlSearchParams.SearchParams.Set | modules/BTBidAdapter.js:196-204 | The in-place `searchParams.set` leaves exactly the list that `SetParam` describes (collapse onto the first pair with the name, or append). |
| UrlSearchParams.SetParamValue | modules/BTBidAdapter.js:196-204 | After `set(n, v)` the name `n` has exactly one value, `v`. |
| UrlSearchParams.SetParamOthers | modules/BTBidAdapter.js:196-204 | `set(n, v)` keeps every pair with another name, in the same order. |
| UrlSearchParams.CollapseValues | modules/BTBidAdapter.js:196-204 | Collapsing onto an existing name leaves one pair with that name, holding the new value. |
| UrlSearchParams.CollapseOthers | modules/BTBidAdapter.js:196-204 | Collapsing onto a name keeps the pairs with other names, in order. |
| JsValues.Descend | modules/BTBidAdapter.js:45-49 | One step of `deepSetValue` keeps an object already under the key. Otherwise it stores a new empty object there and enters it. |

## Left out

- The converter itself (`ortbConverter`, `buildImp`, `buildRequest`, `buildBidResponse`, `toORTB`, `fromORTB`) is a library not shown here. Its products are inputs, and its entry points are function parameters.
- The converter's context (`netRevenue`, `ttl`, lines 18-26) is only passed through by the converter, so it is left out.
- The converter's loop over bids is left out: `ImpThenRequest` runs the imp hook on the first bid only, the one whose blockthrough object is promoted.
- `registerBidder`, the `spec` export, `BIDDER_CODE`, `GVLID` and the media types are framework registration.
- `config.getConfig('debug')` becomes the `debug` argument, as a truth value. `logWarn` becomes the warning in the validator's result.
- Neither the parsing of `SYNC_URL` nor the percent-encoding and `.href` serialisation of the URL is modelled. `.href` is the `serialize` parameter applied to the base and the ordered pairs.
- `Number`/`String` coercion is modelled only as the adapter meets it:
  - `gdprApplies` is a boolean or undefined;
  - `consentString` and `gppString` are strings or undefined;
  - `applicableSections` is an integer array or undefined.
- Numbers are mathematical reals, with no NaN or infinities. Only their truthiness and identity matter to the adapter.
- Arrays are immutable values, because the adapter never changes one.
- `deepSetValue`'s guard against `__proto__` and `constructor` keys is not modelled; the adapter's paths are fixed and contain neither.
- A null or an array on a `deepSetValue` path (`site`, `site.ext`, `imp.ext.prebid`) is excluded by the requires of `Request` and `Descend`. There the library would throw or write into the array. `Request` also requires that the objects on the `site.ext` path be three different ones: `site` is not `request`, and `site.ext` is neither of them. The adapter does not need this, so a request that is its own `site` is not covered.
- Imp: requires that `params.prebid` be absent or a primitive when `blockthrough.auctionID` is truthy, so that the path `ext.prebid.blockthrough` is always built from new objects. When it is an object, `deepSetValue` would write the auctionID into the caller's own `params.prebid`. Bids with a falsy auctionID may carry any `params.prebid`.
- Imp: requires that truthy `params` be an object and that its `blockthrough` be an object. This is what the validator ensures. The TypeError of line 44 when `blockthrough` is missing is not modelled.
- InterpretResponse: the server response and the request are present or absent. A present but falsy primitive is not modelled.
- GetUserSyncs: `syncOptions.iframeEnabled` is a boolean. `serverResponses` is unused by the adapter and is left out.
