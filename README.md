# hmall gateway core, modelled in Dafny

A model of the logic at the edge of the hmall micro-service shop: the gateway's dynamic
route loader, its global authorization filter and the token check behind it, the cart
service's admission-control hooks (URL cleaner, origin parser, 429 handler), and the
item client's fallback policy. Spring, Nacos, Reactor, fastjson, hutool's JWT library
and Sentinel are collaborators; where the code calls them, the model takes them as
oracles (function-valued parameters or fields).

Files and modules:

- `wrappers.dfy` — `Wrappers`: `Option` (Java `null`) and `Result` (a thrown exception).
- `java_long.dfy` — `JavaLong`: `Long.parseLong` with radix 10 and `Long.toString`, with the
  round trip in both directions.
- `jwt_tool.dfy` — `JwtTool`: `parseToken` as a chain of guards; decoding, the RS256
  signature check and the date check are oracles.
- `authorize_filter.dfy` — `AuthorizeFilter`: the per-request decision as a function, and
  the filter bean as a class whose `Filter` method sets the response status in place or
  builds a new exchange carrying `user-info`.
- `dynamic_routes.dfy` — `DynamicRoutes`: the route store as a class holding a table keyed
  by id (and a ghost record of the delete and save calls made on it), and the loader as a
  class holding `routeIds`, whose `UpdateRoutes` runs the delete loop and the save loop.
- `sentinel_web_config.dfy` — `SentinelWebConfig`: the URL cleaner, the origin parser, the
  block response, and the two static flow rules of `SentinelConfig`.
- `item_client_fallback.dfy` — `ItemClientFallback`: the degraded item client.

How the route loader behaves, as the code is written:

- `updateRoutes` deletes every tracked route and clears `routeIds` before it parses. A
  payload that fails to parse therefore leaves none of those routes loaded
  (`ParseFailureDropsTrackedRoutes`).
- Replacement is one delete per old id, then one save per definition. Nothing makes it
  atomic, and the model records exactly that sequence of calls.
- A JSON `null` element inside the route array makes the save loop throw part-way. The
  exception is caught, so the routes saved before that element stay saved and tracked.
- A definition whose id is null is tracked like any other: `routeIds` is a `HashSet`,
  which accepts null (`NullIdTracked`). On the next update, the delete of that null id
  throws inside the delete loop, before `routeIds.clear()`. The exception is caught, so
  the set keeps every id, including the null one, and nothing is parsed or saved. The
  same happens on every later update: the loader no longer applies any payload
  (`DynamicRoutes.DynamicRouteLoader.DeleteTrackedRoutes`, `AppliedUpdate`).

How the token check and the filter behave with the JWT library:

- `parseToken` calls `jwt.verify()` outside any `try`, and it catches only
  `ValidateException` around the date check. Any other exception from those two calls
  leaves `parseToken`, and then the filter, since the filter catches only
  `UnauthorizedException`. Such a request is neither answered with 401 nor forwarded.
  The model keeps this third path (`LibraryException`, `Escape`, `Raised`).

## Model

| member | source | states |
|---|---|---|
| `JavaLong.ParseLong` | hm-gateway/src/main/java/com/hmall/gateway/utils/JwtTool.java:43-47 | a parsed value is a 64-bit long whose sign follows the leading '-'; the empty string and a lone sign are rejected |
| `JavaLong.ToString` | hm-gateway/src/main/java/com/hmall/gateway/filter/AuthorizeGlobalFilter.java:56 | the rendering is non-empty, starts with '-' exactly for a negative id, and is otherwise all decimal digits |
| `JavaLong.ParseToStringRoundTrip` | hm-gateway/src/main/java/com/hmall/gateway/utils/JwtTool.java:44 | for every 64-bit n, `Long.toString(n)` is canonical and `Long.valueOf` of it yields exactly n |
| `JavaLong.ToStringParseRoundTrip` | hm-gateway/src/main/java/com/hmall/gateway/filter/AuthorizeGlobalFilter.java:56 | a canonical decimal string (no '+', no leading zero, no "-0") that parses is exactly the rendering of its value |
| `JavaLong.DecimalUnique` | hm-gateway/src/main/java/com/hmall/gateway/filter/AuthorizeGlobalFilter.java:56 | a digit string without a leading zero is the only rendering of the number it denotes |
| `JavaLong.ParseLongAcceptsPaddedForms` | hm-gateway/src/main/java/com/hmall/gateway/utils/JwtTool.java:44 | leading zeros, a plus sign and "-0" are accepted, as `Long.valueOf` accepts them |
| `JavaLong.PaddingKeepsValue` | hm-gateway/src/main/java/com/hmall/gateway/utils/JwtTool.java:44 | for any non-empty digit string, a leading '+' or a leading '0' does not change what it parses to |
| `JavaLong.LeadingZeroValue` | hm-gateway/src/main/java/com/hmall/gateway/utils/JwtTool.java:44 | a leading zero adds nothing to the value of a digit string |
| `JavaLong.ParseLongRejectsOverflow` | hm-gateway/src/main/java/com/hmall/gateway/utils/JwtTool.java:43-47 | a digit string whose value exceeds 2^63-1 is rejected, with or without a '+' |
| `JavaLong.ParseLongRejectsNonDigit` | hm-gateway/src/main/java/com/hmall/gateway/utils/JwtTool.java:43-47 | any non-digit after the first character makes the claim unparsable |
| `JwtTool.ParseToken` | hm-gateway/src/main/java/com/hmall/gateway/utils/JwtTool.java:21-48 | success exactly when the token is present, decodes, is signed, is in date and has a user claim parsing to the returned id; a null token, and only that, fails with "未登录"; "token已经过期" exactly for a signed token failing the date check with a ValidateException; every UnauthorizedException carries one of the three messages; a library exception escapes exactly when `verify` throws, or the date check throws something other than a ValidateException on a signed token, and it is that thrown exception |
| `JwtTool.BadSignatureIsInvalid` | hm-gateway/src/main/java/com/hmall/gateway/utils/JwtTool.java:31-38 | a badly signed token fails with "无效的token" and is never reported expired |
| `JwtTool.BadUserClaimIsInvalid` | hm-gateway/src/main/java/com/hmall/gateway/utils/JwtTool.java:39-47 | a signed, unexpired token with a missing or non-numeric user claim fails with "无效的token" |
| `JwtTool.ValidTokenYieldsUser` | hm-gateway/src/main/java/com/hmall/gateway/utils/JwtTool.java:39-47 | for every 64-bit n, a signed, unexpired token whose user claim is the decimal of n yields exactly n |
| `AuthorizeFilter.TokenOf` | hm-gateway/src/main/java/com/hmall/gateway/filter/AuthorizeGlobalFilter.java:39-43 | the token is present exactly when the authorization header has a value, and is then its first value |
| `AuthorizeFilter.WithUserInfo` | hm-gateway/src/main/java/com/hmall/gateway/filter/AuthorizeGlobalFilter.java:55-59 | the forwarded request keeps path and every other header and has user-info set to the single decimal string of the id |
| `AuthorizeFilter.Decide` | hm-gateway/src/main/java/com/hmall/gateway/filter/AuthorizeGlobalFilter.java:34-62 | a request passes through unchanged exactly when its path is excluded, whatever its token; a gated request is rejected exactly when the token check throws UnauthorizedException, is forwarded as exactly the id the token check returns, and lets through exactly the library exceptions the token check does not catch, each carrying the exception the token check let through |
| `AuthorizeFilter.MissingTokenRejected` | hm-gateway/src/main/java/com/hmall/gateway/filter/AuthorizeGlobalFilter.java:39-53 | a gated request without an authorization value is rejected |
| `AuthorizeFilter.ValidTokenForwardedWithUser` | hm-gateway/src/main/java/com/hmall/gateway/filter/AuthorizeGlobalFilter.java:39-62 | a gated request whose first authorization value is a valid token for n is forwarded as n, and the user-info header parses back to exactly n |
| `AuthorizeFilter.UserInfoNotSpoofable` | hm-gateway/src/main/java/com/hmall/gateway/filter/AuthorizeGlobalFilter.java:56-58 | whatever user-info the client sent, the forwarded request carries only the id from the token |
| `AuthorizeFilter.AuthorizeGlobalFilter.IsExclude` | hm-gateway/src/main/java/com/hmall/gateway/filter/AuthorizeGlobalFilter.java:65-72 | true exactly when some exclusion pattern matches the path; false for an empty pattern list |
| `AuthorizeFilter.AuthorizeGlobalFilter.Filter` | hm-gateway/src/main/java/com/hmall/gateway/filter/AuthorizeGlobalFilter.java:28-63 | an excluded request goes to the chain as the same exchange with the response untouched; a rejected one sets status 401 and completes the response with no chain call; an uncaught library exception leaves the filter with the response untouched; an accepted one goes to the chain on a fresh exchange whose request is the original with user-info added and which shares the untouched response |
| `AuthorizeFilter.AuthorizeGlobalFilter.GetOrder` | hm-gateway/src/main/java/com/hmall/gateway/filter/AuthorizeGlobalFilter.java:74-78 | the filter's order is -1 |
| `SentinelWebConfig.CleanPath` | cart-service/src/main/java/com/hmall/cart/config/SentinelWebConfig.java:26-33 | the result is the url itself, `/carts/{id}` or `/items/{id}`; it is `/carts/{id}` exactly when the url is `/carts/` plus one or more ASCII digits (or already the template), and likewise for items |
| `SentinelWebConfig.MatchesNumeric` | cart-service/src/main/java/com/hmall/cart/config/SentinelWebConfig.java:26-30 | a url matches `prefix\d+` exactly when it is the prefix followed by one or more ASCII digits and nothing else |
| `SentinelWebConfig.UrlCleaner` | cart-service/src/main/java/com/hmall/cart/config/SentinelWebConfig.java:20-35 | a null or empty url is returned unchanged; any other url is cleaned |
| `SentinelWebConfig.UrlCleanerIdempotent` | cart-service/src/main/java/com/hmall/cart/config/SentinelWebConfig.java:21-34 | cleaning twice is cleaning once |
| `SentinelWebConfig.NumericPathsShareResource` | cart-service/src/main/java/com/hmall/cart/config/SentinelWebConfig.java:26-32 | any two numeric paths of the same family map to the same resource, that family's template |
| `SentinelWebConfig.NonNumericPathsKept` | cart-service/src/main/java/com/hmall/cart/config/SentinelWebConfig.java:26-33 | `/carts/`, `/carts/abc`, `/carts/1/x` and `/items/abc` are left as they are |
| `SentinelWebConfig.RuleResourcesOnlyReachedVerbatim` | cart-service/src/main/java/com/hmall/cart/config/SentinelConfig.java:29-43 | a url is cleaned into a configured rule resource (`/carts/test`, `/carts`) exactly when it already is that resource |
| `SentinelWebConfig.RequestOrigin` | cart-service/src/main/java/com/hmall/cart/config/SentinelWebConfig.java:57-62 | the origin is the X-Request-From header when present, otherwise "default" |
| `SentinelWebConfig.BlockResponse` | cart-service/src/main/java/com/hmall/cart/config/SentinelWebConfig.java:41-49 | a blocked request gets HTTP status 429, JSON content, and a body whose code equals the status |
| `ItemClientFallback.Create` | hm-api/src/main/java/com/hmall/api/client/fallback/ItemClientFallbackFactory.java:23-25 | the degraded client captures exactly the throwable it was created for |
| `ItemClientFallback.QueryItemByIdsFallback` | hm-api/src/main/java/com/hmall/api/client/fallback/ItemClientFallbackFactory.java:28-33 | the read returns normally with an empty list, for any ids and any cause |
| `ItemClientFallback.DeductStockFallback` | hm-api/src/main/java/com/hmall/api/client/fallback/ItemClientFallbackFactory.java:36-40 | the write never returns normally; it fails with the fixed message and the captured cause |
| `ItemClientFallback.PolicyIndependentOfCause` | hm-api/src/main/java/com/hmall/api/client/fallback/ItemClientFallbackFactory.java:23-41 | whether a call degrades or propagates depends on the operation only, never on the throwable, and reads degrade while the write propagates |
| `ItemClientFallback.PropagatedFailureKeepsCause` | hm-api/src/main/java/com/hmall/api/client/fallback/ItemClientFallbackFactory.java:36-40 | for any cause and any items, the raised failure is the fixed message wrapping that cause |
| `DynamicRoutes.SaveAllKeys` | hm-gateway/src/main/java/com/hmall/gateway/config/DynamicRouteLoader.java:106-111 | saving a list adds exactly its non-null ids to the table's keys, duplicates collapsing |
| `DynamicRoutes.SaveAllUntouched` | hm-gateway/src/main/java/com/hmall/gateway/config/DynamicRouteLoader.java:96-110 | a route whose id is not saved keeps its definition |
| `DynamicRoutes.SaveAllLastWins` | hm-gateway/src/main/java/com/hmall/gateway/config/DynamicRouteLoader.java:107-110 | on a duplicate id the last definition in list order is the one stored |
| `DynamicRoutes.SaveAllFromDefs` | hm-gateway/src/main/java/com/hmall/gateway/config/DynamicRouteLoader.java:107-110 | a saved id maps to one of the saved definitions, carrying that id |
| `DynamicRoutes.UpdateSuccessTracksParsedIds` | hm-gateway/src/main/java/com/hmall/gateway/config/DynamicRouteLoader.java:100-111 | after a payload without null elements, the tracked ids are exactly the ids of the parsed definitions, null ids included |
| `DynamicRoutes.NullIdTracked` | hm-gateway/src/main/java/com/hmall/gateway/config/DynamicRouteLoader.java:107-110 | a saved definition without an id leaves null among the tracked ids |
| `DynamicRoutes.ParseFailureDropsTrackedRoutes` | hm-gateway/src/main/java/com/hmall/gateway/config/DynamicRouteLoader.java:95-104 | after a parse failure nothing is tracked, every previously tracked route is gone, and all other routes are as before |
| `DynamicRoutes.UpdateRemovesStaleRoutes` | hm-gateway/src/main/java/com/hmall/gateway/config/DynamicRouteLoader.java:95-111 | a tracked route that is not saved again is gone after the update; an untracked, unsaved route is untouched |
| `DynamicRoutes.OwnedTableReplaced` | hm-gateway/src/main/java/com/hmall/gateway/config/DynamicRouteLoader.java:95-111 | when the table holds just the tracked routes, an update that gets past the delete step leaves it holding just the newly saved definitions, keyed by id, and tracking keeps matching the table |
| `DynamicRoutes.RouteDefinitionWriter.Delete` | hm-gateway/src/main/java/com/hmall/gateway/config/DynamicRouteLoader.java:96-99 | a delete removes that id from the table and nothing else, and is recorded |
| `DynamicRoutes.RouteDefinitionWriter.Save` | hm-gateway/src/main/java/com/hmall/gateway/config/DynamicRouteLoader.java:107-109 | a save stores the definition under its id, replacing any route with that id; a definition without an id changes nothing; every save is recorded |
| `DynamicRoutes.DynamicRouteLoader.constructor` | hm-gateway/src/main/java/com/hmall/gateway/config/DynamicRouteLoader.java:33-36 | a new loader, over any store, tracks no route; over an empty store it owns its table |
| `DynamicRoutes.DynamicRouteLoader.ParsePayload` | hm-gateway/src/main/java/com/hmall/gateway/config/DynamicRouteLoader.java:103-104 | a null payload parses to null; any other payload gives what the JSON parser gives |
| `DynamicRoutes.DynamicRouteLoader.UpdateRoutes` | hm-gateway/src/main/java/com/hmall/gateway/config/DynamicRouteLoader.java:91-118 | with no null id tracked: one delete per tracked id, all before any save, then one save per definition before the first null, in list order, and tracked ids and table become those of the update function; with a null id tracked: only deletes of tracked ids, nothing saved, the tracked set unchanged; completion exactly when no null id was tracked and the payload parses without nulls; no failure escapes; ownership of the table is preserved when no null id was tracked |
| `DynamicRoutes.DynamicRouteLoader.DeleteTrackedRoutes` | hm-gateway/src/main/java/com/hmall/gateway/config/DynamicRouteLoader.java:95-100 | it throws exactly when a null id is tracked, and then leaves the tracked set uncleared and has deleted only tracked routes; otherwise every tracked id is deleted exactly once, the table loses exactly those ids, and the tracked set is cleared |
| `DynamicRoutes.DynamicRouteLoader.SaveRoutes` | hm-gateway/src/main/java/com/hmall/gateway/config/DynamicRouteLoader.java:106-111 | the definitions before the first null are saved in list order and their ids tracked; it completes exactly when no element is null |
| `DynamicRoutes.DynamicRouteLoader.InitRouteConfigListener` | hm-gateway/src/main/java/com/hmall/gateway/config/DynamicRouteLoader.java:80-82 | the startup load applies the same update as a notification |
| `DynamicRoutes.DynamicRouteLoader.ReceiveConfigInfo` | hm-gateway/src/main/java/com/hmall/gateway/config/DynamicRouteLoader.java:62-64 | every pushed payload applies the same update as the startup load |

## Left out

- Nacos: the fetch with its 5000 ms wait, the data id and group, listener registration and the executor choice. A payload string (or null) arriving and then `UpdateRoutes` is all that is modelled.
- Reactor: `Mono` and `subscribe` on delete and save are taken as synchronous table updates. Errors the store reports asynchronously are not modelled, such as the not-found error for an absent id. They never reach `updateRoutes`, so a delete of an absent id is a no-op here.
- fastjson: parsing into `RouteDefinition` is the `parse` oracle. Whether a definition comes out with a null id is up to the oracle.
- `DynamicRoutes.RouteDefinitionWriter.Save`: a definition with a null id is taken to be not stored. The store is a library, and its handling of a null id is not part of this model.
- Route lookup and dispatch: matching a request to a route and forwarding it to its target are not part of this model. So is atomicity of replacement against concurrent readers, which the code does not provide either.
- hutool JWT: decoding, RS256 signing and verification, and date validation against the clock are the oracles in `JwtTool.Oracles`. Each oracle may throw; the exceptions are identified by name only. The payload claim's `toString()` is part of the decode oracle. Loading the key pair from the keystore (`SecurityConfig`, `JwtProperties`) and issuing tokens in the user service are not part of this model.
- `JavaLong.ParseLong`: accepts ASCII digits only, while `Character.digit` in `Long.parseLong` also accepts other Unicode decimal digits, such as full-width ones. Strings made of those are rejected here but accepted by the code.
- `AntPathMatcher`: its pattern language is the `matches` oracle of the filter.
- HTTP header names are case-insensitive in Spring's `HttpHeaders`. The model treats them as already lower-case map keys.
- What the gateway chain does after `chain.filter` is not modelled. The model returns the exchange handed to the chain; response completion is a flag.
- Sentinel's own rate counting and windowing. The static rules are kept as constants only. Writing the JSON body of the 429 response through `ObjectMapper` is I/O and left out.
- The user service's `LoginInterceptor` (a thread-local user context and a database lookup), Swagger, MVC and Feign configuration, DTOs and `UserStatus` are wiring without logic to model.
- All logging.
