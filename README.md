# WhoLogin client SDK core, modelled in Dafny

This project models the core of the WhoLogin TypeScript client SDK, a client for a REST service that manages browser profiles, proxies and tags. The core has four parts:

- **The base API client** (`ApiClient`, in `api_client.dfy`). It strips one trailing slash from the base URL. It prepares each request: the base URL plus the endpoint, a bearer `Authorization` header, a JSON `Content-Type`, and the body only when one is given. It classifies what `fetch` yields into exactly one of five outcomes: a value, an absent value, an HTTP error, an API error carrying the server's message, or a network error. `fetch` is a function parameter; its outcome is the datatype `FetchOutcome`.
- **The request handler contract** (`Http`, in `http.dfy`). An endpoint hands the handler a path, a method and an optional body. A call settles as an `Outcome`. Listing responses may be a bare array, a wrapper object or absent, and `NormaliseList` makes all three a sequence. Paths are built from segments by `Path`, and `Segments` cuts them back.
- **The endpoint groups** (`Profile`, `Proxy` and `Tag`, in `profile.dfy`, `proxy.dfy` and `tag.dfy`).
  - Each group has one datatype of calls and a `RequestFor` function giving the request each call sends.
  - A `Decode` function reads a request back to the call that sent it. The round-trip lemmas prove that every route is distinct and that every body is what the call promises.
  - In the profile group, `Canonical` maps a call to the call the handler actually sees. A builder argument becomes its payload. An extension helper becomes the `update` it sends. `open()` becomes `open({})`, and `getExtensions` becomes `getById`.
- **The profile builder and the profile records** (`Builder` in `builder.dfy`, and `ProfileTypes` in `profile_types.dfy`).
  - `ProfileBuilder` is a class with the three fields `profile`, `tags` and `id`, and one method per `with*` setter. Each method's frame is the one field it changes (`modifies this`profile`). Its postcondition states the whole new value of that field as an update of the old one, so every other field is provably unchanged.
  - The nested setters are specified by pure functions proved separately: `SetCustom`, `SetSeededCustom`, `WithList` and the two permission functions.
  - Sequences of tag calls are summarised by `TagEditsFold`.
  - The records mirror the source's types field for field. Each fingerprint field's mode enum admits exactly the variants its source enum lists. Four generic shapes — mode with custom payload, with seed, with seed and custom payload, or with value — cover the thirteen fields.

In three places the code does less than its names suggest. The model follows the code:

- `withMaskUserAgent(seed)` takes a seed, but `withUserAgentMode` ignores it, so the field becomes `{mode: mask}`. The `UserAgent` type has no seed field at all.
- The `with*Custom` setters, such as `withCustomGeolocation`, force the Custom mode only when the field is absent. A field that is present keeps its mode, and its seed where it has one.
- `getExtensions` falls back to the empty sequence when the extension list is missing. But the optional chain starts after `detail`, so a detail that resolved to `undefined` raises a `TypeError`. See "Findings".

## Model

| member | source | states |
|---|---|---|
| Http.NormaliseList | src/modules/proxy/index.ts:84-87 | a bare array is returned unchanged, a wrapper yields its list field (`proxies`, `profiles`, `tags`), and an absent response or absent list field yields the empty sequence |
| Http.ListResult | src/modules/profile/index.ts:112-259 | `getAll`, `search`, `getListOpen` and `getTrash` (and the proxy and tag `getAll`): a rejected request stays rejected with the same failure; a resolved one always yields a sequence, the normalised response |
| Http.WrapperAgreesWithBareArray | src/modules/tag/index.ts:45-48 | a wrapper and a bare array holding the same list normalise alike, and normalising is idempotent |
| Http.SegmentsOfPath | src/modules/profile/index.ts:147 | a path built from segments without '/' cuts back into exactly those segments, so an interpolated id can be read back |
| ApiClient.StripTrailingSlash | src/core/api-client.ts:12 | the result is a prefix of the URL, exactly one character shorter when the URL ends with '/', and equal to it otherwise |
| ApiClient.SlashSpellingsAgree | src/core/api-client.ts:12 | a base URL with and without one trailing slash normalise to the same URL |
| ApiClient.OnlyOneSlashStripped | src/core/api-client.ts:12 | only one slash is removed: `u//` becomes `u/` |
| ApiClient.BaseApiClient.constructor | src/core/api-client.ts:11-14 | the stored URL is the stripped base URL and the key is kept as given |
| ApiClient.BearerToken | src/core/api-client.ts:35 | a token read from an `Authorization` value is a b64token of section 2.1 of RFC 6750 |
| ApiClient.BearerRoundTrip | src/core/api-client.ts:35 | the header value `Bearer <key>` parses back to the key exactly when the key is a valid RFC 6750 token |
| ApiClient.BaseApiClient.Prepare | src/core/api-client.ts:33-42 | the URL is the base URL followed by the endpoint; the method and the body pass through unchanged; there are exactly two headers, `Authorization: Bearer <key>` with the key verbatim and `Content-Type: application/json`; and, as its partner, a server reading that header under section 2.1 of RFC 6750 recovers exactly the key whenever the key is a valid token |
| ApiClient.Classify | src/core/api-client.ts:44-59 | what `fetch` yields settles as exactly one of five outcomes, never a `TypeError`: it resolves exactly for a successful JSON envelope or an `ok` non-JSON reply; it rejects with a plain `Error` exactly for a network failure or a non-`ok` non-JSON reply; it rejects with a `WhoLoginAPIError` exactly for a failed JSON envelope (the `*Exactly` lemmas pin down each outcome's value) |
| ApiClient.BaseApiClient.Send | src/core/api-client.ts:28-60 | `_request` settles by what `fetch` yields for the prepared request: a network failure rejects with the prefixed cause, a failed envelope and nothing else rejects with a `WhoLoginAPIError`, a value is resolved only when the envelope carries it, and no call rejects with a `TypeError` |
| Http.Path | src/modules/profile/index.ts:170 | a built path is empty exactly when there are no segments, otherwise starts with '/', and has at least one character per segment; `Http.SegmentsOfPath` is its inverse |
| ApiClient.Includes | src/core/api-client.ts:48 | `includes` holds exactly when the needle occurs at some position of the string |
| ApiClient.NatToString | src/core/api-client.ts:50 | the status is printed as a non-empty string of decimal digits |
| ApiClient.DecimalRoundTrip | src/core/api-client.ts:50 | reading the printed status back gives the status |
| ApiClient.NetworkErrorExactly | src/core/api-client.ts:44-46 | a call rejects with `Error("Network request failed: " + cause)` exactly when fetch failed with that cause |
| ApiClient.HttpErrorExactly | src/core/api-client.ts:48-51 | a call rejects with `Error("HTTP Error: <status> <statusText>")` exactly when the reply is not JSON and not `ok`, with that status and text |
| ApiClient.AbsentExactly | src/core/api-client.ts:48-56 | a call resolves to `undefined` exactly for an `ok` non-JSON reply or a successful envelope without `data` |
| ApiClient.ValueExactly | src/core/api-client.ts:55-56 | a call resolves to a value exactly when a JSON reply's successful envelope carries it |
| ApiClient.ApiErrorExactly | src/core/api-client.ts:57-58 | a call rejects with `WhoLoginAPIError` exactly when a JSON reply's envelope fails, and the message is the server's `errorMessage` unchanged |
| Proxy.TypeTagDeterminesVariant | src/modules/proxy/index.ts:16-31 | the `type` discriminator of the five variants tells them apart: two proxies share a tag exactly when they are the same variant |
| Proxy.RequestFor | src/modules/proxy/index.ts:92-122 | a request carries a body exactly when it is a POST, and `create`, `update` and `geolocate` send the caller's request unchanged |
| Proxy.DecodeRequestFor | src/modules/proxy/index.ts:84-122 | each call's method, path and body read back to the call itself: `/proxy/all` and `/proxy/{id}/delete` and `/proxy/{id}/geolocate` are bodiless GETs; `/proxy/create`, `/proxy/{id}/update` and `/proxy/geolocate` are POSTs |
| Proxy.RequestsDistinct | src/modules/proxy/index.ts:84-122 | two calls with ids free of '/' that send the same request are the same call |
| Tag.RequestFor | src/modules/tag/index.ts:53-69 | a request carries a body exactly when it is a POST, and `create` and `update` send the caller's request unchanged (the update nests the name under `data`) |
| Tag.DecodeRequestFor | src/modules/tag/index.ts:45-69 | each call reads back from its request: GET `/tag/all`, POST `/tag/create`, POST `/tag/{id}/update`, GET `/tag/{id}/delete` |
| Tag.RequestsDistinct | src/modules/tag/index.ts:45-69 | two calls with ids free of '/' that send the same request are the same call |
| Builder.SetCustom | src/modules/profile/builder.ts:195-198 | the custom payload becomes the argument; an absent field gets the Custom mode, a present one keeps its mode |
| Builder.SetSeededCustom | src/modules/profile/builder.ts:216-219 | the custom payload becomes the argument; an absent field gets the Custom mode and no seed, a present one keeps its mode and its seed |
| Builder.SetCustomLastWins | src/modules/profile/builder.ts:194-200 | setting the custom payload twice leaves only the second |
| Builder.SetSeededCustomLastWins | src/modules/profile/builder.ts:215-221 | setting the custom payload twice leaves only the second, mode and seed untouched |
| Builder.WithList | src/modules/profile/builder.ts:388-391 | the extension list becomes the argument and the four intent lists are kept (or stay absent) |
| Builder.PutGeolocationPermission | src/modules/profile/builder.ts:403-406 | the geolocation permission becomes the state and the notifications permission is kept |
| Builder.PutNotificationPermission | src/modules/profile/builder.ts:412-415 | the notifications permission becomes the state and the geolocation permission is kept |
| Builder.PermissionSettersCommute | src/modules/profile/builder.ts:402-417 | the two permission setters commute and together set both permissions |
| Builder.TagEditsFold | src/modules/profile/builder.ts:89-99 | after any sequence of `withTags`/`withTag` calls the tag list is the last replacement (or the initial list) followed by every tag appended after it, in call order, duplicates kept |
| Builder.ProfileBuilder.constructor | src/modules/profile/builder.ts:51-57 | a new builder holds the empty profile, no tags and no id |
| Builder.ProfileBuilder.WithId | src/modules/profile/builder.ts:60-63 | sets the id; the profile and tags are unchanged |
| Builder.ProfileBuilder.WithProfileName | src/modules/profile/builder.ts:66-69 | sets `profileName`; every other field is unchanged |
| Builder.ProfileBuilder.WithProfileIcon | src/modules/profile/builder.ts:72-75 | sets `profileIcon`; every other field is unchanged |
| Builder.ProfileBuilder.WithNote | src/modules/profile/builder.ts:78-81 | sets `note`; every other field is unchanged |
| Builder.ProfileBuilder.WithPinned | src/modules/profile/builder.ts:84-87 | sets `pinned`; every other field is unchanged |
| Builder.ProfileBuilder.WithTags | src/modules/profile/builder.ts:90-93 | the tag list becomes the argument, whatever it held |
| Builder.ProfileBuilder.WithTag | src/modules/profile/builder.ts:96-99 | the tag is appended at the end; earlier tags keep their order; no deduplication |
| Builder.ProfileBuilder.WithOS | src/modules/profile/builder.ts:102-105 | sets `os`; every other field is unchanged |
| Builder.ProfileBuilder.WithBrowser | src/modules/profile/builder.ts:108-111 | sets `browser`; every other field is unchanged |
| Builder.ProfileBuilder.WithSpecterBrowser | src/modules/profile/builder.ts:114-120 | sets `browser` to Specter with the given version |
| Builder.ProfileBuilder.WithProxy | src/modules/profile/builder.ts:123-126 | sets `proxy`; every other field is unchanged |
| Builder.ProfileBuilder.WithDirectProxy | src/modules/profile/builder.ts:128-130 | equals `withProxy` of a direct proxy carrying the given geolocation snapshot |
| Builder.ProfileBuilder.WithBlockProxy | src/modules/profile/builder.ts:132-134 | equals `withProxy` of the block proxy |
| Builder.ProfileBuilder.WithHttpProxy | src/modules/profile/builder.ts:136-144 | equals `withProxy` of an http proxy built from the parameters |
| Builder.ProfileBuilder.WithSocks5Proxy | src/modules/profile/builder.ts:146-154 | equals `withProxy` of a socks5 proxy built from the parameters |
| Builder.ProfileBuilder.WithWireGuardProxy | src/modules/profile/builder.ts:156-167 | equals `withProxy` of a WireGuard proxy built from the parameters |
| Builder.ProfileBuilder.WithDoNotTrackEnabled | src/modules/profile/builder.ts:170-173 | sets `doNotTrack` to true |
| Builder.ProfileBuilder.WithDoNotTrackDisabled | src/modules/profile/builder.ts:176-179 | sets `doNotTrack` to false |
| Builder.ProfileBuilder.WithUserAgent | src/modules/profile/builder.ts:182-185 | sets `userAgent`; every other field is unchanged |
| Builder.ProfileBuilder.WithUserAgentMode | src/modules/profile/builder.ts:188-191 | replaces `userAgent` by `{mode}` alone: the seed argument is ignored and an earlier custom payload dropped |
| Builder.ProfileBuilder.WithUserAgentCustom | src/modules/profile/builder.ts:194-200 | `userAgent` becomes `SetCustom` of its old value: Custom mode only when it was absent |
| Builder.ProfileBuilder.WithNavigator | src/modules/profile/builder.ts:203-206 | sets `navigator`; every other field is unchanged |
| Builder.ProfileBuilder.WithNavigatorMode | src/modules/profile/builder.ts:209-212 | replaces `navigator` by `{mode, seed}`, dropping an earlier custom payload |
| Builder.ProfileBuilder.WithNavigatorCustom | src/modules/profile/builder.ts:215-221 | `navigator` becomes `SetSeededCustom` of its old value |
| Builder.ProfileBuilder.WithScreen | src/modules/profile/builder.ts:224-227 | sets `screen`; every other field is unchanged |
| Builder.ProfileBuilder.WithScreenMode | src/modules/profile/builder.ts:230-233 | replaces `screen` by `{mode, seed}`, dropping an earlier custom payload |
| Builder.ProfileBuilder.WithScreenCustom | src/modules/profile/builder.ts:236-242 | `screen` becomes `SetSeededCustom` of its old value |
| Builder.ProfileBuilder.WithMediaDevices | src/modules/profile/builder.ts:245-248 | sets `mediaDevices`; every other field is unchanged |
| Builder.ProfileBuilder.WithMediaDevicesMode | src/modules/profile/builder.ts:251-254 | replaces `mediaDevices` by `{mode, seed}` |
| Builder.ProfileBuilder.WithWebGLMetadata | src/modules/profile/builder.ts:257-260 | sets `webGLMetadata`; every other field is unchanged |
| Builder.ProfileBuilder.WithWebGLMetadataMode | src/modules/profile/builder.ts:263-266 | replaces `webGLMetadata` by `{mode, seed}`, dropping an earlier custom payload |
| Builder.ProfileBuilder.WithWebGLMetadataCustom | src/modules/profile/builder.ts:269-275 | `webGLMetadata` becomes `SetSeededCustom` of its old value |
| Builder.ProfileBuilder.WithWebGLImage | src/modules/profile/builder.ts:277-280 | sets `webGLImage`; every other field is unchanged |
| Builder.ProfileBuilder.WithWebGLImageMode | src/modules/profile/builder.ts:282-285 | replaces `webGLImage` by `{mode, seed}` |
| Builder.ProfileBuilder.WithTimeZone | src/modules/profile/builder.ts:288-291 | sets `timeZone`; every other field is unchanged |
| Builder.ProfileBuilder.WithTimeZoneMode | src/modules/profile/builder.ts:294-297 | replaces `timeZone` by `{mode, value}` |
| Builder.ProfileBuilder.WithLanguage | src/modules/profile/builder.ts:300-303 | sets `language`; every other field is unchanged |
| Builder.ProfileBuilder.WithLanguageMode | src/modules/profile/builder.ts:306-309 | replaces `language` by `{mode, value}` |
| Builder.ProfileBuilder.WithGeolocation | src/modules/profile/builder.ts:312-315 | sets `geolocation`; every other field is unchanged |
| Builder.ProfileBuilder.WithGeolocationMode | src/modules/profile/builder.ts:318-321 | replaces `geolocation` by `{mode}` alone, dropping an earlier custom position |
| Builder.ProfileBuilder.WithGeolocationCustom | src/modules/profile/builder.ts:324-330 | `geolocation` becomes `SetCustom` of its old value: Custom mode only when it was absent |
| Builder.ProfileBuilder.WithCanvas | src/modules/profile/builder.ts:333-336 | sets `canvas`; every other field is unchanged |
| Builder.ProfileBuilder.WithCanvasMode | src/modules/profile/builder.ts:339-342 | replaces `canvas` by `{mode, seed}` |
| Builder.ProfileBuilder.WithAudioContext | src/modules/profile/builder.ts:345-348 | sets `audioContext`; every other field is unchanged |
| Builder.ProfileBuilder.WithAudioContextMode | src/modules/profile/builder.ts:351-354 | replaces `audioContext` by `{mode, seed}` |
| Builder.ProfileBuilder.WithClientRects | src/modules/profile/builder.ts:357-360 | sets `clientRects`; every other field is unchanged |
| Builder.ProfileBuilder.WithClientRectsMode | src/modules/profile/builder.ts:363-366 | replaces `clientRects` by `{mode, seed}` |
| Builder.ProfileBuilder.WithFont | src/modules/profile/builder.ts:369-372 | sets `font`; every other field is unchanged |
| Builder.ProfileBuilder.WithFontMode | src/modules/profile/builder.ts:375-378 | replaces `font` by `{mode, seed}` |
| Builder.ProfileBuilder.WithExtensionManager | src/modules/profile/builder.ts:381-384 | sets `extensionManager`; every other field is unchanged |
| Builder.ProfileBuilder.WithExtensions | src/modules/profile/builder.ts:387-393 | `extensionManager` becomes `WithList` of its old value: only `list` changes, intent lists survive |
| Builder.ProfileBuilder.WithPermissions | src/modules/profile/builder.ts:396-399 | sets `permissions`; every other field is unchanged |
| Builder.ProfileBuilder.WithGeolocationPermission | src/modules/profile/builder.ts:402-408 | `permissions` becomes `PutGeolocationPermission` of its old value; the notifications permission survives |
| Builder.ProfileBuilder.WithNotificationPermission | src/modules/profile/builder.ts:411-417 | `permissions` becomes `PutNotificationPermission` of its old value; the geolocation permission survives |
| Builder.ProfileBuilder.WithDns | src/modules/profile/builder.ts:420-423 | sets `dns`; every other field is unchanged |
| Builder.ProfileBuilder.WithDnsAddress | src/modules/profile/builder.ts:426-429 | sets `dns` to `{address}` |
| Builder.ProfileBuilder.WithRestoreOnStartup | src/modules/profile/builder.ts:432-435 | sets `restoreOnStartup`; every other field is unchanged |
| Builder.ProfileBuilder.WithRestoreOnStartupMode | src/modules/profile/builder.ts:438-441 | replaces `restoreOnStartup` by `{mode, urls}` |
| Builder.ProfileBuilder.WithCommandLineSwitches | src/modules/profile/builder.ts:444-447 | replaces `commandLineSwitches` by the argument |
| Builder.ProfileBuilder.WithWindowsOS | src/modules/profile/builder.ts:449-451 | equals `withOS(OS.Windows)` |
| Builder.ProfileBuilder.WithLinuxOS | src/modules/profile/builder.ts:453-455 | equals `withOS(OS.Linux)` |
| Builder.ProfileBuilder.WithAndroidOS | src/modules/profile/builder.ts:457-459 | equals `withOS(OS.Android)` |
| Builder.ProfileBuilder.WithSystemUserAgent | src/modules/profile/builder.ts:461-463 | equals `withUserAgentMode(System)`: `userAgent` is `{mode: system}` |
| Builder.ProfileBuilder.WithMaskUserAgent | src/modules/profile/builder.ts:465-467 | equals `withUserAgentMode(Mask, seed)`: `userAgent` is `{mode: mask}` and carries no seed |
| Builder.ProfileBuilder.WithSystemNavigator | src/modules/profile/builder.ts:469-471 | `navigator` is `{mode: system}` |
| Builder.ProfileBuilder.WithMaskNavigator | src/modules/profile/builder.ts:473-475 | `navigator` is `{mode: mask, seed}` |
| Builder.ProfileBuilder.WithSystemScreen | src/modules/profile/builder.ts:477-479 | `screen` is `{mode: system}` |
| Builder.ProfileBuilder.WithMaskScreen | src/modules/profile/builder.ts:481-483 | `screen` is `{mode: mask, seed}` |
| Builder.ProfileBuilder.WithSystemTimeZone | src/modules/profile/builder.ts:485-487 | `timeZone` is `{mode: system}` |
| Builder.ProfileBuilder.WithBasedIPTimeZone | src/modules/profile/builder.ts:489-491 | `timeZone` is `{mode: based-ip}` |
| Builder.ProfileBuilder.WithCustomTimeZone | src/modules/profile/builder.ts:493-495 | `timeZone` is `{mode: custom, value}` |
| Builder.ProfileBuilder.WithSystemLanguage | src/modules/profile/builder.ts:497-499 | `language` is `{mode: system}` |
| Builder.ProfileBuilder.WithBasedIPLanguage | src/modules/profile/builder.ts:501-503 | `language` is `{mode: based-ip}` |
| Builder.ProfileBuilder.WithCustomLanguage | src/modules/profile/builder.ts:505-507 | `language` is `{mode: custom, value}` |
| Builder.ProfileBuilder.WithBasedIPGeolocation | src/modules/profile/builder.ts:509-511 | `geolocation` is `{mode: based-ip}` |
| Builder.ProfileBuilder.WithCustomGeolocation | src/modules/profile/builder.ts:513-519 | equals `withGeolocationCustom({latitude, longitude, accuracy})` |
| Builder.ProfileBuilder.WithMaskCanvas | src/modules/profile/builder.ts:521-523 | `canvas` is `{mode: mask, seed}` |
| Builder.ProfileBuilder.WithMaskAudioContext | src/modules/profile/builder.ts:525-527 | `audioContext` is `{mode: mask, seed}` |
| Builder.ProfileBuilder.WithMaskClientRects | src/modules/profile/builder.ts:529-531 | `clientRects` is `{mode: mask, seed}` |
| Builder.ProfileBuilder.WithMaskFont | src/modules/profile/builder.ts:533-535 | `font` is `{mode: mask, seed}` |
| Builder.ProfileBuilder.WithMaskWebGLImage | src/modules/profile/builder.ts:537-539 | `webGLImage` is `{mode: mask, seed}` |
| Builder.ProfileBuilder.WithMaskWebGLMetadata | src/modules/profile/builder.ts:541-543 | `webGLMetadata` is `{mode: mask, seed}` |
| Builder.ProfileBuilder.WithSystemMediaDevices | src/modules/profile/builder.ts:545-547 | `mediaDevices` is `{mode: system}` |
| Builder.ProfileBuilder.BuildPayload | src/modules/profile/builder.ts:550-556 | the create payload always has the id (possibly absent), the tag list even when empty, and the accumulated profile |
| Profile.CreatePayload | src/modules/profile/index.ts:100-105 | `create` posts a builder's id, profile and tag list (the tags even when empty), or a raw request unchanged |
| Profile.UpdatePayload | src/modules/profile/index.ts:165-168 | `update` posts a builder's profile with its tags only when there are any, or a raw request unchanged |
| Builder.ProfileBuilder.BuildUpdatePayload | src/modules/profile/builder.ts:559-564 | the update payload has no id; its tags are absent exactly when the tag list is empty and otherwise are the list |
| Profile.IntentManager | src/modules/profile/index.ts:299-330 | the extension manager an extension helper sends holds exactly one key, the intent list the helper names, set to the ids |
| Profile.IntentUpdate | src/modules/profile/index.ts:299-302 | an extension helper's body is an update whose data holds only that extension manager, with no tags |
| Profile.RequestFor | src/modules/profile/index.ts:99-293 | a request carries a body exactly when it is a POST; a builder argument to `create`/`update` sends its `_buildPayload`/`_buildUpdatePayload`, a raw request is sent unchanged; `open` sends `{}` without a request; `addTags`/`removeTags` send the bare tag list |
| Profile.SameRequestAsCanonical | src/modules/profile/index.ts:146-330 | each extension helper sends the same request as `update` with its one-key body, `open()` the same as `open({})`, `getExtensions` the same as `getById`, and a builder the same as its payload |
| Profile.DecodeRequestFor | src/modules/profile/index.ts:99-330 | every call's method, path and body read back to its canonical call, so the routes are as written: trash paths `/profile/trash/{id}/delete` and `/profile/trash/{id}/restore`, GET for reads, delete, close and trash operations |
| Profile.SameRequestSameCall | src/modules/profile/index.ts:99-330 | two calls that send the same request are the same canonical call, given ids without '/' and not naming a listing route |
| Profile.ReservedIdsCollide | src/modules/profile/index.ts:146-148 | `getById("all")`, `getById("list-open")` and `getById("trash")` send exactly the requests of `getAll`, `getListOpen` and `getTrash` |
| Profile.ExtensionsOf | src/modules/profile/index.ts:153-156 | a rejection passes through; a detail that resolved to `undefined` rejects with a TypeError; otherwise the result is `data.extensionManager.list`, or the empty sequence when the manager or its list is absent |
| Profile.ExtensionsOfGuarded | src/modules/profile/index.ts:153-156 | the reading the optional chain intends: it rejects exactly when the request rejected, and an undefined detail yields the empty sequence |
| Profile.GuardedAgreesOnDetails | src/modules/profile/index.ts:153-156 | the guarded reading agrees with the code on every outcome except an undefined detail |
| Profile.UndefinedDetailRejects | src/modules/profile/index.ts:153-156 | a 200 reply that is not JSON makes `getExtensions` as written reject with a TypeError and the guarded reading yield no extensions |
| Profile.ExtensionsRoundTrip | src/modules/profile/index.ts:153-156 | a detail whose extension list was set by `withExtensions(xs)` reads back as `xs` |
| Profile.CreateWithBuilder | src/modules/profile/index.ts:99-107 | a builder with name P1, tag T1 and an http proxy at p.example.com:8080 makes `create` POST `/profile/create` with `{id: absent, tags: [T1], data: {profileName, proxy}}` |

## Left out

- `fetch`, `response.json()` and `JSON.stringify` are network and serialisation I/O. The fetch outcome is the datatype `ApiClient.FetchOutcome`, and the parsed envelope is part of it. A body that claims to be JSON but fails to parse is not modelled, and neither is the `SyntaxError` that `response.json()` would reject with.
- ApiClient.Classify: the envelope is read as `success: true` or `success: false`. The source's truthiness test on `success` would also treat a missing or other falsy value as a failure, and when such an envelope has no `errorMessage` the `WhoLoginAPIError` is built from `undefined`, so its message is the empty string. That case is not modelled.
- ApiClient.BaseApiClient.Prepare: the body is modelled as present or absent. The source serialises a body only when it is truthy, and every body an endpoint passes is an object or an array, so for the endpoints the two readings agree. A falsy primitive body from another caller is not modelled.
- ApiClient.BaseApiClient.Prepare: the header value `Bearer <key>` is stated for every key, but the server-side reading of it back to the key is stated only for keys that are valid section 2.1 RFC 6750 tokens; for other keys the source sends the header anyway and what a server makes of it is outside the client.
- Async suspension and promise scheduling are not modelled: each call is a function from the handler's outcome to the call's outcome.
- JavaScript reference aliasing is not modelled; the builder's tags and nested records are values.
  - `withTags` stores the caller's array, so a later `withTag` would also push into that array.
  - `_buildPayload` returns live references.
  - `with*Custom`, `withExtensions` and the permission setters mutate a nested object the caller may also hold.
- Chaining is not modelled: the `with*` methods return `this` in the source, and here they return nothing.
- Numbers (ports, coordinates, screen sizes, MTU, debugging port) are carried as opaque `real` values. The code never computes with them.
- Builder.ProfileBuilder.WithHttpProxy, WithSocks5Proxy, WithWireGuardProxy: the parameters are typed records. An untyped JavaScript caller could spread extra keys into the proxy object, including a `type` that overrides the variant; that is not modelled.
- Profile.ExtensionsOf: a detail without `data` is not modelled, because `ProfileDetail.data` is required by its type; the source's `?.` after `data` would yield the empty sequence there.
- Mode enums are modelled as datatypes. Their wire strings (`system`, `mask`, `custom`, `based-ip`) belong to serialisation and are left out.
- The re-exports and wiring of the SDK entry point are not part of this model, nor are the error class declarations beyond `Failure`, the demo scripts, or server-side semantics (trash lifecycle, tag matching).
- The route model assumes ids hold no '/' (`PlainId`). The endpoints interpolate ids without encoding, so an id with a '/' changes the route. The profile round trip also assumes that an id fetched by `getById` is not `all`, `list-open` or `trash`; `Profile.ReservedIdsCollide` shows what happens otherwise.

## Findings

| source | as written | input that shows it | evidently intended | confidence | as-written member | corrected member |
|---|---|---|---|---|---|---|
| src/modules/profile/index.ts:153-156 | `detail.data?.extensionManager?.list ?? []` dereferences `detail` without `?.`, so a detail that resolved to `undefined` throws a `TypeError` | a 200 reply without a JSON content type (or a successful envelope without `data`): `_request` resolves to `undefined`, and `getExtensions` rejects | the optional chain intends absence to mean no extensions, so the result is `[]` | medium, not executed | Profile.ExtensionsOf (with Profile.UndefinedDetailRejects) | Profile.ExtensionsOfGuarded (with Profile.GuardedAgreesOnDetails and Profile.ExtensionsRoundTrip) |
