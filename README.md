# Tyk OAS extension defaulting engine, modelled in Dafny

This project models the engine in Tyk's `apidef/oas` package that fills in the gateway's
`x-tyk-api-gateway` extension of an OpenAPI document. The engine merges three inputs:

- defaults taken from the document: title, servers, operations, security requirements and schemes;
- an extension already attached to the document, which may have been edited by hand;
- caller overrides: listen path, upstream URL and custom domain as strings, and
  authentication, allow-list and validate-request as tri-state booleans.

Modules, one per component:

- `Common`: `Option`, `Result` and the four sentinel errors.
- `OasDocument`: the document, reduced to the parts the engine reads. Each operation keeps
  its declared operationId and the content types of its request body.
- `OperationId`: the operation key. It is the declared operationId, or else a fallback
  built from path and method (`/pets` + `GET` gives `petsGET`). The fallback here keeps
  the path after its leading `/` unchanged. For that transform only, the module proves
  that fallback keys are unique.
- `ServerUrl`: the absolute-URL check and how the upstream URL is resolved, with its three
  URL errors.
- `ConfigParams`: the overrides record and `GetTykExtensionConfigParams`, which reads it
  from a request's query parameters. It is proved to invert the encoding of a query.
- `Security`: `AuthSources.Import`, `SecuritySchemes.Import` (as `ImportScheme`) and the
  specification of `importAuthentication`. The merge is additive, proved as lemmas.
- `Middlewares`: the allow-list and validate-request passes over the document's
  operations, and the `Operations` map they write.
- `Defaults`: the extension as a value, and `BuildDefaultTykExtension` as a function that
  states the merge precedence. The lemmas cover fresh builds, existing extensions,
  errors, preservation and idempotence.
- `Gateway`: the imperative layer.
  - `OAS` holds the document and a reference to the attached extension.
  - `XTykAPIGateway` is the extension object, and its fields are updated in place.
  - `importAuthentication` and the two middleware passes are methods with loops over
    the document's requirements and operations. Each is proved to leave exactly the state
    that the matching `Security`/`Middlewares` function describes.
  - `BuildDefaultTykExtension` calls them in order, with no loop of its own. It is proved
    to leave the state that `Defaults.BuildDefaultTykExtension` describes.
  - The accessors `GetTykExtension` and `SetTykExtension` read and write the attached
    extension. They have no functional counterpart.
- `Scenarios`: the test cases' documents and extensions, built end to end.

Behaviour the tests show, which the model follows:

- Without an upstream override, the first server is always consulted. This holds with an
  existing extension too: an empty existing upstream is filled from it (lines 96-144),
  and its absence or relative form is an error (lines 267-322). A reading in which an
  existing extension skips upstream resolution is contradicted by these tests. The model
  follows the tests.
- Without a listen-path override, the listen path is `/` for a new extension, and an
  existing non-empty one is kept (lines 15-50, 96-144).
- A middleware pass over a document where no operation qualifies leaves an absent
  `Middleware` section absent (lines 884-896).

Choices the model makes where the tests are silent:

- URL errors are reported before anything changes, so a document with no extension stays
  without one. No test reads the extension after a failed build.
- An authentication error (no security requirements) is reported after the server,
  upstream and info fields were applied, and the middleware passes are then skipped.
  No test builds with authentication requested and no requirements.
- When no operation qualifies, a pass also leaves an existing `Middleware` section as it
  was. The tests show only the absent case.
- An attached extension with an empty listen path keeps `""` when there is no override.
  It is not filled with `/`, because `/` is the default only for a new extension. An empty
  name, by contrast, is filled from the title. The tests show only non-empty existing
  listen paths.
- A recognised query key with an empty value, such as `listenPath=` alone, still yields an
  overrides record, with every field unset. It does not yield none. The tests show only
  non-empty values.

## Model

| member | source | states |
|---|---|---|
| OperationId.FallbackKey | apidef/oas/default_test.go:327-332 | the fallback key ends with the method name |
| OperationId.OperationKey | apidef/oas/default_test.go:393-420 | an operation's key is never empty, and without a declared operationId it is the fallback key |
| OperationId.PetsFallbackKeys | apidef/oas/default_test.go:407-420 | `/pets` with GET and POST gives `petsGET` and `petsPOST` |
| OperationId.DeclaredIdTakesPrecedence | apidef/oas/default_test.go:394-406 | a declared operationId is the key verbatim, whatever the path and method |
| OperationId.FallbackKeyInjective | apidef/oas/default_test.go:407-420 | two (path, method) pairs with the same fallback key are the same pair |
| OperationId.UndeclaredKeysUnique | apidef/oas/default_test.go:407-420 | operations without an operationId never share a key unless they are the same (path, method) |
| ServerUrl.IsAbsoluteUrl | apidef/oas/default_test.go:233-296 | an absolute URL starts with a letter and has at least two characters; a string starting with `/` or `:` is never absolute |
| ServerUrl.IsAbsoluteUrlMeansScheme | apidef/oas/default_test.go:233-296 | the left-to-right URL scan accepts exactly the strings with a scheme (a letter, then scheme characters, then ':') |
| ServerUrl.TestedRelativeUrls | apidef/oas/default_test.go:260-295 | `invalid-url` and `/listen-api` are not absolute |
| ServerUrl.TestedAbsoluteUrls | apidef/oas/default_test.go:21-25 | the https URLs used as servers and overrides are absolute |
| ServerUrl.ResolveUpstream | apidef/oas/default_test.go:233-322 | a resolved upstream is always an absolute URL |
| ServerUrl.ResolveUpstreamOk | apidef/oas/default_test.go:15-94 | resolution succeeds exactly when the override (or, without one, the first server) is absolute, and yields that candidate |
| ServerUrl.ResolveUpstreamErrors | apidef/oas/default_test.go:233-322 | a bad override gives InvalidUpstreamURL; without one, no servers gives EmptyServersObject and a relative first server gives InvalidServerURL |
| ConfigParams.ParseBool | apidef/oas/default_test.go:917-931 | exactly "true" parses to true and exactly "false" to false |
| ConfigParams.GetTykExtensionConfigParams | apidef/oas/default_test.go:903-993 | None exactly when no recognised key is present; present strings are copied and absent ones are ""; a present boolean key gives its parsed value and an absent one stays absent; authentication is never set |
| ConfigParams.ExtractIgnoresOtherKeys | apidef/oas/default_test.go:905-993 | two requests that agree on the five recognised keys yield the same overrides, whatever other keys they carry |
| ConfigParams.ExtractRoundTrip | apidef/oas/default_test.go:905-993 | a request whose recognised keys are those built for some overrides yields exactly those overrides, whatever other keys it carries, or None for no overrides |
| ConfigParams.ExtractEmptyValue | apidef/oas/default_test.go:903-993 | a recognised key with an empty value yields an overrides record with nothing set, not None |
| ConfigParams.ExtractAllParams | apidef/oas/default_test.go:905-935 | the five-key request of the first test yields the expected overrides |
| ConfigParams.ExtractSingleParam | apidef/oas/default_test.go:975-993 | a request with only allowList yields overrides with only that field |
| Security.AuthSources.Import | apidef/oas/default_test.go:1212-1235 | the imported slot becomes an enabled, unnamed source; the other two slots are unchanged |
| Security.Supported | apidef/oas/default_test.go:1133-1171 | API-key schemes are imported; HTTP schemes only when bearer with JWT format; other scheme types never |
| Security.SourceOf | apidef/oas/default_test.go:1133-1171 | an API-key scheme's credential sits at its declared location; a JWT bearer token sits in the header |
| Security.ImportToken | apidef/oas/default_test.go:1140-1171 | the token's enabled flag is the requested one; the scheme's slot is an enabled, unnamed source; other slots are kept |
| Security.ImportTokenIdempotent | apidef/oas/default_test.go:1173-1209 | importing a scheme into a token twice equals importing it once |
| Security.ImportScheme | apidef/oas/default_test.go:1133-1210 | a supported scheme creates or updates only the token of its name; an unsupported one changes nothing; other names are untouched |
| Security.ImportNames | apidef/oas/default_test.go:1014-1130 | importing a set of names: the keys are the old ones plus the importable names; other tokens are kept; each imported name has the requested flag and an enabled, unnamed source at its scheme's location |
| Security.ImportAuthentication | apidef/oas/default_test.go:996-1131 | fails with EmptySecurityObject exactly when there are no security requirements; on success the enabled flag is the requested one |
| Security.ImportAuthenticationImportsListed | apidef/oas/default_test.go:1014-1068 | every listed, supported scheme ends as the import of that scheme into its previous token: the requested flag, an enabled, unnamed source at its location, and for a name with no previous token no other source |
| Security.ImportAuthenticationAdditive | apidef/oas/default_test.go:1070-1130 | no token is removed; no source is removed; sources other than the re-imported slot keep their values and names |
| Security.ImportAuthenticationAddsOnlyListed | apidef/oas/default_test.go:1046-1057 | a name that is not listed, or has no supported scheme, gets no token |
| Security.ImportAuthenticationIdempotent | apidef/oas/default_test.go:1070-1130 | importing again into the result of an import gives the same authentication |
| Security.ImportHeaderKeepsCookie | apidef/oas/default_test.go:1173-1209 | a header import onto a token with a named cookie source yields both sources |
| Middlewares.ApplyPass | apidef/oas/default_test.go:505-641 | enabling allow sets allow on and never leaves block on; block is never added; disabling allow keeps block; validation is set with status 400 for both values; each pass touches only its own fields |
| Middlewares.ImportPass | apidef/oas/default_test.go:445-503 | with no qualifying operation the middleware is unchanged; a present section is never removed; the operation keys after a pass are the old keys plus the qualifying operations' keys |
| Middlewares.ImportPassSetsEveryOperation | apidef/oas/default_test.go:445-503 | every qualifying operation's entry, under its key, is the pass applied to its previous entry |
| Middlewares.ImportPassKeepsOthers | apidef/oas/default_test.go:697-712 | an entry no qualifying operation maps to keeps its value, or stays absent |
| Middlewares.ImportPassNilWhenNothingApplies | apidef/oas/default_test.go:884-896 | with no qualifying operation, an absent middleware stays absent |
| Middlewares.ImportPassIdempotent | apidef/oas/default_test.go:714-779 | running a pass twice gives the same middleware as running it once |
| Middlewares.ImportPassCommute | apidef/oas/default_test.go:846-861 | the allow-list and validate-request passes write separate fields of an entry, so they can run in either order with the same result; this is what allows the per-operation import to be split into two passes whose entries carry both fields |
| Defaults.ResolveListenPath | apidef/oas/default_test.go:15-144 | the override wins; a new extension never gets an empty listen path; without an override an existing listen path is kept |
| Defaults.ApplyServerDefaults | apidef/oas/default_test.go:15-231 | the upstream is the resolved URL; the extension is active; listen path and custom domain follow their override or are kept; a non-empty name is kept, else the title is used; authentication and middleware are untouched |
| Defaults.ApplyMiddlewares | apidef/oas/default_test.go:445-896 | without either middleware override the section is unchanged; the passes never remove a section or an operation key |
| Defaults.ApplyMiddlewaresIdempotent | apidef/oas/default_test.go:445-896 | running the build's middleware step twice, with both passes as requested, gives the result of running it once |
| Defaults.BuildDefaultTykExtension | apidef/oas/default_test.go:12-322 | the build fails exactly when upstream resolution fails, with its error; on success the upstream is absolute and the extension active; the import error is EmptySecurityObject, exactly when authentication is requested and there are no security requirements; without an authentication override the section is kept |
| Defaults.FreshBuildDefaults | apidef/oas/default_test.go:15-50 | a new extension without overrides: listen path "/", upstream the first server, name the title, active, no authentication, no middleware |
| Defaults.FreshBuildWithParams | apidef/oas/default_test.go:52-94 | a new extension takes the listen path, upstream and custom domain overrides |
| Defaults.ExistingKeptWithoutParams | apidef/oas/default_test.go:96-144 | an existing extension keeps its server section, middleware and non-empty name, is made active, and an empty upstream is filled from the first server |
| Defaults.ExistingOverriddenByParams | apidef/oas/default_test.go:146-231 | overrides replace the listen path, custom domain and upstream of an existing extension; its name is kept and it is made active |
| Defaults.BuildUrlErrors | apidef/oas/default_test.go:233-322 | the three URL sentinels, and the build fails exactly in those cases |
| Defaults.BuildErrorIndependentOfExtension | apidef/oas/default_test.go:233-322 | whether and how a build fails does not depend on the existing extension |
| Defaults.BuildAuthenticationError | apidef/oas/default_test.go:1003-1012 | requested authentication without security requirements reports EmptySecurityObject and leaves authentication and middleware as they were |
| Defaults.BuildImportsAuthentication | apidef/oas/default_test.go:190-230 | requested authentication sets the section to the import of the document's schemes into the existing one |
| Defaults.AbsentOverridesPreserveState | apidef/oas/default_test.go:643-692 | without the three tri-state overrides, the authentication and middleware are exactly those of before |
| Defaults.BuildRunsAllowList | apidef/oas/default_test.go:445-641 | an allow-list override alone yields the allow-list pass over the existing middleware |
| Defaults.BuildRunsValidateRequest | apidef/oas/default_test.go:697-824 | a validate-request override alone yields the validate-request pass over the existing middleware |
| Defaults.BuildIdempotent | apidef/oas/default_test.go:96-144 | building again from a build's own result with the same inputs gives the same outcome |
| Gateway.XTykAPIGateway.constructor | apidef/oas/default_test.go:1003-1005 | a new extension object is empty |
| Gateway.XTykAPIGateway.ApplyServerDefaults | apidef/oas/default_test.go:96-231 | the object's new contents are the server, upstream and info defaults of the build |
| Gateway.XTykAPIGateway.SetOperation | apidef/oas/default_test.go:393-440 | stores one operation entry and creates the middleware section if absent; nothing else changes |
| Gateway.OAS.constructor | apidef/oas/default_test.go:16-27 | a new document has no extension attached |
| Gateway.OAS.GetTykExtension | apidef/oas/default_test.go:49 | returns the attached extension |
| Gateway.OAS.SetTykExtension | apidef/oas/default_test.go:121 | attaches the given extension |
| Gateway.OAS.ImportPass | apidef/oas/default_test.go:445-896 | after visiting every operation, the extension's middleware is the pass specification; the other fields are unchanged |
| Gateway.OAS.ImportAuthentication | apidef/oas/default_test.go:996-1131 | no security requirements: EmptySecurityObject and nothing changes; otherwise the authentication is the import specification and nothing else changes |
| Gateway.OAS.BuildDefaultTykExtension | apidef/oas/default_test.go:12-322 | on a URL error, returns it with the attachment and extension unchanged; otherwise the attached extension (the same object, or a fresh one) holds the build's specified result and the import error is returned |
| Scenarios.KeepExistingExtension | apidef/oas/default_test.go:96-144 | through the classes, an attached extension built without overrides keeps its listen path and name, is made active and gets the first server as upstream |
| Scenarios.InvalidUpstreamLeavesNoExtension | apidef/oas/default_test.go:260-264 | through the classes, an invalid upstream override on a document without an extension reports InvalidUpstreamURL and, by the model's choice, leaves no extension attached |
| Scenarios.InvalidUpstreamKeepsExistingExtension | apidef/oas/default_test.go:233-265 | through the classes, the test's invalid upstream override over its attached extension reports InvalidUpstreamURL; by the model's choice the same extension stays attached and unchanged |
| Scenarios.PetsAllowList | apidef/oas/default_test.go:445-503 | the allow list on `/pets` without ids writes exactly `petsGET` and `petsPOST` |
| Scenarios.PetsValidateRequest | apidef/oas/default_test.go:731-779 | validation on `/pets` with ids writes only `postPets`, the operation with the JSON body |
| Scenarios.MyAuthImport | apidef/oas/default_test.go:146-172 | the header API-key scheme becomes an enabled token with an unnamed header source |
| Scenarios.OverrideExistingWithAuthentication | apidef/oas/default_test.go:146-231 | the whole extension expected by the override-with-authentication test |
| Scenarios.PetsDeclaredKeys | apidef/oas/default_test.go:393-406 | the `/pets` operations with ids are keyed `getPets` and `postPets` |
| Scenarios.EnableAllowListTogglesBlock | apidef/oas/default_test.go:577-641 | enabling the allow list turns the enabled block of `getPets` off and adds no block to `postPets` |
| Scenarios.PetsAllowOverExisting | apidef/oas/default_test.go:577-641 | the allow-list pass over the existing `getPets`/`postPets` entries gives the expected operations of that test |
| Scenarios.PetsValidateOverExisting | apidef/oas/default_test.go:781-824 | the validate-request pass over the existing `postPets` entry gives the enabled check with status 400 |
| Scenarios.OverrideExistingValidateRequest | apidef/oas/default_test.go:781-824 | an existing validation entry is overwritten with the flag and status 400 |
| Scenarios.ValidateRequestWithoutJsonBodies | apidef/oas/default_test.go:884-896 | with no JSON request bodies, the build leaves the middleware absent |

## Left out

- URL parsing: `IsAbsoluteUrl` checks only the scheme prefix. No host is required, so
  `http:` or `mailto:x` counts as absolute. Other errors a URL parser reports, such as
  bad escapes, bad hosts or a missing host, are not modelled.
- HTTP request construction and query encoding: a request is its map from query keys to
  values, and a repeated key keeps one value.
- ConfigParams.ParseBool: only "true" and "false" are recognised. Other spellings a boolean
  parser may accept ("1", "t", "TRUE") are treated as unparsable, because the tests use
  only the two words.
- The OpenAPI document model: responses, schemas and scopes are dropped. An operation is
  its operationId and the content types of its request body, and a security requirement is
  the set of scheme names it lists.
- OperationId.FallbackKey: the model removes only the leading `/` before appending the
  method name. The path transform for multi-segment paths is not modelled, because the
  tests show only `/pets`. OperationId.FallbackKeyInjective and
  OperationId.UndeclaredKeysUnique hold for this transform, which keeps the inner `/`
  separators. A transform that dropped them could give `/a/b` and `/aB` the same key.
- The state after a failed build is the model's choice: URL errors leave everything as it
  was, and an authentication error leaves server, upstream and info applied. The tests
  check only the error returned.
- An existing, non-empty upstream with no upstream override is replaced by the first
  server in this model. The tests never distinguish this case, and no lemma states it.
- JWT bearer schemes (`http`, `bearer`, `JWT`) are imported as a header source. The tests
  build such a scheme but never register it.
- The error that importing a scheme reports when the name already holds a non-token
  entry, and its logging, are not modelled: the scheme map holds only tokens.
- A requirement name with no entry in the document's scheme registry is skipped.
- `SecuritySchemes.Import` and `AuthSources.Import` change a map and a struct in place.
  Here they are functions that return the updated value, and callers assign it back.
  Sharing of that map between two holders is not captured.
- Fields of the extension the tests do not touch, such as other listen-path settings and
  other middleware kinds, are not modelled.
- Parallel subtests and map iteration order: each pass visits operations in an arbitrary
  order, and the result is proved to be independent of that order.
