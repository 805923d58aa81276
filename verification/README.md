# Renderforest PHP SDK: request signing and request description

This project models the part of the Renderforest PHP SDK that decides what
goes on the wire, and proves properties of that model. It covers four pieces:

- the request signer of `ApiClient`. `setAuthorization` adds the `nonce`,
  `clientid`, `timestamp` and `authorization` headers. The `authorization`
  header is the HMAC-SHA512, under the API key, of the client id, path,
  query string, body, nonce and timestamp, joined with no separator.
  `generateNonce` and `dateNow` supply the nonce and the timestamp.
- the request builders of `ApiClient`. For each remote operation the model
  gives the HTTP method, the `endpoint`, the URI, the JSON body, and whether
  the request is signed.
- the option pipeline of `Request\Http`: defaults merged in with
  `array_replace_recursive`, `appendQueryParams`, `appendURI`,
  `prepareRequest`, `recursiveUnset` of `getAreas`, and `setConfig`.
- the legacy signer `Auth::setAuthorization` in src/lib/auth/Auth.php. The
  pipeline signs through `Renderforest\Auth\Auth::getInstance()`, a class
  that is not part of this model; its flow is modelled with the legacy
  signer, the one `setAuthorization($options, $signKey, $clientId)` the
  repository shows.

Files:

- `php_values.dfy`: PHP values. A PHP array is ordered: it is modelled as
  its key list in insertion order plus a key-to-value map. The file also
  holds assignment (`Put`), `unset` (`Remove`), `isset` and truthiness.
- `php_strings.dfy`: the string conversions the SDK relies on. These are
  `(string)`, `(int)`, `sprintf('%d')` and `substr`.
- `php_foreign.dfy`: the library functions whose internals are not
  modelled. These are `hash_hmac`, `json_encode`, `parse_url` and
  `http_build_query`, passed in as a `Foreign` value, plus the
  `json_encode` flag constants.
- `signing.dfy`: the steps both signers share.
- `api_client.dfy`: `ApiClient`, as a class with the two credentials its
  constructor sets.
- `legacy_auth.dfy`: `Auth::setAuthorization`.
- `request_http.dfy`: `Request\Http`, as a class with the two fields
  `setConfig` replaces.

Clock and random readings are parameters. A `Clock` holds the
`dateNow()` reading inside `generateNonce`, the `rand(10, 99)` value, and
the second `dateNow()` reading that becomes the `timestamp` header.

The model follows the code, including these behaviours:

- The nonce is cut from its own clock reading, not from the timestamp that
  is sent. The two readings can differ.
- With a query string `q`, the API client signs `path?q` as the path and
  then `q` again as the query string.
- A `json` entry that is null counts as unset (`isset`), so it is signed
  as `{}`.
- A URI that does not parse is signed with the path `""`. It is not an
  error.
- The nonce has eight characters only when the millisecond reading has at
  least six digits. A reading of four or five digits keeps only its last
  two or one, because the negative `substr` offset counts from the end.
- `deleteSpecificProjectVideos` without a quality requests `/videos/0`
  (see "## Findings").

## Model

| member | source | states |
|---|---|---|
| PhpValues.Put | src/ApiClient.php:1158-1160 | `$a[$k] = $v`: `k` holds `v` afterwards, every other key keeps its value, an existing key keeps its position and a new key goes last |
| PhpValues.PutValid | src/ApiClient.php:1158-1160 | assignment into a proper array (distinct keys, listed keys exactly the stored ones) gives a proper array |
| PhpValues.Remove | src/Request/Http.php:60 | `unset($a[$k])`: `k` is gone, every other key keeps its value, a proper array stays proper, and the key list is unchanged when `k` was absent and otherwise closes the gap at `k`'s position, the other keys in their order |
| PhpValues.RemoveKeyOrder | src/Request/Http.php:60 | taking a key out of a key list leaves the list alone when the key is absent, and otherwise leaves the keys before it followed by the keys after it |
| PhpStrings.NatToString | src/ApiClient.php:1229-1230 | the decimal text of a number is at least one digit, only digits, and has no leading zero |
| PhpStrings.DecimalRoundTrip | src/ApiClient.php:1229-1230 | reading the decimal text back gives the number |
| PhpStrings.IntToStringInjective | src/ApiClient.php:286-290 | two integers with the same decimal text are equal |
| PhpStrings.NatToStringLength | src/ApiClient.php:1230 | a number has more than `k` digits exactly when it is at least 10^k |
| PhpStrings.Substr | src/ApiClient.php:1230 | `substr($s, $offset)` returns a suffix of `s`: from `offset` when it is in range, that many characters before the end for a negative offset, and all of `s` when the offset is before the start |
| Signing.HashSourceDeterminesBody | src/ApiClient.php:1206-1216 | the hash source is the six inputs in a fixed order with no separator: with the other five fixed, two sources are equal exactly when the body texts are |
| Signing.TimestampString | src/ApiClient.php:1183-1186 | the `timestamp` text is the decimal digits of the millisecond reading |
| Signing.HashSource | src/ApiClient.php:1206-1216 | the text `generateHash` signs: client id, path, query string, body, nonce and timestamp, each converted to a string, with no separator |
| Signing.GenerateHash | src/ApiClient.php:1194-1216 | `generateHash` is HMAC-SHA512 of the hash source under the key |
| Signing.GenerateHashOfSource | src/ApiClient.php:1206-1216 | two hash inputs that concatenate to the same source text get the same hash, however the text is divided among the six parts |
| Signing.GenerateNonce | src/ApiClient.php:1227-1234 | the nonce is a suffix of the reading's text followed by the two digits of the random number; the suffix has six characters for a text of six or more, the whole text for three or fewer, and `6 - length` characters for four or five |
| Signing.NonceDigits | src/ApiClient.php:1227-1234 | a nonce is made of decimal digits only |
| Signing.NonceOfLongReading | src/ApiClient.php:1227-1234 | for a reading of at least six digits the nonce has eight characters, and its first six are the last six of the reading |
| Signing.OrElse | src/ApiClient.php:1167-1168 | `$x ? $x : $y` is `x` whenever `x` is truthy and otherwise `y`; so the result is truthy exactly when one of the two is, and a falsy result is always `y` ("0" counts as empty) |
| Signing.IssetOr | src/ApiClient.php:1157 | `isset($a[$k]) ? $a[$k] : $y` is the stored value when the key is set to something other than null, and `y` otherwise; so the result is null only when `y` is |
| Signing.SignedBody | src/ApiClient.php:1169 | the body input is a string or `false`; it is `false` exactly when the entry is set and fails to encode; a string other than "{}" is the encoding of a set entry |
| Signing.BracesBodyMeansNoBody | src/ApiClient.php:1169 | the body text is "{}" exactly when no body is set or the encoder itself returns "{}" |
| Signing.StampHeaders | src/ApiClient.php:1158-1160 | after the three assignments the headers hold the nonce, client id and timestamp, and every other header is unchanged |
| Signing.Authorize | src/ApiClient.php:1165-1173 | storing the headers back changes only `headers`, which holds the stamped headers plus `authorization` |
| Signing.SignedHeaders | src/ApiClient.php:1157-1173 | a signer's five assignments change only `headers`; in it, every other header keeps its value and the four hold the values assigned |
| Signing.SignedKeys | src/ApiClient.php:1156-1175 | on proper arrays whose headers lack the four, the option keys are kept (`headers` appended when missing) and the headers are the old ones followed by nonce, clientid, timestamp, authorization |
| Signing.StampedValid | src/ApiClient.php:1158-1165 | signing a proper header array gives a proper array |
| Signing.StampedKeys | src/ApiClient.php:1158-1165 | headers without the four gain exactly the four, after the existing ones, in assignment order |
| Signing.ResignKeepsKeys | src/ApiClient.php:1158-1165 | headers that already hold the four keep their key list: values are replaced in place |
| Client.Single | src/ApiClient.php:479-481 | a one-entry literal is a proper array with that one key and value |
| Client.DefaultHeaders | src/ApiClient.php:120-123 | every operation starts from exactly `Accept: application/json` and `User-Agent: renderforest/sdk-php/0.3.13`, in that order |
| Client.Options | src/ApiClient.php:118-129 | an operation's options are a proper array with the keys method, headers, endpoint, uri, then json only when there is a body |
| Client.OptionsEntries | src/ApiClient.php:118-129 | the options hold the operation's method, the default headers, its endpoint, its URI and its body |
| Client.DescriptorHeaders | src/ApiClient.php:1157 | the headers the signer reads from an operation's options are the default headers |
| Client.DefaultHeadersUnsigned | src/ApiClient.php:120-123 | the default headers are none of the four signing headers |
| Client.SignedHeaderOrder | src/ApiClient.php:1158-1165 | a signed operation's header order is Accept, User-Agent, nonce, clientid, timestamp, authorization |
| Client.LanguageQuery | src/ApiClient.php:478-485 | the language query is empty exactly when no language code is given |
| Client.DescribePublic | src/ApiClient.php:487-495 | every static operation is a GET without a body |
| Client.DescribeAccount | src/ApiClient.php:111-1140 | every instance operation is a GET, POST, PATCH or DELETE, and its GET and DELETE requests carry no body |
| Client.DeleteVideosRequest | src/ApiClient.php:278-300 | as written, `deleteSpecificProjectVideos` without a quality sends exactly the request it sends for quality 0, whose URI ends in `/videos/0` |
| Client.PutGiven | src/ApiClient.php:203-205 | `if (false === is_null($x)) $a[k] = $x;` stores a given parameter under `k` (appended when new, in place when `k` exists), and leaves the array exactly as it is when no parameter is given; proper arrays stay proper |
| Client.PutGivenLookup | src/ApiClient.php:203-205 | after the conditional assignment `k` holds the parameter when given and its old value otherwise, and other keys are unchanged |
| Client.FlagParam | src/ApiClient.php:1069-1071 | the flag is present exactly when given, as the word 'true' or 'false' |
| Client.UpdateProjectParams | src/ApiClient.php:201-205 | `updateProject`'s body has the key `customTitle` exactly when a title is given, holding the title |
| Client.UntitledUpdateSignsEmptyArray | src/ApiClient.php:201-218 | without a title the body is `[]`, and it is signed as the encoding of `[]`, not as "{}" |
| Client.RenderPostData | src/ApiClient.php:430-436 | `renderProject`'s body is `quality`, then `watermark` only when a watermark URL is given |
| Client.ProjectListQuery | src/ApiClient.php:1061-1080 | the `$queryParams` of `getAllProjects`, built by six conditional assignments |
| Client.ProjectListChain | src/ApiClient.php:1061-1080 | after the six conditional assignments each name holds its own parameter when given and nothing otherwise |
| Client.ProjectListChainKeys | src/ApiClient.php:1061-1080 | the six conditional assignments append the given names in assignment order |
| Client.ProjectListEntries | src/ApiClient.php:1061-1080 | `getAllProjects`' query holds each given parameter under its own name, the flag as 'true' or 'false' |
| Client.ProjectListLayout | src/ApiClient.php:1061-1080 | the query is a proper array listing the given parameters in the order limit, offset, includeApiProjects, order, orderBy, search |
| Client.UnfilteredProjectListUri | src/ApiClient.php:1082-1083 | with no parameter the URI still ends in `?` followed by the query of the empty array |
| Client.DeleteVideosPathAsWritten | src/ApiClient.php:282-290 | the path as the code computes it: project id, then `/videos/`, then the quality, with 0 when none is given |
| Client.DeleteVideosPath | src/ApiClient.php:282-290 | the corrected path: project id, then `/videos/`, then the quality, or nothing when none is given |
| Client.DeleteVideosNullIsZero | src/ApiClient.php:282-290 | as written, no quality gives the same path as quality 0, ending in `/videos/0` |
| Client.DeleteVideosPathDistinguishes | src/ApiClient.php:282-290 | with the corrected path, two requests have the same path exactly when they ask for the same quality, and it agrees with the code whenever a quality is given |
| Client.SignedPath | src/ApiClient.php:1161-1167 | the signed path is never "0" (a falsy path is signed as ""), and with a truthy query `q` it ends in `?q` |
| Client.SignedQuery | src/ApiClient.php:1162-1168 | the signed query string is either "" or the parsed query, and then a truthy one |
| Client.QueryIsSignedTwice | src/ApiClient.php:1161-1168 | with a truthy query `q` the signed path and query string together are `p?q` followed by `q` |
| Client.FalsyQueryIsNotSigned | src/ApiClient.php:1162-1168 | without a truthy query the query string input is "" and the path is the parsed path, "" when that is falsy |
| Client.DescriptorBody | src/ApiClient.php:1169 | an operation without a body, or with a null body, is signed with "{}"; any other body is signed as its encoding with the slash- and unicode-preserving flags |
| Client.ApiClient.constructor | src/ApiClient.php:103-106 | the client keeps the API key and client id it is given |
| Client.ApiClient.Stamped | src/ApiClient.php:1157-1160 | the stamped headers hold the nonce of the first reading and random number, the constructor's client id, and the second reading as timestamp; other headers are unchanged |
| Client.ApiClient.SigningSource | src/ApiClient.php:1161-1172 | the text the client's `authorization` is the HMAC of: client id, signed path, signed query, body, nonce and timestamp |
| Client.ApiClient.SigningInputSource | src/ApiClient.php:1165-1172 | the nonce and timestamp the hash receives are the ones just stored in the headers, so the hash source is the client id, signed path, query, body, nonce and timestamp |
| Client.ApiClient.SetAuthorization | src/ApiClient.php:1151-1176 | the result's `headers` is an array whose `authorization` is the HMAC-SHA512, under the API key, of the signing source |
| Client.ApiClient.SetAuthorizationHeaders | src/ApiClient.php:1156-1173 | signing changes only `headers`; every header other than the four keeps its value; nonce, clientid and timestamp hold the readings and the constructor's client id |
| Client.ApiClient.SetAuthorizationKeys | src/ApiClient.php:1156-1175 | on proper options whose headers lack the four, the option keys are kept (`headers` appended when missing) and the four headers are appended after the existing ones |
| Client.ApiClient.SignedDescriptorEntries | src/ApiClient.php:1151-1176 | signing an operation's options keeps its method, endpoint, URI and body |
| Client.ApiClient.SignedDescriptorHeaders | src/ApiClient.php:1151-1176 | a signed operation sends both default headers and the nonce, client id and timestamp of the readings |
| Client.ApiClient.SignedDescriptorAuthorization | src/ApiClient.php:1151-1176 | a signed operation's `authorization` is the HMAC of the signing source of its own options |
| Client.ApiClient.SignedDescriptorKeys | src/ApiClient.php:1151-1176 | a signed operation's headers are the two default headers followed by the four signing headers, each once |
| Client.ApiClient.AccountRequest | src/ApiClient.php:118-131 | an instance operation hands Guzzle its options after `setAuthorization`, with an array under `headers` |
| Client.ApiClient.AccountRequestSigned | src/ApiClient.php:118-131 | every instance operation's request carries the constructor's client id and the HMAC of its own signing source |
| Client.ApiClient.PublicRequest | src/ApiClient.php:487-497 | a static operation hands Guzzle a proper options array whose headers are exactly the default headers |
| Client.ApiClient.PublicRequestUnsigned | src/ApiClient.php:487-497 | a static operation sends a GET without a body, with exactly the two default headers and none of the four signing headers |
| LegacyAuth.UriReadingsAgree | src/lib/auth/Auth.php:36 | the legacy signer reads the URI as the API client does: a missing or null URI is "" |
| LegacyAuth.SigningInput | src/lib/auth/Auth.php:36-45 | the legacy hash input: the path and query string are always strings and never "0", the body is a string or `false` |
| LegacyAuth.StampedInput | src/lib/auth/Auth.php:33-45 | the nonce and timestamp passed to the hash are exactly those stored in the headers |
| LegacyAuth.SetAuthorization | src/lib/auth/Auth.php:29-50 | the result's `authorization` header is `generateHash` of the signing input under the signing key |
| LegacyAuth.SetAuthorizationHeaders | src/lib/auth/Auth.php:31-47 | only `headers` changes; other headers survive; nonce and timestamp are the helper's; `clientid` is the `clientId` argument, which is also the client id the hash receives |
| LegacyAuth.SetAuthorizationKeys | src/lib/auth/Auth.php:31-49 | on proper options whose headers lack the four, the option keys are kept (`headers` appended when missing) and the four headers are appended after the existing ones |
| LegacyAuth.FalsyOptionsAreEmpty | src/lib/auth/Auth.php:31-32 | a falsy `options` is signed as `[]`: the result is `headers` alone, holding the four headers |
| LegacyAuth.SignedPathAndQuery | src/lib/auth/Auth.php:36-42 | the signed path is the URL path alone ("" when falsy); the query string is the query, "" when absent or falsy |
| LegacyAuth.SignersDisagreeOnQuery | src/lib/auth/Auth.php:36-42 | for a path `p` and truthy query `q` the legacy signer signs `p` then `q`, the API client `p?q` then `q`, and the two differ |
| LegacyAuth.SignedBodySegment | src/lib/auth/Auth.php:43 | the body is "{}" when `body` is not set, otherwise the default-flag encoding of `body`; it is "{}" exactly when unset or when the encoder returns "{}" |
| RequestHttp.DefaultOptions | src/Request/Http.php:40-46 | the defaults are a proper array of `method` GET and `headers` |
| RequestHttp.DefaultsUnsigned | src/Request/Http.php:40-46 | the default headers carry none of the four signing headers |
| RequestHttp.StripArray | src/Request/Http.php:58-68 | what `recursiveUnset` leaves: `key` is gone and every other key of the array is kept |
| RequestHttp.StripAbsent | src/Request/Http.php:58-68 | after `recursiveUnset` the key is absent at every depth |
| RequestHttp.StripKeepsOthers | src/Request/Http.php:60-65 | `recursiveUnset` keeps every other key, in order: the key list is unchanged when `key` is absent and otherwise loses only `key`'s position; non-array values are kept and nested arrays are stripped in turn |
| RequestHttp.StripWellFormed | src/Request/Http.php:58-68 | stripping keeps proper arrays proper at every depth |
| RequestHttp.StripNoop | src/Request/Http.php:58-68 | a value with no `key` anywhere is left as it is |
| RequestHttp.StripIdempotent | src/Request/Http.php:58-68 | stripping twice equals stripping once |
| RequestHttp.ReplaceRecursive | src/Request/Http.php:157 | `array_replace_recursive` keeps the base's keys at the front, in their order; new keys of the replacement come after them |
| RequestHttp.ReplaceFromLookup | src/Request/Http.php:157 | the replacement's keys from a position on land in the base as merged entries, and other keys keep their base values |
| RequestHttp.ReplaceLookup | src/Request/Http.php:157 | after `array_replace_recursive` a key of the replacement holds its merged entry (arrays merged, anything else replaced), and every other key keeps its base value |
| RequestHttp.ReplaceWellFormed | src/Request/Http.php:157 | merging proper nested arrays gives a proper nested array |
| RequestHttp.AppendQueryParams | src/Request/Http.php:87-100 | `appendQueryParams` changes no entry but `endpoint`, and at most appends `endpoint` to the key list |
| RequestHttp.AppendQueryParamsEffect | src/Request/Http.php:87-100 | only `endpoint` changes, and it changes exactly for a GET with a set, non-empty `qs`, to the old endpoint followed by `?` and the query |
| RequestHttp.AppendUri | src/Request/Http.php:107-113 | `appendURI` stores a string `uri` that starts with the host, and no other entry changes |
| RequestHttp.AppendUriEffect | src/Request/Http.php:107-113 | `uri` becomes the host followed by the endpoint, and nothing else changes |
| RequestHttp.PrepareRequest | src/Request/Http.php:122-128 | a prepared request has a string `uri` that starts with the host; entries other than `endpoint` and `uri` are unchanged |
| RequestHttp.PrepareRequestUri | src/Request/Http.php:122-128 | the prepared `uri` is host and endpoint, plus `?` and the query for a GET with a non-empty `qs`; only `endpoint` and `uri` change |
| RequestHttp.MergedOthers | src/Request/Http.php:155-158 | merging into the defaults leaves every entry but `method` and `headers` as the caller gave it |
| RequestHttp.Prepared | src/Request/Http.php:155-158 | the options both flows prepare keep the caller's entries, except `method`, `headers`, `endpoint` and `uri` |
| RequestHttp.MergedQueryable | src/Request/Http.php:155-158 | merged with the defaults, `method` defaults to GET and `qs` is the caller's, so the options can be prepared |
| RequestHttp.PreparedHeaders | src/Request/Http.php:122-128 | preparing leaves `headers` as the merge left it |
| RequestHttp.CleanedSignable | src/Request/Http.php:172-179 | the prepared, cleaned options are options the legacy signer accepts |
| RequestHttp.CleanedUri | src/Request/Http.php:176-177 | removing `getAreas` leaves the prepared `uri` |
| RequestHttp.Authorized | src/Request/Http.php:172-182 | the authorized flow's options have no top-level `getAreas` and an array under `headers` |
| RequestHttp.AuthorizeAbsent | src/lib/auth/Auth.php:31-49 | signing adds a key nowhere when the options and stored values lack it and it is none of the keys the signer writes |
| RequestHttp.AuthorizedHasNoGetAreas | src/Request/Http.php:172-182 | the authorized flow sends no `getAreas` entry at any depth |
| RequestHttp.AuthorizedUri | src/Request/Http.php:172-182 | the authorized flow sends the prepared URI |
| RequestHttp.AuthorizedIsSigned | src/Request/Http.php:172-182 | the authorized flow sends the configured client id, the helper's nonce and timestamp, and the hash of the cleaned options under the configured key |
| RequestHttp.UnauthorizedKeepsGetAreas | src/Request/Http.php:155-161 | the unauthorized flow keeps the caller's `getAreas` entry |
| RequestHttp.UnauthorizedIsUnsigned | src/Request/Http.php:155-161 | the unauthorized flow adds none of the four signing headers: it carries one only when the caller's own headers do |
| RequestHttp.Http.constructor | src/Request/Http.php:31-35 | the signing key and client id start out null |
| RequestHttp.Http.SetConfig | src/Request/Http.php:75-79 | `setConfig` sets the signing key and client id and nothing else |
| RequestHttp.Http.RecursiveUnset | src/Request/Http.php:58-68 | the loop over the entries leaves exactly `StripArray(a, key)`: `key` removed, remaining keys in order, every nested array stripped |
| RequestHttp.Http.UnauthorizedRequest | src/Request/Http.php:155-161 | the options handed to `request` are the caller's options merged into the defaults, then prepared |
| RequestHttp.Http.AuthorizedRequest | src/Request/Http.php:172-182 | the options handed to `request` are the prepared options with every `getAreas` removed, signed with the configured key and client id |

## Left out

- The HTTP exchange is not modelled. That covers Guzzle's `request`,
  reading the response, decoding the `data` envelope, `intval`, the
  response classes, and `Request\Http::request` (network I/O). The model
  ends with the options handed to Guzzle.
- `hash_hmac`, `json_encode`, `parse_url` and `http_build_query` are
  library functions and are parameters (`Foreign`). Every property holds
  whatever they compute.
- `microtime`, the float `round` in `dateNow`, and `rand` are clock and
  random sources. They are parameters: whole-millisecond readings and a
  number in 10..99.
- Signing.TimestampString: PHP converts the float reading to a string with
  14 significant digits, so a reading of 10^14 ms or more prints in
  exponent form (`1.0E+14`). The model gives the plain digits for every
  reading. That is exact below 10^14 ms, which covers every date before the
  year 5138.
- `Auth_util` (its `generateNonce`, `dateNow` and `generateHash`) is not
  part of this model. The legacy signer takes their results as an
  `AuthUtil` parameter.
- `src/lib/http/Http.php` is not part of this model. It is a legacy
  transport that `Request\Http` supersedes.
- The `Singleton` trait and reading the SDK version from composer.json are
  file I/O. The version is the `sdkVersion` parameter of the `Http`
  constructor.
- RequestHttp.Http.RecursiveUnset: PHP updates the array through a
  reference. The model returns the new array instead, which is what
  `authorizedRequest` goes on to use.
- RequestHttp.Http.RecursiveUnset: requires a proper nested array, since
  every array PHP builds is one.
- RequestHttp.AppendQueryParamsEffect: a `qs` that is set but is not an
  array makes `sizeof` fail in PHP. The model excludes it by precondition
  (`QueryableOptions`) instead of modelling the error.
- Signing.SignableOptions: options that are truthy non-arrays, a `headers`
  that is a string, a number or `true`, and an array `uri` make PHP stop
  with an error. They are excluded by precondition. A `headers` of `false`
  is accepted: PHP turns it into an array on the first assignment, and the
  signer reads it as `[]`.
- RequestHttp.ReplaceLookup: states where values land. The key order is
  stated only as far as `ReplaceRecursive` states it: the base's keys stay
  at the front in their order. The order of the new keys after them is not
  stated.
- RequestHttp.Authorized: `Request\Http` signs with the object
  `Renderforest\Auth\Auth::getInstance()` returns (src/Request/Http.php:12,
  48). That class is not part of this model. The class in
  src/lib/auth/Auth.php is in the global namespace and has no `getInstance`.
  The model assumes the transport's signer computes what
  src/lib/auth/Auth.php computes. `AuthorizedIsSigned`, `AuthorizedUri` and
  `AuthorizedHasNoGetAreas` rest on that assumption.
- PHP's integer keys are represented by their decimal strings. Float
  values are limited to whole numbers, the only floats the SDK produces.
- The six `$queryParams` assignments of `getAllProjects` are stated with
  lemmas over the chain (`ProjectListChain`) rather than written as a
  loop. The source has no loop there.

## Findings

| source | as written | input that shows it | evidently intended | confidence | as-written member | corrected member |
|---|---|---|---|---|---|---|
| src/ApiClient.php:282-290 | a null quality is replaced by `''` and then formatted with `%d`, which turns `''` into `0` | `deleteSpecificProjectVideos(7)` requests `/api/v1/projects/7/videos/0`, the same path as `deleteSpecificProjectVideos(7, 0)` | no quality gives an empty last segment, so "all qualities" and "quality 0" are different requests | not executed | Client.DeleteVideosNullIsZero | Client.DeleteVideosPathDistinguishes |
