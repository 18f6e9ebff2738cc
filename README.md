# ClearBlade Go SDK: request and identity core, modelled in Dafny

This project models the sequential core of the ClearBlade Go client library.
That core sits under every call to the platform's HTTP API:

- **Identity state of `Client`.** A map of authentication headers, changed in place by
  `AddHeader`, `RemoveHeader`, `SetSystem`, `SetDevToken` and `SetUserToken`. The system key and
  secret are also kept in their own fields, so they survive the switch to a token.
- **Device credential resolution.** `DeviceClient.credentials` turns the device token and the
  system key/secret into an ordered list of (header, value) tuples. It fails when that list
  would be empty.
- **Request dispatch.** `query_to_string` joins the query parameters. The builders `get`, `post`,
  `put` and `delete` make a `CbReq`. `do` composes `base + endpoint [+ "?" + query]`, refuses a
  malformed credential tuple before sending, copies the status code unchanged, and sorts the body
  into Absent / Object / Array / RawText.
- **Data calls.** A nil filter adds no parameter. A present filter, even an empty one, becomes one
  `query` parameter holding the escaped JSON. Update sends `{"query": …, "$set": …}`. Delete
  without a filter fails before any request. Every call treats any status but 200 as an error
  carrying the body.
- **Token transitions.** `authenticate` stores a token only on status 200 with a non-empty token.
  `register` never stores one. The device client stores `deviceToken` after key authentication.
  Its `Logout` is a local no-op.

Files and modules:

| file | module | models |
|---|---|---|
| wire.dfy | `Wire` | JSON values, `CbReq`, `CbResp`, the body shapes, errors, header names, and the environment `Net` |
| escaping.dfy | `Escaping` | `url.QueryEscape` (section 2.1 of RFC 3986, with space as '+') and its inverse |
| identity.dfy | `Identity` | `Client` and its header map, as a class proved against the transition function `Step` |
| transport.dfy | `Transport` | `query_to_string`, `do`, `get`/`post`/`put`/`delete` |
| auth.dfy | `Auth` | `authenticate`, `register`, `logout` |
| devices.dfy | `Devices` | `DeviceClient`, its credentials, key authentication, logout and token accessors, and the device endpoint paths |
| datacalls.dfy | `DataCalls` | `insertdata`, `getdata`, `updatedata`, `deletedata`, and `DevClient.UpdateData` |

How the model treats things that are not pure computation:

- **The network and the JSON library are parameters.** They are function values inside `Net`:
  `marshal` (json.Marshal), `newRequestOk` (whether http.NewRequest accepts the method and URL),
  `roundTrip` (the HTTP exchange and the body read) and `decode` (json.Decoder.Decode of the first
  value).
- **Calls report what they sent.** Every call returns its result together with the request it put
  on the network, if any, so "no request is issued" can be stated and proved.
- **The base URL is a parameter.** `do` reads `c.URL` from a variable that is not in scope in
  utils.go. The model takes the base URL from `Net`; for a `Client` it is `URL`, by default
  `https://platform.clearblade.com`.
- **Credentials are a parameter.** The user and developer clients call `c.creds()`, a method that
  neither they nor the `cbClient` interface provides; the interface declares `credentials()`.
  The model passes the credentials in as a parameter. `register` passes no credentials to `post`,
  so the model uses the empty list.
- **Map iteration order is a parameter.** Go visits map keys in an unspecified order. In
  `query_to_string` that order is the parameter `order`, which lists every key exactly once.
- **`setToken` calls are recorded.** The user and developer `setToken` are not part of this model.
  `authenticate` records the arguments it would pass to `setToken` in `AuthCall.tokenSet`.
- **A failing type assertion is an error.** Where Go would panic on a type assertion of the
  response, the model returns the error `Panicked` and changes no state.

Where the code departs from what its names suggest, the model follows the code:

- `DevClient.UpdateData` delegates to `getdata`, so the changes are never sent (see Findings).
- `DeviceClient.setToken` writes `DeviceName`.
- A nil filter or a nil `changes` map in `updatedata` is marshalled as JSON `null`.
- When key authentication gets a 200 response whose body is not an object, the error formats `theJewels`, the nil map the failed type assertion leaves, so it reports `map[]` and not the response; `UnexpectedBody(Object(map[]))` models that.
- An untyped nil `data` in `insertdata` is posted with no body, as `do` skips the encoding when the body is nil.

## Model

| member | source | states |
|---|---|---|
| `Identity.Client.constructor` | utils.go:175-182 | a new client has the default platform URL, no headers, and an empty system key and secret |
| `Identity.Client.AddHeader` | utils.go:184-186 | afterwards `GetHeader(key)` is `value`, and every other key reads exactly as before |
| `Identity.Client.RemoveHeader` | utils.go:188-190 | afterwards `GetHeader(key)` is "", and every other key reads exactly as before |
| `Identity.Client.GetHeader` | utils.go:192-195 | a set header reads as its value and a missing one as "" |
| `Identity.Client.GetSystemInfo` | utils.go:218-222 | the key and secret are read from their headers, not from the stored fields, so each reads "" once its header is gone |
| `Identity.Client.GetUserToken` | utils.go:224-227 | the user-token header's value, or "" when it is not set |
| `Identity.Client.GetDevToken` | utils.go:229-232 | the dev-token header's value, or "" when it is not set |
| `Identity.Client.SetSystem` | utils.go:197-202 | `GetSystemInfo()` returns `(key, secret)`, the `SystemKey`/`SystemSecret` fields hold them, and the token headers are untouched |
| `Identity.Client.SetDevToken` | utils.go:204-209 | `GetDevToken()` is the token; the SystemKey, SystemSecret and UserToken headers are absent, so their getters return ""; the stored key and secret fields are unchanged |
| `Identity.Client.SetUserToken` | utils.go:211-216 | `GetUserToken()` is the token; the SystemKey, SystemSecret and DevToken headers are absent, so their getters return ""; the stored key and secret fields are unchanged |
| `Identity.IdentityOpsKeepTokensExclusive` | utils.go:197-216 | along any run of SetSystem/SetDevToken/SetUserToken, the user-token and dev-token headers are never both present |
| `Identity.SystemFieldsOnlyChangedBySetSystem` | utils.go:197-216 | no operation other than SetSystem changes the stored `SystemKey`/`SystemSecret` fields |
| `Identity.TokenSwitchKeepsSystemFields` | utils.go:155-216 | after SetSystem and any token switches, the key/secret headers are gone but the fields still hold what SetSystem set |
| `Identity.LastTokenWins` | utils.go:204-216 | after a run of token switches, the last token chosen is in its header and the other token header is absent |
| `Escaping.UnescapeEscape` | datacalls.go:47 | escaping the filter JSON is lossless: unescaping gives back the same bytes |
| `Escaping.EscapedIsSafe` | datacalls.go:47 | the escaped text holds only unreserved characters, '%' and '+', so never '&', '=', '?' or '#' |
| `Escaping.EscapeEmptyArrayText` | datacalls.go:47 | the text "[]" escapes to "%5B%5D" |
| `Transport.QueryToString` | utils.go:345-351 | the loop followed by TrimSuffix produces exactly the "k=v" pairs in iteration order joined by '&', with no trailing '&' |
| `Transport.QueryStringEmptyIff` | utils.go:345-351 | the result is "" if and only if the map is empty (or nil) |
| `Transport.QueryStringSingle` | utils.go:345-351 | a one-key map yields exactly "key=value", whatever the iteration order |
| `Transport.ParseQueryString` | utils.go:345-351 | when keys hold no '&' or '=' and values no '&', splitting the result on '&' and '=' gives back every pair in order |
| `Transport.Dispatch` | utils.go:234-303 | nothing is sent when body encoding, request creation or any credential tuple of length other than 2 fails; what is sent has the built method, URL and encoded body, and one header `Add` per tuple, in the order of the tuples; a delivered response comes back with its status unchanged and its body classified; an empty body is Absent whatever the status |
| `Transport.Do` | utils.go:234-303 | the step-by-step version, with its loop over the credentials, computes exactly `Dispatch` |
| `Transport.ClassifyCases` | utils.go:276-298 | zero bytes give Absent; a decoded object gives Object and an array gives Array, holding the decoded value; no decoded value (`d` left nil, as after a syntax error) or a top-level scalar gives RawText holding the raw bytes, while a partial array or map that a type error leaves in `d` is kept; each shape occurs exactly in its case |
| `Transport.GetRequest` | utils.go:305-313 | a GET with no body, with a query string that is empty exactly when the parameter map is empty |
| `Transport.DeleteRequest` | utils.go:335-343 | a DELETE with no body, with a query string that is empty exactly when the parameter map is empty |
| `Transport.BodyRequestsSent` | utils.go:315-333 | post and put send the encoded body to base + endpoint with their own method and no query |
| `Transport.NoQueryNoQuestionMark` | utils.go:245-248 | with an empty parameter map, a GET or DELETE goes to base + endpoint exactly |
| `Auth.ExtractToken` | utils.go:76-82 | the user client reads `user_token` and the developer client `dev_token`, and gets a token exactly when the body is an object holding a string in that field; any other client gets ""; otherwise the assertion panics |
| `Auth.Authenticate` | utils.go:64-88 | the POST of the username and password to `<preamble>/auth`, with one header per credential, is sent exactly when the login encodes, the request can be made and every credential is a pair; setToken is called at most once, exactly when the call succeeds, and that is on status 200 with a non-empty token; any other status is an error carrying the body; an unknown client type always fails |
| `Auth.Register` | utils.go:90-114 | the POST to `<preamble>/reg` with no credential headers is sent exactly when the login encodes and the request can be made; setToken is never called; it succeeds exactly when the response is 200 with a non-empty token |
| `Auth.Logout` | utils.go:116-125 | the bodiless POST to `<preamble>/logout`, with one header per credential, is sent exactly when the request can be made and every credential is a pair; it succeeds exactly on status 200 |
| `Devices.DeviceClient.Credentials` | devicecalls.go:350-375 | the length is (token≠"" ? 1 : 0) + (key≠"" ∧ secret≠"" ? 2 : 0); the device-token pair comes first; the secret pair then the key pair come last, and only when both are set; every tuple has two elements; an error comes exactly with an empty list; the list is `DeviceCredentials` of the three fields |
| `Devices.DeviceCredentials` | devicecalls.go:350-375 | the resolved credentials are well-formed pairs, and the list is empty exactly when there is no token and the key or the secret is missing |
| `Devices.DeviceClient.AuthenticateDeviceWithKey` | devicecalls.go:146-166 | with no credentials it fails with the fixed message and sends nothing; otherwise the POST of `{deviceName, activeKey}` to `/api/v/2/devices/<systemKey>/auth` is sent exactly when the body encodes and the request can be made, and its headers are the credentials the client held; it succeeds exactly on a 200 object with a string `deviceToken`, and then stores that token; a 200 non-object body is an unexpected-body error carrying an empty map, the zero value that devicecalls.go:160-162 formats in place of the response; on every error the token is unchanged |
| `Devices.MapResponse` | devicecalls.go:156 | a call succeeds exactly when a response arrived with status 200, and then the response is passed through unchanged |
| `Devices.DeviceClient.Authenticate` | devicecalls.go:381-384 | key authentication with the client's own system key, device name and active key: the same refusal when no credential is held, the same POST with the held credentials as headers, the same token rule and the same unexpected-body error |
| `Devices.DeviceClient.Logout` | devicecalls.go:386-388 | always reports success, and it modifies nothing |
| `Devices.DeviceClient.SetToken` | devicecalls.go:398-400 | as written: the argument becomes `DeviceName`, and `DeviceToken` is untouched |
| `Devices.SetTokenLosesToken` | devicecalls.go:398-404 | after setToken("t") on a client whose token is "", getToken() still returns "" |
| `Devices.DeviceClient.StoreToken` | devicecalls.go:398-404 | corrected setToken: getToken() afterwards returns the argument |
| `Devices.DeviceClient.Preamble` | devicecalls.go:394-396 | the device client's preamble is the user devices root `/api/v/2/devices/`, the root of the key-authentication path |
| `Devices.DeviceClient.GetToken` | devicecalls.go:402-404 | returns the `DeviceToken` field, which setToken as written never writes; a non-empty token is the first credential `credentials()` returns |
| `Devices.DeviceClient.GetSystemInfo` | devicecalls.go:406-408 | returns the stored `(SystemKey, SystemSecret)` fields, not headers; when both are set they are the last two credentials `credentials()` returns, secret then key |
| `Devices.DevicePathsInjective` | devicecalls.go:65-102 | developer paths are `/admin/devices/<key>/<name>` and user paths `/api/v/2/devices/<key>/<name>`; when system keys hold no '/', distinct (key, name) pairs give distinct paths |
| `Devices.DevicePathsExtendCollection` | devicecalls.go:14-155 | a device endpoint is the system's collection endpoint (`GetDevices`) plus "/" and the name, on both roots; the key-auth endpoint is the user-root endpoint of a device named "auth" |
| `Devices.ColumnsPathIsDevicePath` | devicecalls.go:293-337 | the column endpoint is the developer collection endpoint plus "/columns", the same path as a device named "columns" |
| `Devices.KeysetPathsInjective` | devicecalls.go:239-250 | key-set paths are `/admin/devices/keys/<key>/<name>`; distinct (key, name) pairs give distinct paths when keys hold no '/' |
| `DataCalls.ParseFilterJson` | datacalls.go:40-48 | the JSON document of a filter keeps its AND/OR nesting and order: reading it back gives the filter |
| `DataCalls.FilterParams` | datacalls.go:41-51 | a nil filter gives no parameters; a present one gives exactly one key, `query`, whose value unescapes to the marshalled JSON; a marshal failure is an encoding error |
| `DataCalls.FilterQueryString` | datacalls.go:41-52 | the URL gets no suffix for a nil filter and "?query=" followed by the escaped JSON otherwise |
| `DataCalls.FilterParamsParse` | datacalls.go:41-52 | reading the query string back gives no pairs for a nil filter and exactly the one `query` pair otherwise |
| `DataCalls.FilterParameterRoundTrip` | datacalls.go:43-48 | when the JSON codec reads back what it writes, unescaping and decoding the `query` value reconstructs the filter exactly |
| `DataCalls.EmptyFilterOnTheWire` | datacalls.go:41-52 | an empty but present filter is sent as "?query=%5B%5D" |
| `DataCalls.NilFilterOnTheWire` | datacalls.go:49-52 | a nil filter sends the read to the bare collection URL, with no '?' |
| `DataCalls.InsertData` | datacalls.go:21-30 | the POST of the data (no body for a nil one) to `/api/v/1/data/<id>`, with one header per credential, is sent exactly when the data encodes, the request can be made and every credential is a pair; it succeeds exactly on status 200, and any other status is an error carrying the body |
| `DataCalls.GetData` | datacalls.go:40-60 | a filter that does not encode fails and sends nothing; the bodiless GET to the collection plus the filter suffix, with one header per credential, is sent exactly when the filter encodes (or is nil), the request can be made and every credential is a pair; the data comes back exactly on a 200 object; any other status is an error carrying the body |
| `DataCalls.UpdateBody` | datacalls.go:70-74 | the update body has exactly two keys: `query`, bound to the filter, and `$set`, bound to the changes object, or to `null` for nil changes |
| `DataCalls.UpdateData` | datacalls.go:70-83 | the PUT of the update body to `/api/v/1/data/<id>`, with one header per credential, is sent exactly when the body encodes, the request can be made and every credential is a pair; it succeeds exactly on status 200, and any other status is an error carrying the body |
| `DataCalls.DeleteData` | datacalls.go:93-113 | a nil filter returns "Must supply a query to delete" and sends nothing; the bodiless DELETE carrying the filter parameter, with one header per credential, is sent exactly when a filter is given and encodes, the request can be made and every credential is a pair; it succeeds exactly on status 200, and any other status is an error carrying the body |
| `DataCalls.DevUpdateDataAsWritten` | datacalls.go:66-68 | as written, DevClient.UpdateData sends the bodiless GET of a read, under the same conditions, and reports success exactly on a 200 object; the changes never reach the network |
| `DataCalls.DevUpdateDataIgnoresChanges` | datacalls.go:66-68 | the request it sends is a GET without a body, identical whatever the changes are |
| `DataCalls.DevUpdateData` | datacalls.go:66-68 | corrected: the PUT of the update body, with the changes under `$set`, is sent exactly when that body encodes, the request can be made and every credential is a pair; it succeeds exactly on status 200 |

## Left out

- The HTTP round trip (`http.NewRequest`, `cli.Do`, `ioutil.ReadAll`, `resp.Body.Close`): this is network I/O. It is the `roundTrip` and `newRequestOk` parameters, and the model says nothing about releasing the connection.
- `encoding/json` marshalling and decoding: these are the `marshal` and `decode` parameters. No JSON parser or printer is modelled. JSON numbers are integers, and Go's nil slices and maps nested inside a filter or changes map are not distinguished from empty ones (a nil filter, nil changes and nil data at the top level are).
- `_HEADER_SECRET_KEY` and `_HEADER_KEY_KEY`, used by `DeviceClient.credentials` (devicecalls.go:360,364), are not defined in the files this model covers; the model takes them to be "ClearBlade-SystemSecret" and "ClearBlade-SystemKey", the names `SetSystem` uses.
- What `json.Decoder.Decode` leaves in `d`: `decode` returns it as given, so a partial value after a type error (for example `[nil]` for `[1e400]`) is whatever the parameter says; the model does not compute it.
- Header key canonicalisation by `req.Header.Add`: header names are kept as given.
- Header order across names: `req.Header` is a map keyed by the canonical name, so only the order of values under one name survives into the request; `HttpRequest.Header` lists the `Add` calls in order, and `roundTrip` may see an order the Go request does not have.
- `mapResponse`: it is called in devicecalls.go but not part of this model. `Devices.MapResponse` stands in for it with the status check every other call makes: errors pass through, and any status but 200 is an error.
- The `cbClient` implementations of the user and developer clients (`credentials`, `authInfo`, `preamble`, `setToken`, `getToken`, `getKeySecret`): they are not part of this model. Their results are parameters of the `Auth` functions.
- The call-site mismatches that keep the source from compiling: `get`/`post`/`put`/`delete` called with five arguments in devicecalls.go; `c.creds()`; `UserClient.UpdateData` calling `getdata` with four arguments; the `DeleteData` wrappers returning the single error of `deletedata` as two values; `DevClient.UpdateData` returning the two results of `getdata` as one `error`. Each worker is modelled as its own body is written.
- Device and key-set CRUD wrappers (GetDevices, GetDevice, CreateDevice, DeleteDevice, UpdateDevice, GetKeyset, GenerateKeyset, RotateKeyset, DeleteKeyset) and the device-column calls: they are thin callers. Only their endpoint paths are modelled (`DevDevicesPath`, `UserDevicesPath`, `DevDevicePath`, `UserDevicePath`, `KeysetPath`, `ColumnsPath`), with the lemmas relating them.
- MQTT, `getMessageId`, `getMqttAddr`, `getHttpAddr` and the `math/rand` source: these involve concurrency and randomness.
- The exact text of the error messages: errors are a datatype. It keeps the fixed messages ("Must supply a query to delete", "No SystemSecret/SystemKey combo, or DeviceToken found"), the context prefixes, and the value each domain error formats.
- A `Client` built without `NewClient` has a nil header map, and `AddHeader` on it panics. The model always has a map.
- Concurrent use of one client instance: the source does not synchronise it. The model is sequential.

## Findings

| source | as written | input that shows it | evidently intended | confidence | as-written member | corrected member |
|---|---|---|---|---|---|---|
| devicecalls.go:398-400 | `setToken` assigns its argument to `DeviceName` | `setToken("t")` on a client whose token is "", then `getToken()` returns "" | assign `DeviceToken`, which `getToken` returns | not executed; high | `Devices.SetTokenLosesToken` | `Devices.DeviceClient.StoreToken` |
| datacalls.go:66-68 | `DevClient.UpdateData` calls `getdata(d, collection_id, query)`, so `changes` is never used | any call: a GET with the filter is sent, identical for every `changes` | call `updatedata(d, collection_id, query, changes)`, a PUT with `{"query", "$set"}` | not executed; high | `DataCalls.DevUpdateDataIgnoresChanges` | `DataCalls.DevUpdateData` |
