/**
 * Values that travel between the layers of the client: JSON documents, the
 * request descriptor `CbReq`, the response envelope `CbResp`, the request
 * actually handed to the network, and the errors every call can return.
 *
 * Everything the client cannot compute itself (JSON encoding and decoding,
 * the HTTP library's acceptance of a request, the round trip over the
 * network) is a function value inside `Net`, so that each operation of the
 * model is a deterministic function of its inputs and of that environment.
 */
module Wire {

  newtype byte = x: int | 0 <= x < 256

  type Bytes = seq<byte>

  datatype Option<T> = None | Some(value: T)

  /** A decoded JSON document (Go's `interface{}` after `encoding/json`). */
  datatype Json =
    | Null
    | Bool(b: bool)
    | Num(n: int)
    | Str(s: string)
    | Arr(items: seq<Json>)
    | Obj(fields: map<string, Json>)

  /** The closed set of shapes `do` stores in `CbResp.Body`. */
  datatype Payload =
    | Absent                              // the body had zero bytes (Go: nil)
    | Object(fields: map<string, Json>)   // top-level JSON object
    | Array(items: seq<Json>)             // top-level JSON array
    | RawText(text: Bytes)                // anything else, as the raw bytes

  /** Go's `CbReq`: what a request builder hands to `do`. */
  datatype CbReq = CbReq(Body: Option<Json>, Method: string, Endpoint: string, QueryString: string)

  /** Go's `CbResp`. */
  datatype CbResp = CbResp(Body: Payload, StatusCode: int)

  /** One credential as Go passes it: an inner slice meant to be a (header, value) tuple. */
  type Credential = seq<string>

  /**
   * The request `do` hands to the HTTP client once it has been accepted;
   * `Header` lists the `req.Header.Add` calls in the order they are made.
   */
  datatype HttpRequest = HttpRequest(Method: string, Url: string, Body: Option<Bytes>, Header: seq<(string, string)>)

  /** What the network round trip (`cli.Do` followed by `ioutil.ReadAll`) produced. */
  datatype Exchange =
    | Received(StatusCode: int, Body: Bytes)
    | ConnectError      // cli.Do returned an error
    | ReadError         // ioutil.ReadAll returned an error

  /** The environment of a call: the base URL and the library code the client relies on. */
  datatype Net = Net(
    baseUrl: string,
    marshal: Json -> Option<Bytes>,          // json.Marshal; None is an encoding error
    newRequestOk: (string, string) -> bool,  // http.NewRequest accepts this method and URL
    roundTrip: HttpRequest -> Exchange,      // the network
    decode: Bytes -> Option<Json>)           // the value json.Decoder.Decode leaves in `d` (partial after a type error); None when `d` stays nil

  datatype Error =
    | EncodingFailed                            // "JSON Encoding Error: ..."
    | RequestCreationFailed                     // "Request Creation Error: ..." from http.NewRequest
    | InvalidCredential                         // "Request Creation Error: Invalid credential header supplied"
    | RequestFailed                             // "Error Making Request: ..."
    | ReadBodyFailed                            // "Error Reading Response Body: ..."
    | StatusNot200(context: string, body: Payload)  // "<context><body>"
    | TokenMissing(body: Payload)               // "Token not present i response from platform ..."
    | UnexpectedBody(body: Payload)             // a response of the wrong shape, with the value the message formats
    | Precondition(message: string)             // refused before any request is made
    | Wrapped(context: string, inner: Error)    // fmt.Errorf("<context>%v", err)
    | Panicked                                  // a Go type assertion on the response would panic

  datatype Result<T> = Ok(value: T) | Err(error: Error)

  /** The outcome of one call together with the request it put on the network, if any. */
  datatype Call<T> = Call(result: Result<T>, sent: Option<HttpRequest>)

  const SystemKeyHeader := "ClearBlade-SystemKey"
  const SystemSecretHeader := "ClearBlade-SystemSecret"
  const UserTokenHeader := "ClearBlade-UserToken"
  const DevTokenHeader := "ClearBlade-DevToken"
  const DeviceTokenHeader := "ClearBlade-DeviceToken"
}
