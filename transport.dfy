/**
 * The request pipeline under every call: `query_to_string`, the request
 * builders `get`, `post`, `put` and `delete`, and `do`, which composes the
 * URL, checks the credential tuples, performs the round trip and sorts the
 * decoded body into one of the shapes of `Payload`.
 *
 * `Dispatch` is the specification of `do`; the method `Do` follows the
 * source step by step (including its loop over the credentials) and is
 * proved equal to it.
 */
module Transport {
  import opened Wire

  // ---------------------------------------------------------------------------
  // query_to_string

  /**
   * `order` lists the keys of `query` in the order Go's `range` happens to
   * visit them: each key exactly once.
   */
  ghost predicate IsIterationOrder(order: seq<string>, query: map<string, string>) {
    && (forall k :: k in order <==> k in query)
    && (forall i, j :: 0 <= i < j < |order| ==> order[i] != order[j])
    && |order| == |query|
  }

  /** The "k=v" pairs of `query`, in the order `order`, separated by '&'. */
  function QueryString(query: map<string, string>, order: seq<string>): string
    requires forall k :: k in order ==> k in query
    decreases |order|
  {
    if |order| == 0 then ""
    else if |order| == 1 then order[0] + "=" + query[order[0]]
    else order[0] + "=" + query[order[0]] + "&" + QueryString(query, order[1..])
  }

  /** What the loop of query_to_string has built after visiting `order`: every pair followed by '&'. */
  function Accumulated(query: map<string, string>, order: seq<string>): string
    requires forall k :: k in order ==> k in query
    decreases |order|
  {
    if |order| == 0 then "" else Accumulated(query, order[..|order| - 1]) + order[|order| - 1] + "=" + query[order[|order| - 1]] + "&"
  }

  /** Go's strings.TrimSuffix. */
  function TrimSuffix(s: string, suffix: string): string {
    if |suffix| <= |s| && s[|s| - |suffix|..] == suffix then s[..|s| - |suffix|] else s
  }

  lemma {:induction false} AccumulatedIsJoinedPlusAmpersand(query: map<string, string>, order: seq<string>)
    requires forall k :: k in order ==> k in query
    requires |order| > 0
    ensures Accumulated(query, order) == QueryString(query, order) + "&"
    decreases |order|
  {
    if |order| > 1 {
      var n := |order|;
      var init := order[..n - 1];
      AccumulatedIsJoinedPlusAmpersand(query, init);
      JoinSnoc(query, init, order[n - 1]);
      assert init + [order[n - 1]] == order;
    } else {
      assert order[..0] == [];
    }
  }

  /** Appending a key to a non-empty order appends "&k=v". */
  lemma {:induction false} JoinSnoc(query: map<string, string>, order: seq<string>, k: string)
    requires forall x :: x in order ==> x in query
    requires k in query && |order| > 0
    ensures QueryString(query, order + [k]) == QueryString(query, order) + "&" + k + "=" + query[k]
    decreases |order|
  {
    var o := order + [k];
    if |order| > 1 {
      assert o[1..] == order[1..] + [k];
      JoinSnoc(query, order[1..], k);
    } else {
      assert o[1..] == [k];
    }
  }

  method QueryToString(query: map<string, string>, order: seq<string>) returns (s: string)
    requires IsIterationOrder(order, query)
    ensures s == QueryString(query, order)
  {
    var qryStr := "";
    var i := 0;
    while i < |order|
      invariant 0 <= i <= |order|
      invariant qryStr == Accumulated(query, order[..i])
    {
      var k := order[i];
      assert order[..i + 1][..i] == order[..i];
      qryStr := qryStr + k + "=" + query[k] + "&";
      i := i + 1;
    }
    assert order[..|order|] == order;
    s := TrimSuffix(qryStr, "&");
    if |order| > 0 {
      AccumulatedIsJoinedPlusAmpersand(query, order);
      var j := QueryString(query, order);
      assert qryStr == j + "&";
      assert qryStr[..|qryStr| - 1] == j;
    }
  }

  /** query_to_string gives "" exactly for the empty (or nil) map. */
  lemma QueryStringEmptyIff(query: map<string, string>, order: seq<string>)
    requires IsIterationOrder(order, query)
    ensures QueryString(query, order) == "" <==> |query| == 0
  {
    if |order| > 0 {
      var s := QueryString(query, order);
      assert s[|order[0]|] == '=';
    }
  }

  /** For a one-key map the order is forced and the result is "key=value". */
  lemma QueryStringSingle(key: string, value: string, order: seq<string>)
    requires IsIterationOrder(order, map[key := value])
    ensures order == [key]
    ensures QueryString(map[key := value], order) == key + "=" + value
  {
    assert order[0] in map[key := value];
  }

  /** Splits `s` at the first `c`: the part before it, and the part after it if there is one. */
  function SplitFirst(s: string, c: char): (r: (string, Option<string>))
    ensures r.1.Some? ==> |r.1.value| < |s|
    decreases |s|
  {
    if |s| == 0 then ("", None)
    else if s[0] == c then ("", Some(s[1..]))
    else
      var (before, after) := SplitFirst(s[1..], c);
      ([s[0]] + before, after)
  }

  lemma {:induction false} SplitFirstAt(a: string, c: char, b: string)
    requires c !in a
    ensures SplitFirst(a + [c] + b, c) == (a, Some(b))
    decreases |a|
  {
    var s := a + [c] + b;
    if |a| > 0 {
      assert s[1..] == a[1..] + [c] + b;
      SplitFirstAt(a[1..], c, b);
      assert [a[0]] + a[1..] == a;
    } else {
      assert s[1..] == b;
    }
  }

  lemma {:induction false} SplitFirstAbsent(a: string, c: char)
    requires c !in a
    ensures SplitFirst(a, c) == (a, None)
    decreases |a|
  {
    if |a| > 0 {
      SplitFirstAbsent(a[1..], c);
      assert [a[0]] + a[1..] == a;
    }
  }

  /** A "k=v" segment read back as a pair; a segment without '=' has the value "". */
  function ParsePair(segment: string): (string, string) {
    var (k, v) := SplitFirst(segment, '=');
    (k, if v.Some? then v.value else "")
  }

  function ParseSegments(s: string): seq<(string, string)>
    decreases |s|
  {
    var (segment, rest) := SplitFirst(s, '&');
    if rest.None? then [ParsePair(segment)] else [ParsePair(segment)] + ParseSegments(rest.value)
  }

  /** Reads a query string back into its pairs, in order: the reference inverse of query_to_string. */
  function ParseQuery(s: string): seq<(string, string)> {
    if s == "" then [] else ParseSegments(s)
  }

  /** The pairs of `query` in the order `order`. */
  function Entries(query: map<string, string>, order: seq<string>): (e: seq<(string, string)>)
    requires forall k :: k in order ==> k in query
    ensures |e| == |order| && forall i :: 0 <= i < |order| ==> e[i] == (order[i], query[order[i]])
  {
    seq(|order|, i requires 0 <= i < |order| => (order[i], query[order[i]]))
  }

  /** Keys without '&' or '=', and values without '&'. */
  ghost predicate Separable(query: map<string, string>) {
    forall k :: k in query ==> '&' !in k && '=' !in k && '&' !in query[k]
  }

  lemma ParseSingle(k: string, v: string)
    requires '=' !in k
    ensures ParsePair(k + "=" + v) == (k, v)
  {
    SplitFirstAt(k, '=', v);
  }

  /**
   * Reading the query string back gives every pair in the order it was
   * written, provided no key holds '&' or '=' and no value holds '&'.
   */
  lemma {:induction false} ParseQueryString(query: map<string, string>, order: seq<string>)
    requires forall k :: k in order ==> k in query
    requires Separable(query)
    ensures ParseQuery(QueryString(query, order)) == Entries(query, order)
    decreases |order|
  {
    if |order| > 0 {
      var k := order[0];
      var segment := k + "=" + query[k];
      ParseSingle(k, query[k]);
      assert '&' !in segment by {
        forall i | 0 <= i < |segment| ensures segment[i] != '&' {
          if i < |k| { assert segment[i] == k[i]; }
          else if i > |k| { assert segment[i] == query[k][i - |k| - 1]; }
        }
      }
      if |order| == 1 {
        SplitFirstAbsent(segment, '&');
      } else {
        var rest := QueryString(query, order[1..]);
        ParseQueryString(query, order[1..]);
        SplitFirstAt(segment, '&', rest);
        assert QueryString(query, order) == segment + "&" + rest;
        assert rest[|order[1]|] == '=';
        assert ParseSegments(rest) == ParseQuery(rest);
        assert Entries(query, order) == [(k, query[k])] + Entries(query, order[1..]);
      }
    }
  }

  // ---------------------------------------------------------------------------
  // do

  predicate WellFormed(creds: seq<Credential>) {
    forall i :: 0 <= i < |creds| ==> |creds[i]| == 2
  }

  /** The headers `do` adds, one per credential, in order; duplicates stay. */
  function HeaderPairs(creds: seq<Credential>): (h: seq<(string, string)>)
    requires WellFormed(creds)
    ensures |h| == |creds|
    ensures forall i :: 0 <= i < |creds| ==> h[i] == (creds[i][0], creds[i][1])
  {
    seq(|creds|, i requires 0 <= i < |creds| => (creds[i][0], creds[i][1]))
  }

  /** base + endpoint, plus "?" + query when the query string is not empty. */
  function ComposeUrl(base: string, endpoint: string, queryString: string): string {
    if queryString == "" then base + endpoint else base + endpoint + "?" + queryString
  }

  /** How `do` turns the bytes it read into the response body. */
  function Classify(raw: Bytes, decoded: Option<Json>): Payload {
    if |raw| == 0 then Absent
    else match decoded
      case Some(Arr(items)) => Array(items)
      case Some(Obj(fields)) => Object(fields)
      case _ => RawText(raw)
  }

  /** The response the network gives to `req`, once `do` has classified its body. */
  function Answer(net: Net, req: HttpRequest): Option<CbResp> {
    match net.roundTrip(req)
    case Received(status, raw) => Some(CbResp(Classify(raw, net.decode(raw)), status))
    case _ => None
  }

  /** The specification of `do`. */
  function Dispatch(net: Net, r: CbReq, creds: seq<Credential>): (c: Call<CbResp>)
    // encoding, request creation and a malformed credential are refused before sending
    ensures c.sent.None? <==>
      || (r.Body.Some? && net.marshal(r.Body.value).None?)
      || !net.newRequestOk(r.Method, ComposeUrl(net.baseUrl, r.Endpoint, r.QueryString))
      || !WellFormed(creds)
    ensures !WellFormed(creds) ==> c.result.Err? && c.sent.None?
    // what is sent is the request exactly as built, with every credential in order
    ensures c.sent.Some? ==>
      && c.sent.value.Method == r.Method
      && c.sent.value.Url == ComposeUrl(net.baseUrl, r.Endpoint, r.QueryString)
      && c.sent.value.Body == (if r.Body.Some? then net.marshal(r.Body.value) else None)
      && |c.sent.value.Header| == |creds|
      && forall i :: 0 <= i < |creds| ==> c.sent.value.Header[i] == (creds[i][0], creds[i][1])
    // a response is returned exactly when the round trip delivered one, status unchanged
    ensures c.result.Ok? <==> c.sent.Some? && Answer(net, c.sent.value).Some?
    ensures c.result.Ok? ==> c.result.value == Answer(net, c.sent.value).value
    // the status is copied unchanged, and an empty body is Absent whatever the status
    ensures c.sent.Some? && net.roundTrip(c.sent.value).Received? ==>
      && c.result.Ok?
      && c.result.value.StatusCode == net.roundTrip(c.sent.value).StatusCode
      && (|net.roundTrip(c.sent.value).Body| == 0 <==> c.result.value.Body == Absent)
  {
    if r.Body.Some? && net.marshal(r.Body.value).None? then Call(Err(EncodingFailed), None)
    else
      var payload := if r.Body.Some? then net.marshal(r.Body.value) else None;
      var url := ComposeUrl(net.baseUrl, r.Endpoint, r.QueryString);
      if !net.newRequestOk(r.Method, url) then Call(Err(RequestCreationFailed), None)
      else if !WellFormed(creds) then Call(Err(InvalidCredential), None)
      else
        var req := HttpRequest(r.Method, url, payload, HeaderPairs(creds));
        match net.roundTrip(req)
        case ConnectError => Call(Err(RequestFailed), Some(req))
        case ReadError => Call(Err(ReadBodyFailed), Some(req))
        case Received(status, raw) => Call(Ok(CbResp(Classify(raw, net.decode(raw)), status)), Some(req))
  }

  method Do(net: Net, r: CbReq, creds: seq<Credential>) returns (c: Call<CbResp>)
    ensures c == Dispatch(net, r, creds)
  {
    var bodyToSend: Option<Bytes> := None;
    if r.Body.Some? {
      var b := net.marshal(r.Body.value);
      if b.None? {
        return Call(Err(EncodingFailed), None);
      }
      bodyToSend := b;
    }
    var url := net.baseUrl + r.Endpoint;
    if r.QueryString != "" {
      url := url + "?" + r.QueryString;
    }
    if !net.newRequestOk(r.Method, url) {
      return Call(Err(RequestCreationFailed), None);
    }
    var header: seq<(string, string)> := [];
    var i := 0;
    while i < |creds|
      invariant 0 <= i <= |creds|
      invariant WellFormed(creds[..i])
      invariant |header| == i
      invariant forall j :: 0 <= j < i ==> header[j] == (creds[j][0], creds[j][1])
    {
      var cred := creds[i];
      if |cred| != 2 {
        assert !WellFormed(creds);
        return Call(Err(InvalidCredential), None);
      }
      header := header + [(cred[0], cred[1])];
      i := i + 1;
    }
    assert creds[..i] == creds;
    assert header == HeaderPairs(creds);
    var req := HttpRequest(r.Method, url, bodyToSend, header);
    var x := net.roundTrip(req);
    match x {
      case ConnectError => c := Call(Err(RequestFailed), Some(req));
      case ReadError => c := Call(Err(ReadBodyFailed), Some(req));
      case Received(status, raw) =>
        if |raw| == 0 {
          c := Call(Ok(CbResp(Absent, status)), Some(req));
        } else {
          var d := net.decode(raw);
          var bod: Payload;
          match d {
            case Some(Arr(items)) => bod := Array(items);
            case Some(Obj(fields)) => bod := Object(fields);
            case _ => bod := RawText(raw);
          }
          c := Call(Ok(CbResp(bod, status)), Some(req));
        }
    }
  }

  /** The body shapes, and which bytes lead to each (both directions). */
  lemma ClassifyCases(raw: Bytes, decoded: Option<Json>)
    ensures Classify(raw, decoded).Absent? <==> |raw| == 0
    ensures Classify(raw, decoded).Object? <==> |raw| > 0 && decoded.Some? && decoded.value.Obj?
    ensures Classify(raw, decoded).Array? <==> |raw| > 0 && decoded.Some? && decoded.value.Arr?
    ensures Classify(raw, decoded).RawText? <==>
      |raw| > 0 && (decoded.None? || !(decoded.value.Obj? || decoded.value.Arr?))
    ensures Classify(raw, decoded).Object? ==> decoded == Some(Obj(Classify(raw, decoded).fields))
    ensures Classify(raw, decoded).Array? ==> decoded == Some(Arr(Classify(raw, decoded).items))
    ensures Classify(raw, decoded).RawText? ==> Classify(raw, decoded).text == raw
  {
  }

  // ---------------------------------------------------------------------------
  // get, post, put, delete

  function GetRequest(endpoint: string, query: map<string, string>, order: seq<string>): (r: CbReq)
    requires IsIterationOrder(order, query)
    ensures r.Method == "GET" && r.Body.None? && r.Endpoint == endpoint
    ensures r.QueryString == "" <==> |query| == 0
  {
    QueryStringEmptyIff(query, order);
    CbReq(None, "GET", endpoint, QueryString(query, order))
  }

  function PostRequest(endpoint: string, body: Option<Json>): CbReq {
    CbReq(body, "POST", endpoint, "")
  }

  function PutRequest(endpoint: string, body: Option<Json>): CbReq {
    CbReq(body, "PUT", endpoint, "")
  }

  /** post and put send their body, encoded, to base + endpoint with no query. */
  lemma BodyRequestsSent(net: Net, endpoint: string, body: Option<Json>, creds: seq<Credential>)
    ensures var c := Dispatch(net, PostRequest(endpoint, body), creds);
      c.sent.Some? ==>
        && c.sent.value.Method == "POST"
        && c.sent.value.Url == net.baseUrl + endpoint
        && c.sent.value.Body == (if body.Some? then net.marshal(body.value) else None)
    ensures var c := Dispatch(net, PutRequest(endpoint, body), creds);
      c.sent.Some? ==>
        && c.sent.value.Method == "PUT"
        && c.sent.value.Url == net.baseUrl + endpoint
        && c.sent.value.Body == (if body.Some? then net.marshal(body.value) else None)
  {
  }

  function DeleteRequest(endpoint: string, query: map<string, string>, order: seq<string>): (r: CbReq)
    requires IsIterationOrder(order, query)
    ensures r.Method == "DELETE" && r.Body.None? && r.Endpoint == endpoint
    ensures r.QueryString == "" <==> |query| == 0
  {
    QueryStringEmptyIff(query, order);
    CbReq(None, "DELETE", endpoint, QueryString(query, order))
  }

  /** A GET or DELETE with no query parameters goes to base + endpoint, with no '?'. */
  lemma NoQueryNoQuestionMark(net: Net, endpoint: string, order: seq<string>, creds: seq<Credential>)
    requires IsIterationOrder(order, map[])
    ensures var c := Dispatch(net, GetRequest(endpoint, map[], order), creds);
      c.sent.Some? ==> c.sent.value.Url == net.baseUrl + endpoint
    ensures var c := Dispatch(net, DeleteRequest(endpoint, map[], order), creds);
      c.sent.Some? ==> c.sent.value.Url == net.baseUrl + endpoint
  {
  }
}
