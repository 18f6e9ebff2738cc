/**
 * The data-collection calls: filter encoding for reads and deletes, the
 * update body, the delete precondition and the status check they share.
 * Each call is a function of the environment that returns the outcome and
 * the request it put on the network, if any.
 */
module DataCalls {
  import opened Wire
  import opened Transport
  import opened Escaping

  const DataPreamble := "/api/v/1/data/"
  const MustSupplyQueryMessage := "Must supply a query to delete"

  /** One condition of a filter, opaque to the client. */
  type Condition = map<string, Json>

  /** `[][]map[string]interface{}`: a sequence of OR-groups of conditions. */
  type Filter = seq<seq<Condition>>

  function DataEndpoint(collection: string): string {
    DataPreamble + collection
  }

  function GroupJson(g: seq<Condition>): Json {
    Arr(seq(|g|, i requires 0 <= i < |g| => Obj(g[i])))
  }

  /** The document json.Marshal is given for a filter; a nil filter is `null`. */
  function FilterJson(query: Option<Filter>): Json {
    match query
    case None => Null
    case Some(f) => Arr(seq(|f|, i requires 0 <= i < |f| => GroupJson(f[i])))
  }

  /** Reads a filter back from a JSON document: an array of arrays of objects. */
  function ParseGroup(j: Json): Option<seq<Condition>> {
    if j.Arr? && forall i :: 0 <= i < |j.items| ==> j.items[i].Obj?
    then Some(seq(|j.items|, i requires 0 <= i < |j.items| && j.items[i].Obj? => j.items[i].fields))
    else None
  }

  function ParseFilter(j: Json): Option<Filter> {
    if j.Arr? && forall i :: 0 <= i < |j.items| ==> ParseGroup(j.items[i]).Some?
    then Some(seq(|j.items|, i requires 0 <= i < |j.items| && ParseGroup(j.items[i]).Some? => ParseGroup(j.items[i]).value))
    else None
  }

  /** The encoding of a filter keeps its nesting and its order: parsing it back gives the filter. */
  lemma ParseFilterJson(f: Filter)
    ensures ParseFilter(FilterJson(Some(f))) == Some(f)
  {
    var j := FilterJson(Some(f));
    forall i | 0 <= i < |f| ensures ParseGroup(j.items[i]) == Some(f[i]) {
      assert j.items[i] == GroupJson(f[i]);
      assert ParseGroup(GroupJson(f[i])).value == f[i];
    }
    assert ParseFilter(j).value == f;
  }

  /**
   * The query map getdata and deletedata build: nil for no filter, and one
   * "query" key holding the escaped JSON otherwise.
   */
  function FilterParams(net: Net, query: Option<Filter>): (r: Result<map<string, string>>)
    ensures query.None? ==> r == Ok(map[])
    ensures query.Some? ==> (r.Err? <==> net.marshal(FilterJson(query)).None?)
    ensures r.Err? ==> r.error == EncodingFailed
    ensures r.Ok? && query.Some? ==>
      r.value.Keys == {"query"} && QueryUnescape(r.value["query"]) == net.marshal(FilterJson(query))
  {
    if query.None? then Ok(map[])
    else match net.marshal(FilterJson(query))
      case None => Err(EncodingFailed)
      case Some(b) =>
        UnescapeEscape(b);
        Ok(map["query" := QueryEscape(b)])
  }

  /** The order Go's `range` visits the keys of the filter parameters in (at most one key, so forced). */
  function FilterOrder(query: Option<Filter>): seq<string> {
    if query.None? then [] else ["query"]
  }

  lemma FilterOrderIsIterationOrder(net: Net, query: Option<Filter>)
    requires FilterParams(net, query).Ok?
    ensures IsIterationOrder(FilterOrder(query), FilterParams(net, query).value)
  {
  }

  /** The URL suffix a filter contributes: nothing for nil, "?query=" and the escaped JSON otherwise. */
  function FilterSuffix(net: Net, query: Option<Filter>): string
    requires query.Some? ==> net.marshal(FilterJson(query)).Some?
  {
    if query.None? then "" else "?query=" + QueryEscape(net.marshal(FilterJson(query)).value)
  }

  lemma FilterQueryString(net: Net, endpoint: string, query: Option<Filter>)
    requires FilterParams(net, query).Ok?
    ensures IsIterationOrder(FilterOrder(query), FilterParams(net, query).value)
    ensures ComposeUrl(net.baseUrl, endpoint, QueryString(FilterParams(net, query).value, FilterOrder(query)))
         == net.baseUrl + endpoint + FilterSuffix(net, query)
  {
    FilterOrderIsIterationOrder(net, query);
    var params := FilterParams(net, query).value;
    var qs := QueryString(params, FilterOrder(query));
    if query.Some? {
      var escaped := QueryEscape(net.marshal(FilterJson(query)).value);
      assert params == map["query" := escaped];
      QueryStringSingle("query", escaped, FilterOrder(query));
      assert qs == "query=" + escaped;
      assert FilterSuffix(net, query) == "?" + qs;
      assert ComposeUrl(net.baseUrl, endpoint, qs) == net.baseUrl + endpoint + ("?" + qs);
    } else {
      assert FilterOrder(query) == [];
      assert qs == "";
    }
  }

  /** The filter parameters read back out of the query string: nothing, or the one "query" pair. */
  lemma FilterParamsParse(net: Net, query: Option<Filter>)
    requires FilterParams(net, query).Ok?
    ensures IsIterationOrder(FilterOrder(query), FilterParams(net, query).value)
    ensures ParseQuery(QueryString(FilterParams(net, query).value, FilterOrder(query)))
      == if query.None? then [] else [("query", QueryEscape(net.marshal(FilterJson(query)).value))]
  {
    FilterOrderIsIterationOrder(net, query);
    var params := FilterParams(net, query).value;
    if query.Some? {
      var b := net.marshal(FilterJson(query)).value;
      EscapedIsSafe(b);
      assert Separable(params);
      ParseQueryString(params, FilterOrder(query));
    }
  }

  /** The shared status check: wrap transport errors, and refuse every status but 200 with the body. */
  function Checked(context: string, d: Call<CbResp>): (c: Call<CbResp>)
    ensures c.sent == d.sent
    ensures c.result.Ok? <==> d.result.Ok? && d.result.value.StatusCode == 200
    ensures c.result.Ok? ==> c.result == d.result
    ensures d.result.Ok? && d.result.value.StatusCode != 200 ==> c.result == Err(StatusNot200(context, d.result.value.Body))
    ensures d.result.Err? ==> c.result == Err(Wrapped(context, d.result.error))
  {
    if d.result.Err? then Call(Err(Wrapped(context, d.result.error)), d.sent)
    else if d.result.value.StatusCode != 200 then Call(Err(StatusNot200(context, d.result.value.Body)), d.sent)
    else d
  }

  /** The response `net` gives to the request a call sent. */
  function Response(net: Net, sent: Option<HttpRequest>): Option<CbResp> {
    if sent.Some? then Answer(net, sent.value) else None
  }

  /** insertdata; `data` is None for an untyped nil, which `do` sends with no body. */
  function InsertData(net: Net, creds: seq<Credential>, collection: string, data: Option<Json>): (c: Call<()>)
    // the POST goes out exactly when the data encodes, the request can be made and every credential is a pair
    ensures c.sent.Some? <==>
      && (data.Some? ==> net.marshal(data.value).Some?)
      && net.newRequestOk("POST", net.baseUrl + DataEndpoint(collection))
      && WellFormed(creds)
    ensures c.sent.Some? ==>
      c.sent.value == HttpRequest("POST", net.baseUrl + DataEndpoint(collection),
                                  if data.Some? then net.marshal(data.value) else None, HeaderPairs(creds))
    ensures c.result.Ok? <==> Response(net, c.sent).Some? && Response(net, c.sent).value.StatusCode == 200
    ensures Response(net, c.sent).Some? && Response(net, c.sent).value.StatusCode != 200 ==>
      c.result == Err(StatusNot200("Error inserting: ", Response(net, c.sent).value.Body))
  {
    var d := Checked("Error inserting: ", Dispatch(net, PostRequest(DataEndpoint(collection), data), creds));
    Call(if d.result.Ok? then Ok(()) else Err(d.result.error), d.sent)
  }

  function GetData(net: Net, creds: seq<Credential>, collection: string, query: Option<Filter>): (c: Call<map<string, Json>>)
    ensures query.Some? && net.marshal(FilterJson(query)).None? ==> c == Call(Err(EncodingFailed), None)
    // the GET goes out exactly when the filter encodes, the request can be made and every credential is a pair
    ensures c.sent.Some? <==>
      && (query.Some? ==> net.marshal(FilterJson(query)).Some?)
      && net.newRequestOk("GET", net.baseUrl + DataEndpoint(collection) + FilterSuffix(net, query))
      && WellFormed(creds)
    ensures c.sent.Some? ==>
      c.sent.value == HttpRequest("GET", net.baseUrl + DataEndpoint(collection) + FilterSuffix(net, query), None, HeaderPairs(creds))
    // only a 200 object comes back as data; any other status is an error with the body
    ensures c.result.Ok? <==>
      Response(net, c.sent).Some? && Response(net, c.sent).value.StatusCode == 200 && Response(net, c.sent).value.Body.Object?
    ensures c.result.Ok? ==> c.result.value == Response(net, c.sent).value.Body.fields
    ensures Response(net, c.sent).Some? && Response(net, c.sent).value.StatusCode != 200 ==>
      c.result == Err(StatusNot200("Error getting data: ", Response(net, c.sent).value.Body))
  {
    match FilterParams(net, query)
    case Err(e) => Call(Err(e), None)
    case Ok(qry) =>
      FilterOrderIsIterationOrder(net, query);
      FilterQueryString(net, DataEndpoint(collection), query);
      var d := Checked("Error getting data: ", Dispatch(net, GetRequest(DataEndpoint(collection), qry, FilterOrder(query)), creds));
      if d.result.Err? then Call(Err(d.result.error), d.sent)
      else if d.result.value.Body.Object? then Call(Ok(d.result.value.Body.fields), d.sent)
      else Call(Err(Panicked), d.sent)
  }

  /** The document json.Marshal is given for the changes; a nil map is `null`. */
  function ChangesJson(changes: Option<map<string, Json>>): Json {
    match changes
    case None => Null
    case Some(m) => Obj(m)
  }

  /** The update body: exactly the filter under "query" and the changes under "$set". */
  function UpdateBody(query: Option<Filter>, changes: Option<map<string, Json>>): (j: Json)
    ensures j.Obj? && j.fields.Keys == {"query", "$set"}
    ensures j.fields["query"] == FilterJson(query)
    ensures changes.Some? ==> j.fields["$set"] == Obj(changes.value)
    ensures changes.None? ==> j.fields["$set"] == Null
  {
    Obj(map["query" := FilterJson(query), "$set" := ChangesJson(changes)])
  }

  /** updatedata: a PUT of the update body to the collection. */
  function UpdateData(net: Net, creds: seq<Credential>, collection: string, query: Option<Filter>,
                      changes: Option<map<string, Json>>): (c: Call<()>)
    // the PUT goes out exactly when the update body encodes, the request can be made and every credential is a pair
    ensures c.sent.Some? <==>
      && net.marshal(UpdateBody(query, changes)).Some?
      && net.newRequestOk("PUT", net.baseUrl + DataEndpoint(collection))
      && WellFormed(creds)
    ensures c.sent.Some? ==>
      c.sent.value == HttpRequest("PUT", net.baseUrl + DataEndpoint(collection), net.marshal(UpdateBody(query, changes)), HeaderPairs(creds))
    ensures c.result.Ok? <==> Response(net, c.sent).Some? && Response(net, c.sent).value.StatusCode == 200
    ensures Response(net, c.sent).Some? && Response(net, c.sent).value.StatusCode != 200 ==>
      c.result == Err(StatusNot200("Error updating data: ", Response(net, c.sent).value.Body))
  {
    var d := Checked("Error updating data: ", Dispatch(net, PutRequest(DataEndpoint(collection), Some(UpdateBody(query, changes))), creds));
    Call(if d.result.Ok? then Ok(()) else Err(d.result.error), d.sent)
  }

  function DeleteData(net: Net, creds: seq<Credential>, collection: string, query: Option<Filter>): (c: Call<()>)
    // no filter: refused before any request
    ensures query.None? ==> c == Call(Err(Precondition(MustSupplyQueryMessage)), None)
    ensures query.Some? && net.marshal(FilterJson(query)).None? ==> c == Call(Err(EncodingFailed), None)
    // the DELETE goes out exactly when a filter is given and encodes, the request can be made and every credential is a pair
    ensures c.sent.Some? <==>
      && query.Some?
      && net.marshal(FilterJson(query)).Some?
      && net.newRequestOk("DELETE", net.baseUrl + DataEndpoint(collection) + FilterSuffix(net, query))
      && WellFormed(creds)
    ensures c.sent.Some? ==>
      c.sent.value == HttpRequest("DELETE", net.baseUrl + DataEndpoint(collection) + FilterSuffix(net, query), None, HeaderPairs(creds))
    ensures c.result.Ok? <==> Response(net, c.sent).Some? && Response(net, c.sent).value.StatusCode == 200
    ensures Response(net, c.sent).Some? && Response(net, c.sent).value.StatusCode != 200 ==>
      c.result == Err(StatusNot200("Error deleting data: ", Response(net, c.sent).value.Body))
  {
    if query.None? then Call(Err(Precondition(MustSupplyQueryMessage)), None)
    else match FilterParams(net, query)
      case Err(e) => Call(Err(e), None)
      case Ok(qry) =>
        FilterOrderIsIterationOrder(net, query);
        FilterQueryString(net, DataEndpoint(collection), query);
        var d := Checked("Error deleting data: ", Dispatch(net, DeleteRequest(DataEndpoint(collection), qry, FilterOrder(query)), creds));
        Call(if d.result.Ok? then Ok(()) else Err(d.result.error), d.sent)
  }

  /**
   * What a server reading the URL gets back: unescaping the "query" parameter
   * and decoding its JSON reconstructs the filter exactly, whenever the JSON
   * codec reads back what it wrote.
   */
  lemma FilterParameterRoundTrip(net: Net, f: Filter)
    requires net.marshal(FilterJson(Some(f))).Some?
    requires net.decode(net.marshal(FilterJson(Some(f))).value) == Some(FilterJson(Some(f)))
    ensures FilterParams(net, Some(f)).Ok?
    ensures var text := QueryUnescape(FilterParams(net, Some(f)).value["query"]);
      && text.Some?
      && net.decode(text.value).Some?
      && ParseFilter(net.decode(text.value).value) == Some(f)
  {
    ParseFilterJson(f);
  }

  /** An empty but present filter is sent as "?query=%5B%5D" when the encoder writes "[]". */
  lemma EmptyFilterOnTheWire(net: Net, creds: seq<Credential>, collection: string)
    requires net.marshal(Arr([])) == Some([0x5B, 0x5D])
    ensures var c := GetData(net, creds, collection, Some([]));
      c.sent.Some? ==> c.sent.value.Url == net.baseUrl + DataEndpoint(collection) + "?query=%5B%5D"
  {
    assert FilterJson(Some([])) == Arr([]);
    EscapeEmptyArrayText();
  }

  /** A nil filter adds no parameter: the read goes to the bare collection URL, with no '?' after the base. */
  lemma NilFilterOnTheWire(net: Net, creds: seq<Credential>, collection: string)
    requires '?' !in collection
    ensures var c := GetData(net, creds, collection, None);
      c.sent.Some? ==> c.sent.value.Url == net.baseUrl + DataEndpoint(collection) && '?' !in c.sent.value.Url[|net.baseUrl|..]
  {
    var c := GetData(net, creds, collection, None);
    if c.sent.Some? {
      var u := c.sent.value.Url;
      assert u[|net.baseUrl|..] == DataPreamble + collection;
      assert '?' !in DataPreamble;
    }
  }

  // ---------------------------------------------------------------------------
  // DevClient.UpdateData

  /** DevClient.UpdateData as written: it delegates to getdata, so the changes are dropped. */
  function DevUpdateDataAsWritten(net: Net, creds: seq<Credential>, collection: string, query: Option<Filter>,
                                  changes: Option<map<string, Json>>): (c: Call<()>)
    // a GET without a body goes out, under the same conditions as a read, whatever the changes
    ensures c.sent.Some? <==>
      && (query.Some? ==> net.marshal(FilterJson(query)).Some?)
      && net.newRequestOk("GET", net.baseUrl + DataEndpoint(collection) + FilterSuffix(net, query))
      && WellFormed(creds)
    ensures c.sent.Some? ==>
      c.sent.value == HttpRequest("GET", net.baseUrl + DataEndpoint(collection) + FilterSuffix(net, query), None, HeaderPairs(creds))
    // it reports success exactly when the read would, on a 200 object
    ensures c.result.Ok? <==>
      Response(net, c.sent).Some? && Response(net, c.sent).value.StatusCode == 200 && Response(net, c.sent).value.Body.Object?
    ensures Response(net, c.sent).Some? && Response(net, c.sent).value.StatusCode != 200 ==>
      c.result == Err(StatusNot200("Error getting data: ", Response(net, c.sent).value.Body))
  {
    var g := GetData(net, creds, collection, query);
    Call(if g.result.Ok? then Ok(()) else Err(g.result.error), g.sent)
  }

  /** Whatever the changes, the request DevClient.UpdateData sends is the same GET. */
  lemma DevUpdateDataIgnoresChanges(net: Net, creds: seq<Credential>, collection: string, query: Option<Filter>,
                                    changes: Option<map<string, Json>>, changes': Option<map<string, Json>>)
    ensures DevUpdateDataAsWritten(net, creds, collection, query, changes).sent
         == DevUpdateDataAsWritten(net, creds, collection, query, changes').sent
    ensures var c := DevUpdateDataAsWritten(net, creds, collection, query, changes);
      c.sent.Some? ==> c.sent.value.Method == "GET" && c.sent.value.Body.None?
  {
  }

  /** DevClient.UpdateData as evidently intended: delegate to updatedata. */
  function DevUpdateData(net: Net, creds: seq<Credential>, collection: string, query: Option<Filter>,
                         changes: Option<map<string, Json>>): (c: Call<()>)
    ensures c.sent.Some? <==>
      && net.marshal(UpdateBody(query, changes)).Some?
      && net.newRequestOk("PUT", net.baseUrl + DataEndpoint(collection))
      && WellFormed(creds)
    ensures c.sent.Some? ==>
      c.sent.value == HttpRequest("PUT", net.baseUrl + DataEndpoint(collection), net.marshal(UpdateBody(query, changes)), HeaderPairs(creds))
    ensures c.result.Ok? <==> Response(net, c.sent).Some? && Response(net, c.sent).value.StatusCode == 200
  {
    UpdateData(net, creds, collection, query, changes)
  }
}
