/**
 * The device client: its credential resolution, the key-based
 * authentication that stores the device token, the local logout, the token
 * accessors, and the endpoint paths of the device and key-set resources.
 */
module Devices {
  import opened Wire
  import opened Transport

  const DevicesDevPreamble := "/admin/devices/"
  const DevicesUserPreamble := "/api/v/2/devices/"

  const NoCredentialsMessage := "No SystemSecret/SystemKey combo, or DeviceToken found"

  // ---------------------------------------------------------------------------
  // Endpoint paths

  function DevDevicesPath(systemKey: string): string { DevicesDevPreamble + systemKey }
  function UserDevicesPath(systemKey: string): string { DevicesUserPreamble + systemKey }
  function DevDevicePath(systemKey: string, name: string): string { DevicesDevPreamble + systemKey + "/" + name }
  function UserDevicePath(systemKey: string, name: string): string { DevicesUserPreamble + systemKey + "/" + name }
  function KeysetPath(systemKey: string, name: string): string { DevicesDevPreamble + "keys/" + systemKey + "/" + name }
  function ColumnsPath(systemKey: string): string { DevicesDevPreamble + systemKey + "/columns" }
  function KeyAuthPath(systemKey: string): string { DevicesUserPreamble + systemKey + "/auth" }

  /** Splits `prefix + a + "/" + b` back into `a` and `b`, given that `a` contains no '/'. */
  lemma {:induction false} SplitAtFirstSlash(prefix: string, a: string, b: string, a': string, b': string)
    requires '/' !in a && '/' !in a'
    requires prefix + a + "/" + b == prefix + a' + "/" + b'
    ensures a == a' && b == b'
  {
    var s := prefix + a + "/" + b;
    var s' := prefix + a' + "/" + b';
    assert s[|prefix| + |a|] == '/';
    assert s'[|prefix| + |a'|] == '/';
    if |a| < |a'| {
      assert false;
    } else if |a'| < |a| {
      assert false;
    }
    assert a == s[|prefix|..|prefix| + |a|] == a';
    assert b == s[|prefix| + |a| + 1..] == b';
  }

  /** Distinct (system, device) pairs get distinct device endpoints, on both roots. */
  lemma DevicePathsInjective(systemKey: string, name: string, systemKey': string, name': string)
    requires '/' !in systemKey && '/' !in systemKey'
    ensures DevDevicePath(systemKey, name) == DevDevicePath(systemKey', name') ==> systemKey == systemKey' && name == name'
    ensures UserDevicePath(systemKey, name) == UserDevicePath(systemKey', name') ==> systemKey == systemKey' && name == name'
  {
    if DevDevicePath(systemKey, name) == DevDevicePath(systemKey', name') {
      SplitAtFirstSlash(DevicesDevPreamble, systemKey, name, systemKey', name');
    }
    if UserDevicePath(systemKey, name) == UserDevicePath(systemKey', name') {
      SplitAtFirstSlash(DevicesUserPreamble, systemKey, name, systemKey', name');
    }
  }

  /**
   * A device endpoint is its system's collection endpoint plus "/" and the
   * device name, on both roots; the key-auth endpoint is the user-root endpoint
   * of a device named "auth", so only the method and the server tell them apart.
   */
  lemma DevicePathsExtendCollection(systemKey: string, name: string)
    ensures DevDevicePath(systemKey, name) == DevDevicesPath(systemKey) + "/" + name
    ensures UserDevicePath(systemKey, name) == UserDevicesPath(systemKey) + "/" + name
    ensures KeyAuthPath(systemKey) == UserDevicePath(systemKey, "auth")
  {
  }

  /** The column endpoint is the developer-root endpoint of a device named "columns". */
  lemma ColumnsPathIsDevicePath(systemKey: string)
    ensures ColumnsPath(systemKey) == DevDevicesPath(systemKey) + "/columns"
    ensures ColumnsPath(systemKey) == DevDevicePath(systemKey, "columns")
  {
  }

  /** Distinct (system, device) pairs get distinct key-set endpoints. */
  lemma KeysetPathsInjective(systemKey: string, name: string, systemKey': string, name': string)
    requires '/' !in systemKey && '/' !in systemKey'
    ensures KeysetPath(systemKey, name) == KeysetPath(systemKey', name') ==> systemKey == systemKey' && name == name'
  {
    if KeysetPath(systemKey, name) == KeysetPath(systemKey', name') {
      SplitAtFirstSlash(DevicesDevPreamble + "keys/", systemKey, name, systemKey', name');
    }
  }

  // ---------------------------------------------------------------------------
  // The client

  /** The body posted by AuthenticateDeviceWithKey. */
  function KeyAuthBody(name: string, activeKey: string): Json {
    Obj(map["deviceName" := Str(name), "activeKey" := Str(activeKey)])
  }

  /** A response of status 200 whose body is an object with a string "deviceToken". */
  predicate GrantsDeviceToken(resp: Option<CbResp>) {
    && resp.Some?
    && resp.value.StatusCode == 200
    && resp.value.Body.Object?
    && "deviceToken" in resp.value.Body.fields
    && resp.value.Body.fields["deviceToken"].Str?
  }

  /**
   * mapResponse is not part of this model; it stands here as the check every
   * other call makes: errors pass through and any status but 200 is an error.
   */
  function MapResponse(c: Call<CbResp>): (r: Result<CbResp>)
    ensures r.Ok? <==> c.result.Ok? && c.result.value.StatusCode == 200
    ensures r.Ok? ==> r == c.result
  {
    if c.result.Err? then c.result
    else if c.result.value.StatusCode != 200 then Err(StatusNot200("", c.result.value.Body))
    else c.result
  }

  /**
   * The credentials credentials() resolves: the device token when there is
   * one, then the secret and the key when both are set.
   */
  function DeviceCredentials(token: string, key: string, secret: string): (creds: seq<Credential>)
    ensures WellFormed(creds)
    ensures |creds| == 0 <==> token == "" && (key == "" || secret == "")
  {
    (if token != "" then [[DeviceTokenHeader, token]] else [])
    + (if key != "" && secret != "" then [[SystemSecretHeader, secret], [SystemKeyHeader, key]] else [])
  }

  class DeviceClient {
    var DeviceName: string
    var DeviceToken: string
    var ActiveKey: string
    var SystemKey: string
    var SystemSecret: string

    constructor (systemKey: string, systemSecret: string, deviceName: string, activeKey: string)
      ensures SystemKey == systemKey && SystemSecret == systemSecret
      ensures DeviceName == deviceName && ActiveKey == activeKey && DeviceToken == ""
    {
      SystemKey, SystemSecret := systemKey, systemSecret;
      DeviceName, ActiveKey := deviceName, activeKey;
      DeviceToken := "";
    }

    /** credentials(): the device token first, then the secret and the key. */
    method Credentials() returns (ret: seq<Credential>, err: Option<Error>)
      ensures |ret| == (if DeviceToken != "" then 1 else 0) + (if SystemKey != "" && SystemSecret != "" then 2 else 0)
      ensures DeviceToken != "" ==> ret[0] == [DeviceTokenHeader, DeviceToken]
      ensures SystemKey != "" && SystemSecret != "" ==>
        ret[|ret| - 2] == [SystemSecretHeader, SystemSecret] && ret[|ret| - 1] == [SystemKeyHeader, SystemKey]
      ensures err.Some? <==> |ret| == 0
      ensures err.Some? ==> err.value == Precondition(NoCredentialsMessage)
      ensures WellFormed(ret)
      ensures ret == DeviceCredentials(DeviceToken, SystemKey, SystemSecret)
    {
      ret := [];
      if DeviceToken != "" {
        ret := ret + [[DeviceTokenHeader, DeviceToken]];
      }
      if SystemKey != "" && SystemSecret != "" {
        ret := ret + [[SystemSecretHeader, SystemSecret]];
        ret := ret + [[SystemKeyHeader, SystemKey]];
      }
      if |ret| == 0 {
        return [], Some(Precondition(NoCredentialsMessage));
      } else {
        return ret, None;
      }
    }

    method AuthenticateDeviceWithKey(net: Net, systemKey: string, name: string, activeKey: string)
      returns (r: Result<map<string, Json>>, ghost sent: Option<HttpRequest>)
      modifies this`DeviceToken
      // without any credential the call is refused before a request is made
      ensures old(DeviceToken) == "" && (old(SystemKey) == "" || old(SystemSecret) == "") ==>
        r == Err(Precondition(NoCredentialsMessage)) && sent.None?
      // otherwise the POST goes out whenever the body encodes and the request can be made
      ensures sent.Some? <==>
        && (old(DeviceToken) != "" || (old(SystemKey) != "" && old(SystemSecret) != ""))
        && net.marshal(KeyAuthBody(name, activeKey)).Some?
        && net.newRequestOk("POST", net.baseUrl + KeyAuthPath(systemKey))
      // it carries the key-auth body and, as headers, the credentials the client held
      ensures sent.Some? ==>
        sent.value == HttpRequest("POST", net.baseUrl + KeyAuthPath(systemKey), net.marshal(KeyAuthBody(name, activeKey)),
                                  HeaderPairs(DeviceCredentials(old(DeviceToken), old(SystemKey), old(SystemSecret))))
      // it succeeds exactly on a 200 object with a string deviceToken, and stores that token
      ensures r.Ok? <==> sent.Some? && GrantsDeviceToken(Answer(net, sent.value))
      ensures r.Ok? ==> r.value == Answer(net, sent.value).value.Body.fields && r.value["deviceToken"] == Str(DeviceToken)
      ensures r.Err? ==> DeviceToken == old(DeviceToken)
      ensures sent.Some? && Answer(net, sent.value).Some? && !Answer(net, sent.value).value.Body.Object?
              && Answer(net, sent.value).value.StatusCode == 200 ==>
        r == Err(UnexpectedBody(Object(map[])))
    {
      var creds, err := Credentials();
      if err.Some? {
        return Err(err.value), None;
      }
      var c := Do(net, PostRequest(KeyAuthPath(systemKey), Some(KeyAuthBody(name, activeKey))), creds);
      sent := c.sent;
      var resp := MapResponse(c);
      if resp.Err? {
        return Err(resp.error), sent;
      }
      match resp.value.Body {
        case Object(theJewels) =>
          if "deviceToken" in theJewels && theJewels["deviceToken"].Str? {
            DeviceToken := theJewels["deviceToken"].s;
            r := Ok(theJewels);
          } else {
            r := Err(Panicked);
          }
        case _ =>
          // the message formats the zero value of the failed assertion, a nil map, not the response
          r := Err(UnexpectedBody(Object(map[])));
      }
    }

    /** Authenticate(): key authentication with the client's own system key, name and active key. */
    method Authenticate(net: Net) returns (err: Option<Error>, ghost sent: Option<HttpRequest>)
      modifies this`DeviceToken
      ensures old(DeviceToken) == "" && (SystemKey == "" || SystemSecret == "") ==>
        err == Some(Precondition(NoCredentialsMessage)) && sent.None?
      ensures sent.Some? <==>
        && (old(DeviceToken) != "" || (SystemKey != "" && SystemSecret != ""))
        && net.marshal(KeyAuthBody(DeviceName, ActiveKey)).Some?
        && net.newRequestOk("POST", net.baseUrl + KeyAuthPath(SystemKey))
      ensures sent.Some? ==>
        sent.value == HttpRequest("POST", net.baseUrl + KeyAuthPath(SystemKey), net.marshal(KeyAuthBody(DeviceName, ActiveKey)),
                                  HeaderPairs(DeviceCredentials(old(DeviceToken), SystemKey, SystemSecret)))
      ensures err.None? <==> sent.Some? && GrantsDeviceToken(Answer(net, sent.value))
      ensures err.None? ==> Answer(net, sent.value).value.Body.fields["deviceToken"] == Str(DeviceToken)
      ensures err.Some? ==> DeviceToken == old(DeviceToken)
      ensures sent.Some? && Answer(net, sent.value).Some? && !Answer(net, sent.value).value.Body.Object?
              && Answer(net, sent.value).value.StatusCode == 200 ==>
        err == Some(UnexpectedBody(Object(map[])))
    {
      var r;
      r, sent := AuthenticateDeviceWithKey(net, SystemKey, DeviceName, ActiveKey);
      err := if r.Ok? then None else Some(r.error);
    }

    /** Logout() is local: it reports success and contacts nobody. */
    method Logout() returns (err: Option<Error>)
      ensures err.None?
    {
      err := None;
    }

    /** The user devices root, under which key authentication posts. */
    function Preamble(): (p: string)
      ensures p == DevicesUserPreamble
      ensures forall k :: KeyAuthPath(k) == p + k + "/auth"
    {
      DevicesUserPreamble
    }

    /** setToken as written: it stores its argument as the device name. */
    method SetToken(tok: string)
      modifies this`DeviceName
      ensures DeviceName == tok
    {
      DeviceName := tok;
    }

    /** setToken as evidently intended: the argument becomes the device token. */
    method StoreToken(tok: string)
      modifies this`DeviceToken
      ensures GetToken() == tok
    {
      DeviceToken := tok;
    }

    /** The stored device token: the one credentials() sends first. */
    function GetToken(): (t: string)
      reads this
      ensures t == DeviceToken
      ensures t != "" ==> DeviceCredentials(DeviceToken, SystemKey, SystemSecret)[0] == [DeviceTokenHeader, t]
    {
      DeviceToken
    }

    /** The stored key and secret: the pair credentials() sends last, when both are set. */
    function GetSystemInfo(): (r: (string, string))
      reads this
      ensures r == (SystemKey, SystemSecret)
      ensures r.0 != "" && r.1 != "" ==>
        var creds := DeviceCredentials(DeviceToken, SystemKey, SystemSecret);
        creds[|creds| - 2] == [SystemSecretHeader, r.1] && creds[|creds| - 1] == [SystemKeyHeader, r.0]
    {
      (SystemKey, SystemSecret)
    }
  }

  /**
   * setToken followed by getToken does not give the token back: a fresh client
   * whose token is "" keeps "" after setToken("t").
   */
  method SetTokenLosesToken() returns (tok: string, got: string, name: string)
    ensures tok == "t" && got == "" && got != tok && name == tok
  {
    var d := new DeviceClient("key", "secret", "device", "active");
    tok := "t";
    d.SetToken(tok);
    got := d.GetToken();
    name := d.DeviceName;
  }
}
