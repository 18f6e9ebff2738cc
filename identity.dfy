/**
 * The identity state of `Client`: a map of authentication headers that is
 * changed in place, and the system key and secret kept beside it so that
 * they survive the switch to a token (the MQTT client needs them).
 *
 * `IdentityState` is the abstract value of a `Client`; `Step` says what each
 * operation does to it.  The class methods are proved against `Step`, and
 * the lemmas at the end are about `Step` and about runs of operations.
 */
module Identity {
  import opened Wire

  const DefaultUrl := "https://platform.clearblade.com"

  datatype IdentityState = IdentityState(Headers: map<string, string>, SystemKey: string, SystemSecret: string)

  /** Go's `s, _ := m[key]`: the value, or "" when the key is absent. */
  function Lookup(headers: map<string, string>, key: string): string {
    if key in headers then headers[key] else ""
  }

  /** The operations of `Client` that change its identity state. */
  datatype HeaderOp =
    | Put(key: string, value: string)          // AddHeader
    | Drop(key: string)                        // RemoveHeader
    | UseSystem(key: string, secret: string)   // SetSystem
    | UseDevToken(tok: string)                 // SetDevToken
    | UseUserToken(tok: string)                // SetUserToken

  function Step(s: IdentityState, op: HeaderOp): IdentityState {
    match op
    case Put(k, v) => s.(Headers := s.Headers[k := v])
    case Drop(k) => s.(Headers := s.Headers - {k})
    case UseSystem(k, secret) =>
      IdentityState(s.Headers[SystemKeyHeader := k][SystemSecretHeader := secret], k, secret)
    case UseDevToken(t) =>
      s.(Headers := (s.Headers - {SystemKeyHeader, SystemSecretHeader, UserTokenHeader})[DevTokenHeader := t])
    case UseUserToken(t) =>
      s.(Headers := (s.Headers - {SystemKeyHeader, SystemSecretHeader, DevTokenHeader})[UserTokenHeader := t])
  }

  /** The state after applying `ops` in order. */
  function Run(s: IdentityState, ops: seq<HeaderOp>): IdentityState
    decreases |ops|
  {
    if |ops| == 0 then s else Run(Step(s, ops[0]), ops[1..])
  }

  class Client {
    var URL: string
    var Headers: map<string, string>
    var SystemKey: string
    var SystemSecret: string

    function State(): IdentityState
      reads this
    {
      IdentityState(Headers, SystemKey, SystemSecret)
    }

    /** NewClient: the default platform URL and no headers. */
    constructor ()
      ensures URL == DefaultUrl && Headers == map[] && SystemKey == "" && SystemSecret == ""
    {
      URL := DefaultUrl;
      Headers := map[];
      SystemKey, SystemSecret := "", "";
    }

    /** A header that is not set reads as "". */
    function GetHeader(key: string): (v: string)
      reads this
      ensures key in Headers ==> v == Headers[key]
      ensures key !in Headers ==> v == ""
    {
      Lookup(Headers, key)
    }

    method AddHeader(key: string, value: string)
      modifies this`Headers
      ensures State() == Step(old(State()), Put(key, value))
      ensures GetHeader(key) == value
      ensures forall k :: k != key ==> GetHeader(k) == old(GetHeader(k))
    {
      Headers := Headers[key := value];
    }

    method RemoveHeader(key: string)
      modifies this`Headers
      ensures State() == Step(old(State()), Drop(key))
      ensures GetHeader(key) == ""
      ensures forall k :: k != key ==> GetHeader(k) == old(GetHeader(k))
    {
      Headers := Headers - {key};
    }

    method SetSystem(key: string, secret: string)
      modifies this`Headers, this`SystemKey, this`SystemSecret
      ensures State() == Step(old(State()), UseSystem(key, secret))
      ensures GetSystemInfo() == (key, secret) && SystemKey == key && SystemSecret == secret
      ensures GetUserToken() == old(GetUserToken()) && GetDevToken() == old(GetDevToken())
    {
      SystemKey := key;
      SystemSecret := secret;
      AddHeader(SystemKeyHeader, key);
      AddHeader(SystemSecretHeader, secret);
    }

    method SetDevToken(tok: string)
      modifies this`Headers
      ensures State() == Step(old(State()), UseDevToken(tok))
      ensures GetDevToken() == tok && GetUserToken() == "" && GetSystemInfo() == ("", "")
      ensures SystemKey == old(SystemKey) && SystemSecret == old(SystemSecret)
    {
      RemoveHeader(SystemKeyHeader);
      RemoveHeader(SystemSecretHeader);
      RemoveHeader(UserTokenHeader);
      AddHeader(DevTokenHeader, tok);
      assert Headers == (old(Headers) - {SystemKeyHeader, SystemSecretHeader, UserTokenHeader})[DevTokenHeader := tok];
    }

    method SetUserToken(tok: string)
      modifies this`Headers
      ensures State() == Step(old(State()), UseUserToken(tok))
      ensures GetUserToken() == tok && GetDevToken() == "" && GetSystemInfo() == ("", "")
      ensures SystemKey == old(SystemKey) && SystemSecret == old(SystemSecret)
    {
      RemoveHeader(SystemKeyHeader);
      RemoveHeader(SystemSecretHeader);
      RemoveHeader(DevTokenHeader);
      AddHeader(UserTokenHeader, tok);
      assert Headers == (old(Headers) - {SystemKeyHeader, SystemSecretHeader, DevTokenHeader})[UserTokenHeader := tok];
    }

    /**
     * The key and secret as the headers hold them, not the stored fields:
     * once a token has replaced them, both read as "".
     */
    function GetSystemInfo(): (r: (string, string))
      reads this
      ensures SystemKeyHeader in Headers ==> r.0 == Headers[SystemKeyHeader]
      ensures SystemKeyHeader !in Headers ==> r.0 == ""
      ensures SystemSecretHeader in Headers ==> r.1 == Headers[SystemSecretHeader]
      ensures SystemSecretHeader !in Headers ==> r.1 == ""
    {
      (GetHeader(SystemKeyHeader), GetHeader(SystemSecretHeader))
    }

    function GetUserToken(): (t: string)
      reads this
      ensures UserTokenHeader in Headers ==> t == Headers[UserTokenHeader]
      ensures UserTokenHeader !in Headers ==> t == ""
    {
      GetHeader(UserTokenHeader)
    }

    function GetDevToken(): (t: string)
      reads this
      ensures DevTokenHeader in Headers ==> t == Headers[DevTokenHeader]
      ensures DevTokenHeader !in Headers ==> t == ""
    {
      GetHeader(DevTokenHeader)
    }
  }

  /** The operations an application uses to choose an identity (no raw header edits). */
  predicate IdentityOp(op: HeaderOp) {
    op.UseSystem? || op.UseDevToken? || op.UseUserToken?
  }

  /** The user token and the developer token headers are never both present. */
  predicate TokensExclusive(s: IdentityState) {
    !(UserTokenHeader in s.Headers && DevTokenHeader in s.Headers)
  }

  /** Choosing identities keeps at most one kind of token header in the map. */
  lemma {:induction false} IdentityOpsKeepTokensExclusive(s: IdentityState, ops: seq<HeaderOp>)
    requires TokensExclusive(s)
    requires forall i :: 0 <= i < |ops| ==> IdentityOp(ops[i])
    ensures TokensExclusive(Run(s, ops))
    decreases |ops|
  {
    if |ops| > 0 {
      IdentityOpsKeepTokensExclusive(Step(s, ops[0]), ops[1..]);
    }
  }

  /** The stored system key and secret are changed by SetSystem alone. */
  lemma {:induction false} SystemFieldsOnlyChangedBySetSystem(s: IdentityState, ops: seq<HeaderOp>)
    requires forall i :: 0 <= i < |ops| ==> !ops[i].UseSystem?
    ensures Run(s, ops).SystemKey == s.SystemKey && Run(s, ops).SystemSecret == s.SystemSecret
    decreases |ops|
  {
    if |ops| > 0 {
      SystemFieldsOnlyChangedBySetSystem(Step(s, ops[0]), ops[1..]);
    }
  }

  /**
   * After SetSystem(k, secret) and then any number of token switches, the
   * headers no longer carry the key and secret but the fields still do.
   */
  lemma {:induction false} TokenSwitchKeepsSystemFields(s: IdentityState, k: string, secret: string, ops: seq<HeaderOp>)
    requires |ops| > 0
    requires forall i :: 0 <= i < |ops| ==> ops[i].UseDevToken? || ops[i].UseUserToken?
    ensures var t := Run(Step(s, UseSystem(k, secret)), ops);
      && t.SystemKey == k && t.SystemSecret == secret
      && Lookup(t.Headers, SystemKeyHeader) == "" && Lookup(t.Headers, SystemSecretHeader) == ""
    decreases |ops|
  {
    var s1 := Step(s, UseSystem(k, secret));
    SystemFieldsOnlyChangedBySetSystem(s1, ops);
    SystemHeadersStayRemoved(Step(s1, ops[0]), ops[1..]);
  }

  lemma {:induction false} SystemHeadersStayRemoved(s: IdentityState, ops: seq<HeaderOp>)
    requires SystemKeyHeader !in s.Headers && SystemSecretHeader !in s.Headers
    requires forall i :: 0 <= i < |ops| ==> ops[i].UseDevToken? || ops[i].UseUserToken?
    ensures SystemKeyHeader !in Run(s, ops).Headers && SystemSecretHeader !in Run(s, ops).Headers
    decreases |ops|
  {
    if |ops| > 0 {
      SystemHeadersStayRemoved(Step(s, ops[0]), ops[1..]);
    }
  }

  /** The last token chosen is the one in the headers, and the other kind is absent. */
  lemma {:induction false} LastTokenWins(s: IdentityState, ops: seq<HeaderOp>)
    requires |ops| > 0
    requires forall i :: 0 <= i < |ops| ==> ops[i].UseDevToken? || ops[i].UseUserToken?
    ensures var t := Run(s, ops); var last := ops[|ops| - 1];
      if last.UseUserToken?
      then Lookup(t.Headers, UserTokenHeader) == last.tok && DevTokenHeader !in t.Headers
      else Lookup(t.Headers, DevTokenHeader) == last.tok && UserTokenHeader !in t.Headers
    decreases |ops|
  {
    if |ops| > 1 {
      LastTokenWins(Step(s, ops[0]), ops[1..]);
      assert ops[1..][|ops[1..]| - 1] == ops[|ops| - 1];
    }
  }
}
