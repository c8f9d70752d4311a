/** One call of the Remember The Milk REST API as `callRtmApi` makes it: the
    credentials check, the parameters the plugin adds, the signature, and the
    way a reply is accepted or turned into an error. The service is a
    function from the request's parameters to a reply; the query-string
    encoding of the request is not modelled. */
module RtmApi {
  import opened Wrappers
  import opened JsText
  import opened Signature
  import opened RtmResponse

  const AuthUrl := "https://www.rememberthemilk.com/services/auth/"

  /** The plugin's saved settings; each is `''` until the user fills it in. */
  datatype Settings = Settings(apiKey: string, sharedSecret: string, authToken: string)

  const DefaultSettings := Settings("", "", "")

  /** What `loadData` gives back: each setting that was saved, or nothing at all. */
  datatype Stored = Stored(apiKey: Option<string>, sharedSecret: Option<string>, authToken: Option<string>)

  /** `Object.assign({}, DEFAULT_SETTINGS, data)`: a stored setting wins over its default. */
  function LoadSettings(data: Option<Stored>): (s: Settings)
    ensures data.None? ==> s == DefaultSettings
    ensures data.Some? && data.value.apiKey.Some? ==> s.apiKey == data.value.apiKey.value
    ensures data.Some? && data.value.sharedSecret.Some? ==> s.sharedSecret == data.value.sharedSecret.value
    ensures data.Some? && data.value.authToken.Some? ==> s.authToken == data.value.authToken.value
    ensures data.Some? && data.value.apiKey.None? ==> s.apiKey == DefaultSettings.apiKey
    ensures data.Some? && data.value.sharedSecret.None? ==> s.sharedSecret == DefaultSettings.sharedSecret
    ensures data.Some? && data.value.authToken.None? ==> s.authToken == DefaultSettings.authToken
  {
    match data
    case None => DefaultSettings
    case Some(d) =>
      Settings(
        if d.apiKey.Some? then d.apiKey.value else DefaultSettings.apiKey,
        if d.sharedSecret.Some? then d.sharedSecret.value else DefaultSettings.sharedSecret,
        if d.authToken.Some? then d.authToken.value else DefaultSettings.authToken)
  }

  /** `saveData(settings)`: every setting is stored. */
  function Store(s: Settings): Stored {
    Stored(Some(s.apiKey), Some(s.sharedSecret), Some(s.authToken))
  }

  /** Saved settings load back unchanged. */
  lemma LoadStored(s: Settings)
    ensures LoadSettings(Some(Store(s))) == s
  {
  }

  /** The remote service: what it replies to one request. */
  type Server = map<string, string> -> Reply

  /** The outcome of one call, with the request that went out, if one did. */
  datatype Call = Call(result: Result<Envelope, Error>, sent: Option<map<string, string>>)

  /** `{ ...params, method, api_key, format: 'json', auth_token }`: the caller's
      parameters with the four the plugin always adds, which win on a clash.
      `auth_token` is added even when the token is empty. */
  function ApiParams(s: Settings, apiMethod: string, params: map<string, string>): (m: map<string, string>)
    ensures m.Keys == params.Keys + {"method", "api_key", "format", "auth_token"}
    ensures m["method"] == apiMethod && m["api_key"] == s.apiKey
    ensures m["format"] == "json" && m["auth_token"] == s.authToken
    ensures forall k :: k in params && k !in {"method", "api_key", "format", "auth_token"} ==> m[k] == params[k]
  {
    params["method" := apiMethod]["api_key" := s.apiKey]["format" := "json"]["auth_token" := s.authToken]
  }

  /** How a reply is received: no reply throws, a `stat` other than `ok` throws
      `API Error: <rsp.err?.msg>`, and an accepted envelope is returned as it came. */
  function CheckReply(reply: Reply): (r: Result<Envelope, Error>)
    ensures r.Success? <==> reply.Delivered? && reply.json.stat == "ok"
    ensures r.Success? ==> r.value == reply.json
    ensures reply.Unreachable? ==> r == Failure(TransportError)
    ensures reply.Delivered? && reply.json.stat != "ok" ==>
      r == Failure(ApiError("API Error: " + Interpolate(reply.json.errMsg)))
  {
    match reply
    case Unreachable => Failure(TransportError)
    case Delivered(env) =>
      if env.stat != "ok" then Failure(ApiError("API Error: " + Interpolate(env.errMsg)))
      else Success(env)
  }

  /** The signed request: the parameters and `api_sig`, the digest of their signing text. */
  ghost function Signed(secret: string, params: map<string, string>, digest: string -> string): map<string, string> {
    params["api_sig" := digest(SigningText(secret, params))]
  }

  /** What `callRtmApi(apiMethod, params)` does with the given settings. */
  ghost function CallSpec(s: Settings, apiMethod: string, params: map<string, string>,
                          digest: string -> string, server: Server): Call
  {
    if s.apiKey == "" || s.sharedSecret == "" then Call(Failure(MissingCredentials), None)
    else
      var request := Signed(s.sharedSecret, ApiParams(s, apiMethod, params), digest);
      Call(CheckReply(server(request)), Some(request))
  }

  /** No request leaves without both the key and the secret, and the call then fails. */
  lemma CallNeedsCredentials(s: Settings, apiMethod: string, params: map<string, string>,
                             digest: string -> string, server: Server)
    ensures CallSpec(s, apiMethod, params, digest, server).sent.None? <==> s.apiKey == "" || s.sharedSecret == ""
    ensures CallSpec(s, apiMethod, params, digest, server).sent.None? ==>
      CallSpec(s, apiMethod, params, digest, server).result == Failure(MissingCredentials)
  {
  }

  /** The request carries every merged parameter unchanged plus `api_sig`, and
      `api_sig` is computed over the merged parameters alone. */
  lemma CallSigned(s: Settings, apiMethod: string, params: map<string, string>,
                   digest: string -> string, server: Server)
    requires "api_sig" !in params
    requires s.apiKey != "" && s.sharedSecret != ""
    ensures var sent := CallSpec(s, apiMethod, params, digest, server).sent;
      var merged := ApiParams(s, apiMethod, params);
      && sent.Some? && sent.value.Keys == merged.Keys + {"api_sig"} && "api_sig" !in merged
      && (forall k :: k in merged ==> sent.value[k] == merged[k])
      && sent.value["api_sig"] == digest(s.sharedSecret + Pairs(merged, Canonical(merged.Keys)))
  {
    var merged := ApiParams(s, apiMethod, params);
    assert "api_sig" !in {"method", "api_key", "format", "auth_token"};
    assert "api_sig" !in merged;
    assert CallSpec(s, apiMethod, params, digest, server).sent == Some(Signed(s.sharedSecret, merged, digest));
    SignedKeeps(s.sharedSecret, merged, digest);
  }

  /** Signing adds `api_sig` and keeps every other parameter. */
  lemma SignedKeeps(secret: string, params: map<string, string>, digest: string -> string)
    requires "api_sig" !in params
    ensures var sent := Signed(secret, params, digest);
      && sent.Keys == params.Keys + {"api_sig"}
      && (forall k :: k in params ==> sent[k] == params[k])
      && sent["api_sig"] == digest(secret + Pairs(params, Canonical(params.Keys)))
  {
  }

  /** A call succeeds exactly when a request went out and the reply says `ok`;
      its value is then the reply itself. */
  lemma CallResult(s: Settings, apiMethod: string, params: map<string, string>,
                   digest: string -> string, server: Server)
    ensures var c := CallSpec(s, apiMethod, params, digest, server);
      && (c.result.Success? <==> c.sent.Some? && server(c.sent.value).Delivered? && server(c.sent.value).json.stat == "ok")
      && (c.result.Success? ==> c.result.value == server(c.sent.value).json)
  {
  }

  /** A call whose parameter values differ is signed over a different text. */
  lemma CallSignatureCoversValues(s: Settings, apiMethod: string, params: map<string, string>, k: string, v: string)
    requires k in params && k !in {"method", "api_key", "format", "auth_token"} && params[k] != v
    ensures SigningText(s.sharedSecret, ApiParams(s, apiMethod, params))
         != SigningText(s.sharedSecret, ApiParams(s, apiMethod, params[k := v]))
  {
    var m := ApiParams(s, apiMethod, params);
    assert ApiParams(s, apiMethod, params[k := v]) == m[k := v];
    SigningTextSensitive(s.sharedSecret, m, k, v);
  }

  // ------------------------------------------------------------ auth flow

  /** `{ method: 'rtm.auth.getFrob', api_key, format: 'json' }`. */
  function FrobParams(apiKey: string): map<string, string> {
    map["method" := "rtm.auth.getFrob", "api_key" := apiKey, "format" := "json"]
  }

  /** `{ api_key, perms: 'delete', frob }`: signed for the browser, not sent. */
  function AuthParams(apiKey: string, frob: string): map<string, string> {
    map["api_key" := apiKey, "perms" := "delete", "frob" := frob]
  }

  /** `{ method: 'rtm.auth.getToken', api_key, format: 'json', frob }`. */
  function TokenParams(apiKey: string, frob: string): map<string, string> {
    map["method" := "rtm.auth.getToken", "api_key" := apiKey, "format" := "json", "frob" := frob]
  }

  /** The address opened in the browser for the user to grant access. */
  function AuthPageUrl(apiKey: string, frob: string, sig: string): string {
    AuthUrl + "?api_key=" + apiKey + "&perms=delete&frob=" + frob + "&api_sig=" + sig
  }

  /** The three auth requests never carry a token, and the frob and token requests
      are signed over exactly the names they send. */
  lemma AuthParamsKeys(apiKey: string, frob: string)
    ensures FrobParams(apiKey).Keys == {"method", "api_key", "format"}
    ensures AuthParams(apiKey, frob).Keys == {"api_key", "perms", "frob"}
    ensures TokenParams(apiKey, frob).Keys == {"method", "api_key", "format", "frob"}
    ensures TokenParams(apiKey, frob) == FrobParams(apiKey)["method" := "rtm.auth.getToken"]["frob" := frob]
  {
  }

  /** Where the signing order puts the names of the page signature: `api_key`,
      `frob`, `perms`. */
  lemma AuthSigningText(secret: string, apiKey: string, frob: string)
    ensures SigningText(secret, AuthParams(apiKey, frob)) == secret + "api_key" + apiKey + "frob" + frob + "permsdelete"
  {
    var p := AuthParams(apiKey, frob);
    var ks := ["api_key", "frob", "perms"];
    AuthKeyOrder(apiKey, frob);
    var ks1, ks2 := ["api_key"], ["api_key", "frob"];
    assert ks1[..0] == [] && ks2[..1] == ks1 && ks[..2] == ks2;
    assert p["api_key"] == apiKey && p["frob"] == frob && p["perms"] == "delete";
    assert Pairs(p, ks1) == "" + "api_key" + apiKey;
    assert Pairs(p, ks2) == Pairs(p, ks1) + "frob" + frob;
    assert Pairs(p, ks) == Pairs(p, ks2) + "perms" + "delete";
  }

  lemma AuthKeyOrder(apiKey: string, frob: string)
    ensures Canonical(AuthParams(apiKey, frob).Keys) == ["api_key", "frob", "perms"]
  {
    var ks := ["api_key", "frob", "perms"];
    assert Below("api_key", "frob") && Below("frob", "perms");
    assert StrictlySorted(ks);
    assert Elements(ks) == AuthParams(apiKey, frob).Keys;
    SortedUnique(ks, Canonical(AuthParams(apiKey, frob).Keys));
  }
}
