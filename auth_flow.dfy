/** The desktop authentication flow of the settings tab: ask the service for a
    frob, open the signed permission page in the browser, and, once the user
    confirms in the token dialog, exchange the frob for a token that is saved
    in the settings. These requests are signed by the same recipe as every
    other call, but do not go through `callRtmApi`: they carry no token and
    their `stat` is not checked. */
module AuthFlow {
  import opened Wrappers
  import opened JsText
  import opened Signature
  import opened RtmResponse
  import opened RtmApi
  import opened Plugin

  /** The frob to exchange later and the page the browser is sent to. */
  datatype AuthStart = AuthStart(frob: string, url: string)

  /** `startAuthProcess`: nothing without a key and a secret, nothing when the
      frob request gets no reply; the frob is whatever `rsp.frob` holds,
      `undefined` included. */
  ghost function StartAuthSpec(s: Settings, digest: string -> string, server: Server): Option<AuthStart> {
    if s.apiKey == "" || s.sharedSecret == "" then None
    else
      match server(Signed(s.sharedSecret, FrobParams(s.apiKey), digest))
      case Unreachable => None
      case Delivered(env) =>
        var frob := Interpolate(env.payload.frob);
        Some(AuthStart(frob, AuthPageUrl(s.apiKey, frob, digest(SigningText(s.sharedSecret, AuthParams(s.apiKey, frob))))))
  }

  /** The settings after the token dialog's button: the token from `rsp.auth`
      when the reply has one, the settings as they were otherwise. */
  ghost function FinishAuthSpec(s: Settings, frob: string, digest: string -> string, server: Server): Settings {
    if Granted(s, frob, digest, server) then s.(authToken := TokenReply(s, frob, digest, server).json.payload.auth.value.token)
    else s
  }

  /** The reply to the signed `rtm.auth.getToken` request. */
  ghost function TokenReply(s: Settings, frob: string, digest: string -> string, server: Server): Reply {
    server(Signed(s.sharedSecret, TokenParams(s.apiKey, frob), digest))
  }

  /** The reply holds `rsp.auth`: "Success!". */
  ghost predicate Granted(s: Settings, frob: string, digest: string -> string, server: Server) {
    TokenReply(s, frob, digest, server).Delivered? && TokenReply(s, frob, digest, server).json.payload.auth.Some?
  }

  /** The dialog shown while the user grants access in the browser. */
  class TokenModal {
    const frob: string
    const plugin: RtmPlugin

    constructor(frob: string, plugin: RtmPlugin)
      ensures this.frob == frob && this.plugin == plugin
    {
      this.frob := frob;
      this.plugin := plugin;
    }

    /** The `Finish Auth` button. */
    method FinishAuth(digest: string -> string, server: Server) returns (ok: bool)
      modifies plugin
      ensures plugin.settings == FinishAuthSpec(old(plugin.settings), frob, digest, server)
      ensures plugin.timeline == old(plugin.timeline)
      ensures ok <==> Granted(old(plugin.settings), frob, digest, server)
    {
      var request := SignRequest(plugin.settings.sharedSecret, TokenParams(plugin.settings.apiKey, frob), digest);
      var reply := server(request);
      if reply.Unreachable? || reply.json.payload.auth.None? {
        return false;
      }
      plugin.settings := plugin.settings.(authToken := reply.json.payload.auth.value.token);
      ok := true;
    }
  }

  /** `startAuthProcess`: the page to open and the dialog that finishes the flow. */
  method StartAuthProcess(plugin: RtmPlugin, digest: string -> string, server: Server)
    returns (start: Option<AuthStart>, modal: TokenModal?)
    ensures start == StartAuthSpec(plugin.settings, digest, server)
    ensures start.None? <==> modal == null
    ensures modal != null ==> fresh(modal) && modal.frob == start.value.frob && modal.plugin == plugin
  {
    var apiKey := plugin.settings.apiKey;
    var sharedSecret := plugin.settings.sharedSecret;
    if apiKey == "" || sharedSecret == "" {
      return None, null;
    }
    var frobRequest := SignRequest(sharedSecret, FrobParams(apiKey), digest);
    var reply := server(frobRequest);
    if reply.Unreachable? {
      return None, null;
    }
    var frob := Interpolate(reply.json.payload.frob);
    var apiSig := Signature.Signature(sharedSecret, AuthParams(apiKey, frob), digest);
    start := Some(AuthStart(frob, AuthPageUrl(apiKey, frob, apiSig)));
    modal := new TokenModal(frob, plugin);
  }

  /** The permission page asks for `delete` access with the frob, signed over
      `api_key`, `frob` and `perms` in that order. */
  lemma StartAuthPage(s: Settings, digest: string -> string, server: Server)
    requires StartAuthSpec(s, digest, server).Some?
    ensures var a := StartAuthSpec(s, digest, server).value;
      a.url == AuthUrl + "?api_key=" + s.apiKey + "&perms=delete&frob=" + a.frob + "&api_sig="
        + digest(s.sharedSecret + "api_key" + s.apiKey + "frob" + a.frob + "permsdelete")
  {
    var a := StartAuthSpec(s, digest, server).value;
    AuthSigningText(s.sharedSecret, s.apiKey, a.frob);
  }

  /** No frob is asked for without a key and a secret. */
  lemma StartAuthNeedsKeys(s: Settings, digest: string -> string, server: Server)
    ensures s.apiKey == "" || s.sharedSecret == "" ==> StartAuthSpec(s, digest, server).None?
    ensures StartAuthSpec(s, digest, server).Some? ==> server(Signed(s.sharedSecret, FrobParams(s.apiKey), digest)).Delivered?
  {
  }

  /** Finishing the flow changes the token and nothing else; with a key, a secret
      and a non-empty token the plugin is then authorized. */
  lemma FinishAuthOnlyToken(s: Settings, frob: string, digest: string -> string, server: Server)
    ensures var s' := FinishAuthSpec(s, frob, digest, server);
      && s'.apiKey == s.apiKey && s'.sharedSecret == s.sharedSecret
      && (s'.authToken != s.authToken ==> Granted(s, frob, digest, server))
    ensures (&& Granted(s, frob, digest, server)
             && TokenReply(s, frob, digest, server).json.payload.auth.value.token != ""
             && s.apiKey != "" && s.sharedSecret != "")
      ==> Authorized(FinishAuthSpec(s, frob, digest, server))
  {
  }
}
