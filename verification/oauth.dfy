/** Rack::OAuth's request handling: `call` routes on PATH_INFO to `do_login`,
    `do_callback`, or the wrapped application. Everything the middleware hands
    to other libraries (the OAuth gem, URI.join, the JSON parser) arrives as a
    function parameter, so each handler is a pure transition
    (config, env, collaborators) -> (response, env'). */
module OAuth {
  import opened Results
  import opened Rack
  import opened Options
  import Text

  /** The pending request-token pair lives under these two Symbol keys. */
  const TokenKey: Key := Sym("oauth_request_token")
  const SecretKey: Key := Sym("oauth_request_secret")

  const CredentialsMessage := "Whoa, OAuth was given the wrong consumer key or secret"

  /** What `get_request_token` hands back: possibly-nil token and secret, and the
      user authorization URL the gem builds for it. */
  datatype RequestToken = RequestToken(token: Option<string>, secret: Option<string>, authorizeUrl: string)

  /** What `get_access_token` hands back; the middleware only passes it on. */
  datatype AccessToken = AccessToken(token: Option<string>, secret: Option<string>)

  /** The OAuth consumer's network calls, each of which may raise:
      - requestToken: get_request_token given the oauth_callback URL;
      - accessToken: get_access_token given the pending token, the pending
        secret (either may be nil) and the oauth_verifier parameter;
      - verifyCredentials: the signed GET of /account/verify_credentials.json,
        giving the response body, or None when the response is nil. */
  datatype Provider = Provider(
    requestToken: string -> Reply<RequestToken>,
    accessToken: (Option<string>, Option<string>, Option<string>) -> Reply<AccessToken>,
    verifyCredentials: AccessToken -> Reply<Option<string>>)

  /** Library calls: URI.join(base, callback_path).to_s, which raises on a nil
      path or a malformed host, and the json_parser proc. */
  datatype Library = Library(uriJoin: (string, Option<string>) -> Reply<string>, jsonParse: string -> string)

  /** What a handler raises instead of responding. */
  datatype Error =
    | SessionMissing   // `session` found nil under the rack_session key
    | ProviderError    // a call into the OAuth gem raised
    | UriError         // URI.join raised while building the oauth_callback URL

  /** A completed request: the response, and the env with the session as the handler left it. */
  datatype Step = Step(response: Response, env: Env)

  /** A handler changed at most the session hash under the rack_session key:
      the CGI entries, the parameters and every other hash-valued entry are as before. */
  ghost predicate OnlySessionChanged(c: Config, env: Env, env': Env) {
    && env'.vars == env.vars
    && env'.params == env.params
    && forall k :: c.rackSession != Some(k) ==>
         (k in env'.sessions <==> k in env.sessions)
         && (k in env.sessions ==> env'.sessions[k] == env.sessions[k])
  }

  /** The `session` helper: the hash under the rack_session key, or None where it raises. */
  function SessionOf(c: Config, env: Env): (r: Option<Session>)
    ensures r.None? <==> c.rackSession.None? || c.rackSession.value !in env.sessions
    ensures r.Some? ==> r.value == env.sessions[c.rackSession.value]
  {
    match c.rackSession
    case None => None
    case Some(k) => if k in env.sessions then Some(env.sessions[k]) else None
  }

  /** env with the session hash under the rack_session key replaced by s. */
  function WithSession(c: Config, env: Env, s: Session): (env': Env)
    requires c.rackSession.Some?
    ensures SessionOf(c, env') == Some(s)
    ensures env'.vars == env.vars && env'.params == env.params
    ensures forall k :: k != c.rackSession.value ==>
      (k in env'.sessions <==> k in env.sessions) && (k in env.sessions ==> env'.sessions[k] == env.sessions[k])
  {
    env.(sessions := env.sessions[c.rackSession.value := s])
  }

  /** The key session_key names: a String key, or nil when the option is nil. */
  function UserKey(c: Config): (k: Key)
    ensures k != TokenKey && k != SecretKey
  {
    match c.sessionKey
    case None => NilKey
    case Some(name) => Str(name)
  }

  /** `env['HTTP_HOST'] || env['SERVER_NAME']`, interpolated into a string (nil gives ""). */
  function HostName(env: Env): (h: string)
    ensures "HTTP_HOST" in env.vars ==> h == env.vars["HTTP_HOST"]
    ensures "HTTP_HOST" !in env.vars && "SERVER_NAME" in env.vars ==> h == env.vars["SERVER_NAME"]
    ensures "HTTP_HOST" !in env.vars && "SERVER_NAME" !in env.vars ==> h == ""
  {
    match Var(env, "HTTP_HOST")
    case Some(h) => h
    case None =>
      match Var(env, "SERVER_NAME")
      case Some(h) => h
      case None => ""
  }

  /** The oauth_callback URL handed to the provider: the http URL of the host, joined with callback_path. */
  function CallbackUrl(c: Config, env: Env, lib: Library): Reply<string> {
    lib.uriJoin("http://" + HostName(env), c.callbackPath)
  }

  /** A plain-text response whose Content-length is the decimal length of its body. */
  function PlainText(status: int, message: string): (r: Response)
    ensures r.status == status && r.body == StringBody(message)
    ensures r.headers.Keys == {"Content-type", "Content-length"}
    ensures r.headers["Content-type"] == Some("text/plain")
    ensures r.headers["Content-length"].Some?
    ensures Text.IsCanonicalDecimal(r.headers["Content-length"].value)
    ensures Text.DecimalValue(r.headers["Content-length"].value) == |message|
  {
    Response(status, map["Content-type" := Some("text/plain"), "Content-length" := Some(Text.Decimal(|message|))], StringBody(message))
  }

  /** `consumer_key_or_secret_error`: the fixed 500. */
  function CredentialsError(): (r: Response)
    ensures r.status == 500 && r.body == StringBody(CredentialsMessage)
    ensures r.headers.Keys == {"Content-type", "Content-length"}
    ensures r.headers["Content-type"] == Some("text/plain")
    ensures r.headers["Content-length"] == Some("54")
  {
    assert |CredentialsMessage| == 54;
    assert Text.DigitChar(5) == '5' && Text.DigitChar(4) == '4';
    assert Text.Decimal(54) == Text.Decimal(5) + ['4'] == "54";
    PlainText(500, CredentialsMessage)
  }

  /** `authorize_redirect`: 302 to the provider's authorization URL, empty body. */
  function AuthorizeRedirect(url: string): (r: Response)
    ensures r.status == 302 && r.body == Chunks([])
    ensures r.headers.Keys == {"Location", "Content-type"}
    ensures r.headers["Location"] == Some(url) && r.headers["Content-type"] == Some("text/plain")
  {
    Response(302, map["Location" := Some(url), "Content-type" := Some("text/plain")], Chunks([]))
  }

  /** The callback's 302 to redirect_to, empty body, no other header. */
  function CompleteRedirect(c: Config): Response {
    Response(302, map["Location" := c.redirectTo], Chunks([]))
  }

  /** `request.token && request.secret`: both non-nil (an empty string counts). */
  predicate Usable(t: RequestToken) {
    t.token.Some? && t.secret.Some?
  }

  /** `do_login`. Building the callback URL may raise before anything else
      happens. The provider is asked for a request token before the session is
      touched; an unusable token gives the 500 without touching the session, a
      usable one is stored as the pending pair and the user is sent to the
      provider's authorization URL. */
  function Login(c: Config, env: Env, p: Provider, lib: Library): (r: Result<Step, Error>)
    ensures CallbackUrl(c, env, lib).Raises? ==> r == Failure(UriError)
    ensures CallbackUrl(c, env, lib).Returns? ==>
      var reply := p.requestToken(CallbackUrl(c, env, lib).value);
      && (reply.Raises? ==> r == Failure(ProviderError))
      && (reply.Returns? && !Usable(reply.value) ==> r == Success(Step(CredentialsError(), env)))
      && (reply.Returns? && Usable(reply.value) && SessionOf(c, env).None? ==> r == Failure(SessionMissing))
      && (reply.Returns? && Usable(reply.value) && SessionOf(c, env).Some? ==>
            && r.Success?
            && r.value.response == AuthorizeRedirect(reply.value.authorizeUrl)
            && SessionOf(c, r.value.env).Some?
            && var s := SessionOf(c, env).value;
               var s' := SessionOf(c, r.value.env).value;
               && Lookup(s', TokenKey) == reply.value.token
               && Lookup(s', SecretKey) == reply.value.secret
               && AgreeOutside(s, s', {TokenKey, SecretKey}))
    ensures r.Success? ==> OnlySessionChanged(c, env, r.value.env)
  {
    match CallbackUrl(c, env, lib)
    case Raises => Failure(UriError)
    case Returns(url) =>
      match p.requestToken(url)
      case Raises => Failure(ProviderError)
      case Returns(t) =>
        if !Usable(t) then Success(Step(CredentialsError(), env))
        else
          match SessionOf(c, env)
          case None => Failure(SessionMissing)
          case Some(s) =>
            var s' := s[TokenKey := t.token.value][SecretKey := t.secret.value];
            Success(Step(AuthorizeRedirect(t.authorizeUrl), WithSession(c, env, s')))
  }

  /** `do_callback`. The pending pair and the oauth_verifier go to the provider;
      only when both provider calls return does the session change: the pending
      pair is deleted, the parsed account data (if a response came back) is
      stored under session_key, and the user is sent to redirect_to. */
  function Callback(c: Config, env: Env, p: Provider, lib: Library): (r: Result<Step, Error>)
    ensures SessionOf(c, env).None? ==> r == Failure(SessionMissing)
    ensures SessionOf(c, env).Some? ==>
      var s := SessionOf(c, env).value;
      var access := p.accessToken(Lookup(s, TokenKey), Lookup(s, SecretKey), Param(env, "oauth_verifier"));
      && (access.Raises? ==> r == Failure(ProviderError))
      && (access.Returns? && p.verifyCredentials(access.value).Raises? ==> r == Failure(ProviderError))
      && (access.Returns? && p.verifyCredentials(access.value).Returns? ==>
            var reply := p.verifyCredentials(access.value).value;
            && r.Success?
            && SessionOf(c, r.value.env).Some?
            && var s' := SessionOf(c, r.value.env).value;
               && TokenKey !in s' && SecretKey !in s'
               && AgreeOutside(s, s', {TokenKey, SecretKey, UserKey(c)})
               && (reply.Some? ==> Lookup(s', UserKey(c)) == Some(lib.jsonParse(reply.value)))
               && (reply.None? ==> Lookup(s', UserKey(c)) == Lookup(s, UserKey(c))))
    ensures r.Success? ==> r.value.response == CompleteRedirect(c)
    ensures r.Success? ==> OnlySessionChanged(c, env, r.value.env)
  {
    match SessionOf(c, env)
    case None => Failure(SessionMissing)
    case Some(s) =>
      match p.accessToken(Lookup(s, TokenKey), Lookup(s, SecretKey), Param(env, "oauth_verifier"))
      case Raises => Failure(ProviderError)
      case Returns(access) =>
        match p.verifyCredentials(access)
        case Raises => Failure(ProviderError)
        case Returns(reply) =>
          var cleaned := s - {TokenKey, SecretKey};
          var s' := if reply.Some? then cleaned[UserKey(c) := lib.jsonParse(reply.value)] else cleaned;
          Success(Step(CompleteRedirect(c), WithSession(c, env, s')))
  }

  /** `call`: a PATH_INFO equal to login_path logs in, else one equal to
      callback_path completes the callback, else the wrapped application
      answers with the env untouched. nil matches nil, as `when nil` does. */
  function Call(c: Config, env: Env, p: Provider, lib: Library, app: Env -> Response): (r: Result<Step, Error>)
    ensures Var(env, "PATH_INFO") == c.loginPath ==> r == Login(c, env, p, lib)
    ensures Var(env, "PATH_INFO") != c.loginPath && Var(env, "PATH_INFO") == c.callbackPath ==>
      r == Callback(c, env, p, lib)
    ensures Var(env, "PATH_INFO") != c.loginPath && Var(env, "PATH_INFO") != c.callbackPath ==>
      r == Success(Step(app(env), env))
    ensures r.Success? && Var(env, "PATH_INFO") in {c.loginPath, c.callbackPath} ==>
      r.value.response.status in {302, 500}
  {
    var path := Var(env, "PATH_INFO");
    if path == c.loginPath then Login(c, env, p, lib)
    else if path == c.callbackPath then Callback(c, env, p, lib)
    else Success(Step(app(env), env))
  }
}
