/** Properties of whole request sequences through Rack::OAuth#call. */
module Flows {
  import opened Results
  import opened Rack
  import opened Options
  import opened OAuth
  import TestGuards

  /** The wrapped application is consulted only for paths other than the two
      OAuth paths: on those, any two applications give the same outcome.
      A corollary of `OAuth.Call`'s routing contract, stated on its own. */
  lemma AppOnlyForOtherPaths(c: Config, env: Env, p: Provider, lib: Library, app: Env -> Response, app': Env -> Response)
    requires Var(env, "PATH_INFO") in {c.loginPath, c.callbackPath}
    ensures Call(c, env, p, lib, app) == Call(c, env, p, lib, app')
  {
  }

  /** A login followed by its callback, a separate request env2 that carries
      the session the login left, hands the provider exactly the token pair
      the login stored and the callback's own oauth_verifier. It leaves the
      session as it was before the login, except that the pending pair is gone
      and session_key holds the parsed account data (when a response came
      back). */
  lemma {:induction false} LoginThenCallback(c: Config, env: Env, env2: Env, p: Provider, lib: Library)
    requires SessionOf(c, env).Some?
    requires CallbackUrl(c, env, lib).Returns?
    requires p.requestToken(CallbackUrl(c, env, lib).value).Returns?
    requires Usable(p.requestToken(CallbackUrl(c, env, lib).value).value)
    requires SessionOf(c, env2) == SessionOf(c, Login(c, env, p, lib).value.env)
    ensures Login(c, env, p, lib).Success?
    ensures var t := p.requestToken(CallbackUrl(c, env, lib).value).value;
      var access := p.accessToken(t.token, t.secret, Param(env2, "oauth_verifier"));
      var after := Callback(c, env2, p, lib);
      && (access.Raises? ==> after == Failure(ProviderError))
      && (access.Returns? && p.verifyCredentials(access.value).Returns? ==>
            var reply := p.verifyCredentials(access.value).value;
            var cleaned := SessionOf(c, env).value - {TokenKey, SecretKey};
            && after.Success?
            && SessionOf(c, after.value.env) ==
                 Some(if reply.Some? then cleaned[UserKey(c) := lib.jsonParse(reply.value)] else cleaned))
  {
    var t := p.requestToken(CallbackUrl(c, env, lib).value).value;
    var s := SessionOf(c, env).value;
    var s1 := SessionOf(c, env2).value;
    assert Lookup(s1, TokenKey) == t.token && Lookup(s1, SecretKey) == t.secret;
    var access := p.accessToken(t.token, t.secret, Param(env2, "oauth_verifier"));
    if access.Returns? && p.verifyCredentials(access.value).Returns? {
      var reply := p.verifyCredentials(access.value).value;
      var after := Callback(c, env2, p, lib);
      var s2 := SessionOf(c, after.value.env).value;
      var cleaned := s - {TokenKey, SecretKey};
      var expected := if reply.Some? then cleaned[UserKey(c) := lib.jsonParse(reply.value)] else cleaned;
      assert forall k :: Lookup(s2, k) == Lookup(expected, k) by {
        assert AgreeOutside(s, s1, {TokenKey, SecretKey});
        assert AgreeOutside(s1, s2, {TokenKey, SecretKey, UserKey(c)});
      }
      assert s2.Keys == expected.Keys by {
        forall k ensures k in s2 <==> k in expected {
          assert Lookup(s2, k) == Lookup(expected, k);
        }
      }
      assert s2 == expected;
    }
  }

  /** After a login that stored a pending pair, the tests' callback guard lets
      a callback request carrying that session through exactly when the
      callback carries a non-empty oauth_verifier. */
  lemma LoginOpensGuard(c: Config, env: Env, env2: Env, p: Provider, lib: Library)
    requires Login(c, env, p, lib).Success?
    requires Login(c, env, p, lib).value.response.status == 302
    requires SessionOf(c, env2) == SessionOf(c, Login(c, env, p, lib).value.env)
    ensures SessionOf(c, env2).Some?
    ensures TestGuards.Guard(SessionOf(c, env2).value, env2).None? <==> !TestGuards.NoVerifier(env2)
  {
  }
}
