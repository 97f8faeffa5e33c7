/** The callback checks the repository's tests assert (test/spec_oauth.rb,
    "returns a 400 if ...") but lib/rack-oauth.rb does not perform. They are
    kept apart from `OAuth.Callback`, which follows the code: GuardedCallback
    runs them as a separate step in front of it. */
module TestGuards {
  import opened Results
  import opened Rack
  import opened OAuth
  import Text

  const PendingMissingMessage :=
    "OAuth callback didn't specify either a oauth_request_token or oauth_request_secret"
  const VerifierMissingPrefix := "OAuth callback is not secure: the provider does not implement the oauth_"
  const VerifierMissingMessage := VerifierMissingPrefix + "verifier" + " of OAuth 1.0a"

  /** word occurs somewhere in text. */
  predicate Contains(text: string, word: string) {
    exists i: nat | i <= |text| :: Text.MatchAt(text, word, i)
  }

  /** oauth_verifier is missing or empty. */
  predicate NoVerifier(env: Env) {
    Param(env, "oauth_verifier") in {None, Some("")}
  }

  /** The 400 a test expects for this callback, or None when the tests let it through. */
  function Guard(s: Session, env: Env): (r: Option<Response>)
    ensures r.Some? <==> TokenKey !in s || SecretKey !in s || NoVerifier(env)
    ensures r.Some? ==> r.value.status == 400 && r.value.body.StringBody?
    ensures r.Some? && TokenKey in s && SecretKey in s ==> Contains(r.value.body.text, "verifier")
  {
    if TokenKey !in s || SecretKey !in s then Some(PlainText(400, PendingMissingMessage))
    else if NoVerifier(env) then
      var at := |VerifierMissingPrefix|;
      assert VerifierMissingMessage[at..at + 8] == "verifier";
      assert Text.MatchAt(VerifierMissingMessage, "verifier", at);
      Some(PlainText(400, VerifierMissingMessage))
    else None
  }

  /** The callback with the tests' guard in front: a rejected callback answers
      400 and leaves the env as it was; an accepted one is the code's callback. */
  function GuardedCallback(c: Options.Config, env: Env, p: Provider, lib: Library): (r: Result<Step, Error>)
    ensures SessionOf(c, env).None? ==> r == Failure(SessionMissing)
    ensures SessionOf(c, env).Some? && Guard(SessionOf(c, env).value, env).Some? ==>
      r == Success(Step(Guard(SessionOf(c, env).value, env).value, env))
    ensures SessionOf(c, env).Some? && Guard(SessionOf(c, env).value, env).None? ==>
      r == Callback(c, env, p, lib)
  {
    match SessionOf(c, env)
    case None => Failure(SessionMissing)
    case Some(s) =>
      match Guard(s, env)
      case Some(rejection) => Success(Step(rejection, env))
      case None => Callback(c, env, p, lib)
  }

  /** A callback that carries the pending pair but no usable oauth_verifier is
      answered with a 400 whose body mentions "verifier". */
  lemma MissingVerifierRejected(c: Options.Config, env: Env, p: Provider, lib: Library)
    requires SessionOf(c, env).Some?
    requires TokenKey in SessionOf(c, env).value && SecretKey in SessionOf(c, env).value
    requires NoVerifier(env)
    ensures var r := GuardedCallback(c, env, p, lib);
      && r.Success? && r.value.env == env
      && r.value.response.status == 400
      && r.value.response.body.StringBody?
      && Contains(r.value.response.body.text, "verifier")
  {
  }

  /** Replaying a callback after one that completed finds no pending pair: the
      guard answers with the missing-token 400 and nothing changes. */
  lemma ReplayedCallbackRejected(c: Options.Config, env: Env, p: Provider, p': Provider, lib: Library)
    requires Callback(c, env, p, lib).Success?
    ensures var env' := Callback(c, env, p, lib).value.env;
      GuardedCallback(c, env', p', lib) == Success(Step(PlainText(400, PendingMissingMessage), env'))
  {
  }
}
