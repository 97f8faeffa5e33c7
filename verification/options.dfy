/** Construction of the middleware: DEFAULT_OPTIONS, then the caller's options
    through the attribute setters, then validation of the three required fields. */
module Options {
  import opened Results
  import Text

  /** The configuration attributes that hold strings. */
  datatype Field =
    | LoginPath | CallbackPath | RedirectTo | SessionKey | RackSession
    | ConsumerKey | ConsumerSecret | ConsumerSite
    | RequestTokenPath | AccessTokenPath | AuthorizePath

  /** The middleware's configuration; None is an attribute that is nil. */
  datatype Config = Config(
    loginPath: Option<string>,
    callbackPath: Option<string>,
    redirectTo: Option<string>,
    sessionKey: Option<string>,
    rackSession: Option<string>,
    consumerKey: Option<string>,
    consumerSecret: Option<string>,
    consumerSite: Option<string>,
    requestTokenPath: Option<string>,
    accessTokenPath: Option<string>,
    authorizePath: Option<string>)

  /** The attribute reader for f. */
  function Get(c: Config, f: Field): Option<string> {
    match f
    case LoginPath => c.loginPath
    case CallbackPath => c.callbackPath
    case RedirectTo => c.redirectTo
    case SessionKey => c.sessionKey
    case RackSession => c.rackSession
    case ConsumerKey => c.consumerKey
    case ConsumerSecret => c.consumerSecret
    case ConsumerSite => c.consumerSite
    case RequestTokenPath => c.requestTokenPath
    case AccessTokenPath => c.accessTokenPath
    case AuthorizePath => c.authorizePath
  }

  /** The attribute writer for f: it changes f and no other attribute. */
  function Set(c: Config, f: Field, v: Option<string>): (c': Config)
    ensures Get(c', f) == v
    ensures forall g :: g != f ==> Get(c', g) == Get(c, g)
  {
    match f
    case LoginPath => c.(loginPath := v)
    case CallbackPath => c.(callbackPath := v)
    case RedirectTo => c.(redirectTo := v)
    case SessionKey => c.(sessionKey := v)
    case RackSession => c.(rackSession := v)
    case ConsumerKey => c.(consumerKey := v)
    case ConsumerSecret => c.(consumerSecret := v)
    case ConsumerSite => c.(consumerSite := v)
    case RequestTokenPath => c.(requestTokenPath := v)
    case AccessTokenPath => c.(accessTokenPath := v)
    case AuthorizePath => c.(authorizePath := v)
  }

  /** What `send "#{name}="` reaches: a string attribute, the json_parser
      writer, or one of Object's comparisons `==`, `!=`, `===` (reached from
      the names `=`, `!`, `==`), which accepts the value and changes nothing. */
  datatype Setter = Assign(field: Field) | AssignParser | Compare

  /** The method an option name selects, aliases included; None when the object
      has no such method, so that `send` raises NoMethodError. */
  function SetterNamed(name: string): Option<Setter> {
    if name == "login_path" || name == "login" then Some(Assign(LoginPath))
    else if name == "callback_path" || name == "callback" then Some(Assign(CallbackPath))
    else if name == "redirect_to" || name == "redirect" then Some(Assign(RedirectTo))
    else if name == "session_key" then Some(Assign(SessionKey))
    else if name == "rack_session" then Some(Assign(RackSession))
    else if name == "consumer_key" || name == "key" then Some(Assign(ConsumerKey))
    else if name == "consumer_secret" || name == "secret" then Some(Assign(ConsumerSecret))
    else if name == "consumer_site" || name == "site" then Some(Assign(ConsumerSite))
    else if name == "request_token_path" then Some(Assign(RequestTokenPath))
    else if name == "access_token_path" then Some(Assign(AccessTokenPath))
    else if name == "authorize_path" then Some(Assign(AuthorizePath))
    else if name == "json_parser" then Some(AssignParser)
    else if name == "=" || name == "!" || name == "==" then Some(Compare)
    else None
  }

  /** A fresh object with DEFAULT_OPTIONS written into it; every other attribute is nil. */
  function Defaults(): Config {
    Config(
      loginPath := Some("/oauth_login"),
      callbackPath := Some("/oauth_callback"),
      redirectTo := Some("/oauth_complete"),
      sessionKey := Some("oauth_user"),
      rackSession := Some("rack.session"),
      consumerKey := None,
      consumerSecret := None,
      consumerSite := None,
      requestTokenPath := None,
      accessTokenPath := None,
      authorizePath := None)
  }

  /** One caller option: its name and its value (None for nil). A list of
      entries is in the order `options.each` yields them from the Ruby Hash,
      which decides which of two aliased writes (`key`, `consumer_key`) wins. */
  type Entry = (string, Option<string>)

  /** Every option name has a writer. */
  predicate AllKnown(options: seq<Entry>) {
    forall i :: 0 <= i < |options| ==> SetterNamed(options[i].0).Some?
  }

  /** Writes the caller's options in order; the first name without a method
      stops construction and is reported. */
  function Apply(c: Config, options: seq<Entry>): (r: Result<Config, string>)
    ensures r.Success? <==> AllKnown(options)
    ensures r.Failure? ==> SetterNamed(r.error).None?
    ensures r.Failure? ==> exists i :: 0 <= i < |options| && options[i].0 == r.error && AllKnown(options[..i])
    decreases |options|
  {
    if |options| == 0 then Success(c)
    else
      assert forall i :: 0 < i < |options| ==> options[i] == options[1..][i - 1];
      match SetterNamed(options[0].0)
      case None =>
        assert AllKnown(options[..0]);
        Failure(options[0].0)
      case Some(setter) =>
        var next := match setter case Assign(f) => Set(c, f, options[0].1) case _ => c;
        var r := Apply(next, options[1..]);
        assert r.Failure? ==> exists i :: 0 <= i < |options| && options[i].0 == r.error && AllKnown(options[..i]) by {
          if r.Failure? {
            var i :| 0 <= i < |options[1..]| && options[1..][i].0 == r.error && AllKnown(options[1..][..i]);
            KnownPrefixExtends(options, i);
          }
        }
        r
  }

  /** A known first name in front of a known prefix of the rest gives a known prefix. */
  lemma KnownPrefixExtends(options: seq<Entry>, i: nat)
    requires 0 < |options| && i < |options|
    requires SetterNamed(options[0].0).Some?
    requires AllKnown(options[1..][..i])
    ensures AllKnown(options[..i + 1])
  {
  }

  /** The value of the last option that writes f, if any does: an independent
      statement of which write wins. */
  function LastWrite(options: seq<Entry>, f: Field): Option<Option<string>> {
    if |options| == 0 then None
    else
      var later := LastWrite(options[1..], f);
      if later.Some? then later
      else if SetterNamed(options[0].0) == Some(Assign(f)) then Some(options[0].1)
      else None
  }

  /** After a successful merge each attribute holds the last value the caller
      wrote to it, or its earlier value when the caller wrote none. */
  lemma {:induction false} ApplyLastWins(c: Config, options: seq<Entry>, f: Field)
    requires AllKnown(options)
    ensures Apply(c, options).Success?
    ensures Get(Apply(c, options).value, f) ==
      (match LastWrite(options, f) case Some(v) => v case None => Get(c, f))
    decreases |options|
  {
    if |options| > 0 {
      assert AllKnown(options[1..]) by {
        assert forall i :: 0 <= i < |options[1..]| ==> options[1..][i] == options[i + 1];
      }
      assert SetterNamed(options[0].0).Some?;
      match SetterNamed(options[0].0)
      case Some(Assign(g)) =>
        ApplyLastWins(Set(c, g, options[0].1), options[1..], f);
      case Some(_) =>
        ApplyLastWins(c, options[1..], f);
    }
  }

  const KeyRequired := ":consumer_key option is required"
  const SecretRequired := ":consumer_secret option is required"
  const SiteRequired := ":consumer_site option is required"

  /** The messages `valid?` collects, in key, secret, site order: one per
      required attribute that is nil, and only those. */
  function Errors(c: Config): (errors: seq<string>)
    ensures KeyRequired in errors <==> c.consumerKey.None?
    ensures SecretRequired in errors <==> c.consumerSecret.None?
    ensures SiteRequired in errors <==> c.consumerSite.None?
    ensures forall e :: e in errors ==> e in {KeyRequired, SecretRequired, SiteRequired}
    ensures forall i, j :: 0 <= i < j < |errors| ==> Rank(errors[i]) < Rank(errors[j])
    ensures forall e :: e in errors ==> ',' !in e
  {
    assert |KeyRequired| != |SecretRequired| && |KeyRequired| != |SiteRequired| && |SecretRequired| != |SiteRequired|;
    assert ',' !in KeyRequired && ',' !in SecretRequired && ',' !in SiteRequired;
    (if c.consumerKey.None? then [KeyRequired] else [])
    + (if c.consumerSecret.None? then [SecretRequired] else [])
    + (if c.consumerSite.None? then [SiteRequired] else [])
  }

  /** The position of a required-field message in the order `valid?` checks. */
  function Rank(message: string): nat {
    if message == KeyRequired then 0 else if message == SecretRequired then 1 else 2
  }

  /** `valid?`: the three required attributes are non-nil (an empty string passes). */
  predicate Valid(c: Config)
    ensures Valid(c) <==> c.consumerKey.Some? && c.consumerSecret.Some? && c.consumerSite.Some?
  {
    Errors(c) == []
  }

  datatype ConstructionError =
    | UnknownOption(name: string)   // NoMethodError from `send`
    | Invalid(message: string)      // the RuntimeError raised by raise_validation_exception

  /** DEFAULT_OPTIONS merged with the caller's options (skipped when they are nil). */
  function Merge(options: Option<seq<Entry>>): Result<Config, string> {
    match options
    case None => Success(Defaults())
    case Some(opts) => Apply(Defaults(), opts)
  }

  /** `initialize`: merge, then validate. */
  function Construct(options: Option<seq<Entry>>): (r: Result<Config, ConstructionError>)
    ensures options.None? ==> r.Failure? && r.error.Invalid?
    ensures options.Some? && !AllKnown(options.value) ==> r.Failure? && r.error.UnknownOption?
    ensures r.Success? <==>
      && (options.Some? ==> AllKnown(options.value))
      && Merge(options).value.consumerKey.Some?
      && Merge(options).value.consumerSecret.Some?
      && Merge(options).value.consumerSite.Some?
    ensures r.Failure? && r.error.UnknownOption? ==>
      && options.Some?
      && SetterNamed(r.error.name).None?
      && exists i :: 0 <= i < |options.value| && options.value[i].0 == r.error.name && AllKnown(options.value[..i])
    ensures r.Success? ==> r.value == Merge(options).value
  {
    match Merge(options)
    case Failure(name) => Failure(UnknownOption(name))
    case Success(c) =>
      if Valid(c) then Success(c) else Failure(Invalid(Text.Join(Errors(c), ", ")))
  }

  /** When validation rejects the merged options, the raised message, cut at
      ", ", gives back the collected missing-field messages in key, secret, site
      order, so it names each missing required field and no other. */
  lemma ValidationMessageNamesMissing(options: Option<seq<Entry>>)
    requires Construct(options).Failure? && Construct(options).error.Invalid?
    ensures Merge(options).Success? && !Valid(Merge(options).value)
    ensures Text.Split(Construct(options).error.message, ", ") == Errors(Merge(options).value)
  {
    Text.SplitJoin(Errors(Merge(options).value), ", ");
  }

  /** Without any options all three required fields are missing, and the
      message names them in key, secret, site order. */
  lemma ConstructWithoutOptions()
    ensures Construct(None) == Failure(Invalid(KeyRequired + ", " + SecretRequired + ", " + SiteRequired))
  {
    var errors := Errors(Defaults());
    assert errors == [KeyRequired, SecretRequired, SiteRequired];
    assert errors[1..] == [SecretRequired, SiteRequired];
    assert errors[1..][1..] == [SiteRequired];
    assert Text.Join(errors[1..][1..], ", ") == SiteRequired;
    assert Text.Join(errors[1..], ", ") == SecretRequired + ", " + SiteRequired;
    assert Text.Join(errors, ", ") == KeyRequired + ", " + SecretRequired + ", " + SiteRequired;
    assert Merge(None) == Success(Defaults()) && !Valid(Defaults());
    assert Construct(None) == Failure(Invalid(Text.Join(errors, ", ")));
  }

  /** An option the caller does not write keeps its DEFAULT_OPTIONS value:
      /oauth_login, /oauth_callback, /oauth_complete, oauth_user, rack.session,
      and nil for every other attribute. */
  lemma MergeKeepsDefault(options: seq<Entry>, f: Field)
    requires AllKnown(options)
    requires LastWrite(options, f).None?
    ensures Apply(Defaults(), options).Success?
    ensures var c := Apply(Defaults(), options).value;
      && Get(c, f) == Get(Defaults(), f)
      && (f == LoginPath ==> c.loginPath == Some("/oauth_login"))
      && (f == CallbackPath ==> c.callbackPath == Some("/oauth_callback"))
      && (f == RedirectTo ==> c.redirectTo == Some("/oauth_complete"))
      && (f == SessionKey ==> c.sessionKey == Some("oauth_user"))
      && (f == RackSession ==> c.rackSession == Some("rack.session"))
      && (f in {ConsumerKey, ConsumerSecret, ConsumerSite} ==> Get(c, f).None?)
  {
    ApplyLastWins(Defaults(), options, f);
  }

  /** An option the caller writes overrides its default: the attribute holds
      the value of the caller's last write to it. */
  lemma MergeOverrides(options: seq<Entry>, f: Field, v: Option<string>)
    requires AllKnown(options)
    requires LastWrite(options, f) == Some(v)
    ensures Apply(Defaults(), options).Success?
    ensures Get(Apply(Defaults(), options).value, f) == v
  {
    ApplyLastWins(Defaults(), options, f);
  }
}
