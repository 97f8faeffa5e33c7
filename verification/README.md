# Rack::OAuth request handling, modelled in Dafny

Rack::OAuth is a Rack middleware that adds three-legged OAuth 1.0a login to a
web application. It intercepts two paths: a login path, which fetches a
request token from the provider and redirects the user to the provider's
authorization page, and a callback path, which exchanges the request token for
an access token, stores the user's account data in the session and redirects to
a completion page. Every other request goes to the wrapped application.

This project models the middleware's construction (defaults, option writers,
validation) and its request dispatch and session state machine as pure
functions. Every call the middleware delegates to other code becomes a function
parameter:

- `OAuth.Provider`: the OAuth gem's `get_request_token`, `get_access_token`
  and the signed GET of `/account/verify_credentials.json`. Each of them may
  raise.
- `OAuth.Library`: `URI.join(...).to_s`, which may raise (for example on a
  nil `callback_path`), and the `json_parser` proc.
- The wrapped application: a function `Env -> Response`.

A request is then a transition (config, env, collaborators) → (response, env'),
or the error that the Ruby code would raise.

Files:

- `results.dfy`: nil-or-value, raise-or-return and success-or-error wrappers.
- `text.dfy`: `Integer#to_s` (for `Content-length`) with its decoder, and
  `Array#join` with a splitting decoder. Both come with round-trip proofs.
- `rack.dfy`: the env, the session hash and its keys (Symbol, String or nil),
  and the response triple.
- `options.dfy`: `DEFAULT_OPTIONS`, the attribute writers and their aliases,
  the merge of caller options, `valid?` and the validation message.
- `oauth.dfy`: `session`, `do_login`, `do_callback`, `call` and the fixed
  responses.
- `guards.dfy`: the 400 checks that the repository's tests expect but the
  library does not perform. They are kept as a separate step in front of the
  callback.
- `flows.dfy`: properties of request sequences, such as a login followed by
  its callback, or the wrapped application being skipped on the OAuth paths.

Where the tests read differently from the code, the model follows `lib/rack-oauth.rb`:

- The callback has no 400 responses, although `test/spec_oauth.rb:113-136`
  expects them for a missing pending key or verifier. Those checks are
  modelled separately in `guards.dfy`.
- The callback has no 401 response. A raise from the provider propagates,
  and the model returns it as `Error.ProviderError`.
- A completed callback always answers 302 to `redirect_to`. It never passes
  control to the wrapped application, although `test/spec_oauth.rb:102-107`
  expects that.

The model also keeps these details of the code:

- Required fields only need to be non-nil. An empty string passes `valid?`.
- The pending token pair is deleted only after both provider calls have
  returned. When one of them raises, the session keeps the pair.
- `do_login` builds the callback URL and asks the provider before it touches
  the session. So with no session and an unusable request token, the answer
  is still the 500, not a raise.

## Model

| member | source | states |
|---|---|---|
| Options.Set | lib/rack-oauth.rb:23-68 | an attribute writer changes its own attribute and no other |
| Options.Apply | lib/rack-oauth.rb:77 | writing caller options succeeds iff every option name reaches a method (attribute writers and their aliases, json_parser, and the `=`, `!`, `==` names that reach Object's comparisons); otherwise it reports the first name that does not (NoMethodError) |
| Options.ApplyLastWins | lib/rack-oauth.rb:76-77 | after the merge each attribute holds the caller's last write to it, or its previous value when there was none |
| Options.MergeKeepsDefault | lib/rack-oauth.rb:13-20 | an option the caller does not supply keeps its default: /oauth_login, /oauth_callback, /oauth_complete, oauth_user, rack.session; consumer key, secret and site stay nil |
| Options.MergeOverrides | lib/rack-oauth.rb:76-77 | a supplied option overrides its default |
| Options.Construct | lib/rack-oauth.rb:73-80 | construction succeeds iff every option name is known and consumer key, secret and site are all non-nil; an unknown name fails with UnknownOption naming the first option without a method; nil options fail validation; on success the config is the merged one |
| Options.Errors | lib/rack-oauth.rb:130-136 | only the three required-field messages, each present iff its field is nil (an empty string is present), strictly in key, secret, site order (so no duplicates), none containing a comma |
| Options.Valid | lib/rack-oauth.rb:130-135 | valid iff consumer key, secret and site are all non-nil |
| Options.ValidationMessageNamesMissing | lib/rack-oauth.rb:130-140 | when validation fails, the raised message splits back at ", " into exactly the missing-field messages of the merged config, in key, secret, site order |
| Options.ConstructWithoutOptions | lib/rack-oauth.rb:130-140 | with nil options all three fields are missing and the message lists key, secret, site in that order |
| Text.Decimal | lib/rack-oauth.rb:152 | `size.to_s` prints a canonical decimal numeral whose value is the size |
| Text.DecimalOfValue | lib/rack-oauth.rb:152 | every canonical numeral is the printout of its value, so the Content-length text determines the length |
| Text.SplitJoin | lib/rack-oauth.rb:139 | splitting a ", "-joined list of comma-free parts gives back the parts |
| OAuth.HostName | lib/rack-oauth.rb:91 | the callback host is HTTP_HOST when present, else SERVER_NAME, else the empty string |
| OAuth.PlainText | lib/rack-oauth.rb:152 | the error response has status and text body as given, exactly Content-type text/plain and a Content-length that is the canonical decimal of the body length |
| OAuth.SessionOf | lib/rack-oauth.rb:142-146 | the session is absent (the helper raises) iff rack_session is nil or the env has no entry under it; otherwise it is that entry |
| OAuth.CredentialsError | lib/rack-oauth.rb:150-153 | the fixed 500: status 500, the message as a String body, exactly Content-type text/plain and Content-length "54" (the message's length) |
| OAuth.AuthorizeRedirect | lib/rack-oauth.rb:155-157 | status 302, exactly the headers Location (the authorize URL) and Content-type text/plain, and an empty body |
| OAuth.Login | lib/rack-oauth.rb:90-105 | a raise from URI.join propagates before the provider is asked; a provider raise propagates; an unusable token gives the fixed 500 and the env unchanged; a usable token without a session raises; otherwise 302 to the authorize URL, the pending keys hold the provider's token and secret, and every other session key is unchanged; on success nothing in the env but that session hash changes |
| OAuth.Callback | lib/rack-oauth.rb:107-120 | no session raises before any provider call; the provider gets the pending pair and oauth_verifier; a provider raise propagates; otherwise both pending keys are gone, session_key holds the parsed body when a response exists (otherwise untouched), all else is unchanged, nothing in the env but that session hash changes, and the answer is 302 to redirect_to with an empty body |
| OAuth.Call | lib/rack-oauth.rb:82-88 | login path goes to login, then callback path goes to callback (login checked first, nil paths match a missing PATH_INFO), any other path returns the app's response with the env unchanged; OAuth paths answer 302 or 500 |
| Flows.AppOnlyForOtherPaths | lib/rack-oauth.rb:82-87 | on the two OAuth paths the outcome does not depend on the wrapped application |
| Flows.LoginThenCallback | lib/rack-oauth.rb:90-120 | a login followed by a separate callback request carrying the session the login left hands the provider exactly the stored token pair and the callback's own verifier; the final session is the pre-login session without the pending pair, plus the parsed account data |
| TestGuards.Guard | test/spec_oauth.rb:113-136 | the tests' check rejects with 400 iff a pending key is missing or oauth_verifier is missing or empty; with both pending keys present the rejection mentions "verifier" |
| TestGuards.GuardedCallback | test/spec_oauth.rb:113-136 | a rejected callback answers exactly the guard's 400 and leaves the env as it was; an accepted one behaves as the library's callback |
| TestGuards.MissingVerifierRejected | test/spec_oauth.rb:126-136 | a callback with both pending keys but a missing or empty oauth_verifier is answered 400, with a body that mentions "verifier", and the env unchanged |
| TestGuards.ReplayedCallbackRejected | lib/rack-oauth.rb:112-114 | a callback replayed after a completed one finds no pending pair and gets the missing-token 400 |
| Flows.LoginOpensGuard | test/spec_oauth.rb:126-136 | after a login that stored a pending pair, the tests' guard lets a callback request carrying that session through iff its oauth_verifier is present and non-empty |

## Left out

- The lazily memoized OAuth consumer (lib/rack-oauth.rb:124-128) is left out because it caches an external client. Only `request_token_path` is passed to it. `access_token_path` and `authorize_path` are stored but never reach it.
- The provider's network calls and `authorize_url` are function parameters, because they are network calls into a gem this model does not include.
- `URI.join` and the JSON parser are function parameters. `URI.join` may raise, and that raise is modelled. The parsed account data is represented as the string the parser returns. A parser that raises is not modelled.
- The `json_parser` option: its name is accepted, because the writer exists, but its value is not stored. The callback takes the parser as the `Library.jsonParse` parameter instead.
- Option values are nil or strings. Ruby `false`, Symbols, and non-String path values (for example a Regexp, which `case`/`when` would match with `===`) are not modelled.
- The empty `Rack::Auth::OAuth` class is left out because it holds no behaviour.
- The tests' pass-through-on-callback behaviour (test/spec_oauth.rb:102-107, 138-154) is left out because it contradicts the redirect the code performs.
- The pending specs that have no body are left out because they state nothing.
- Exceptions raised by the wrapped application are not modelled. Its changes to the env are not modelled either: pass-through returns the env the middleware received.
- The session hash is a shared mutable object in Ruby. Here the handlers return a new env that carries the updated session.
- `Rack::Lint`, the test mocks, and the HTTP and session middleware plumbing are left out because they are test and server infrastructure.
- Text.Split: this is a reference decoder for the validation message, not a model of Ruby's `String#split`, which drops trailing empty fields.
