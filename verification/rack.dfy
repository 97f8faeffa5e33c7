/** The parts of the Rack interface the middleware touches: the env hash, the
    session hash it carries, and the (status, headers, body) response triple. */
module Rack {
  import opened Results

  /** A Ruby hash key as used in a session: a Symbol, a String, or nil. */
  datatype Key = Sym(name: string) | Str(name: string) | NilKey

  /** The session hash found in the env. The parsed account data the callback
      stores is represented by the string the JSON parser returns. */
  type Session = map<Key, string>

  /** A Rack env, split by the kind of value each entry holds:
      `vars` are the string-valued CGI entries (PATH_INFO, HTTP_HOST, SERVER_NAME),
      `sessions` the hash-valued entries (rack.session or a custom key), and
      `params` the request parameters Rack::Request decodes from the query and form. */
  datatype Env = Env(vars: map<string, string>, sessions: map<string, Session>, params: map<string, string>)

  /** A response body: one String, or an Array of String chunks. */
  datatype Body = StringBody(text: string) | Chunks(chunks: seq<string>)

  /** A Rack response; a header value may be nil when it comes from an unset option. */
  datatype Response = Response(status: int, headers: map<string, Option<string>>, body: Body)

  /** env[name] for a string-valued entry. */
  function Var(env: Env, name: string): Option<string> {
    if name in env.vars then Some(env.vars[name]) else None
  }

  /** Rack::Request.new(env).params[name]. */
  function Param(env: Env, name: string): Option<string> {
    if name in env.params then Some(env.params[name]) else None
  }

  /** session[k], nil when the key is absent. */
  function Lookup(s: Session, k: Key): Option<string> {
    if k in s then Some(s[k]) else None
  }

  /** s' holds the same entries as s on every key outside `changed`. */
  ghost predicate AgreeOutside(s: Session, s': Session, changed: set<Key>) {
    forall k :: k !in changed ==> Lookup(s, k) == Lookup(s', k)
  }
}
