/**
 * Start-up configuration of the backend client (client/lib/supabase.ts):
 * the URL/key fallbacks, the missing-key and missing-URL decisions, the
 * key the client is built with, and the exported status flags.
 */
module Config {
  import opened Records

  const DefaultUrl: string := "https://bitglhtesgqflxojoamq.supabase.co"
  const PlaceholderKey: string := "placeholder-key-for-development"
  const MissingKeyError: string := "Supabase configuration error: Missing anon key"
  const MissingUrlError: string := "Supabase configuration error: Missing URL"

  /** The build environment: an unset variable is None; DEV is a flag. */
  datatype Env = Env(urlVar: Option<string>, keyVar: Option<string>, dev: bool)

  /** JavaScript truthiness of an optional string: set and non-empty. */
  predicate Truthy(v: Option<string>)
  {
    v.Some? && v.value != ""
  }

  /** `v || fallback` on an optional string. */
  function OrElse(v: Option<string>, fallback: string): (r: string)
    ensures Truthy(v) ==> r == v.value
    ensures !Truthy(v) ==> r == fallback
  {
    if Truthy(v) then v.value else fallback
  }

  function ResolvedUrl(env: Env): string
  {
    OrElse(env.urlVar, DefaultUrl)
  }

  function ResolvedKey(env: Env): string
  {
    OrElse(env.keyVar, "")
  }

  /** What the client is built with (URL, key and the fixed auth options). */
  datatype ClientConfig = ClientConfig(
    url: string, key: string,
    autoRefreshToken: bool, persistSession: bool, detectSessionInUrl: bool)

  /** The exported `supabaseConfig` status object. */
  datatype Status = Status(url: string, hasKey: bool, isDevelopment: bool, isConfigured: bool)

  datatype Outcome = Ready(client: ClientConfig, status: Status) | Thrown(message: string)

  /** Module initialisation: the two guarded throws, then client construction. */
  function Initialize(env: Env): (r: Outcome)
    ensures r.Thrown? ==> r.message in {MissingKeyError, MissingUrlError}
    ensures r.Ready? ==> r.client.url == ResolvedUrl(env) && r.status.url == ResolvedUrl(env)
  {
    var url := ResolvedUrl(env);
    var key := ResolvedKey(env);
    if key == "" && !env.dev then
      Thrown(MissingKeyError)
    else if url == "" then
      Thrown(MissingUrlError)
    else
      Ready(
        ClientConfig(url, if key != "" then key else PlaceholderKey, true, true, true),
        Status(url, key != "", env.dev, url != "" && key != ""))
  }

  /** The resolved URL is never empty: it is the variable when set, else the default. */
  lemma ResolvedUrlNonEmpty(env: Env)
    ensures ResolvedUrl(env) != ""
    ensures Truthy(env.urlVar) ==> ResolvedUrl(env) == env.urlVar.value
    ensures !Truthy(env.urlVar) ==> ResolvedUrl(env) == DefaultUrl
  {
  }

  /** The "Missing URL" throw can never be reached. */
  lemma MissingUrlUnreachable(env: Env)
    ensures Initialize(env) != Thrown(MissingUrlError)
  {
    ResolvedUrlNonEmpty(env);
  }

  /** Initialisation throws exactly when the key is missing outside development. */
  lemma ThrowsIffMissingKeyInProduction(env: Env)
    ensures Initialize(env).Thrown? <==> (!Truthy(env.keyVar) && !env.dev)
    ensures Initialize(env).Thrown? ==> Initialize(env).message == MissingKeyError
  {
    ResolvedUrlNonEmpty(env);
  }

  /** A supplied key is used as is; a missing key in development becomes the placeholder. */
  lemma ClientKeyChoice(env: Env)
    requires Truthy(env.keyVar) || env.dev
    ensures Initialize(env).Ready?
    ensures Truthy(env.keyVar) ==> Initialize(env).client.key == env.keyVar.value
    ensures !Truthy(env.keyVar) ==> Initialize(env).client.key == PlaceholderKey
    ensures Initialize(env).client.key != ""
  {
    ResolvedUrlNonEmpty(env);
  }

  /** hasKey holds iff a key was supplied, and with the URL fallback isConfigured equals hasKey. */
  lemma StatusFlags(env: Env)
    requires Initialize(env).Ready?
    ensures Initialize(env).status.hasKey <==> Truthy(env.keyVar)
    ensures Initialize(env).status.isConfigured == Initialize(env).status.hasKey
    ensures Initialize(env).status.isDevelopment == env.dev
  {
    ResolvedUrlNonEmpty(env);
  }
}
