/**
 * The two request-admission decisions of the HTTP server: the CORS origin
 * callback over a fixed allow-list, and the guard that refuses to build the
 * vector-store client unless its key and URL are configured.
 */
module Server {
  import opened Wrappers

  /** JavaScript truthiness of a value of type `string | undefined`: present and non-empty. */
  predicate Truthy(v: Option<string>)
  {
    v.Some? && v.value != ""
  }

  /** The origins a browser may send requests from. */
  const AllowedOrigins: seq<string> := ["http://localhost:5173", "http://localhost:5005"]

  /** The error the CORS callback reports for an origin it refuses. */
  const CorsError: string := "Not allowed by CORS"

  /** The error thrown when the vector-store configuration is missing. */
  const SupabaseConfigError: string := "Supabase API key or URL is not defined"

  /** What the CORS callback hands back: the request is allowed, or it fails with a message. */
  datatype CorsDecision = Allow | Reject(message: string)

  /**
   * The origin callback. A request without an origin (a falsy one, so also an
   * empty `Origin` header) is allowed; an origin in the allow-list is allowed;
   * every other origin is refused with the CORS error.
   */
  function OriginDecision(origin: Option<string>): (d: CorsDecision)
    ensures d == Allow <==> !Truthy(origin) || origin.value in AllowedOrigins
    ensures d != Allow ==> d == Reject(CorsError)
  {
    if !Truthy(origin) then Allow
    else if origin.value in AllowedOrigins then Allow
    else Reject(CorsError)
  }

  /** The connection settings the vector-store client is created with. */
  datatype SupabaseConfig = SupabaseConfig(url: string, apiKey: string)

  /**
   * The configuration guard over the already-read environment values: it
   * fails when either the key or the URL is falsy, and otherwise yields the
   * pair the client is created from.
   */
  function SupabaseGuard(apiKey: Option<string>, url: Option<string>): (r: Result<SupabaseConfig, string>)
    ensures r.Ok? <==> Truthy(apiKey) && Truthy(url)
    ensures r.Ok? ==> r.value.url == url.value && r.value.apiKey == apiKey.value
    ensures r.Ok? ==> r.value.url != "" && r.value.apiKey != ""
    ensures r.Err? ==> r.error == SupabaseConfigError
  {
    if !Truthy(apiKey) || !Truthy(url) then Err(SupabaseConfigError)
    else Ok(SupabaseConfig(url.value, apiKey.value))
  }

  /** A request that carries no origin is always allowed. */
  lemma NoOriginAllowed()
    ensures OriginDecision(None) == Allow
    ensures OriginDecision(Some("")) == Allow
  {
  }

  /** Both listed origins are allowed. */
  lemma ListedOriginsAllowed()
    ensures OriginDecision(Some("http://localhost:5173")) == Allow
    ensures OriginDecision(Some("http://localhost:5005")) == Allow
  {
  }

  /**
   * Matching is exact: extending an allowed origin with anything, a trailing
   * slash or a path for instance, gives an origin that is refused.
   */
  lemma ExtendedOriginRejected(o: string, tail: string)
    requires o in AllowedOrigins && tail != []
    ensures OriginDecision(Some(o + tail)) == Reject(CorsError)
  {
  }

  /** Matching is exact: a non-empty proper prefix of an allowed origin is refused. */
  lemma TruncatedOriginRejected(o: string, n: nat)
    requires o in AllowedOrigins && 0 < n < |o|
    ensures OriginDecision(Some(o[..n])) == Reject(CorsError)
  {
  }

  /** ASCII lower-casing of one character; every other character is left as it is. */
  function LowerChar(c: char): char
  {
    if 'A' <= c <= 'Z' then (c as int - 'A' as int + 'a' as int) as char else c
  }

  /**
   * ASCII lower-casing of a string: the result has no ASCII capital letter
   * and agrees with the input wherever the input has none.
   */
  function Lower(s: string): (r: string)
    ensures |r| == |s|
    ensures forall i :: 0 <= i < |r| ==> !('A' <= r[i] <= 'Z')
    ensures forall i :: 0 <= i < |s| && !('A' <= s[i] <= 'Z') ==> r[i] == s[i]
  {
    seq(|s|, i requires 0 <= i < |s| => LowerChar(s[i]))
  }

  /** The listed origins are written in lower case already. */
  lemma ListedOriginsLowerCase(o: string)
    requires o in AllowedOrigins
    ensures Lower(o) == o
  {
  }

  /**
   * Matching does not fold case: any other spelling of a listed origin that
   * lower-cases to it (`HTTP://localhost:5173`, `http://LocalHost:5005`, ...)
   * is refused.
   */
  lemma CaseVariantRejected(o: string, v: string)
    requires o in AllowedOrigins && v != o && Lower(v) == o
    ensures OriginDecision(Some(v)) == Reject(CorsError)
  {
  }

  /** The falsy values of type `string | undefined` are exactly `undefined` and the empty string. */
  lemma FalsyValues(v: Option<string>)
    ensures !Truthy(v) <==> v == None || v == Some("")
  {
  }
}
