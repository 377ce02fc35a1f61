/**
 * How `OpenAIClient.__init__` settles on an API key and the request
 * headers: an explicit key in the model's configuration wins, then the
 * environment variable named after the model, then the empty string; the
 * `Authorization` header carries a bearer token only when there is a key.
 */
module Credentials {
  import opened Wrappers
  import opened Strings

  /**
   * The entries of one model's configuration that the client reads.
   * `apiKey` is `None` when the entry is missing or JSON `null`;
   * `endpoint` is `None` when the entry is missing.
   */
  datatype Config = Config(
    name: string,
    apiKey: Option<string>,
    modelName: string,
    endpoint: Option<string>)

  const KeySuffix: string := "_API_KEY"
  const ContentTypeHeader: string := "Content-Type"
  const AuthorizationHeader: string := "Authorization"
  const JsonMediaType: string := "application/json"
  const BearerPrefix: string := "Bearer "

  /** The character a name character becomes in the variable name. */
  function EnvChar(c: char): (e: char)
    ensures e != ' ' && !('a' <= e <= 'z')
  {
    if c == ' ' then '_' else UpperChar(c)
  }

  /** `f"{name.upper().replace(' ', '_')}_API_KEY"`. */
  function EnvVarName(name: string): (v: string)
    ensures |v| == |name| + |KeySuffix|
    ensures v[|name|..] == KeySuffix
    ensures forall i :: 0 <= i < |name| ==> v[i] == EnvChar(name[i])
    ensures ' ' !in v
    ensures forall i :: 0 <= i < |v| ==> !('a' <= v[i] <= 'z')
  {
    var replaced := Replace(Upper(name), ' ', '_');
    assert forall i :: 0 <= i < |name| ==> replaced[i] == EnvChar(name[i]);
    replaced + KeySuffix
  }

  /**
   * Two model names read the same environment variable exactly when they
   * agree character by character after upper-casing and turning spaces
   * into underscores ("my model" and "MY_MODEL" share one).
   */
  lemma SameEnvVar(a: string, b: string)
    ensures EnvVarName(a) == EnvVarName(b) <==>
      |a| == |b| && forall i :: 0 <= i < |a| ==> EnvChar(a[i]) == EnvChar(b[i])
  {
  }

  /** `config.get("api_key", "")`: the explicit key, or "" when there is none. */
  function ExplicitKey(config: Config): (k: string)
    ensures k != "" <==> config.apiKey.Some? && config.apiKey.value != ""
    ensures k != "" ==> config.apiKey == Some(k)
  {
    match config.apiKey
    case Some(k) => k
    case None => ""
  }

  /**
   * `config.get("api_key", "") or os.getenv(EnvVarName(name), "")`, with
   * the process environment given as a map from variable name to value.
   */
  function ResolveKey(config: Config, env: map<string, string>): (key: string)
    ensures ExplicitKey(config) != "" ==> key == ExplicitKey(config)
    ensures ExplicitKey(config) == "" && EnvVarName(config.name) in env ==>
      key == env[EnvVarName(config.name)]
    ensures key != "" <==>
      ExplicitKey(config) != "" ||
      (EnvVarName(config.name) in env && env[EnvVarName(config.name)] != "")
  {
    var explicit := ExplicitKey(config);
    if explicit != "" then explicit
    else
      var name := EnvVarName(config.name);
      if name in env then env[name] else ""
  }

  /** With an explicit key, the environment does not matter at all. */
  lemma ExplicitKeyIgnoresEnv(config: Config, env1: map<string, string>, env2: map<string, string>)
    requires ExplicitKey(config) != ""
    ensures ResolveKey(config, env1) == ResolveKey(config, env2)
  {
  }

  /** Without an explicit key, only the model's own variable matters. */
  lemma OnlyOwnVariableMatters(config: Config, env1: map<string, string>, env2: map<string, string>)
    requires ExplicitKey(config) == ""
    requires EnvVarName(config.name) in env1 <==> EnvVarName(config.name) in env2
    requires EnvVarName(config.name) in env1 ==>
      env1[EnvVarName(config.name)] == env2[EnvVarName(config.name)]
    ensures ResolveKey(config, env1) == ResolveKey(config, env2)
  {
  }

  /** The headers dictionary built from a resolved key. */
  function HeadersFor(key: string): (h: map<string, string>)
    ensures h.Keys == {ContentTypeHeader, AuthorizationHeader}
    ensures h[ContentTypeHeader] == JsonMediaType
    ensures key != "" ==> h[AuthorizationHeader] == BearerPrefix + key
    ensures key == "" ==> h[AuthorizationHeader] == ""
  {
    map[ContentTypeHeader := JsonMediaType,
        AuthorizationHeader := if key != "" then BearerPrefix + key else ""]
  }

  /** The token an `Authorization` value carries, if it is a bearer value. */
  function BearerToken(auth: string): (t: Option<string>)
    ensures t.Some? <==> |auth| >= |BearerPrefix| && auth[..|BearerPrefix|] == BearerPrefix
    ensures t.Some? ==> auth == BearerPrefix + t.value
  {
    if |auth| >= |BearerPrefix| && auth[..|BearerPrefix|] == BearerPrefix
    then Some(auth[|BearerPrefix|..])
    else None
  }

  /**
   * The `Authorization` value is never malformed: it is empty exactly when
   * there is no key, and otherwise gives the key back unchanged.
   */
  lemma AuthorizationRoundTrip(key: string)
    ensures HeadersFor(key)[AuthorizationHeader] == "" <==> key == ""
    ensures BearerToken(HeadersFor(key)[AuthorizationHeader]) ==
      if key == "" then None else Some(key)
  {
  }
}
