/** The CORS policy of backend/src/app.js: the configured origins are split
    into exact origins and `scheme://host:*` port wildcards, and each
    request's `Origin` header is matched against them. */
module Cors {
  import opened Common

  predicate AllowAny(config: seq<string>)
  {
    "*" in config
  }

  predicate AllowNull(config: seq<string>)
  {
    "null" in config
  }

  /** `exactOrigins`: every non-empty entry except '*', 'null' and the port
      wildcards. */
  function ExactOrigins(config: seq<string>): (s: set<string>)
    ensures forall o :: o in s <==> o in config && o != "" && o != "*" && o != "null" && !EndsWith(o, ":*")
  {
    set o | o in config && o != "" && o != "*" && o != "null" && !EndsWith(o, ":*")
  }

  /** `wildcardOrigins`: the entries ending in ':*', with the '*' dropped
      and the colon kept. */
  function WildcardOrigins(config: seq<string>): (prefixes: seq<string>)
    ensures forall p :: p in prefixes <==> p + "*" in config && EndsWith(p, ":")
    ensures |prefixes| <= |config|
  {
    if config == [] then []
    else
      var o := config[0];
      var rest := WildcardOrigins(config[1..]);
      assert forall x :: x in config <==> x == o || x in config[1..];
      if EndsWith(o, ":*") then
        var p := o[..|o| - 1];
        assert p + "*" == o;
        assert EndsWith(p, ":");
        assert forall q :: q + "*" == o && EndsWith(q, ":") ==> q == p by {
          forall q | q + "*" == o ensures q == p {
            assert q == (q + "*")[..|q|];
          }
        }
        [p] + rest
      else
        assert forall q :: EndsWith(q, ":") ==> q + "*" != o by {
          forall q | EndsWith(q, ":") ensures q + "*" != o {
            assert (q + "*")[|q| - 1..] == ":*";
          }
        }
        rest
  }

  /** The `origin` option the delegate answers with: `true`, `'null'`,
      `false`, or the request's own origin. */
  datatype AllowedOrigin = AnyOrigin | NullOrigin | NoOrigin | Reflect(origin: string)

  datatype CorsDecision = Allow(origin: AllowedOrigin, credentials: bool) | Refuse(message: string)

  predicate MatchesWildcard(config: seq<string>, origin: string)
  {
    exists p :: p in WildcardOrigins(config) && StartsWith(origin, p)
  }

  /** `corsOptionsDelegate` */
  function Decide(config: seq<string>, requestOrigin: Option<string>): (d: CorsDecision)
    ensures d.Allow? ==> d.credentials
    ensures d.Refuse? ==> d.message == "Not allowed by CORS"
    // no Origin header: never an error
    ensures !Filled(requestOrigin) ==> d == Allow(
      if AllowAny(config) then AnyOrigin else if AllowNull(config) then NullOrigin else NoOrigin, true)
    ensures requestOrigin == Some("null") && AllowNull(config) ==> d == Allow(NullOrigin, true)
    // any other origin is reflected exactly when the configuration admits it
    ensures Filled(requestOrigin) && !(requestOrigin.value == "null" && AllowNull(config)) ==>
      var o := requestOrigin.value;
      && (d.Allow? <==> AllowAny(config) || o in ExactOrigins(config) || MatchesWildcard(config, o))
      && (d.Allow? ==> d.origin == Reflect(o))
  {
    if !Filled(requestOrigin) then
      if AllowAny(config) then Allow(AnyOrigin, true)
      else if AllowNull(config) then Allow(NullOrigin, true)
      else Allow(NoOrigin, true)
    else
      var o := requestOrigin.value;
      if o == "null" && AllowNull(config) then Allow(NullOrigin, true)
      else if AllowAny(config) || o in ExactOrigins(config) || MatchesWildcard(config, o) then Allow(Reflect(o), true)
      else Refuse("Not allowed by CORS")
  }

  /** A reflected origin is always one the configuration names: '*', the
      origin itself, or a port wildcard on its scheme and host. */
  lemma ReflectedOriginsAreConfigured(config: seq<string>, o: string)
    requires Decide(config, Some(o)) == Allow(Reflect(o), true)
    ensures "*" in config || o in config || exists p :: p + "*" in config && EndsWith(p, ":") && StartsWith(o, p)
  {
  }

  /** The literal origin 'null' has no colon, so no port wildcard admits it:
      only 'null' or '*' in the configuration let it through. */
  lemma NullOriginNeedsConfig(config: seq<string>)
    requires Decide(config, Some("null")).Allow?
    ensures AllowNull(config) || AllowAny(config)
  {
    forall p | p in WildcardOrigins(config) ensures !StartsWith("null", p) {
      ColonPrefix("null", p);
      assert ':' !in "null";
    }
  }

  /** A prefix that ends in a colon only starts a text that has one. */
  lemma ColonPrefix(s: string, p: string)
    ensures EndsWith(p, ":") && StartsWith(s, p) ==> ':' in s
  {
    if EndsWith(p, ":") && StartsWith(s, p) {
      assert s[|p| - 1] == s[..|p|][|p| - 1] == p[|p| - 1];
    }
  }
}
