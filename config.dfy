/** backend/src/config.js: the settings read from the environment, which is
    passed in as a map from variable names to their text. */
module Config {
  import opened Common

  type Env = map<string, string>

  function Lookup(env: Env, name: string): Option<string>
  {
    if name in env then Some(env[name]) else None
  }

  /** `process.env[name] || fallback` */
  function Setting(env: Env, name: string, fallback: string): (v: string)
    ensures Filled(Lookup(env, name)) ==> v == env[name]
    ensures !Filled(Lookup(env, name)) ==> v == fallback
  {
    if Filled(Lookup(env, name)) then env[name] else fallback
  }

  function NodeEnv(env: Env): string
  {
    Setting(env, "NODE_ENV", "development")
  }

  function JwtSecret(env: Env): string
  {
    Setting(env, "JWT_SECRET", "dev-secret-change-me")
  }

  function JwtExpiresIn(env: Env): string
  {
    Setting(env, "JWT_EXPIRES_IN", "2h")
  }

  function AdminSeedEmail(env: Env): Option<string>
  {
    Lookup(env, "ADMIN_SEED_EMAIL")
  }

  function AdminSeedPassword(env: Env): Option<string>
  {
    Lookup(env, "ADMIN_SEED_PASSWORD")
  }

  /** With nothing set, the environment is development, tokens last two
      hours and the development secret is used. */
  lemma Defaults()
    ensures NodeEnv(map[]) == "development"
    ensures JwtExpiresIn(map[]) == "2h"
    ensures JwtSecret(map[]) == "dev-secret-change-me"
  {
  }

  const DefaultOrigins: seq<string> := [
    "http://localhost:3000",
    "http://127.0.0.1:3000",
    "http://localhost:5173",
    "http://127.0.0.1:5173",
    "http://localhost:*",
    "http://127.0.0.1:*"
  ]

  function TrimAll(parts: seq<string>): (r: seq<string>)
    ensures |r| == |parts|
    ensures forall i :: 0 <= i < |parts| ==> r[i] == Trim(parts[i])
  {
    seq(|parts|, i requires 0 <= i < |parts| => Trim(parts[i]))
  }

  /** `.filter(Boolean)` on strings: the non-empty ones, in order. */
  function DropEmpty(parts: seq<string>): (r: seq<string>)
    ensures forall i :: 0 <= i < |r| ==> r[i] != ""
    ensures forall x :: x in r <==> x in parts && x != ""
    ensures (forall i :: 0 <= i < |parts| ==> parts[i] != "") ==> r == parts
    ensures multiset(r) == multiset(parts)["" := 0]
  {
    if parts == [] then []
    else
      var rest := DropEmpty(parts[1..]);
      assert parts == [parts[0]] + parts[1..];
      assert forall x :: x in parts <==> x == parts[0] || x in parts[1..];
      if parts[0] == "" then rest else [parts[0]] + rest
  }

  /** `parseCorsOrigins`: `CORS_ORIGINS`, else `CORS_ORIGIN`, as a comma
      separated list of trimmed non-empty entries; when neither is set, the
      six local defaults, with 'null' added outside production. */
  function ParseCorsOrigins(env: Env): (origins: seq<string>)
    ensures var input := OrElse(Lookup(env, "CORS_ORIGINS"), Lookup(env, "CORS_ORIGIN"));
      && (!Filled(input) && NodeEnv(env) != "production" ==> origins == DefaultOrigins + ["null"])
      && (!Filled(input) && NodeEnv(env) == "production" ==> origins == DefaultOrigins)
      && (Filled(input) ==> origins == DropEmpty(TrimAll(Split(input.value, ','))))
    ensures forall i :: 0 <= i < |origins| ==> origins[i] != ""
  {
    var input := OrElse(Lookup(env, "CORS_ORIGINS"), Lookup(env, "CORS_ORIGIN"));
    if !Filled(input) then
      DefaultOrigins + (if NodeEnv(env) != "production" then ["null"] else [])
    else DropEmpty(TrimAll(Split(input.value, ',')))
  }

  /** `CORS_ORIGINS`, when set, decides alone: `CORS_ORIGIN` is ignored. */
  lemma PluralTakesPrecedence(env: Env, other: string)
    requires Filled(Lookup(env, "CORS_ORIGINS"))
    ensures ParseCorsOrigins(env["CORS_ORIGIN" := other]) == ParseCorsOrigins(env)
  {
    assert Lookup(env["CORS_ORIGIN" := other], "CORS_ORIGINS") == Lookup(env, "CORS_ORIGINS");
  }

  /** A list written out with commas reads back as itself, whatever
      whitespace surrounds the entries' text. */
  lemma {:induction false} OriginsRoundTrip(env: Env, origins: seq<string>)
    requires origins != []
    requires forall i :: 0 <= i < |origins| ==>
      origins[i] != "" && ',' !in origins[i] && !IsWhitespace(origins[i][0]) && !IsWhitespace(origins[i][|origins[i]| - 1])
    requires Lookup(env, "CORS_ORIGINS") == Some(Join(origins, ","))
    ensures ParseCorsOrigins(env) == origins
  {
    assert Join(origins, ",") != "" by {
      if |origins| == 1 {
        assert Join(origins, ",") == origins[0];
      }
    }
    SplitJoin(origins, ',');
    forall i | 0 <= i < |origins| ensures Trim(origins[i]) == origins[i] {
      TrimUnchanged(origins[i]);
    }
    assert TrimAll(origins) == origins;
  }

  /** Outside production, the defaults also admit the 'null' origin of
      pages opened from disk. */
  lemma DefaultsOutsideProduction(env: Env)
    requires !Filled(Lookup(env, "CORS_ORIGINS")) && !Filled(Lookup(env, "CORS_ORIGIN"))
    ensures |ParseCorsOrigins(env)| == if NodeEnv(env) == "production" then 6 else 7
    ensures "null" in ParseCorsOrigins(env) <==> NodeEnv(env) != "production"
  {
    assert "null" !in DefaultOrigins;
  }
}
