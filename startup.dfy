/**
 * The start-up check of `SpotifyClient.__init__`: read the Spotify settings
 * from the environment, list the required ones that are unset or empty, and
 * refuse to start (a `ValueError`) when that list is not empty.
 */
module Startup {

  import opened Wrappers
  import opened Text

  /** The process environment; a name that is not a key is unset. */
  type Environment = map<string, string>

  const ClientIdVar := "SPOTIFY_CLIENT_ID"
  const ClientSecretVar := "SPOTIFY_CLIENT_SECRET"
  const PlaylistIdVar := "SPOTIFY_PLAYLIST_ID"
  const RedirectUriVar := "SPOTIFY_REDIRECT_URI"
  const DefaultRedirectUri := "http://localhost:8888/callback"

  /** The required variables, in the order they are reported. */
  const RequiredVariables := [ClientIdVar, ClientSecretVar, PlaylistIdVar]

  /** `os.getenv(name)` is truthy: set and not empty. */
  predicate IsSet(env: Environment, name: string)
  {
    name in env && env[name] != ""
  }

  /** `os.getenv(name, default)`: the default only when the variable is absent, not when it is empty. */
  function GetEnv(env: Environment, name: string, default: string): string
  {
    if name in env then env[name] else default
  }

  /** The names among `names` that are not set, in the order of `names`. */
  function Unset(names: seq<string>, env: Environment): seq<string>
  {
    if names == [] then []
    else (if IsSet(env, names[0]) then [] else [names[0]]) + Unset(names[1..], env)
  }

  /** A name is listed exactly when it is one of `names` and is unset or empty. */
  lemma {:induction false} UnsetMembers(names: seq<string>, env: Environment, v: string)
    ensures v in Unset(names, env) <==> v in names && !IsSet(env, v)
  {
    if names != [] {
      UnsetMembers(names[1..], env, v);
      assert names == [names[0]] + names[1..];
    }
  }

  /** The configuration a successfully constructed client holds. */
  datatype Settings = Settings(clientId: string, clientSecret: string, redirectUri: string, playlistId: string)

  /** The message of the `ValueError` raised when variables are missing. */
  function MissingMessage(missing: seq<string>): string
  {
    "\U{274C} Missing Spotify environment variables: " + Join(", ", missing)
  }

  /** Builds `missing_vars` by successive appends, in the fixed order of the three checks. */
  method MissingVariables(env: Environment) returns (missing: seq<string>)
    ensures missing == Unset(RequiredVariables, env)
    ensures forall v :: v in missing <==> v in RequiredVariables && !IsSet(env, v)
  {
    UnsetRequired(env);
    forall v ensures v in Unset(RequiredVariables, env) <==> v in RequiredVariables && !IsSet(env, v) {
      UnsetMembers(RequiredVariables, env, v);
    }
    missing := [];
    if !IsSet(env, ClientIdVar) {
      missing := missing + [ClientIdVar];
    }
    if !IsSet(env, ClientSecretVar) {
      missing := missing + [ClientSecretVar];
    }
    if !IsSet(env, PlaylistIdVar) {
      missing := missing + [PlaylistIdVar];
    }
  }

  /** Reads the settings; construction fails exactly when a required variable is unset or empty. */
  method Configure(env: Environment) returns (r: Result<Settings, string>)
    ensures r.Success? <==> IsSet(env, ClientIdVar) && IsSet(env, ClientSecretVar) && IsSet(env, PlaylistIdVar)
    ensures r.Failure? ==> r.error == MissingMessage(Unset(RequiredVariables, env))
    ensures r.Success? ==> r.value == Settings(env[ClientIdVar], env[ClientSecretVar],
                                               GetEnv(env, RedirectUriVar, DefaultRedirectUri), env[PlaylistIdVar])
    ensures r.Success? ==> r.value.clientId != "" && r.value.clientSecret != "" && r.value.playlistId != ""
  {
    var redirectUri := GetEnv(env, RedirectUriVar, DefaultRedirectUri);
    var missing := MissingVariables(env);
    UnsetRequired(env);
    if missing != [] {
      return Failure(MissingMessage(missing));
    }
    return Success(Settings(env[ClientIdVar], env[ClientSecretVar], redirectUri, env[PlaylistIdVar]));
  }

  /** Order is kept: what is unset in an earlier part of the list is reported before what is unset in a later part. */
  lemma {:induction false} UnsetConcat(a: seq<string>, b: seq<string>, env: Environment)
    ensures Unset(a + b, env) == Unset(a, env) + Unset(b, env)
  {
    if a == [] {
      assert a + b == b;
    } else {
      var x, rest := a[0], a[1..];
      assert a == [x] + rest;
      assert a + b == [x] + (rest + b);
      UnsetConcat(rest, b, env);
      UnsetCons(x, rest + b, env);
      UnsetCons(x, rest, env);
    }
  }

  lemma UnsetCons(x: string, rest: seq<string>, env: Environment)
    ensures Unset([x] + rest, env) == (if IsSet(env, x) then [] else [x]) + Unset(rest, env)
  {
    assert ([x] + rest)[1..] == rest;
  }

  /** The three checks, one after another, are the filter over the required list. */
  lemma UnsetRequired(env: Environment)
    ensures Unset(RequiredVariables, env)
         == (if IsSet(env, ClientIdVar) then [] else [ClientIdVar])
          + (if IsSet(env, ClientSecretVar) then [] else [ClientSecretVar])
          + (if IsSet(env, PlaylistIdVar) then [] else [PlaylistIdVar])
  {
    var names := RequiredVariables;
    assert names[1..] == [ClientSecretVar, PlaylistIdVar];
    assert names[1..][1..] == [PlaylistIdVar];
    assert names[1..][1..][1..] == [];
    assert Unset(names[1..][1..], env) == (if IsSet(env, PlaylistIdVar) then [] else [PlaylistIdVar]) + [];
    assert Unset(names[1..], env)
        == (if IsSet(env, ClientSecretVar) then [] else [ClientSecretVar]) + Unset(names[1..][1..], env);
  }

  /** An empty redirect URI is kept as it is; only an absent one falls back to the default. */
  lemma RedirectUriDefault(env: Environment)
    ensures RedirectUriVar !in env ==> GetEnv(env, RedirectUriVar, DefaultRedirectUri) == DefaultRedirectUri
    ensures RedirectUriVar in env ==> GetEnv(env, RedirectUriVar, DefaultRedirectUri) == env[RedirectUriVar]
  {
  }
}
