/**
 * `NonInteractiveCacheHandler`: a token cache with two sources, a field in
 * memory and a JSON file on disk. Reads prefer memory, fall back to the
 * file and swallow every error; saves always set memory and then try the
 * file. The file is part of the state: missing, holding a parseable JSON
 * value, or present but unreadable (a read or parse that raises).
 */
module TokenCache {

  import opened Wrappers

  /** A token record as loaded from JSON: field names to values. */
  type TokenInfo = map<string, string>

  /** Python truthiness of a token: None and the empty dict are falsy. */
  predicate Truthy(t: Option<TokenInfo>)
  {
    t.Some? && |t.value| > 0
  }

  /** The cache path is truthy: given and not empty. */
  predicate HasPath(path: Option<string>)
  {
    path.Some? && path.value != ""
  }

  /** The cache file; `Holds(None)` is a file holding JSON `null`. */
  datatype CacheFile = Missing | Holds(json: Option<TokenInfo>) | Unreadable

  /** The handler's state: the in-memory token and the cache file. */
  datatype Cache = Cache(memory: Option<TokenInfo>, file: CacheFile)

  /** What a read returns, and the state it leaves. */
  datatype Lookup = Lookup(token: Option<TokenInfo>, after: Cache)

  /** `get_cached_token` on state `c`. */
  function Get(c: Cache, path: Option<string>): Lookup
  {
    if Truthy(c.memory) then Lookup(c.memory, c)
    else if HasPath(path) && c.file.Holds? then Lookup(c.file.json, Cache(c.file.json, c.file))
    else Lookup(None, c)
  }

  /**
   * The states `save_token_to_cache(t)` may leave: memory is `t`; with a
   * path the file then holds `t`, or the write failed before touching it,
   * or it failed after `open(..., 'w')` had truncated it.
   */
  ghost predicate Saved(c: Cache, path: Option<string>, t: Option<TokenInfo>, c': Cache)
  {
    && c'.memory == t
    && (if HasPath(path) then c'.file == Holds(t) || c'.file == c.file || c'.file == Unreadable
        else c'.file == c.file)
  }

  /** `token_info.get('access_token') if token_info else None` */
  function AccessToken(t: Option<TokenInfo>): Option<string>
  {
    if Truthy(t) && "access_token" in t.value then Some(t.value["access_token"]) else None
  }

  class NonInteractiveCacheHandler {
    const cachePath: Option<string>
    var tokenInfo: Option<TokenInfo>
    /** The file at `cachePath`, which other code may also write. */
    var file: CacheFile

    constructor (cachePath: Option<string>, file: CacheFile)
      ensures this.cachePath == cachePath && this.file == file && tokenInfo == None
    {
      this.cachePath := cachePath;
      this.file := file;
      tokenInfo := None;
    }

    function State(): Cache
      reads this
    {
      Cache(tokenInfo, file)
    }

    method GetCachedToken() returns (r: Option<TokenInfo>)
      modifies this`tokenInfo
      ensures Lookup(r, State()) == Get(old(State()), cachePath)
    {
      if Truthy(tokenInfo) {
        return tokenInfo;
      }
      if HasPath(cachePath) && file != Missing {
        match file {
          case Holds(json) =>
            tokenInfo := json;
            return tokenInfo;
          case Unreadable =>
        }
      }
      return None;
    }

    method SaveTokenToCache(t: Option<TokenInfo>)
      modifies this
      ensures Saved(old(State()), cachePath, t, State())
    {
      tokenInfo := t;
      if HasPath(cachePath) {
        var written: bool := *;
        if written {
          file := Holds(t);
        } else {
          var truncated: bool := *;
          if truncated {
            file := Unreadable;
          }
        }
      }
    }

    method GetAccessToken() returns (r: Option<string>)
      modifies this`tokenInfo
      ensures r == AccessToken(Get(old(State()), cachePath).token)
      ensures State() == Get(old(State()), cachePath).after
    {
      var token := GetCachedToken();
      r := AccessToken(token);
    }
  }

  /** A truthy token in memory is returned as it is, whatever the file holds. */
  lemma MemoryHitIgnoresFile(memory: Option<TokenInfo>, file: CacheFile, path: Option<string>)
    requires Truthy(memory)
    ensures Get(Cache(memory, file), path) == Lookup(memory, Cache(memory, file))
  {
  }

  /** With nothing truthy in memory, a readable file is loaded into memory and returned, even when falsy. */
  lemma FileFallback(memory: Option<TokenInfo>, json: Option<TokenInfo>, path: Option<string>)
    requires !Truthy(memory) && HasPath(path)
    ensures Get(Cache(memory, Holds(json)), path) == Lookup(json, Cache(json, Holds(json)))
  {
  }

  /** An empty dict in memory does not count as cached: the file is read again. */
  lemma EmptyTokenIsNotCached(json: Option<TokenInfo>, path: Option<string>)
    requires HasPath(path)
    ensures Get(Cache(Some(map[]), Holds(json)), path).token == json
  {
  }

  /** No path, a missing file or a failing read answers None and leaves memory as it was. */
  lemma MissLeavesState(c: Cache, path: Option<string>)
    requires !Truthy(c.memory) && (!HasPath(path) || !c.file.Holds?)
    ensures Get(c, path) == Lookup(None, c)
  {
  }

  /** Reading twice answers the same and leaves the same state as reading once. */
  lemma GetIdempotent(c: Cache, path: Option<string>)
    ensures Get(Get(c, path).after, path) == Get(c, path)
  {
  }

  /** After saving a truthy token, a read returns it, whether or not the file write succeeded. */
  lemma SaveThenGet(c: Cache, path: Option<string>, t: Option<TokenInfo>, c': Cache)
    requires Saved(c, path, t, c') && Truthy(t)
    ensures Get(c', path) == Lookup(t, c')
    ensures AccessToken(Get(c', path).token) == if "access_token" in t.value then Some(t.value["access_token"]) else None
  {
  }

  /** A save whose write succeeded is seen by a fresh handler on the same path. */
  lemma SavedFileSurvivesRestart(c: Cache, path: Option<string>, t: Option<TokenInfo>, c': Cache)
    requires Saved(c, path, t, c') && c'.file == Holds(t) && HasPath(path)
    ensures Get(Cache(None, c'.file), path).token == t
  {
  }

  /** Saving sets memory even with no path or a failed write, and without a path the file is untouched. */
  lemma SaveAlwaysSetsMemory(c: Cache, path: Option<string>, t: Option<TokenInfo>, c': Cache)
    requires Saved(c, path, t, c')
    ensures c'.memory == t
    ensures !HasPath(path) ==> c'.file == c.file
  {
  }

  /** A client run: save, then read twice; the second read is served from memory. */
  method SaveThenRead(handler: NonInteractiveCacheHandler, t: TokenInfo) returns (first: Option<TokenInfo>, second: Option<TokenInfo>)
    requires |t| > 0
    modifies handler
    ensures first == Some(t) && second == Some(t) && handler.tokenInfo == Some(t)
  {
    handler.SaveTokenToCache(Some(t));
    first := handler.GetCachedToken();
    second := handler.GetCachedToken();
  }
}
