# Spotify Discord Bot: playlist commands and token cache, in Dafny

This project models the decision logic of a Discord bot that manages one
shared Spotify playlist:

- `SpotifyClient.search_and_add_top_result` (`/addsong`): build a search query from a
  song and an optional artist, take the first hit, append its URI to the
  playlist. There is no duplicate check.
- `SpotifyClient.remove_song` (`/deletesong`): scan the first page of the playlist in
  order and remove every occurrence of the first track that matches the
  lowercased query.
- The conversion of every raised exception into a `(None, message)` answer.
- The `M:SS` track length shown by `/addsong`.
- The start-up check of `SpotifyClient.__init__`, which lists missing environment
  variables in a fixed order and refuses to start when any is missing.
- `NonInteractiveCacheHandler`, a token cache with two sources: a field in
  memory and a JSON file on disk.

Modules, one per file:

- `Wrappers` (wrappers.dfy): `Option` and `Result`.
- `Text` (text.dfy): ASCII `str.lower`, Python's substring `in`, `str.join`,
  and decimal printing and parsing of integers. Each has its characterising lemmas.
- `Duration` (duration.dfy): the `M:SS` rendering, its inverse, and the bounds
  it keeps.
- `Startup` (startup.dfy): the missing-variable list and the settings of a
  client that starts.
- `Playlist` (playlist.dfy): the music service as a class `Spotify` holding the
  playlist. `SpotifyClient` has the two commands as methods. Each method is
  proved equal to a specification function (`AddTopResultStep`,
  `RemoveSongStep`), and the lemmas state the properties of those functions.
- `TokenCache` (token_cache.dfy): the handler as a class whose fields are the
  in-memory token and the cache file. Its methods are proved against the
  functions `Get` and `Saved`, and the lemmas state the properties of those.

What the service answers is an input of the model. The search is a function
from query to reply. Each mutating or fetching call takes an optional
exception that it raises. The cache file's write success is nondeterministic.

Four facts about the code, which the model keeps:

- Adding a song does not check whether the URI is already in the playlist
  (`AddTwiceDuplicates`).
- Removal does not require the name AND the artist to match. It accepts the
  combined text in the name, the combined text in the artist line, or (with
  an artist given) the artist alone in the artist line (`ArtistAloneMatches`).
- Removal scans only the first page of the playlist, not every page.
- No call is retried, and nothing refreshes or reconciles tokens.

## Model

| member | source | states |
|---|---|---|
| Text.Lower | main.py:168 | `s.lower()`: each ASCII capital lowercased, every other character kept, length kept |
| Text.Contains | main.py:172-174 | Python's `needle in hay`: `needle` is a prefix of `hay` or of one of its suffixes; the empty string is in every string |
| Text.Join | main.py:169 | `sep.join(parts)`: the parts in order with `sep` between neighbours, `""` for no parts |
| Text.LowerIdempotent | main.py:172 | lowercasing an already lowercased string changes nothing |
| Text.LowerConcat | main.py:157 | lowercasing distributes over concatenation |
| Text.ContainsIffOccurs | main.py:172-174 | Python's `needle in hay` holds iff `needle` is the slice of `hay` at some index |
| Text.ContainsWitness | main.py:172-174 | a contained string occurs at an index the lemma returns |
| Text.OccursContains | main.py:172-174 | a string occurring at some index is contained |
| Text.ContainsLowered | main.py:168-174 | a substring stays a substring once both strings are lowercased |
| Text.JoinContainsPart | main.py:169 | whatever occurs in one part occurs in the space-joined artist line |
| Text.NatToString | main.py:351 | `str(n)` is a non-empty digit string, with a leading zero only for 0 |
| Text.ParseNatToString | main.py:351 | reading back `str(n)` gives `n` |
| Text.IntToString | main.py:351 | `str(i)` starts with a minus sign exactly when `i` is negative |
| Text.ParseIntToString | main.py:351 | reading back `str(i)` gives `i`, negative values included |
| Text.Pad2 | main.py:351 | `{s:02d}` for `s < 100` is exactly two digits that read back as `s` |
| Duration.Minutes | main.py:351 | `duration_ms // 60000`, floor division |
| Duration.Seconds | main.py:351 | `(duration_ms % 60000) // 1000`, the whole seconds within the minute |
| Duration.SplitBounds | main.py:350-351 | seconds lie in 0..59, and minutes*60000 + seconds*1000 <= ms < that + 1000 |
| Duration.FieldsAreWholeSeconds | main.py:351 | the minutes and seconds shown are the whole seconds of `ms`, split by 60 |
| Duration.FormatDuration | main.py:351 | the display ends in a colon followed by two characters |
| Duration.ParseFormatDuration | main.py:351 | the display reads back to exactly its minutes and seconds fields |
| Duration.SameDisplayIffSameSecond | main.py:350-351 | two durations display alike iff they agree in whole seconds |
| Startup.GetEnv | main.py:38 | `os.getenv(name, default)`: the value when the variable is present, even empty; the default only when absent |
| Startup.Unset | main.py:48-54 | the checked names that are absent or empty, in the order they are checked |
| Startup.MissingMessage | main.py:57 | the `ValueError` text: `❌ Missing Spotify environment variables: ` and the names joined by `, ` |
| Startup.UnsetMembers | main.py:48-54 | a name is listed iff it is one of the checked names and is absent or empty |
| Startup.UnsetConcat | main.py:48-54 | the list keeps the order of the checks: earlier names are reported first |
| Startup.UnsetRequired | main.py:48-54 | the three checks in sequence are the filter over CLIENT_ID, CLIENT_SECRET, PLAYLIST_ID |
| Startup.MissingVariables | main.py:48-54 | `missing_vars` holds exactly the unset or empty required variables, in the fixed order |
| Startup.Configure | main.py:36-62 | start-up fails iff a required variable is unset or empty, with the message listing them; otherwise it yields the values read, with the redirect URI defaulting when absent |
| Startup.RedirectUriDefault | main.py:38 | an absent redirect URI becomes `http://localhost:8888/callback`; a set one, even empty, is kept |
| Playlist.SearchQuery | main.py:117-120 | `song + " artist:" + artist` when the artist is truthy, else the song unchanged |
| Playlist.RemovalText | main.py:155-157 | `song + " " + artist` when the artist is truthy, else the song unchanged |
| Playlist.Matches | main.py:168-174 | the lowercased removal text is in the lowercased name or in the space-joined lowercased artists, or the truthy artist lowercased is in those artists |
| Playlist.RemoveAllOf | main.py:177-179 | the playlist with every track of the URI taken out, the others in their order |
| Playlist.AddedMessage | main.py:142 | `Added '<name>' by <artists joined by ", "> to the playlist!` |
| Playlist.RemovedMessage | main.py:182 | `Removed '<name>' by <artists joined by ", ">` |
| Playlist.AddErrorMessage | main.py:144-149 | `Spotify error: <e>` for a `SpotifyException`, `Error: <e>` for any other exception |
| Playlist.RemoveErrorMessage | main.py:186-188 | `Error: <e>` for every exception |
| Playlist.AddTopResultStep | main.py:113-149 | search with the built query; a raise or an empty result answers `(None, message)` and keeps the playlist; otherwise the first hit is appended unless the add raises |
| Playlist.RemoveSongStep | main.py:151-188 | fetch, scan the first page in order, remove every occurrence of the first match's URI; a raise or no match answers `(None, message)` and keeps the playlist |
| Playlist.SearchQueryRoundTrip | main.py:117-120 | the query carries an ` artist:` filter exactly when the artist is truthy, and the filter is that artist; otherwise the query is the song |
| Playlist.LowerAll | main.py:169 | each artist name is lowercased, order and count kept |
| Playlist.FirstMatch | main.py:166-174 | the index found matches and no earlier track matches; None means no track matches |
| Playlist.FirstMatchIs | main.py:166-174 | a matching track with no match before it is the one the scan stops at |
| Playlist.FirstMatchNone | main.py:166-184 | when no track matches, the scan finds nothing |
| Playlist.RemoveAllOfCounts | main.py:177-179 | removing a URI drops every track with it and keeps each other track's occurrences |
| Playlist.FirstPage | main.py:160-161 | the scan sees a prefix of the playlist of at most 100 tracks |
| Playlist.Spotify.constructor | main.py:160-161 | the service starts with the given playlist |
| Playlist.Spotify.AddItem | main.py:139 | adding appends the track at the end |
| Playlist.Spotify.RemoveAllOccurrences | main.py:177-179 | removal takes out every occurrence of the URI |
| Playlist.SpotifyClient.constructor | main.py:39 | the client holds the playlist id and the service |
| Playlist.SpotifyClient.SearchAndAddTopResult | main.py:113-149 | the response and the new playlist are those of `AddTopResultStep` on the old playlist |
| Playlist.SpotifyClient.RemoveSong | main.py:151-188 | the in-order scan with early return gives the response and the new playlist of `RemoveSongStep` |
| Playlist.AddAppendsTopHit | main.py:125-142 | a track is returned iff the search returned hits and the add did not raise; then exactly the first hit is appended once, adding one more copy even if already present; otherwise the playlist is unchanged |
| Playlist.AddWithNoHits | main.py:127-128 | an empty search answers "No songs found with that search." and changes nothing |
| Playlist.AddTwiceDuplicates | main.py:139 | adding the same top hit twice leaves two more copies: no membership check |
| Playlist.RemoveTakesFirstMatch | main.py:166-184 | a track is removed iff no call raised and some first-page track matches; the track returned is the first match in order, no track with its URI remains, every other track keeps its count; otherwise nothing changes |
| Playlist.RemoveWithNoMatch | main.py:184 | with no match the answer is "Song not found in playlist." and nothing changes |
| Playlist.FailuresBecomeMessages | main.py:144-149 | a raising search or add answers `(None, "Spotify error: …")` or `(None, "Error: …")` by exception kind and leaves the playlist; a raising fetch or removal answers `(None, "Error: …")` and leaves the playlist |
| Playlist.NameMatches | main.py:168-172 | with no artist, a track whose name contains the song, in any case, matches |
| Playlist.ArtistAloneMatches | main.py:169-174 | with an artist given, a track by that artist matches whatever its name and the song |
| Playlist.RemovalTextIgnoresCase | main.py:155-157 | lowercasing song and artist first does not change the lowercased search text or whether the artist is truthy |
| Playlist.MatchIgnoresQueryCase | main.py:172-174 | whether a track matches does not depend on the case of the query |
| Playlist.EmptySongRemovesFirstTrack | main.py:155-179 | an empty song with no artist matches every track, so it removes the first track's URI everywhere |
| Playlist.RemoveAllOfAbsent | main.py:177-179 | removing a URI that is not present changes nothing |
| Playlist.RemoveAllOfConcat | main.py:177-179 | removing a URI from two parts of a playlist removes it from each |
| Playlist.AddThenRemoveRestores | main.py:113-184 | removing right after adding a new URI, with a query that matches only the added track, gives back the original playlist |
| TokenCache.Get | non_interactive_oauth.py:13-24 | a truthy memory token is returned; else with a truthy path and a parseable file its value is loaded into memory and returned; else None with the state kept |
| TokenCache.Saved | non_interactive_oauth.py:26-33 | memory becomes the token; with a truthy path the file then holds it, is unchanged, or is unreadable; without one it is unchanged |
| TokenCache.AccessToken | non_interactive_oauth.py:35-37 | the `access_token` field of a truthy token, None for a falsy token or a missing field |
| TokenCache.NonInteractiveCacheHandler.constructor | non_interactive_oauth.py:9-11 | a new handler holds no token in memory |
| TokenCache.NonInteractiveCacheHandler.GetCachedToken | non_interactive_oauth.py:13-24 | the token returned and the new memory are those of `Get` on the old state; the file is untouched |
| TokenCache.NonInteractiveCacheHandler.SaveTokenToCache | non_interactive_oauth.py:26-33 | memory becomes the token; with a path the file then holds it, is unchanged, or is unreadable; without one it is unchanged |
| TokenCache.NonInteractiveCacheHandler.GetAccessToken | non_interactive_oauth.py:35-37 | the answer is the `access_token` of the token a read returns, None when that token is falsy or lacks the field |
| TokenCache.MemoryHitIgnoresFile | non_interactive_oauth.py:13-15 | a truthy token in memory is returned unchanged, whatever the file holds |
| TokenCache.FileFallback | non_interactive_oauth.py:17-21 | with nothing truthy in memory, a readable file's value is loaded into memory and returned |
| TokenCache.EmptyTokenIsNotCached | non_interactive_oauth.py:14 | an empty dict in memory is not cached: the file is read again |
| TokenCache.MissLeavesState | non_interactive_oauth.py:17-24 | no path, a missing file or a failing read answers None and leaves the state as it was |
| TokenCache.GetIdempotent | non_interactive_oauth.py:13-24 | a second read answers the same and leaves the same state as the first |
| TokenCache.SaveThenGet | non_interactive_oauth.py:26-27 | after saving a truthy token, a read returns it even if the file write failed, and the access token is its field |
| TokenCache.SavedFileSurvivesRestart | non_interactive_oauth.py:28-31 | after a successful write, a handler with empty memory on the same path reads the saved token |
| TokenCache.SaveAlwaysSetsMemory | non_interactive_oauth.py:26-33 | saving always sets memory, and without a path leaves the file alone |
| TokenCache.SaveThenRead | non_interactive_oauth.py:26-33 | on the class: save a truthy token, then two reads both return it |

## Left out

- Text.Lower: only ASCII letters are case-mapped. Python's `str.lower` applies full Unicode case mapping, which is not modelled.
- Discord wiring, slash-command handlers and embeds (main.py:247-608) are user interface. Only the duration arithmetic of `addsong` is modelled.
- The Flask health and OAuth-callback routes and their thread are web I/O. This covers main.py:207-245 and keep_alive.py.
- The token bootstrap from `SPOTIFY_TOKEN_CACHE`, the OAuth manager and the connection test in `SpotifyClient.__init__` (main.py:64-111) are file and network I/O. Only the variable check and the settings it reads are modelled.
- The `DISCORD_TOKEN` check at module load (main.py:18-23) exits the process. It is not part of the client.
- `get_playlist_link` (main.py:190-197) only looks up a key in a service response. It makes no decision.
- spotify_client.py, authenticate_spotify.py, setup_spotify.py, test_spotify.py and config.py are not part of this model. They are pass-throughs, interactive scripts, a live smoke test and environment reads.
- The service is abstract. The search limit of 5 hits is not modelled, since only the first hit is used. A failing add or remove call is assumed to leave the playlist unchanged. The playlist id selects no state, because one playlist is modelled.
- Playlist.FirstPage: the page size of 100 is the service's page size for the track list embedded in a playlist. The code does not state it. Tracks beyond the first page are never scanned, but the service's removal still removes their copies of the URI.
- A malformed service response (a missing key, which raises `KeyError` and is reported as `Error: …`) is folded into the injected exceptions.
- Token values are abstracted to strings. `json.load` returning something other than an object or `null` is not modelled, and neither is the JSON encoding itself: a written token reads back as itself.
- spotipy's own OAuth refresh, and any retry or reconciliation of token sources, are foreign code.
- Logging (`print`) is left out.
- Concurrent command invocations are not modelled: each call runs alone.
