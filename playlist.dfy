/**
 * The playlist commands of `SpotifyClient`: search for a song and append the
 * top hit, and remove the first playlist track that matches a song/artist
 * query. The music service is a `Spotify` object holding the playlist; what
 * the service answers (search hits, raised exceptions) is given as input.
 * Every exception is turned into a `(None, message)` response.
 */
module Playlist {

  import opened Wrappers
  import opened Text

  /** A track as the service describes it; the URI is its identity. */
  datatype Track = Track(uri: string, name: string, artists: seq<string>)

  /** `SpotifyException` or any other `Exception`, with the text `str(e)`. */
  datatype ExceptionKind = SpotifyException | OtherException
  datatype Failure = Failure(kind: ExceptionKind, text: string)

  /** What a call to the service does: return a value or raise. */
  datatype Reply<+T> = Returned(value: T) | Raised(failure: Failure)

  /** The `(track, message)` pair both commands return; `track` is None unless the playlist changed. */
  datatype Response = Response(track: Option<Track>, message: string)

  /** A response and the playlist after the call. */
  datatype Step = Step(response: Response, playlist: seq<Track>)

  const NoSongsFound := "No songs found with that search."
  const SongNotFound := "Song not found in playlist."
  const ArtistFilter := " artist:"

  /**
   * `playlist['tracks']['items']` holds one page of the playlist: the
   * service's page size for an embedded track list is 100.
   */
  const FirstPageSize := 100

  /** The optional artist argument is truthy: given and not empty. */
  predicate Given(artist: Option<string>)
  {
    artist.Some? && artist.value != ""
  }

  /** The search query: the song, then an artist filter when an artist is given. */
  function SearchQuery(song: string, artist: Option<string>): string
  {
    if Given(artist) then song + ArtistFilter + artist.value else song
  }

  /** The artist filter of a query built for `song`, if it has one. */
  function ArtistFilterOf(song: string, query: string): Option<string>
  {
    var head := song + ArtistFilter;
    if |query| > |head| && head <= query then Some(query[|head|..]) else None
  }

  /** The query carries an artist filter exactly when the artist is truthy, and it is that artist. */
  lemma SearchQueryRoundTrip(song: string, artist: Option<string>)
    ensures ArtistFilterOf(song, SearchQuery(song, artist)) == if Given(artist) then artist else None
    ensures !Given(artist) ==> SearchQuery(song, artist) == song
  {
  }

  /** The text looked for when removing: the song, then the artist after a space when one is given. */
  function RemovalText(song: string, artist: Option<string>): string
  {
    if Given(artist) then song + " " + artist.value else song
  }

  /** Each artist name lowercased, in order. */
  function LowerAll(names: seq<string>): (r: seq<string>)
    ensures |r| == |names| && forall i :: 0 <= i < |names| ==> r[i] == Lower(names[i])
  {
    seq(|names|, i requires 0 <= i < |names| => Lower(names[i]))
  }

  /** The lowercased artist names joined by single spaces. */
  function ArtistLine(t: Track): string
  {
    Join(" ", LowerAll(t.artists))
  }

  /**
   * The match test of the removal scan: the lowercased removal text occurs
   * in the lowercased name or in the artist line, or the lowercased artist
   * (when given) occurs in the artist line.
   */
  predicate Matches(t: Track, song: string, artist: Option<string>)
  {
    var text := Lower(RemovalText(song, artist));
    || Contains(Lower(t.name), text)
    || Contains(ArtistLine(t), text)
    || (Given(artist) && Contains(ArtistLine(t), Lower(artist.value)))
  }

  /** The index of the first matching track, if any. */
  function FirstMatch(items: seq<Track>, song: string, artist: Option<string>): (r: Option<nat>)
    ensures r.Some? ==> r.value < |items| && Matches(items[r.value], song, artist)
    ensures r.Some? ==> forall j :: 0 <= j < r.value ==> !Matches(items[j], song, artist)
    ensures r.None? ==> forall j :: 0 <= j < |items| ==> !Matches(items[j], song, artist)
  {
    if items == [] then None
    else if Matches(items[0], song, artist) then Some(0)
    else match FirstMatch(items[1..], song, artist)
      case None => None
      case Some(i) => Some(i + 1)
  }

  /** The contract of FirstMatch determines it: a match with none before it is the first match. */
  lemma FirstMatchIs(items: seq<Track>, song: string, artist: Option<string>, i: nat)
    requires i < |items| && Matches(items[i], song, artist)
    requires forall j :: 0 <= j < i ==> !Matches(items[j], song, artist)
    ensures FirstMatch(items, song, artist) == Some(i)
  {
  }

  lemma FirstMatchNone(items: seq<Track>, song: string, artist: Option<string>)
    requires forall j :: 0 <= j < |items| ==> !Matches(items[j], song, artist)
    ensures FirstMatch(items, song, artist) == None
  {
  }

  /** The playlist once every occurrence of `uri` is taken out. */
  function RemoveAllOf(items: seq<Track>, uri: string): seq<Track>
  {
    if items == [] then []
    else (if items[0].uri == uri then [] else [items[0]]) + RemoveAllOf(items[1..], uri)
  }

  /** Every track with the URI is gone and every other track keeps its number of occurrences. */
  lemma {:induction false} RemoveAllOfCounts(items: seq<Track>, uri: string, t: Track)
    ensures multiset(RemoveAllOf(items, uri))[t] == if t.uri == uri then 0 else multiset(items)[t]
  {
    if items != [] {
      RemoveAllOfCounts(items[1..], uri, t);
      assert items == [items[0]] + items[1..];
    }
  }

  /** The part of the playlist the removal scan sees. */
  function FirstPage(items: seq<Track>): (r: seq<Track>)
    ensures |r| == if |items| <= FirstPageSize then |items| else FirstPageSize
    ensures r <= items
  {
    if |items| <= FirstPageSize then items else items[..FirstPageSize]
  }

  /** The artists joined by commas, as the messages show them. */
  function ArtistList(t: Track): string
  {
    Join(", ", t.artists)
  }

  function AddedMessage(t: Track): string
  {
    "Added '" + t.name + "' by " + ArtistList(t) + " to the playlist!"
  }

  function RemovedMessage(t: Track): string
  {
    "Removed '" + t.name + "' by " + ArtistList(t)
  }

  /** The add command tells a `SpotifyException` apart from any other exception. */
  function AddErrorMessage(f: Failure): string
  {
    match f.kind
    case SpotifyException => "Spotify error: " + f.text
    case OtherException => "Error: " + f.text
  }

  /** The remove command reports every exception alike. */
  function RemoveErrorMessage(f: Failure): string
  {
    "Error: " + f.text
  }

  /**
   * `search_and_add_top_result`: search with the built query, append the
   * first hit unless the search found nothing; `addFailure` is what the
   * append call raises, if it raises.
   */
  function AddTopResultStep(playlist: seq<Track>, song: string, artist: Option<string>,
                            search: string -> Reply<seq<Track>>, addFailure: Option<Failure>): Step
  {
    match search(SearchQuery(song, artist))
    case Raised(f) => Step(Response(None, AddErrorMessage(f)), playlist)
    case Returned(hits) =>
      if hits == [] then Step(Response(None, NoSongsFound), playlist)
      else if addFailure.Some? then Step(Response(None, AddErrorMessage(addFailure.value)), playlist)
      else Step(Response(Some(hits[0]), AddedMessage(hits[0])), playlist + [hits[0]])
  }

  /**
   * `remove_song`: fetch the playlist, scan its first page in order, and
   * remove every occurrence of the first matching track's URI.
   * `fetchFailure` and `removeFailure` are what those two calls raise, if they raise.
   */
  function RemoveSongStep(playlist: seq<Track>, song: string, artist: Option<string>,
                          fetchFailure: Option<Failure>, removeFailure: Option<Failure>): Step
  {
    if fetchFailure.Some? then Step(Response(None, RemoveErrorMessage(fetchFailure.value)), playlist)
    else
      var page := FirstPage(playlist);
      match FirstMatch(page, song, artist)
      case None => Step(Response(None, SongNotFound), playlist)
      case Some(i) =>
        if removeFailure.Some? then Step(Response(None, RemoveErrorMessage(removeFailure.value)), playlist)
        else Step(Response(Some(page[i]), RemovedMessage(page[i])), RemoveAllOf(playlist, page[i].uri))
  }

  /** The music service's copy of the bot's playlist. */
  class Spotify {
    var playlist: seq<Track>

    constructor (tracks: seq<Track>)
      ensures playlist == tracks
    {
      playlist := tracks;
    }

    /** `playlist_add_items(playlist_id, [uri])` */
    method AddItem(t: Track)
      modifies this
      ensures playlist == old(playlist) + [t]
    {
      playlist := playlist + [t];
    }

    /** `playlist_remove_all_occurrences_of_items(playlist_id, [uri])` */
    method RemoveAllOccurrences(uri: string)
      modifies this
      ensures playlist == RemoveAllOf(old(playlist), uri)
    {
      playlist := RemoveAllOf(playlist, uri);
    }
  }

  class SpotifyClient {
    const playlistId: string
    const sp: Spotify

    constructor (playlistId: string, sp: Spotify)
      ensures this.playlistId == playlistId && this.sp == sp
    {
      this.playlistId := playlistId;
      this.sp := sp;
    }

    method SearchAndAddTopResult(song: string, artist: Option<string>,
                                 search: string -> Reply<seq<Track>>, addFailure: Option<Failure>)
      returns (track: Option<Track>, message: string)
      modifies sp
      ensures Step(Response(track, message), sp.playlist)
           == AddTopResultStep(old(sp.playlist), song, artist, search, addFailure)
    {
      var query := SearchQuery(song, artist);
      var results := search(query);
      if results.Raised? {
        return None, AddErrorMessage(results.failure);
      }
      var hits := results.value;
      if hits == [] {
        return None, NoSongsFound;
      }
      var top := hits[0];
      if addFailure.Some? {
        return None, AddErrorMessage(addFailure.value);
      }
      sp.AddItem(top);
      return Some(top), AddedMessage(top);
    }

    method RemoveSong(song: string, artist: Option<string>,
                      fetchFailure: Option<Failure>, removeFailure: Option<Failure>)
      returns (track: Option<Track>, message: string)
      modifies sp
      ensures Step(Response(track, message), sp.playlist)
           == RemoveSongStep(old(sp.playlist), song, artist, fetchFailure, removeFailure)
    {
      if fetchFailure.Some? {
        return None, RemoveErrorMessage(fetchFailure.value);
      }
      var items := FirstPage(sp.playlist);
      for i := 0 to |items|
        invariant forall j :: 0 <= j < i ==> !Matches(items[j], song, artist)
        invariant sp.playlist == old(sp.playlist)
      {
        var t := items[i];
        if Matches(t, song, artist) {
          FirstMatchIs(items, song, artist, i);
          if removeFailure.Some? {
            return None, RemoveErrorMessage(removeFailure.value);
          }
          sp.RemoveAllOccurrences(t.uri);
          return Some(t), RemovedMessage(t);
        }
      }
      FirstMatchNone(items, song, artist);
      return None, SongNotFound;
    }
  }

  /** Adding appends exactly the top hit, once, whether or not its URI is already present. */
  lemma AddAppendsTopHit(playlist: seq<Track>, song: string, artist: Option<string>,
                         search: string -> Reply<seq<Track>>, addFailure: Option<Failure>)
    ensures var step := AddTopResultStep(playlist, song, artist, search, addFailure);
            var results := search(SearchQuery(song, artist));
            && (step.response.track.Some? <==> results.Returned? && results.value != [] && addFailure.None?)
            && (step.response.track.Some? ==>
                  && step.response.track.value == results.value[0]
                  && step.playlist == playlist + [results.value[0]]
                  && multiset(step.playlist)[results.value[0]] == multiset(playlist)[results.value[0]] + 1)
            && (step.response.track.None? ==> step.playlist == playlist)
  {
  }

  /** An empty search answers "no songs found" and leaves the playlist alone. */
  lemma AddWithNoHits(playlist: seq<Track>, song: string, artist: Option<string>,
                      search: string -> Reply<seq<Track>>, addFailure: Option<Failure>)
    requires search(SearchQuery(song, artist)) == Returned([])
    ensures AddTopResultStep(playlist, song, artist, search, addFailure) == Step(Response(None, NoSongsFound), playlist)
  {
  }

  /** Adding twice with the same top hit leaves two copies: there is no duplicate check. */
  lemma AddTwiceDuplicates(playlist: seq<Track>, song: string, artist: Option<string>,
                           search: string -> Reply<seq<Track>>)
    requires search(SearchQuery(song, artist)).Returned? && search(SearchQuery(song, artist)).value != []
    ensures var once := AddTopResultStep(playlist, song, artist, search, None).playlist;
            var twice := AddTopResultStep(once, song, artist, search, None).playlist;
            var top := search(SearchQuery(song, artist)).value[0];
            |twice| == |playlist| + 2 && multiset(twice)[top] == multiset(playlist)[top] + 2
  {
  }

  /**
   * Removal picks the first matching track of the first page, takes out every
   * occurrence of its URI and keeps every other track; when no track matches
   * or a call raises, nothing changes.
   */
  lemma RemoveTakesFirstMatch(playlist: seq<Track>, song: string, artist: Option<string>,
                              fetchFailure: Option<Failure>, removeFailure: Option<Failure>)
    ensures var step := RemoveSongStep(playlist, song, artist, fetchFailure, removeFailure);
            var page := FirstPage(playlist);
            && (step.response.track.Some? <==>
                  fetchFailure.None? && removeFailure.None? && exists k :: 0 <= k < |page| && Matches(page[k], song, artist))
            && (step.response.track.Some? ==>
                  var t := step.response.track.value;
                  && (exists k :: 0 <= k < |page| && page[k] == t && Matches(t, song, artist)
                        && forall j :: 0 <= j < k ==> !Matches(page[j], song, artist))
                  && (forall x :: x in step.playlist ==> x.uri != t.uri)
                  && (forall x: Track :: x.uri != t.uri ==> multiset(step.playlist)[x] == multiset(playlist)[x])
                  && step.response.message == RemovedMessage(t))
            && (step.response.track.None? ==> step.playlist == playlist)
  {
    var page := FirstPage(playlist);
    if fetchFailure.None? {
      match FirstMatch(page, song, artist)
      case None =>
      case Some(i) =>
        if removeFailure.None? {
          var t := page[i];
          var rest := RemoveAllOf(playlist, t.uri);
          forall x | x in rest ensures x.uri != t.uri {
            RemoveAllOfCounts(playlist, t.uri, x);
            assert multiset(rest)[x] > 0;
          }
          forall x: Track | x.uri != t.uri ensures multiset(rest)[x] == multiset(playlist)[x] {
            RemoveAllOfCounts(playlist, t.uri, x);
          }
        }
    }
  }

  /** With nothing matching, removal answers "not found" and changes nothing. */
  lemma RemoveWithNoMatch(playlist: seq<Track>, song: string, artist: Option<string>, removeFailure: Option<Failure>)
    requires forall k :: 0 <= k < |FirstPage(playlist)| ==> !Matches(FirstPage(playlist)[k], song, artist)
    ensures RemoveSongStep(playlist, song, artist, None, removeFailure) == Step(Response(None, SongNotFound), playlist)
  {
  }

  /** Every raised exception becomes a `(None, message)` response that names it and leaves the playlist; nothing escapes. */
  lemma FailuresBecomeMessages(playlist: seq<Track>, song: string, artist: Option<string>,
                               search: string -> Reply<seq<Track>>, addFailure: Option<Failure>,
                               removeFailure: Option<Failure>, f: Failure, g: Failure)
    ensures search(SearchQuery(song, artist)) == Raised(f) ==>
              AddTopResultStep(playlist, song, artist, search, addFailure) == Step(Response(None, AddErrorMessage(f)), playlist)
    ensures search(SearchQuery(song, artist)).Returned? && search(SearchQuery(song, artist)).value != [] ==>
              AddTopResultStep(playlist, song, artist, search, Some(g)) == Step(Response(None, AddErrorMessage(g)), playlist)
    ensures f.kind == SpotifyException ==> AddErrorMessage(f) == "Spotify error: " + f.text
    ensures f.kind == OtherException ==> AddErrorMessage(f) == "Error: " + f.text
    ensures RemoveSongStep(playlist, song, artist, Some(f), removeFailure) == Step(Response(None, "Error: " + f.text), playlist)
    ensures FirstMatch(FirstPage(playlist), song, artist).Some? ==>
              RemoveSongStep(playlist, song, artist, None, Some(g)) == Step(Response(None, "Error: " + g.text), playlist)
  {
  }

  /** A track whose name contains the song, whatever the case, matches when no artist is given. */
  lemma NameMatches(t: Track, song: string, artist: Option<string>)
    requires !Given(artist) && Contains(t.name, song)
    ensures Matches(t, song, artist)
  {
    ContainsLowered(t.name, song);
  }

  /** With an artist given, a track by that artist matches whatever its name: the artist alone suffices. */
  lemma ArtistAloneMatches(t: Track, song: string, artist: Option<string>, k: nat)
    requires Given(artist) && k < |t.artists| && Contains(t.artists[k], artist.value)
    ensures Matches(t, song, artist)
  {
    ContainsLowered(t.artists[k], artist.value);
    JoinContainsPart(" ", LowerAll(t.artists), k, Lower(artist.value));
  }

  /** `artist.lower()` when an artist is given. */
  function LowerArtist(artist: Option<string>): Option<string>
  {
    if artist.Some? then Some(Lower(artist.value)) else None
  }

  lemma RemovalTextIgnoresCase(song: string, artist: Option<string>)
    ensures Given(LowerArtist(artist)) == Given(artist)
    ensures Lower(RemovalText(Lower(song), LowerArtist(artist))) == Lower(RemovalText(song, artist))
  {
    if Given(artist) {
      var a := artist.value;
      LowerConcat(song + " ", a);
      LowerConcat(song, " ");
      LowerConcat(Lower(song) + " ", Lower(a));
      LowerConcat(Lower(song), " ");
      LowerIdempotent(song);
      LowerIdempotent(a);
    }
  }

  /** Matching ignores the case of the query. */
  lemma MatchIgnoresQueryCase(t: Track, song: string, artist: Option<string>)
    ensures Matches(t, Lower(song), LowerArtist(artist)) == Matches(t, song, artist)
  {
    RemovalTextIgnoresCase(song, artist);
    if Given(artist) {
      LowerIdempotent(artist.value);
    }
  }

  /** An empty song with no artist matches every track, so it removes the first track of the playlist. */
  lemma EmptySongRemovesFirstTrack(playlist: seq<Track>)
    requires playlist != []
    ensures RemoveSongStep(playlist, "", None, None, None)
         == Step(Response(Some(playlist[0]), RemovedMessage(playlist[0])), RemoveAllOf(playlist, playlist[0].uri))
  {
    assert Matches(playlist[0], "", None);
  }

  lemma {:induction false} RemoveAllOfAbsent(items: seq<Track>, uri: string)
    requires forall x :: x in items ==> x.uri != uri
    ensures RemoveAllOf(items, uri) == items
  {
    if items != [] {
      RemoveAllOfAbsent(items[1..], uri);
      assert items == [items[0]] + items[1..];
    }
  }

  lemma {:induction false} RemoveAllOfConcat(a: seq<Track>, b: seq<Track>, uri: string)
    ensures RemoveAllOf(a + b, uri) == RemoveAllOf(a, uri) + RemoveAllOf(b, uri)
  {
    if a == [] {
      assert a + b == b;
    } else {
      var x, rest := a[0], a[1..];
      assert a == [x] + rest;
      assert a + b == [x] + (rest + b);
      RemoveAllOfConcat(rest, b, uri);
      RemoveAllOfCons(x, rest + b, uri);
      RemoveAllOfCons(x, rest, uri);
    }
  }

  lemma RemoveAllOfCons(x: Track, rest: seq<Track>, uri: string)
    ensures RemoveAllOf([x] + rest, uri) == (if x.uri == uri then [] else [x]) + RemoveAllOf(rest, uri)
  {
    assert ([x] + rest)[1..] == rest;
  }

  /**
   * Removal undoes an add: when the added track's URI was not in the playlist,
   * the first page still had room, and the removal query matches the added
   * track and nothing before it, the playlist is back where it started.
   */
  lemma AddThenRemoveRestores(playlist: seq<Track>, song: string, artist: Option<string>,
                              search: string -> Reply<seq<Track>>, removeSong: string, removeArtist: Option<string>)
    requires search(SearchQuery(song, artist)).Returned? && search(SearchQuery(song, artist)).value != []
    requires var top := search(SearchQuery(song, artist)).value[0];
             && |playlist| < FirstPageSize
             && (forall x :: x in playlist ==> x.uri != top.uri)
             && (forall k :: 0 <= k < |playlist| ==> !Matches(playlist[k], removeSong, removeArtist))
             && Matches(top, removeSong, removeArtist)
    ensures var top := search(SearchQuery(song, artist)).value[0];
            var added := AddTopResultStep(playlist, song, artist, search, None).playlist;
            RemoveSongStep(added, removeSong, removeArtist, None, None)
              == Step(Response(Some(top), RemovedMessage(top)), playlist)
  {
    var top := search(SearchQuery(song, artist)).value[0];
    var added := playlist + [top];
    assert FirstPage(added) == added;
    var m := FirstMatch(added, removeSong, removeArtist);
    assert m == Some(|playlist|) by {
      assert Matches(added[|playlist|], removeSong, removeArtist);
      assert forall k :: 0 <= k < |playlist| ==> added[k] == playlist[k];
    }
    RemoveAllOfConcat(playlist, [top], top.uri);
    RemoveAllOfAbsent(playlist, top.uri);
    assert RemoveAllOf([top], top.uri) == [] by {
      assert [top][1..] == [];
    }
  }
}
