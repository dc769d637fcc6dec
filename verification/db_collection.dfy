/** DbCollection: a collection backed by a CollectionDb. Queries that arrive
    before the fuzzy index exists wait in a set; the browsing calls answer with
    playlists cached under a key that carries the table's current revision.
    Callbacks and threads are sequential calls here; the fuzzy index is the
    map from a query to the track ids its search returns, and the pipeline is
    the list of reports it has received. */
module Collections {
  import opened Common
  import opened Schema
  import opened SelectStatement
  import opened CollectionDatabase
  import opened Media

  /** The fuzzy index: what searchIndex returns for a query, as track ids in
      rank order (nothing for a query it does not match). */
  datatype FuzzyIndex = FuzzyIndex(results: map<Query, seq<int>>) {
    function Search(q: Query): seq<int> {
      if q in results then results[q] else []
    }
  }

  /** One PipeLine.reportResults call: the query, and the index candidates
      whose tracks rows are the results. */
  datatype Report = Report(query: Query, candidates: seq<int>)

  /** The sort modes of Collection. */
  datatype SortMode = SortNot | SortAlpha | SortArtistAlpha | SortLastModified

  /** The part of a Playlist the cache fill touches. */
  datatype Playlist = Playlist(cursor: Option<SqlQuery>, filled: bool, currentRevision: string)

  /** What Playlist.get creates for an id it has not seen. */
  const NewPlaylist: Playlist := Playlist(None, false, "")

  /** The album being browsed: its name, its artist's name and its cache key. */
  datatype Album = Album(name: string, artistName: string, cacheKey: string)

  /** How a deferred of getQueries/getAlbumTracks ends: never resolved (an
      unsupported sort mode), resolved with null, or resolved with the playlist
      cached under `key`. */
  datatype PlaylistAnswer = Unresolved | ResolvedNull | ResolvedPlaylist(key: string, playlist: Playlist)

  // ---------------------------------------------------------------------------
  // Sort modes and cache keys

  /** getQueries' ORDER BY column: tracks by title, by artist or by date. */
  function TracksOrder(mode: SortMode): (r: Option<seq<string>>)
    ensures r.None? <==> mode == SortNot
    ensures r.Some? ==> |r.value| == 1 && r.value[0] in TRACK_FIELDS
    ensures mode == SortAlpha ==> r == Some([TRACKS_TRACK])
    ensures mode == SortArtistAlpha ==> r == Some([ARTISTS_ARTIST])
    ensures mode == SortLastModified ==> r == Some([TRACKS_LASTMODIFIED])
  {
    match mode
    case SortAlpha => Some([TRACKS_TRACK])
    case SortArtistAlpha => Some([ARTISTS_ARTIST])
    case SortLastModified => Some([TRACKS_LASTMODIFIED])
    case SortNot => None
  }

  /** getArtists' and getAlbumArtists' ORDER BY column: the artist tables have
      no artist-alphabetical order of their own. */
  function ArtistsOrder(mode: SortMode): (r: Option<seq<string>>)
    ensures r.None? <==> mode == SortNot || mode == SortArtistAlpha
    ensures r.Some? ==> |r.value| == 1 && r.value[0] in [ARTISTS_ARTIST, ARTISTS_LASTMODIFIED]
    ensures mode == SortAlpha ==> r == Some([ARTISTS_ARTIST])
    ensures mode == SortLastModified ==> r == Some([ARTISTS_LASTMODIFIED])
  {
    match mode
    case SortAlpha => Some([ARTISTS_ARTIST])
    case SortLastModified => Some([ARTISTS_LASTMODIFIED])
    case _ => None
  }

  /** getAlbums' ORDER BY column: a column albums() selects. */
  function AlbumsOrder(mode: SortMode): (r: Option<seq<string>>)
    ensures r.None? <==> mode == SortNot
    ensures r.Some? ==> |r.value| == 1 && r.value[0] in ALBUM_FIELDS
    ensures mode == SortAlpha ==> r == Some([ALBUMS_ALBUM])
    ensures mode == SortArtistAlpha ==> r == Some([ARTISTS_ARTIST])
    ensures mode == SortLastModified ==> r == Some([ALBUMS_LASTMODIFIED])
  {
    match mode
    case SortAlpha => Some([ALBUMS_ALBUM])
    case SortArtistAlpha => Some([ARTISTS_ARTIST])
    case SortLastModified => Some([ALBUMS_LASTMODIFIED])
    case SortNot => None
  }

  /** The id of the playlist of all tracks at a revision. */
  function TracksCacheKey(collectionId: string, revision: int): string {
    collectionId + "_tracks_" + IntToString(revision)
  }

  /** The id of the playlist of an album's tracks at a revision. */
  function AlbumCacheKey(collectionId: string, albumCacheKey: string, revision: int): string {
    collectionId + "_" + albumCacheKey + "_" + IntToString(revision)
  }

  /** Strings that agree after a common prefix agree. */
  lemma {:induction false} SuffixOfSamePrefix(p: string, a: string, b: string)
    requires p + a == p + b
    ensures a == b
  {
    assert a == (p + a)[|p|..];
    assert b == (p + b)[|p|..];
  }

  /** A new tracks revision is a new cache key: the playlist of an older
      revision is never served for a newer one. */
  lemma {:induction false} TracksCacheKeyInjective(collectionId: string, r1: int, r2: int)
    requires TracksCacheKey(collectionId, r1) == TracksCacheKey(collectionId, r2)
    ensures r1 == r2
  {
    SuffixOfSamePrefix(collectionId + "_tracks_", IntToString(r1), IntToString(r2));
    IntToStringInjective(r1, r2);
  }

  /** The same for one album's playlist. */
  lemma {:induction false} AlbumCacheKeyInjective(collectionId: string, albumCacheKey: string, r1: int, r2: int)
    requires AlbumCacheKey(collectionId, albumCacheKey, r1) == AlbumCacheKey(collectionId, albumCacheKey, r2)
    ensures r1 == r2
  {
    SuffixOfSamePrefix(collectionId + "_" + albumCacheKey + "_", IntToString(r1), IntToString(r2));
    IntToStringInjective(r1, r2);
  }

  // ---------------------------------------------------------------------------
  // Resolution filter

  /** The where clause of a resolution: the `_id` column against every id the
      index returned, in rank order, any of them matching. */
  function IdFilter(ids: seq<string>): WhereInfo {
    WhereInfo("OR", [(ID, ids)])
  }

  /** The id filter has one `tracks._id = ?` term per id, any of them
      matching, and binds the ids in the order given. */
  lemma {:induction false} IdFilterClause(ids: seq<string>)
    ensures |ids| > 0 ==> WhereClause(TABLE_TRACKS, Some(IdFilter(ids)))
                          == " WHERE " + Join(Copies(WhereTerm(TABLE_TRACKS, ID), |ids|), " OR ")
    ensures WhereArgs(Some(IdFilter(ids))) == if |ids| > 0 then Some(ids) else None
  {
    SingleKeyWhere(TABLE_TRACKS, "OR", ID, ids);
    assert " " + "OR" + " " == " OR ";
  }

  /** Each id in decimal, in order. */
  function IdStrings(ids: seq<int>): (r: seq<string>)
    ensures |r| == |ids|
    ensures forall i | 0 <= i < |ids| :: r[i] == IntToString(ids[i])
  {
    if |ids| == 0 then [] else IdStrings(ids[..|ids| - 1]) + [IntToString(ids[|ids| - 1])]
  }

  /** The id loop of resolve. */
  method ResultIds(results: seq<int>) returns (ids: seq<string>)
    ensures ids == IdStrings(results)
  {
    ids := [];
    for i := 0 to |results|
      invariant ids == IdStrings(results[..i])
    {
      assert results[..i + 1][..i] == results[..i];
      ids := ids + [IntToString(results[i])];
    }
    assert results[..|results|] == results;
  }

  /** Taking a query out of the waiting set shrinks it. */
  lemma {:induction false} TakeOne(w: set<Query>, q: Query)
    requires q in w
    ensures |w - {q}| == |w| - 1
  {
    assert w == (w - {q}) + {q};
  }

  // ---------------------------------------------------------------------------
  // The collection

  class DbCollection {
    const collectionId: string
    /** The CollectionDb that CollectionDbManager holds for collectionId. */
    const store: CollectionDb
    /** mFuzzyIndex: None until initFuzzyIndex has run. */
    var fuzzyIndex: Option<FuzzyIndex>
    /** mWaitingQueries. */
    var waiting: set<Query>
    /** Every reportResults call so far, oldest first. */
    var reports: seq<Report>
    /** The playlists Playlist.get has handed out, by id. */
    var playlists: map<string, Playlist>

    constructor (collectionId: string, store: CollectionDb)
      ensures this.collectionId == collectionId && this.store == store
      ensures fuzzyIndex.None? && waiting == {} && reports == [] && playlists == map[]
    {
      this.collectionId := collectionId;
      this.store := store;
      fuzzyIndex := None;
      waiting := {};
      reports := [];
      playlists := map[];
    }

    /** The tracks cursor a resolution reads: tracks(idFilter, null). */
    function ResolutionTracks(ids: seq<int>): SqlQuery {
      store.Tracks(Some(IdFilter(IdStrings(ids))), None)
    }

    /** The cursor of a resolution binds the candidates' ids in rank order,
        one per `tracks._id = ?` term of its id filter. */
    lemma {:induction false} ResolutionArgs(ids: seq<int>)
      requires |ids| > 0
      ensures ResolutionTracks(ids).args == Some(IdStrings(ids))
    {
      IdFilterClause(IdStrings(ids));
    }

    /** What resolving `q` with the index reports: one report when the index
        has a candidate, nothing otherwise. */
    function Dispatched(index: FuzzyIndex, q: Query): seq<Report> {
      var ids := index.Search(q);
      if |ids| > 0 then [Report(q, ids)] else []
    }

    /** The reports of resolving `qs` one after the other. */
    function DispatchedAll(index: FuzzyIndex, qs: seq<Query>): seq<Report> {
      if |qs| == 0 then []
      else DispatchedAll(index, qs[..|qs| - 1]) + Dispatched(index, qs[|qs| - 1])
    }

    lemma {:induction false} DispatchedAllAppend(index: FuzzyIndex, a: seq<Query>, b: seq<Query>)
      ensures DispatchedAll(index, a + b) == DispatchedAll(index, a) + DispatchedAll(index, b)
      decreases |b|
    {
      if |b| == 0 {
        assert a + b == a;
      } else {
        assert (a + b)[..|a + b| - 1] == a + b[..|b| - 1];
        DispatchedAllAppend(index, a, b[..|b| - 1]);
      }
    }

    /** Only queries the index has candidates for are reported, in the order
        they were resolved, each with the tracks of its candidates. */
    lemma {:induction false} DispatchedAllReports(index: FuzzyIndex, qs: seq<Query>, k: int)
      requires 0 <= k < |DispatchedAll(index, qs)|
      ensures var r := DispatchedAll(index, qs)[k];
              && r.query in qs
              && |r.candidates| > 0
              && r.candidates == index.Search(r.query)
      decreases |qs|
    {
      var p := qs[..|qs| - 1];
      if k < |DispatchedAll(index, p)| {
        DispatchedAllReports(index, p, k);
        assert DispatchedAll(index, qs)[k] == DispatchedAll(index, p)[k];
        assert DispatchedAll(index, p)[k].query in qs by {
          var j :| 0 <= j < |p| && p[j] == DispatchedAll(index, p)[k].query;
          assert qs[j] == p[j];
        }
      } else {
        assert qs[|qs| - 1] in qs;
      }
    }

    /** Every query the index has candidates for is reported. */
    lemma {:induction false} DispatchedAllComplete(index: FuzzyIndex, qs: seq<Query>, j: int)
      requires 0 <= j < |qs| && |index.Search(qs[j])| > 0
      ensures Report(qs[j], index.Search(qs[j])) in DispatchedAll(index, qs)
      decreases |qs|
    {
      var p := qs[..|qs| - 1];
      if j < |p| {
        assert qs[j] == p[j];
        DispatchedAllComplete(index, p, j);
      } else {
        assert DispatchedAll(index, qs) == DispatchedAll(index, p) + Dispatched(index, qs[j]);
      }
    }

    lemma {:induction false} DispatchedAllSnoc(index: FuzzyIndex, qs: seq<Query>, q: Query)
      ensures DispatchedAll(index, qs + [q]) == DispatchedAll(index, qs) + Dispatched(index, q)
    {
      assert (qs + [q])[..|qs|] == qs;
    }

    /** One round of the drain loop keeps its invariant: the resolved query
        and the ones its nested resolve drained are appended, in that order. */
    lemma DrainStep(index: FuzzyIndex, r0: seq<Report>, mid: seq<Report>, after: seq<Report>,
                    done: seq<Query>, inner: seq<Query>, q: Query, before: set<Query>, w0: set<Query>)
      requires q in before && multiset(done) + multiset(before) == multiset(w0)
      requires multiset(inner) == multiset(before - {q})
      requires mid == r0 + DispatchedAll(index, done)
      requires after == mid + DispatchedAll(index, inner + [q])
      ensures multiset(done + (inner + [q])) + multiset({}) == multiset(w0)
      ensures after == r0 + DispatchedAll(index, done + (inner + [q]))
    {
      assert multiset(before) == multiset(before - {q}) + multiset{q};
      assert multiset(done + (inner + [q])) == multiset(done) + multiset(inner) + multiset{q};
      DispatchedAllAppend(index, done, inner + [q]);
    }

    /** resolve: before the index exists the query waits; afterwards the
        waiting queries are resolved first and then this one. The answer is
        always true. */
    method Resolve(query: Query) returns (handled: bool, ghost drained: seq<Query>)
      modifies this
      decreases |waiting|, 1
      ensures handled
      ensures fuzzyIndex == old(fuzzyIndex) && playlists == old(playlists)
      ensures old(fuzzyIndex).None? ==> waiting == old(waiting) + {query} && reports == old(reports)
      ensures old(fuzzyIndex).Some? ==>
                && waiting == {}
                && multiset(drained) == multiset(old(waiting))
                && reports == old(reports) + DispatchedAll(fuzzyIndex.value, drained + [query])
    {
      drained := [];
      if fuzzyIndex.None? {
        waiting := waiting + {query};
      } else {
        drained := DrainWaiting();
        var _ := Dispatch(query);
        DispatchedAllSnoc(fuzzyIndex.value, drained, query);
      }
      handled := true;
    }

    /** The loop over mWaitingQueries that initFuzzyIndex and resolve share:
        take any waiting query out of the set and resolve it, until none is
        left. */
    method DrainWaiting() returns (ghost drained: seq<Query>)
      requires fuzzyIndex.Some?
      modifies this
      decreases |waiting|, 0
      ensures fuzzyIndex == old(fuzzyIndex) && playlists == old(playlists)
      ensures waiting == {}
      ensures multiset(drained) == multiset(old(waiting))
      ensures reports == old(reports) + DispatchedAll(fuzzyIndex.value, drained)
    {
      ghost var w0, r0, index, p0 := waiting, reports, fuzzyIndex.value, playlists;
      drained := [];
      assert drained[..0] == [];
      while waiting != {}
        invariant fuzzyIndex == Some(index) && playlists == p0
        invariant |waiting| <= |w0|
        invariant multiset(drained) + multiset(waiting) == multiset(w0)
        invariant reports == r0 + DispatchedAll(index, drained)
        decreases |waiting|
      {
        var q :| q in waiting;
        ghost var before, done, mid := waiting, drained, reports;
        waiting := waiting - {q};
        TakeOne(before, q);
        var _, inner := Resolve(q);
        drained := done + (inner + [q]);
        DrainStep(index, r0, mid, reports, done, inner, q, before, w0);
      }
    }

    /** The resolving runnable: search the index and, when it has candidates,
        read the tracks with those ids and report them. */
    method Dispatch(query: Query) returns (cursor: Option<SqlQuery>)
      requires fuzzyIndex.Some?
      modifies this
      ensures fuzzyIndex == old(fuzzyIndex) && waiting == old(waiting) && playlists == old(playlists)
      ensures reports == old(reports) + Dispatched(fuzzyIndex.value, query)
      ensures var ids := fuzzyIndex.value.Search(query);
              cursor == if |ids| > 0 then Some(ResolutionTracks(ids)) else None
    {
      cursor := None;
      var results := fuzzyIndex.value.Search(query);
      if |results| > 0 {
        var ids := ResultIds(results);
        cursor := Some(store.Tracks(Some(IdFilter(ids)), None));
        reports := reports + [Report(query, results)];
      }
    }

    /** initFuzzyIndex: install the index, then resolve every waiting query. */
    method InitFuzzyIndex(index: FuzzyIndex) returns (ghost drained: seq<Query>)
      modifies this
      ensures fuzzyIndex == Some(index) && waiting == {} && playlists == old(playlists)
      ensures multiset(drained) == multiset(old(waiting))
      ensures reports == old(reports) + DispatchedAll(index, drained)
    {
      fuzzyIndex := Some(index);
      drained := DrainWaiting();
    }

    // -------------------------------------------------------------------------
    // Browsing

    /** The playlist Playlist.get returns for an id. */
    function Cached(key: string): Playlist
      reads this
    {
      if key in playlists then playlists[key] else NewPlaylist
    }

    /** The cache step getQueries and getAlbumTracks share: Playlist.get(key),
        and, while the playlist has no revision, a fill from the cursor stamped
        with `revision`; a missing cursor resolves to null. */
    method FillOnce(key: string, revision: string, cursor: Option<SqlQuery>) returns (r: PlaylistAnswer)
      requires revision != ""
      modifies this
      ensures fuzzyIndex == old(fuzzyIndex) && waiting == old(waiting) && reports == old(reports)
      ensures key in playlists
      ensures old(Cached(key)).currentRevision != "" ==>
                playlists == old(playlists) && r == ResolvedPlaylist(key, old(Cached(key)))
      ensures old(Cached(key)).currentRevision == "" && cursor.None? ==>
                playlists == old(playlists)[key := old(Cached(key))] && r == ResolvedNull
      ensures old(Cached(key)).currentRevision == "" && cursor.Some? ==>
                var filled := old(Cached(key)).(cursor := cursor, filled := true, currentRevision := revision);
                playlists == old(playlists)[key := filled] && r == ResolvedPlaylist(key, filled)
      ensures r.ResolvedPlaylist? ==> playlists[key].currentRevision != ""
    {
      var playlist := Cached(key);
      if playlist.currentRevision != "" {
        assert key in playlists && playlists[key := playlist] == playlists;
      }
      playlists := playlists[key := playlist];
      if playlist.currentRevision == "" {
        if cursor.None? {
          return ResolvedNull;
        }
        playlist := playlist.(cursor := cursor, filled := true, currentRevision := revision);
        playlists := playlists[key := playlist];
      }
      r := ResolvedPlaylist(key, playlist);
    }

    /** getQueries: all tracks in the requested order, as the playlist of the
        current tracks revision; it is filled only while its revision is empty,
        so a second call at the same revision finds it filled. */
    method GetQueries(sortMode: SortMode) returns (r: PlaylistAnswer)
      requires store.Valid()
      modifies this
      ensures fuzzyIndex == old(fuzzyIndex) && waiting == old(waiting) && reports == old(reports)
      ensures TracksOrder(sortMode).None? ==> r == Unresolved && playlists == old(playlists)
      ensures TracksOrder(sortMode).Some? ==>
                var key := TracksCacheKey(collectionId, store.TracksCurrentRevision());
                && key in playlists && r == ResolvedPlaylist(key, playlists[key])
                && playlists[key].currentRevision != ""
                && (old(Cached(key)).currentRevision != "" ==> playlists == old(playlists))
                && (old(Cached(key)).currentRevision == "" ==>
                      playlists == old(playlists)[key := Playlist(Some(store.Tracks(None, TracksOrder(sortMode))),
                                                                  true, IntToString(store.TracksCurrentRevision()))])
    {
      var orderBy := TracksOrder(sortMode);
      if orderBy.None? {
        return Unresolved;
      }
      var revision := store.TracksCurrentRevision();
      var key := TracksCacheKey(collectionId, revision);
      var cursor := store.Tracks(None, orderBy);
      r := FillOnce(key, IntToString(revision), Some(cursor));
    }

    /** getAlbumTracks: the album's tracks by position, as the playlist of the
        album's current revision, filled once; null when the album is not in
        the store. */
    method GetAlbumTracks(album: Album) returns (r: PlaylistAnswer)
      modifies this
      ensures fuzzyIndex == old(fuzzyIndex) && waiting == old(waiting) && reports == old(reports)
      ensures var revision := store.AlbumCurrentRevision(album.name, album.artistName, "");
              var key := AlbumCacheKey(collectionId, album.cacheKey, revision);
              var tracks := store.AlbumTracks(album.name, album.artistName, "");
              && key in playlists
              && (old(Cached(key)).currentRevision != "" ==>
                    playlists == old(playlists) && r == ResolvedPlaylist(key, playlists[key]))
              && (old(Cached(key)).currentRevision == "" && tracks.None? ==>
                    playlists == old(playlists)[key := old(Cached(key))] && r == ResolvedNull)
              && (old(Cached(key)).currentRevision == "" && tracks.Some? ==>
                    var filled := Playlist(tracks, true, IntToString(revision));
                    playlists == old(playlists)[key := filled] && r == ResolvedPlaylist(key, filled))
    {
      var revision := store.AlbumCurrentRevision(album.name, album.artistName, "");
      var key := AlbumCacheKey(collectionId, album.cacheKey, revision);
      var cursor := None;
      if Cached(key).currentRevision == "" {
        cursor := store.AlbumTracks(album.name, album.artistName, "");
      }
      r := FillOnce(key, IntToString(revision), cursor);
    }

    /** getArtists: the artists cursor in the requested order; no answer for a
        mode the artists table cannot sort by. */
    function GetArtists(sortMode: SortMode): (r: Option<SqlQuery>)
      ensures r.Some? <==> sortMode == SortAlpha || sortMode == SortLastModified
      ensures r.Some? ==> r.value == store.Artists(ArtistsOrder(sortMode)) && r.value.args.None?
      ensures sortMode == SortAlpha ==>
                r.Some? && r.value.statement == Head(TABLE_ARTISTS, Some(ARTIST_FIELDS), None) + " ORDER BY " + ARTISTS_ARTIST
      ensures sortMode == SortLastModified ==>
                r.Some? && r.value.statement == Head(TABLE_ARTISTS, Some(ARTIST_FIELDS), None) + " ORDER BY " + ARTISTS_LASTMODIFIED
    {
      match ArtistsOrder(sortMode)
      case None => None
      case Some(orderBy) => Some(store.Artists(Some(orderBy)))
    }

    /** getAlbumArtists: as getArtists, over the albumArtists table. */
    function GetAlbumArtists(sortMode: SortMode): (r: Option<SqlQuery>)
      ensures r.Some? <==> sortMode == SortAlpha || sortMode == SortLastModified
      ensures r.Some? ==> r.value == store.AlbumArtists(ArtistsOrder(sortMode)) && r.value.args.None?
      ensures sortMode == SortAlpha ==>
                r.Some? && r.value.statement == Head(TABLE_ALBUMARTISTS, Some(ALBUMARTIST_FIELDS), None) + " ORDER BY " + ARTISTS_ARTIST
      ensures sortMode == SortLastModified ==>
                r.Some? && r.value.statement == Head(TABLE_ALBUMARTISTS, Some(ALBUMARTIST_FIELDS), None) + " ORDER BY " + ARTISTS_LASTMODIFIED
    {
      match ArtistsOrder(sortMode)
      case None => None
      case Some(orderBy) => Some(store.AlbumArtists(Some(orderBy)))
    }

    /** getAlbums: the albums cursor in the requested order. */
    function GetAlbums(sortMode: SortMode): (r: Option<SqlQuery>)
      ensures r.None? <==> sortMode == SortNot
      ensures r.Some? ==> r.value == store.Albums(AlbumsOrder(sortMode)) && r.value.args.None?
      ensures r.Some? ==> r.value.statement == Head(TABLE_ALBUMS, Some(ALBUM_FIELDS), Some(ALBUM_JOINS))
                                              + " ORDER BY " + AlbumsOrder(sortMode).value[0]
      ensures sortMode == SortAlpha ==> AlbumsOrder(sortMode).value[0] == ALBUMS_ALBUM
      ensures sortMode == SortArtistAlpha ==> AlbumsOrder(sortMode).value[0] == ARTISTS_ARTIST
      ensures sortMode == SortLastModified ==> AlbumsOrder(sortMode).value[0] == ALBUMS_LASTMODIFIED
    {
      match AlbumsOrder(sortMode)
      case None => None
      case Some(orderBy) => Some(store.Albums(Some(orderBy)))
    }
  }
}
