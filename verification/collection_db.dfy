/** CollectionDb: the per-collection SQLite store. The database's contents are
    the field `db`; every insert is the insert-or-ignore of the table's UNIQUE
    constraint, and a transaction is one assignment. */
module CollectionDatabase {
  import opened Common
  import opened Schema
  import opened Ingestion
  import opened SelectStatement

  const DB_VERSION: int := 3
  const DB_FILE_SUFFIX: string := "_collection.db"
  const LAST_COLLECTION_DB_UPDATE_SUFFIX: string := "_last_collection_db_update"

  const ID: string := "_id"
  const TABLE_ARTISTS: string := "artists"
  const ARTISTS_ARTIST: string := "artist"
  const ARTISTS_ARTISTDISAMBIGUATION: string := "artistDisambiguation"
  const ARTISTS_LASTMODIFIED: string := "artistLastModified"
  const TABLE_ALBUMARTISTS: string := "albumArtists"
  const ALBUMARTISTS_ALBUMARTIST: string := "albumArtist"
  const ALBUMARTISTS_ALBUMARTISTDISAMBIGUATION: string := "albumArtistDisambiguation"
  const ALBUMARTISTS_LASTMODIFIED: string := "albumArtistLastModified"
  const TABLE_ALBUMS: string := "albums"
  const ALBUMS_ALBUM: string := "album"
  const ALBUMS_IMAGEPATH: string := "imagePath"
  const ALBUMS_ALBUMARTISTID: string := "albumArtistId"
  const ALBUMS_LASTMODIFIED: string := "albumLastModified"
  const TABLE_ARTISTALBUMS: string := "artistAlbums"
  const ARTISTALBUMS_ALBUMID: string := "albumId"
  const ARTISTALBUMS_ARTISTID: string := "artistId"
  const TABLE_TRACKS: string := "tracks"
  const TRACKS_TRACK: string := "track"
  const TRACKS_ARTISTID: string := "artistId"
  const TRACKS_ALBUMID: string := "albumId"
  const TRACKS_URL: string := "url"
  const TRACKS_DURATION: string := "duration"
  const TRACKS_ALBUMPOS: string := "albumPos"
  const TRACKS_LINKURL: string := "linkUrl"
  const TRACKS_LASTMODIFIED: string := "trackLastModified"

  /** The columns tracks() selects when the caller names none. */
  const TRACK_FIELDS: seq<string> :=
    [ARTISTS_ARTIST, ARTISTS_ARTISTDISAMBIGUATION, ALBUMS_ALBUM, TRACKS_TRACK, TRACKS_DURATION,
     TRACKS_URL, TRACKS_LINKURL, TRACKS_ALBUMPOS, TRACKS_LASTMODIFIED]

  /** tracks() joins each track with its artist and its album. */
  const TRACK_JOINS: seq<JoinInfo> :=
    [JoinInfo(TABLE_ARTISTS, [(TABLE_TRACKS + "." + TRACKS_ARTISTID, TABLE_ARTISTS + "." + ID)]),
     JoinInfo(TABLE_ALBUMS, [(TABLE_TRACKS + "." + TRACKS_ALBUMID, TABLE_ALBUMS + "." + ID)])]

  const ALBUM_FIELDS: seq<string> :=
    [ALBUMS_ALBUM, ARTISTS_ARTIST, ARTISTS_ARTISTDISAMBIGUATION, ALBUMS_IMAGEPATH, ALBUMS_LASTMODIFIED]

  /** An album is listed with the artist it is filed under. */
  const ALBUM_JOINS: seq<JoinInfo> :=
    [JoinInfo(TABLE_ARTISTS, [(TABLE_ALBUMS + "." + ALBUMS_ALBUMARTISTID, TABLE_ARTISTS + "." + ID)])]

  /** artistAlbums() goes from the link to the album, and from the album to the
      artist it is filed under. */
  const ARTIST_ALBUM_JOINS: seq<JoinInfo> :=
    [JoinInfo(TABLE_ALBUMS, [(TABLE_ARTISTALBUMS + "." + ARTISTALBUMS_ALBUMID, TABLE_ALBUMS + "." + ID)]),
     JoinInfo(TABLE_ARTISTS, [(TABLE_ALBUMS + "." + ALBUMS_ALBUMARTISTID, TABLE_ARTISTS + "." + ID)])]

  const ARTIST_FIELDS: seq<string> := [ARTISTS_ARTIST, ARTISTS_ARTISTDISAMBIGUATION, ARTISTS_LASTMODIFIED]

  const ALBUMARTIST_FIELDS: seq<string> :=
    [ALBUMARTISTS_ALBUMARTIST, ALBUMARTISTS_ALBUMARTISTDISAMBIGUATION, ALBUMARTISTS_LASTMODIFIED]

  /** A single "column = value" filter. */
  function WhereEquals(column: string, value: string): WhereInfo {
    WhereInfo("AND", [(column, [value])])
  }

  /** A database file found on disk, with the schema version it was written with. */
  datatype StoredDb = StoredDb(tables: Tables, version: int)

  /** The ALTER TABLE of the version-2 upgrade: the new imagePath column is null
      in every existing album row. onUpgrade runs the version-3 drop right after
      it for every version below 2, so its result never survives the upgrade,
      as in the source. */
  function WithoutImagePaths(rows: seq<Row>): (r: seq<Row>)
    ensures |r| == |rows|
    ensures forall i | 0 <= i < |rows| :: r[i].Key() == rows[i].Key() && r[i].id == rows[i].id
                                        && r[i].Kind() == rows[i].Kind()
    ensures forall i | 0 <= i < |rows| && r[i].AlbumRow? :: r[i].imagePath.None?
  {
    if |rows| == 0 then []
    else
      var last := rows[|rows| - 1];
      WithoutImagePaths(rows[..|rows| - 1]) + [if last.AlbumRow? then last.(imagePath := None) else last]
  }

  /** The largest lastModified among the rows. */
  function MaxLastModified(rows: seq<Row>): (r: int)
    requires |rows| > 0 && forall i | 0 <= i < |rows| :: !rows[i].ArtistAlbumRow?
    ensures exists i | 0 <= i < |rows| :: rows[i].lastModified == r
    ensures forall i | 0 <= i < |rows| :: rows[i].lastModified <= r
  {
    if |rows| == 1 then rows[0].lastModified
    else
      var p := rows[..|rows| - 1];
      var m := MaxLastModified(p);
      var last := rows[|rows| - 1].lastModified;
      assert forall i | 0 <= i < |p| :: p[i] == rows[i];
      if m < last then last else m
  }

  /** The cursor walk that fills cachedArtists / cachedAlbums: every row's key
      mapped to its id. */
  method ReadIds(rows: seq<Row>) returns (ids: map<Key, int>)
    ensures ids == IdMap(rows)
  {
    ids := map[];
    for i := 0 to |rows|
      invariant ids == IdMap(rows[..i])
    {
      assert rows[..i + 1][..i] == rows[..i];
      ids := ids[rows[i].Key() := rows[i].id];
    }
    assert rows[..|rows|] == rows;
  }

  /** cachedArtists as the cursor walk actually keys it: each artists row under
      concatKeys(name, disambiguation), later rows overwriting earlier ones. */
  function ArtistIdsAsWritten(rows: seq<Row>): (m: map<string, int>)
    requires RowsOf(rows, ArtistTable)
    ensures forall i | 0 <= i < |rows| :: Join([rows[i].name, rows[i].disambiguation], KEY_SEPARATOR) in m
    ensures forall i | 0 <= i < |rows| ::
              var k := Join([rows[i].name, rows[i].disambiguation], KEY_SEPARATOR);
              (forall j | i < j < |rows| :: Join([rows[j].name, rows[j].disambiguation], KEY_SEPARATOR) != k)
              ==> m[k] == rows[i].id
  {
    if |rows| == 0 then map[]
    else
      var r := rows[|rows| - 1];
      var m := ArtistIdsAsWritten(rows[..|rows| - 1]);
      assert forall i | 0 <= i < |rows| - 1 :: rows[..|rows| - 1][i] == rows[i];
      m[Join([r.name, r.disambiguation], KEY_SEPARATOR) := r.id]
  }

  /** Artists ("a♣b", "") and ("a", "b♣") share the string key "a♣b♣", so as
      written a track of the first is linked to the id of the second (the row
      read later), where the map over (name, disambiguation) pairs keeps each
      artist's own id. */
  lemma ArtistIdCollisionAsWritten()
    ensures var rows := [ArtistRow(1, "a♣b", "", 0), ArtistRow(2, "a", "b♣", 0)];
            && ArtistIdsAsWritten(rows)[Join(["a♣b", ""], KEY_SEPARATOR)] == 2
            && IdMap(rows)[ArtistKey("a♣b", "")] == 1
  {
    var rows := [ArtistRow(1, "a♣b", "", 0), ArtistRow(2, "a", "b♣", 0)];
    PairKeyCollision();
    assert rows[..1] == [rows[0]];
    assert ArtistIdsAsWritten(rows) == ArtistIdsAsWritten(rows[..1])["a♣b♣" := 2];
    assert IdMap(rows[..1]) == map[ArtistKey("a♣b", "") := 1] by {
      assert rows[..1][..0] == [];
    }
    assert IdMap(rows) == IdMap(rows[..1])[ArtistKey("a", "b♣") := 2];
  }

  /** One running-maximum update of addTracks: the new map, and the value the
      insert then carries. */
  method BumpLastModified(lastModifiedMap: map<Key, int>, key: Key, trackLastModified: int)
    returns (newMap: map<Key, int>, lastModified: int)
    ensures newMap == Bump(lastModifiedMap, key, trackLastModified)
    ensures lastModified == newMap[key]
  {
    newMap := lastModifiedMap;
    if key !in newMap || newMap[key] < trackLastModified {
      newMap := newMap[key := trackLastModified];
      lastModified := trackLastModified;
    } else {
      lastModified := newMap[key];
    }
  }

  class CollectionDb {
    const databaseName: string
    const lastUpdateStorageKey: string
    /** The contents of mDb. */
    var db: Tables
    var initialized: bool

    predicate Valid()
      reads this
    {
      ValidTables(db)
    }

    /** Opening the helper: a new file gets empty tables (onCreate), an older
        one is upgraded (onUpgrade), a current one is used as found. */
    constructor (collectionId: string, stored: Option<StoredDb>)
      requires stored.Some? ==> ValidTables(stored.value.tables) && stored.value.version <= DB_VERSION
      ensures databaseName == collectionId + DB_FILE_SUFFIX
      ensures lastUpdateStorageKey == collectionId + LAST_COLLECTION_DB_UPDATE_SUFFIX
      ensures Valid() && !initialized
      ensures stored.None? ==> db == EmptyTables
      ensures stored.Some? ==> db == if stored.value.version < DB_VERSION then EmptyTables
                                     else stored.value.tables
    {
      databaseName := collectionId + DB_FILE_SUFFIX;
      lastUpdateStorageKey := collectionId + LAST_COLLECTION_DB_UPDATE_SUFFIX;
      initialized := false;
      db := EmptyTables;
      new;
      if stored.Some? {
        db := stored.value.tables;
        if stored.value.version < DB_VERSION {
          OnUpgrade(stored.value.version);
        }
      }
    }

    /** new CollectionDb(context, collectionId) as a whole: getWritableDatabase
        throws on a file of a later version (SQLiteOpenHelper's default
        onDowngrade), so no store is opened; any other file is opened as the
        constructor describes. */
    static method Open(collectionId: string, stored: Option<StoredDb>) returns (r: Option<CollectionDb>)
      requires stored.Some? ==> ValidTables(stored.value.tables)
      ensures r.None? <==> stored.Some? && stored.value.version > DB_VERSION
      ensures r.Some? ==> fresh(r.value) && r.value.Valid() && !r.value.initialized
      ensures r.Some? ==> r.value.databaseName == collectionId + DB_FILE_SUFFIX
      ensures r.Some? && stored.None? ==> r.value.db == EmptyTables
      ensures r.Some? && stored.Some? ==>
                r.value.db == if stored.value.version < DB_VERSION then EmptyTables else stored.value.tables
    {
      if stored.Some? && stored.value.version > DB_VERSION {
        return None;
      }
      var db := new CollectionDb(collectionId, stored);
      return Some(db);
    }

    /** onUpgrade: before version 2 albums gain the imagePath column; before
        version 3 every table is dropped and created again. */
    method OnUpgrade(oldVersion: int)
      requires Valid()
      modifies this
      ensures Valid() && initialized == old(initialized)
      ensures oldVersion < 3 ==> db == EmptyTables
      ensures oldVersion >= 3 ==> db == old(db)
    {
      if oldVersion < 2 {
        db := db.(albums := WithoutImagePaths(db.albums));
      }
      if oldVersion < 3 {
        db := EmptyTables;
      }
    }

    /** wipe: every table dropped and created empty. mInitialized is left as
        it was. */
    method Wipe()
      modifies this
      ensures Valid() && db == EmptyTables && initialized == old(initialized)
    {
      db := EmptyTables;
    }

    function IsInitialized(): bool
      reads this
    {
      initialized
    }

    /** addTracks: one transaction over the five tables, after which the
        collection counts as initialized. */
    method AddTracks(batch: seq<RawTrack>)
      requires Valid()
      modifies this
      ensures Valid() && IsInitialized()
      ensures db == Ingest(old(db), batch)
    {
      ghost var db0 := db;
      var ts, albumArtists := NormalizeBatch(batch);
      InsertArtists(ts, albumArtists);
      var cachedArtists := ReadIds(db.artists);
      ArtistIdsResolve(ArtistPassState(db0.artists, db0.albumArtists, map[]), ts);
      InsertAlbums(ts, albumArtists, cachedArtists);
      var cachedAlbums := ReadIds(db.albums);
      AlbumIdsResolve(AlbumPassState(db0.albums, map[]), ts, albumArtists, cachedArtists);
      InsertTracks(ts, albumArtists, cachedArtists, cachedAlbums);

      initialized := true;
      IngestKeepsValid(db0, batch);
    }

    /** The first loop of addTracks: null strings become "", and each album
        collects up to two artist names. */
    static method NormalizeBatch(batch: seq<RawTrack>) returns (ts: seq<Track>, albumArtists: map<string, set<string>>)
      ensures ts == NormalizeAll(batch)
      ensures albumArtists == ArtistSets(ts)
      ensures forall i | 0 <= i < |ts| :: ts[i].album in albumArtists
    {
      ts := [];
      albumArtists := map[];
      for i := 0 to |batch|
        invariant ts == NormalizeAll(batch[..i])
        invariant albumArtists == ArtistSets(ts)
        invariant forall j | 0 <= j < |ts| :: ts[j].album in albumArtists
      {
        NormalizeAllSnoc(batch, i);
        var track := Normalize(batch[i]);
        var artists := if track.album in albumArtists then albumArtists[track.album] else {};
        if |artists| < 2 {
          artists := artists + {track.artist};
        }
        ghost var before := ts;
        albumArtists := albumArtists[track.album := artists];
        ts := ts + [track];
        ArtistSetsSnoc(before, track);
      }
      assert batch[..|batch|] == batch;
    }

    /** The second loop of addTracks. */
    method InsertArtists(ts: seq<Track>, albumArtists: map<string, set<string>>)
      requires forall i | 0 <= i < |ts| :: ts[i].album in albumArtists
      modifies this
      ensures initialized == old(initialized)
      ensures var s := ArtistPass(ArtistPassState(old(db).artists, old(db).albumArtists, map[]), ts, albumArtists);
              db == old(db).(artists := s.artists, albumArtists := s.albumArtists)
    {
      ghost var s0 := ArtistPassState(db.artists, db.albumArtists, map[]);
      var artistLastModifiedMap: map<Key, int> := map[];
      for i := 0 to |ts|
        invariant initialized == old(initialized)
        invariant ArtistPassState(db.artists, db.albumArtists, artistLastModifiedMap)
                  == ArtistPass(s0, ts[..i], albumArtists)
        invariant db == old(db).(artists := db.artists, albumArtists := db.albumArtists)
      {
        ArtistPassPrefixStep(s0, ts, i, albumArtists);
        var track := ts[i];
        ghost var sp := ArtistPassState(db.artists, db.albumArtists, artistLastModifiedMap);
        var lastModified;
        if |albumArtists[track.album]| > 1 {
          artistLastModifiedMap, lastModified :=
            BumpLastModified(artistLastModifiedMap, CompilationKey, track.lastModified);
          db := db.(artists := Insert(db.artists, ArtistRow(0, COMPILATION_ARTIST, "", lastModified)));
        }
        ghost var s1 := ArtistPassState(db.artists, db.albumArtists, artistLastModifiedMap);
        assert s1 == CompilationStep(sp, track, albumArtists);
        artistLastModifiedMap, lastModified :=
          BumpLastModified(artistLastModifiedMap, OwnArtistKey(track), track.lastModified);
        db := db.(artists := Insert(db.artists, ArtistRow(0, track.artist, track.artistDisambiguation, lastModified)));
        db := db.(albumArtists := Insert(db.albumArtists,
                    ArtistRow(0, track.albumArtist, track.albumArtistDisambiguation, lastModified)));
        assert ArtistPassState(db.artists, db.albumArtists, artistLastModifiedMap) == OwnArtistStep(s1, track);
      }
      assert ts[..|ts|] == ts;
    }

    /** The third loop of addTracks. */
    method InsertAlbums(ts: seq<Track>, albumArtists: map<string, set<string>>, cachedArtists: map<Key, int>)
      requires ArtistIdsResolvable(ts, albumArtists, cachedArtists)
      modifies this
      ensures initialized == old(initialized)
      ensures db == old(db).(albums := AlbumPass(AlbumPassState(old(db).albums, map[]), ts,
                                                 albumArtists, cachedArtists).albums)
    {
      ghost var s0 := AlbumPassState(db.albums, map[]);
      var albumLastModifiedMap: map<Key, int> := map[];
      for i := 0 to |ts|
        invariant initialized == old(initialized)
        invariant AlbumPassState(db.albums, albumLastModifiedMap)
                  == AlbumPass(s0, ts[..i], albumArtists, cachedArtists)
        invariant db == old(db).(albums := db.albums)
      {
        AlbumPassPrefixStep(s0, ts, i, albumArtists, cachedArtists);
        var track := ts[i];
        var albumArtistId;
        if |albumArtists[track.album]| == 1 {
          albumArtistId := cachedArtists[OwnArtistKey(track)];
        } else {
          albumArtistId := cachedArtists[CompilationKey];
        }
        var lastModified;
        albumLastModifiedMap, lastModified :=
          BumpLastModified(albumLastModifiedMap, AlbumKey(track.album, albumArtistId), track.lastModified);
        db := db.(albums := Insert(db.albums,
                    AlbumRow(0, track.album, albumArtistId, track.imagePath, lastModified)));
      }
      assert ts[..|ts|] == ts;
    }

    /** The fourth loop of addTracks. */
    method InsertTracks(ts: seq<Track>, albumArtists: map<string, set<string>>,
                        cachedArtists: map<Key, int>, cachedAlbums: map<Key, int>)
      requires AlbumIdsResolvable(ts, albumArtists, cachedArtists, cachedAlbums)
      modifies this
      ensures initialized == old(initialized)
      ensures var s := TrackPass(TrackPassState(old(db).artistAlbums, old(db).tracks), ts,
                                 albumArtists, cachedArtists, cachedAlbums);
              db == old(db).(artistAlbums := s.artistAlbums, tracks := s.tracks)
    {
      ghost var s0 := TrackPassState(db.artistAlbums, db.tracks);
      for i := 0 to |ts|
        invariant initialized == old(initialized)
        invariant TrackPassState(db.artistAlbums, db.tracks)
                  == TrackPass(s0, ts[..i], albumArtists, cachedArtists, cachedAlbums)
        invariant db == old(db).(artistAlbums := db.artistAlbums, tracks := db.tracks)
      {
        assert ts[..i + 1][..i] == ts[..i];
        var track := ts[i];
        var albumArtistId;
        if |albumArtists[track.album]| == 1 {
          albumArtistId := cachedArtists[OwnArtistKey(track)];
        } else {
          albumArtistId := cachedArtists[CompilationKey];
        }
        var artistId := cachedArtists[OwnArtistKey(track)];
        var albumId := cachedAlbums[AlbumKey(track.album, albumArtistId)];
        db := db.(artistAlbums := Insert(db.artistAlbums, ArtistAlbumRow(0, albumId, artistId)));
        db := db.(tracks := Insert(db.tracks,
                    TrackRow(0, track.track, artistId, albumId, track.url, track.duration,
                             track.albumPos, track.linkUrl, track.lastModified)));
      }
      assert ts[..|ts|] == ts;
    }

    // -------------------------------------------------------------------------
    // Lookups. A Cursor is represented by the query it runs.

    /** tracks(where, orderBy): the default track columns, joined with the
        artist and the album, through sqlSelect as written. With no ORDER BY
        term or one, the statement is the intended one. */
    function Tracks(where: Option<WhereInfo>, orderBy: Option<seq<string>>): (q: SqlQuery)
      ensures q == SelectAsWritten(TABLE_TRACKS, Some(TRACK_FIELDS), where, Some(TRACK_JOINS), orderBy)
      ensures q.args == WhereArgs(where)
      ensures where.None? ==> q.args.None?
      ensures (orderBy.Some? ==> |orderBy.value| <= 1) ==>
                q == Select(TABLE_TRACKS, Some(TRACK_FIELDS), where, Some(TRACK_JOINS), orderBy)
      ensures orderBy.None? ==>
                q.statement == Head(TABLE_TRACKS, Some(TRACK_FIELDS), Some(TRACK_JOINS)) + WhereClause(TABLE_TRACKS, where)
      ensures orderBy.Some? && |orderBy.value| == 1 ==>
                q.statement == Head(TABLE_TRACKS, Some(TRACK_FIELDS), Some(TRACK_JOINS)) + WhereClause(TABLE_TRACKS, where)
                               + " ORDER BY " + orderBy.value[0]
    {
      OrderedLookup(TABLE_TRACKS, Some(TRACK_FIELDS), where, Some(TRACK_JOINS), orderBy);
      SelectAsWritten(TABLE_TRACKS, Some(TRACK_FIELDS), where, Some(TRACK_JOINS), orderBy)
    }

    /** albums(orderBy): each album with the artist it is filed under. */
    function Albums(orderBy: Option<seq<string>>): (q: SqlQuery)
      ensures q == SelectAsWritten(TABLE_ALBUMS, Some(ALBUM_FIELDS), None, Some(ALBUM_JOINS), orderBy)
      ensures q.args.None?
      ensures (orderBy.Some? ==> |orderBy.value| <= 1) ==>
                q == Select(TABLE_ALBUMS, Some(ALBUM_FIELDS), None, Some(ALBUM_JOINS), orderBy)
      ensures orderBy.None? ==> q.statement == Head(TABLE_ALBUMS, Some(ALBUM_FIELDS), Some(ALBUM_JOINS))
      ensures orderBy.Some? && |orderBy.value| == 1 ==>
                q.statement == Head(TABLE_ALBUMS, Some(ALBUM_FIELDS), Some(ALBUM_JOINS)) + " ORDER BY " + orderBy.value[0]
    {
      OrderedLookup(TABLE_ALBUMS, Some(ALBUM_FIELDS), None, Some(ALBUM_JOINS), orderBy);
      SelectAsWritten(TABLE_ALBUMS, Some(ALBUM_FIELDS), None, Some(ALBUM_JOINS), orderBy)
    }

    /** artists(orderBy): the artists table's names and revisions. */
    function Artists(orderBy: Option<seq<string>>): (q: SqlQuery)
      ensures q == SelectAsWritten(TABLE_ARTISTS, Some(ARTIST_FIELDS), None, None, orderBy)
      ensures q.args.None?
      ensures (orderBy.Some? ==> |orderBy.value| <= 1) ==>
                q == Select(TABLE_ARTISTS, Some(ARTIST_FIELDS), None, None, orderBy)
      ensures orderBy.None? ==> q.statement == Head(TABLE_ARTISTS, Some(ARTIST_FIELDS), None)
      ensures orderBy.Some? && |orderBy.value| == 1 ==>
                q.statement == Head(TABLE_ARTISTS, Some(ARTIST_FIELDS), None) + " ORDER BY " + orderBy.value[0]
    {
      OrderedLookup(TABLE_ARTISTS, Some(ARTIST_FIELDS), None, None, orderBy);
      SelectAsWritten(TABLE_ARTISTS, Some(ARTIST_FIELDS), None, None, orderBy)
    }

    /** albumArtists(orderBy): the albumArtists table's names and revisions. */
    function AlbumArtists(orderBy: Option<seq<string>>): (q: SqlQuery)
      ensures q == SelectAsWritten(TABLE_ALBUMARTISTS, Some(ALBUMARTIST_FIELDS), None, None, orderBy)
      ensures q.args.None?
      ensures (orderBy.Some? ==> |orderBy.value| <= 1) ==>
                q == Select(TABLE_ALBUMARTISTS, Some(ALBUMARTIST_FIELDS), None, None, orderBy)
      ensures orderBy.None? ==> q.statement == Head(TABLE_ALBUMARTISTS, Some(ALBUMARTIST_FIELDS), None)
      ensures orderBy.Some? && |orderBy.value| == 1 ==>
                q.statement == Head(TABLE_ALBUMARTISTS, Some(ALBUMARTIST_FIELDS), None) + " ORDER BY " + orderBy.value[0]
    {
      OrderedLookup(TABLE_ALBUMARTISTS, Some(ALBUMARTIST_FIELDS), None, None, orderBy);
      SelectAsWritten(TABLE_ALBUMARTISTS, Some(ALBUMARTIST_FIELDS), None, None, orderBy)
    }

    /** tracksCurrentRevision: the newest trackLastModified, -1 for an empty
        table. */
    function TracksCurrentRevision(): (r: int)
      requires Valid()
      reads this
      ensures |db.tracks| == 0 ==> r == -1
      ensures |db.tracks| > 0 ==>
                && (exists i | 0 <= i < |db.tracks| :: db.tracks[i].lastModified == r)
                && (forall i | 0 <= i < |db.tracks| :: db.tracks[i].lastModified <= r)
    {
      if |db.tracks| == 0 then -1 else MaxLastModified(db.tracks)
    }

    /** artistCurrentRevision: the artist row's lastModified, -1 when there is
        no such artist. */
    function ArtistCurrentRevision(artist: string, artistDisambiguation: string): (r: int)
      reads this
      ensures !HasKey(db.artists, ArtistKey(artist, artistDisambiguation)) ==> r == -1
      ensures HasKey(db.artists, ArtistKey(artist, artistDisambiguation)) ==>
                exists i | 0 <= i < |db.artists| ::
                  db.artists[i].Key() == ArtistKey(artist, artistDisambiguation)
                  && r == db.artists[i].lastModified
    {
      match Find(db.artists, ArtistKey(artist, artistDisambiguation))
      case None => -1
      case Some(row) => row.lastModified
    }

    /** The id of the artists row for the name, as the lookups below read it. */
    function ArtistId(artist: string, artistDisambiguation: string): (r: Option<int>)
      reads this
      ensures r.Some? <==> HasKey(db.artists, ArtistKey(artist, artistDisambiguation))
      ensures r.Some? ==>
                exists i | 0 <= i < |db.artists| ::
                  db.artists[i].Key() == ArtistKey(artist, artistDisambiguation) && db.artists[i].id == r.value
    {
      match Find(db.artists, ArtistKey(artist, artistDisambiguation))
      case None => None
      case Some(row) => Some(row.id)
    }

    /** albumCurrentRevision: the album artist is looked up in the artists
        table, then the album under that artist's id; -1 when either is
        missing. */
    function AlbumCurrentRevision(album: string, albumArtist: string, albumArtistDisambiguation: string): (r: int)
      reads this
      ensures ArtistId(albumArtist, albumArtistDisambiguation).None? ==> r == -1
      ensures ArtistId(albumArtist, albumArtistDisambiguation).Some? ==>
                var key := AlbumKey(album, ArtistId(albumArtist, albumArtistDisambiguation).value);
                && (!HasKey(db.albums, key) ==> r == -1)
                && (HasKey(db.albums, key) ==>
                      exists i | 0 <= i < |db.albums| :: db.albums[i].Key() == key && r == db.albums[i].lastModified)
    {
      match ArtistId(albumArtist, albumArtistDisambiguation)
      case None => -1
      case Some(artistId) =>
        match Find(db.albums, AlbumKey(album, artistId))
        case None => -1
        case Some(row) => row.lastModified
    }

    /** artistAlbums: null when the artist is unknown, otherwise the albums
        linked to its id, by album name. */
    function ArtistAlbums(artist: string, artistDisambiguation: string): (r: Option<SqlQuery>)
      reads this
      ensures r.None? <==> !HasKey(db.artists, ArtistKey(artist, artistDisambiguation))
      ensures r.Some? ==> r.value.args == Some([IntToString(ArtistId(artist, artistDisambiguation).value)])
      ensures r.Some? ==>
                var where := WhereEquals(ARTISTALBUMS_ARTISTID, IntToString(ArtistId(artist, artistDisambiguation).value));
                r.value.statement == Head(TABLE_ARTISTALBUMS, Some(ALBUM_FIELDS), Some(ARTIST_ALBUM_JOINS))
                                     + WhereClause(TABLE_ARTISTALBUMS, Some(where)) + " ORDER BY " + ALBUMS_ALBUM
    {
      match ArtistId(artist, artistDisambiguation)
      case None => None
      case Some(artistId) =>
        var where := WhereEquals(ARTISTALBUMS_ARTISTID, IntToString(artistId));
        assert WhereValues(where.where) == [IntToString(artistId)] by {
          assert where.where[..0] == [];
        }
        OrderedLookup(TABLE_ARTISTALBUMS, Some(ALBUM_FIELDS), Some(where), Some(ARTIST_ALBUM_JOINS), Some([ALBUMS_ALBUM]));
        Some(SelectAsWritten(TABLE_ARTISTALBUMS, Some(ALBUM_FIELDS), Some(where), Some(ARTIST_ALBUM_JOINS),
                             Some([ALBUMS_ALBUM])))
    }

    /** The id of the albums row of the album filed under the artist, as
        albumTracks reads it. */
    function AlbumId(album: string, albumArtist: string, albumArtistDisambiguation: string): (r: Option<int>)
      reads this
      ensures r.Some? <==> ArtistId(albumArtist, albumArtistDisambiguation).Some? &&
                           HasKey(db.albums, AlbumKey(album, ArtistId(albumArtist, albumArtistDisambiguation).value))
      ensures r.Some? ==>
                exists i | 0 <= i < |db.albums| ::
                  db.albums[i].Key() == AlbumKey(album, ArtistId(albumArtist, albumArtistDisambiguation).value)
                  && db.albums[i].id == r.value
    {
      match ArtistId(albumArtist, albumArtistDisambiguation)
      case None => None
      case Some(artistId) =>
        match Find(db.albums, AlbumKey(album, artistId))
        case None => None
        case Some(row) => Some(row.id)
    }

    /** albumTracks: null when the album artist or the album is unknown,
        otherwise the album's tracks by position. */
    function AlbumTracks(album: string, albumArtist: string, albumArtistDisambiguation: string): (r: Option<SqlQuery>)
      reads this
      ensures r.None? <==> AlbumId(album, albumArtist, albumArtistDisambiguation).None?
      ensures r.Some? ==>
                r.value.args == Some([IntToString(AlbumId(album, albumArtist, albumArtistDisambiguation).value)])
      ensures r.Some? ==>
                var where := WhereEquals(TRACKS_ALBUMID, IntToString(AlbumId(album, albumArtist, albumArtistDisambiguation).value));
                r.value.statement == Head(TABLE_TRACKS, Some(TRACK_FIELDS), Some(TRACK_JOINS))
                                     + WhereClause(TABLE_TRACKS, Some(where)) + " ORDER BY " + TRACKS_ALBUMPOS
    {
      match AlbumId(album, albumArtist, albumArtistDisambiguation)
      case None => None
      case Some(albumId) =>
        var where := WhereEquals(TRACKS_ALBUMID, IntToString(albumId));
        assert WhereValues(where.where) == [IntToString(albumId)] by {
          assert where.where[..0] == [];
        }
        Some(Tracks(Some(where), Some([TRACKS_ALBUMPOS])))
    }
  }

  // ---------------------------------------------------------------------------
  // Properties of the store

  /** The lookups read what the tables hold: an artist row makes artistAlbums
      answer, and an album row filed under an artist's id makes albumTracks
      answer for that artist's name. */
  lemma {:induction false} LookupsFindRows(store: CollectionDb, db: Tables, t: Track, albumArtist: Key)
    requires store.db == db && albumArtist.ArtistKey? && FiledUnder(db, t, albumArtist)
    ensures store.ArtistId(t.artist, t.artistDisambiguation).Some?
    ensures store.ArtistAlbums(t.artist, t.artistDisambiguation).Some?
    ensures store.AlbumId(t.album, albumArtist.name, albumArtist.disambiguation).Some?
    ensures store.AlbumTracks(t.album, albumArtist.name, albumArtist.disambiguation).Some?
  {
    assert albumArtist == ArtistKey(albumArtist.name, albumArtist.disambiguation);
  }

  /** After an ingest the lookups find what the batch brought: the artist of
      every track has an id (so artistAlbums answers for it), and every album
      has an id under the artist it is filed under (so albumTracks answers),
      COMPILATION_ARTIST for a compilation and the track's own artist
      otherwise. */
  lemma {:induction false} IngestedTracksAreFound(store: CollectionDb, db0: Tables, batch: seq<RawTrack>, i: int)
    requires ValidTables(db0) && store.db == Ingest(db0, batch) && 0 <= i < |batch|
    ensures var t := Normalize(batch[i]);
            var filed := FiledKey(NormalizeAll(batch), t);
            && store.ArtistId(t.artist, t.artistDisambiguation).Some?
            && store.AlbumId(t.album, filed.name, filed.disambiguation).Some?
  {
    IngestAttribution(db0, batch, i);
    LookupsFindRows(store, Ingest(db0, batch), Normalize(batch[i]), FiledKey(NormalizeAll(batch), Normalize(batch[i])));
  }
}
