# tomahawk-android collection store, info-system queue and image paths in Dafny

This project models four parts of the Tomahawk Android player's library layer
and proves properties of each.

- **CollectionDb**: the per-collection SQLite store with five tables
  (artists, albumArtists, albums, artistAlbums, tracks).
  - Each table is a sequence of rows. Its insert is SQLite's
    `UNIQUE … ON CONFLICT IGNORE` insert. Its AUTOINCREMENT ids are positive
    and increase in insertion order, with gaps allowed; a new row gets one
    more than the largest id in the table.
  - `addTracks` is a class method. Its four loops are `for` loops over the
    batch, and it is proved equal to a pure specification `Ingestion.Ingest`
    of the whole transaction.
  - `sqlSelect` and `concatKeys` are accumulator loops. `sqlSelect` is proved
    to build exactly the statement `SelectStatement.SelectAsWritten` defines,
    including where its ORDER BY loop puts the separators. With at most one
    ORDER BY term, as every caller passes, that is the intended statement
    `SelectStatement.Select` (see Findings).
  - The running-maximum and id maps of `addTracks` are keyed by name and
    disambiguation pairs. The source keys them by joined strings; the
    consequences are under Findings. The album map's key
    `album + "♠" + albumArtistId` cannot collide that way, because the id's
    decimal digits hold no "♠".
  - The revision and lookup queries are functions over the stored tables.
- **DbCollection**:
  - the waiting-query gate in front of the fuzzy index (`resolve`,
    `initFuzzyIndex`);
  - the sort-mode mapping of the browse queries;
  - the revision-keyed playlist cache of `getQueries` and `getAlbumTracks`.

  The callbacks are modelled as plain method calls. The fuzzy index is a
  function from query to candidate ids, and `PipeLine.reportResults` is a log
  of reports.
- **InfoSystem**: the logged-op send queue.
  - `sendLoggedOps` deduplicates the op log by logged-op id. It queues
    playlist-entry ops and playlist deletes, records playlist creations as
    outstanding, and sends everything else.
  - `trySendingQueuedOps` drains the queue front-first once no creation is
    outstanding. An op whose local playlist has no hatchet id is discarded
    through `discardLoggedOp`. That acknowledgement retries the queue, so the
    rest of the queue drains inside the nested call. `Deliveries`,
    `DiscardedIds` and `SentAfter` describe what the whole drain sends,
    unregisters and records.
  - `onLoggedOpsSent` acknowledges requests.
  - The now-playing / playback-log pair posts entries with the
    "Unknown Artist" / "Unknown Title" defaults.
  - Each step of the queue is specified by a pure function in module `InfoOps`.
    The `Info.InfoSystem` class methods are proved against those functions.
- **ImageUtils**: `preparePathForPicasso` and `buildImagePath`, with Java's
  32-bit `int` arithmetic written out (wrap-around and division that truncates
  toward zero). Wi-Fi availability is a parameter.

Modules:
- `Common`: Option, decimal rendering and string helpers.
- `Schema`: rows, keys, insert-or-ignore, lookups.
- `Ingestion`: the addTracks specification.
- `SelectStatement`: sqlSelect and concatKeys.
- `CollectionDatabase`: the `CollectionDb` class.
- `Media`: the track query value.
- `Collections`: the `DbCollection` class.
- `InfoOps`: the queue's values and specification functions.
- `Info`: the `InfoSystem` class.
- `Images`: ImageUtils.

Outside effects are modelled as fields or parameters:
- **Clocks and timestamps** are parameters.
- **Session-unique request ids** are the decimal renderings of a counter.
- **DatabaseHelper's op log and playlist hatchet ids** are fields of
  `InfoSystem`.
- **Plugin calls and EventBus posts** are appended to logs (`pluginSends`,
  `pluginResolves`, `events`).

## Model

| member | source | states |
|---|---|---|
| Schema.NextId | src/org/tomahawk/libtomahawk/database/CollectionDb.java:96-153 | The AUTOINCREMENT id of the next row is positive and above every id in a well-formed table. |
| Schema.Insert | src/org/tomahawk/libtomahawk/database/CollectionDb.java:96-153 | After the insert the key is present. A row whose natural key is already there leaves the table unchanged. Otherwise the row is appended with the next id, and existing rows are kept. |
| Schema.InsertKeepsWellFormed | src/org/tomahawk/libtomahawk/database/CollectionDb.java:96-153 | An insert keeps the ids positive and increasing and the natural keys unique. |
| Schema.Find | src/org/tomahawk/libtomahawk/database/CollectionDb.java:302-313 | A row of the table with the key: present iff the table has the key. |
| Schema.FindFirst | src/org/tomahawk/libtomahawk/database/CollectionDb.java:302-313 | The row found is the first one with the key: no earlier row has it. |
| Schema.InsertFind | src/org/tomahawk/libtomahawk/database/CollectionDb.java:96-153 | The row stored for a key after an insert is the earlier row if there was one. Otherwise it is the inserted row with its new id. The first insert wins. |
| Schema.IdMapKeys | src/org/tomahawk/libtomahawk/database/CollectionDb.java:300-318 | The key→id map read back from a table holds exactly the table's keys. |
| Schema.IdMapFinds | src/org/tomahawk/libtomahawk/database/CollectionDb.java:300-318 | In a well-formed table the map sends each key to the id of its row. |
| Ingestion.Normalize | src/org/tomahawk/libtomahawk/database/CollectionDb.java:238-255 | Each of the six key strings becomes "" when null and is kept otherwise. The other columns are copied. |
| Ingestion.NormalizeAll | src/org/tomahawk/libtomahawk/database/CollectionDb.java:237-255 | The batch is normalised track by track, and its length is kept. |
| Ingestion.ArtistSetsCap | src/org/tomahawk/libtomahawk/database/CollectionDb.java:256-263 | An album has a set iff the batch has a track on it. The set is a subset of the album's artists, and its size is min(number of distinct artists, 2). |
| Ingestion.ArtistSetsDomain | src/org/tomahawk/libtomahawk/database/CollectionDb.java:256-263 | An album has an artist set iff some track of the batch is on it. |
| Ingestion.ArtistSetsSubset | src/org/tomahawk/libtomahawk/database/CollectionDb.java:256-263 | An album's set holds only artists of the batch's tracks on that album. |
| Ingestion.ArtistSetsSize | src/org/tomahawk/libtomahawk/database/CollectionDb.java:256-263 | The set stops growing at two: its size is min(number of distinct artists on the album, 2). |
| Ingestion.CompilationIffSeveralArtists | src/org/tomahawk/libtomahawk/database/CollectionDb.java:256-269 | An album counts as a compilation iff the batch has more than one distinct artist on it. Its set has size 1 iff it is not a compilation. |
| Ingestion.Bump | src/org/tomahawk/libtomahawk/database/CollectionDb.java:274-278 | After a running-maximum update, the key holds the max of its old value and the track's value, or the track's value when it was absent. Other keys are untouched. |
| Ingestion.ArtistRunningMax | src/org/tomahawk/libtomahawk/database/CollectionDb.java:268-298 | After the artist loop, a key is in the lastModified map iff some track bumps it. Its value is the maximum lastModified over those tracks. |
| Ingestion.ArtistPassBumps | src/org/tomahawk/libtomahawk/database/CollectionDb.java:268-298 | The artist loop's lastModified map is the one the bumps of the tracks alone build, in batch order. |
| Ingestion.ArtistBumpsDomain | src/org/tomahawk/libtomahawk/database/CollectionDb.java:268-298 | A key is in the bumped map iff some track bumps it: its own artist, or the compilation artist for a compilation album. |
| Ingestion.ArtistBumpsBound | src/org/tomahawk/libtomahawk/database/CollectionDb.java:268-298 | Every track that bumps a key leaves it in the map with a value at least its lastModified. |
| Ingestion.ArtistBumpsAttained | src/org/tomahawk/libtomahawk/database/CollectionDb.java:268-298 | Each value in the map is the lastModified of some track that bumps that key. |
| Ingestion.ArtistKeyCollisionAsWritten | src/org/tomahawk/libtomahawk/database/CollectionDb.java:283-296 | As written, artists ("a♠b", "") with lastModified 10 and ("a", "b♠") with 5 share the map key "a♠b♠", so the second one's inserts carry 10. Over pairs, its own maximum is 5. |
| Ingestion.AlbumArtistFirstInsertValue | src/org/tomahawk/libtomahawk/database/CollectionDb.java:286-296 | A new albumArtists row carries the value the first track naming its album artist inserts: the running maximum of that track's own artist key just after its iteration. |
| Ingestion.AlbumArtistFirstInsert | src/org/tomahawk/libtomahawk/database/CollectionDb.java:274-296 | That value is the largest lastModified among the tracks up to that one that bumped the track's OWN artist key, not among the tracks naming the album artist. |
| Ingestion.ArtistFirstInsertWins | src/org/tomahawk/libtomahawk/database/CollectionDb.java:274-292 | A new artists row keeps the lastModified of the first track that inserts it, not the running maximum. |
| Ingestion.ArtistPassKeys | src/org/tomahawk/libtomahawk/database/CollectionDb.java:268-298 | After the artist loop, every track's own artist and album artist are present. For a compilation album the (COMPILATION_ARTIST, "") artist is present too. |
| Ingestion.ArtistPassOwnKeys | src/org/tomahawk/libtomahawk/database/CollectionDb.java:282-292 | After the artist loop every track's own artist is in the artists table. |
| Ingestion.ArtistPassAlbumArtistKeys | src/org/tomahawk/libtomahawk/database/CollectionDb.java:293-297 | After the artist loop every track's album artist is in the albumArtists table. |
| Ingestion.ArtistPassCompilationKey | src/org/tomahawk/libtomahawk/database/CollectionDb.java:269-281 | A track on a compilation album puts the compilation artist into the artists table. |
| Ingestion.ArtistStepWellFormed | src/org/tomahawk/libtomahawk/database/CollectionDb.java:268-298 | One track of the artist loop keeps the artists and albumArtists tables valid. |
| Ingestion.ArtistPassWellFormed | src/org/tomahawk/libtomahawk/database/CollectionDb.java:268-298 | The artist loop keeps the artists and albumArtists tables valid. |
| Ingestion.AlbumPassKeys | src/org/tomahawk/libtomahawk/database/CollectionDb.java:321-342 | After the album loop, each track's album key (album, albumArtistId) is present, and earlier keys are kept. |
| Ingestion.AlbumBumpsDomain | src/org/tomahawk/libtomahawk/database/CollectionDb.java:320-342 | After the album loop, an album key is in the lastModified map iff some track is filed under it. |
| Ingestion.AlbumBumpsBound | src/org/tomahawk/libtomahawk/database/CollectionDb.java:320-342 | Every track filed under an album key leaves it in the map with a value at least its lastModified. |
| Ingestion.AlbumBumpsAttained | src/org/tomahawk/libtomahawk/database/CollectionDb.java:320-342 | Each value in the album map is the lastModified of some track filed under that key. |
| Ingestion.AlbumRunningMax | src/org/tomahawk/libtomahawk/database/CollectionDb.java:334-340 | The album loop's value for a key (album, albumArtistId) is the maximum lastModified over the tracks filed under it, present iff there is one. |
| Ingestion.AlbumFirstInsertWins | src/org/tomahawk/libtomahawk/database/CollectionDb.java:320-342 | A new albums row keeps the lastModified of the first track filed under its key, not the running maximum the later inserts carry. |
| Ingestion.TrackPassKeys | src/org/tomahawk/libtomahawk/database/CollectionDb.java:364-389 | After the last loop, each track's artistAlbums link and track row are present. |
| Ingestion.TrackStepWellFormed | src/org/tomahawk/libtomahawk/database/CollectionDb.java:364-389 | One track of the last loop, whose artist and album ids resolve, keeps the artistAlbums and tracks tables valid. |
| Ingestion.ArtistIdsResolve | src/org/tomahawk/libtomahawk/database/CollectionDb.java:326-330 | Every artist-map lookup the later loops make succeeds, including the compilation artist's. |
| Ingestion.AlbumIdsResolve | src/org/tomahawk/libtomahawk/database/CollectionDb.java:375 | Every album-map lookup of the last loop succeeds. |
| Ingestion.RunOf | src/org/tomahawk/libtomahawk/database/CollectionDb.java:231-389 | The intermediate maps of a transaction make every lookup of its loops succeed. |
| Ingestion.Ingest | src/org/tomahawk/libtomahawk/database/CollectionDb.java:231-392 | The tables after one addTracks transaction: the four passes in order, each later pass looking ids up in the maps the earlier ones leave. Its properties are the lemmas below and `AddTracks`. |
| Ingestion.IngestKeepsValid | src/org/tomahawk/libtomahawk/database/CollectionDb.java:231-392 | addTracks keeps every table's constraints: positive increasing ids, unique keys, one row layout. |
| Ingestion.IngestAttribution | src/org/tomahawk/libtomahawk/database/CollectionDb.java:325-331 | After the ingest, each track of the batch is filed correctly: its artistId is its own artist's row, and its album row's albumArtistId comes from the artists table (COMPILATION_ARTIST for a compilation, else its own artist). Its track and link rows are present. |
| Ingestion.IngestIdempotent | src/org/tomahawk/libtomahawk/database/CollectionDb.java:231-389 | Re-running addTracks on the same batch adds no row to any table. |
| CollectionDatabase.WithoutImagePaths | src/org/tomahawk/libtomahawk/database/CollectionDb.java:209-212 | The version-2 upgrade keeps every row's key and id, and leaves imagePath null. |
| CollectionDatabase.MaxLastModified | src/org/tomahawk/libtomahawk/database/CollectionDb.java:442-445 | The result is some row's lastModified and no row's is larger. |
| CollectionDatabase.ReadIds | src/org/tomahawk/libtomahawk/database/CollectionDb.java:302-313 | The cursor loop builds the key→id map of the table. |
| CollectionDatabase.ArtistIdsAsWritten | src/org/tomahawk/libtomahawk/database/CollectionDb.java:300-318 | cachedArtists as written, keyed by concatKeys(name, disambiguation): every row's string key is present. A key no later row shares maps to that row's id, so a later row overwrites an earlier one with the same string. |
| CollectionDatabase.ArtistIdCollisionAsWritten | src/org/tomahawk/libtomahawk/database/CollectionDb.java:300-330 | As written, with artists ("a♣b", "") id 1 and ("a", "b♣") id 2, a track of the first is linked to id 2; the pair-keyed map gives 1. |
| CollectionDatabase.BumpLastModified | src/org/tomahawk/libtomahawk/database/CollectionDb.java:286-290 | The running-maximum step returns the new map and the value it now holds for the key. |
| CollectionDatabase.CollectionDb.constructor | src/org/tomahawk/libtomahawk/database/CollectionDb.java:183-225 | Opening sets the file name and storage key. A new file is empty, a version-3 file is kept (whatever gaps its ids have), and an older file is upgraded. |
| CollectionDatabase.CollectionDb.Open | src/org/tomahawk/libtomahawk/database/CollectionDb.java:183-190 | No store is opened iff the file is of a later version than 3, where SQLiteOpenHelper refuses to downgrade. Otherwise the store is opened as the constructor states. |
| CollectionDatabase.CollectionDb.OnUpgrade | src/org/tomahawk/libtomahawk/database/CollectionDb.java:206-225 | Before version 3 every table is recreated empty. From version 3 on nothing changes. |
| CollectionDatabase.CollectionDb.Wipe | src/org/tomahawk/libtomahawk/database/CollectionDb.java:401-412 | Every table is emptied, and mInitialized is unchanged. |
| CollectionDatabase.CollectionDb.AddTracks | src/org/tomahawk/libtomahawk/database/CollectionDb.java:231-393 | The four loops leave exactly `Ingest(old tables, batch)`, the tables stay valid, and the store is initialised. |
| CollectionDatabase.CollectionDb.NormalizeBatch | src/org/tomahawk/libtomahawk/database/CollectionDb.java:236-264 | The first loop yields the normalised batch and the capped per-album artist sets, and every album has a set. |
| CollectionDatabase.CollectionDb.InsertArtists | src/org/tomahawk/libtomahawk/database/CollectionDb.java:266-298 | The second loop leaves the artists and albumArtists tables of the artist pass. |
| CollectionDatabase.CollectionDb.InsertAlbums | src/org/tomahawk/libtomahawk/database/CollectionDb.java:320-342 | The third loop leaves the albums table of the album pass and changes nothing else. |
| CollectionDatabase.CollectionDb.InsertTracks | src/org/tomahawk/libtomahawk/database/CollectionDb.java:364-389 | The fourth loop leaves the artistAlbums and tracks tables of the track pass. |
| CollectionDatabase.CollectionDb.Tracks | src/org/tomahawk/libtomahawk/database/CollectionDb.java:417-435 | The statement sqlSelect builds as written over the tracks table, its fields and joins. The bind arguments are the filter's values, and there are none without a filter. With no ORDER BY term the statement is the head and the WHERE clause; with one term it then ends in ` ORDER BY ` and that term, which is the intended statement. |
| CollectionDatabase.CollectionDb.Albums | src/org/tomahawk/libtomahawk/database/CollectionDb.java:458-468 | The statement sqlSelect builds as written over the albums table with its artist join. It binds no argument. With at most one ORDER BY term it is the head followed by ` ORDER BY ` and the term, which is the intended statement. |
| CollectionDatabase.CollectionDb.Artists | src/org/tomahawk/libtomahawk/database/CollectionDb.java:470-474 | The statement sqlSelect builds as written over the artists table. It binds no argument. With at most one ORDER BY term it is the head followed by ` ORDER BY ` and the term. |
| CollectionDatabase.CollectionDb.AlbumArtists | src/org/tomahawk/libtomahawk/database/CollectionDb.java:476-480 | The statement sqlSelect builds as written over the albumArtists table. It binds no argument. With at most one ORDER BY term it is the head followed by ` ORDER BY ` and the term. |
| CollectionDatabase.CollectionDb.TracksCurrentRevision | src/org/tomahawk/libtomahawk/database/CollectionDb.java:437-456 | -1 for an empty tracks table. Otherwise the largest trackLastModified: some track's value, and none larger. |
| CollectionDatabase.CollectionDb.ArtistCurrentRevision | src/org/tomahawk/libtomahawk/database/CollectionDb.java:482-504 | -1 when the artist is absent, otherwise that artist row's lastModified. |
| CollectionDatabase.CollectionDb.ArtistId | src/org/tomahawk/libtomahawk/database/CollectionDb.java:512-526 | The id is present iff the artist is. It is the id of a row with that key. |
| CollectionDatabase.CollectionDb.AlbumCurrentRevision | src/org/tomahawk/libtomahawk/database/CollectionDb.java:547-590 | -1 when the album artist or the album is absent. Otherwise the lastModified of the album row keyed by the artists-table id. |
| CollectionDatabase.CollectionDb.ArtistAlbums | src/org/tomahawk/libtomahawk/database/CollectionDb.java:506-545 | null iff the artist is absent. Otherwise the query binds the artist's id in decimal, and its statement is the artistAlbums head with the album joins, the filter `artistAlbums.artistId = ?` and ` ORDER BY ` on the album name. |
| CollectionDatabase.CollectionDb.AlbumId | src/org/tomahawk/libtomahawk/database/CollectionDb.java:592-633 | The id is present iff the artist and the album (keyed by that artist's id) are both present. It is the id of an album row with that key. |
| CollectionDatabase.CollectionDb.AlbumTracks | src/org/tomahawk/libtomahawk/database/CollectionDb.java:592-639 | null iff the album id is missing. Otherwise the tracks statement with the filter `tracks.albumId = ?`, bound to the album id, and ending in ` ORDER BY albumPos`. |
| CollectionDatabase.LookupsFindRows | src/org/tomahawk/libtomahawk/database/CollectionDb.java:506-639 | For a track filed in the tables, all four lookups find it. |
| CollectionDatabase.IngestedTracksAreFound | src/org/tomahawk/libtomahawk/database/CollectionDb.java:231-639 | After addTracks, every track's artist and its album (under the artist it is filed under) are found by the lookups. |
| SelectStatement.ConditionsMatchValues | src/org/tomahawk/libtomahawk/database/CollectionDb.java:648-657 | There is one comparison per bound value. |
| SelectStatement.SingleKeyWhere | src/org/tomahawk/libtomahawk/database/CollectionDb.java:645-658 | A one-key filter gives ` WHERE ` and one `table.key = ?` per value, separated by the connective. Its arguments are the values, or null when there are none. |
| SelectStatement.PlaceholdersMatchArgs | src/org/tomahawk/libtomahawk/database/CollectionDb.java:641-707 | When no name holds '?', the intended statement and the statement as written each have exactly as many '?' as bound arguments. Without a filter both argument arrays are null. |
| SelectStatement.SingleOrderTermAgrees | src/org/tomahawk/libtomahawk/database/CollectionDb.java:676-687 | With at most one ORDER BY term, as every caller passes, the statement as written equals the intended one. |
| SelectStatement.OrderedLookup | src/org/tomahawk/libtomahawk/database/CollectionDb.java:676-700 | With at most one ORDER BY term the statement as written is the intended one: the head, the WHERE clause and, for one term, ` ORDER BY ` and that term. |
| SelectStatement.TwoOrderTermsAsWritten | src/org/tomahawk/libtomahawk/database/CollectionDb.java:680-686 | As written, two ORDER BY terms give `SELECT * FROM t ,  ORDER BY ab` (two spaces before ORDER BY). |
| SelectStatement.TwoOrderTermsIntended | src/org/tomahawk/libtomahawk/database/CollectionDb.java:676-687 | The intended statement is `SELECT * FROM t ORDER BY a , b`. |
| SelectStatement.JoinWith | src/org/tomahawk/libtomahawk/database/CollectionDb.java:689-700 | The notFirst loop puts the separator between consecutive parts and nowhere else. |
| SelectStatement.AppendComparisons | src/org/tomahawk/libtomahawk/database/CollectionDb.java:650-657 | The inner WHERE loop appends one comparison per value and records the values in order. |
| SelectStatement.BuildWhere | src/org/tomahawk/libtomahawk/database/CollectionDb.java:643-659 | The WHERE loop yields the specified clause and the values in emission order. |
| SelectStatement.BuildJoins | src/org/tomahawk/libtomahawk/database/CollectionDb.java:661-674 | The JOIN loop yields one ` INNER JOIN t ON …` part per join, with its conditions joined by AND. |
| SelectStatement.Select | src/org/tomahawk/libtomahawk/database/CollectionDb.java:641-707 | The intended statement: fields, FROM, the joins, the WHERE clause, then ` ORDER BY ` and the terms joined by " , ". The arguments are the where values, or null when there are none. Its properties are `PlaceholdersMatchArgs` and `SingleKeyWhere`. |
| SelectStatement.SelectAsWritten | src/org/tomahawk/libtomahawk/database/CollectionDb.java:641-707 | The statement as written: the ORDER BY loop's " , " separators sit after the joins, and the terms follow ` ORDER BY ` with nothing between them. |
| SelectStatement.BuildOrder | src/org/tomahawk/libtomahawk/database/CollectionDb.java:677-687 | The ORDER BY loop appends " , " to the join string before every term but the first, and appends every term to the order string after " ORDER BY ". |
| SelectStatement.SqlSelect | src/org/tomahawk/libtomahawk/database/CollectionDb.java:641-707 | sqlSelect yields exactly the statement as written (`SelectAsWritten`) and the argument array. With at most one ORDER BY term that is the intended `Select`. |
| SelectStatement.ConcatKeys | src/org/tomahawk/libtomahawk/database/CollectionDb.java:710-719 | The keys joined by "♣", with no separator before the first key. |
| SelectStatement.PairKeyInjective | src/org/tomahawk/libtomahawk/database/CollectionDb.java:710-719 | Two-part keys whose first parts hold no "♣" can be split back into their parts. |
| SelectStatement.PairKeyCollision | src/org/tomahawk/libtomahawk/database/CollectionDb.java:309-327 | ("a♣b", "") and ("a", "b♣") get the same key. |
| Collections.TracksOrder | src/org/tomahawk/libtomahawk/collection/DbCollection.java:168-183 | Only an unsupported mode gives no ordering. ALPHA orders by track, ARTIST_ALPHA by artist, LAST_MODIFIED by trackLastModified, each a column tracks() selects. |
| Collections.ArtistsOrder | src/org/tomahawk/libtomahawk/collection/DbCollection.java:219-231 | ALPHA orders by artist and LAST_MODIFIED by artistLastModified; every other mode gives none. |
| Collections.AlbumsOrder | src/org/tomahawk/libtomahawk/collection/DbCollection.java:288-302 | Only an unsupported mode gives no ordering. ALPHA orders by album, ARTIST_ALPHA by artist, LAST_MODIFIED by albumLastModified, each a column albums() selects. |
| Collections.TracksCacheKeyInjective | src/org/tomahawk/libtomahawk/collection/DbCollection.java:185-187 | Distinct revisions give distinct `collectionId_tracks_revision` keys. |
| Collections.AlbumCacheKeyInjective | src/org/tomahawk/libtomahawk/collection/DbCollection.java:350-353 | Distinct revisions give distinct album-tracks keys. |
| Collections.IdFilterClause | src/org/tomahawk/libtomahawk/collection/DbCollection.java:136-140 | The id filter has one `tracks._id = ?` term per id, joined by OR, and binds the ids in order. |
| Collections.IdStrings | src/org/tomahawk/libtomahawk/collection/DbCollection.java:131-135 | One decimal id per index result, in index order. |
| Collections.ResultIds | src/org/tomahawk/libtomahawk/collection/DbCollection.java:131-135 | The id loop yields the ids in index order. |
| Collections.DbCollection.constructor | src/org/tomahawk/libtomahawk/collection/DbCollection.java:53-64 | A new collection has no index, no waiting query, no report and no playlist. |
| Collections.DbCollection.ResolutionArgs | src/org/tomahawk/libtomahawk/collection/DbCollection.java:136-140 | The resolution cursor binds the candidate ids in rank order. |
| Collections.DbCollection.DispatchedAllReports | src/org/tomahawk/libtomahawk/collection/DbCollection.java:128-149 | Every report is for a resolved query with a non-empty candidate list, and carries that query's candidates. |
| Collections.DbCollection.DispatchedAllComplete | src/org/tomahawk/libtomahawk/collection/DbCollection.java:128-149 | Every resolved query with candidates is reported. |
| Collections.DbCollection.DispatchedAllSnoc | src/org/tomahawk/libtomahawk/collection/DbCollection.java:128-149 | Resolving one more query appends exactly its own reports. |
| Collections.DbCollection.Resolve | src/org/tomahawk/libtomahawk/collection/DbCollection.java:110-157 | Always returns true. Before the index exists the query is added to the waiting set and nothing is reported. Afterwards the waiting set is emptied: its queries are resolved first, then this one. |
| Collections.DbCollection.DrainWaiting | src/org/tomahawk/libtomahawk/collection/DbCollection.java:120-123 | The drain empties the waiting set. Taking one query at a time from the set as it then stands, it resolves each waiting query once, as a multiset, and reports them in that order. |
| Collections.DbCollection.Dispatch | src/org/tomahawk/libtomahawk/collection/DbCollection.java:124-152 | Resolving with the index reports the query only when it has candidates, with a cursor over the id filter. |
| Collections.DbCollection.InitFuzzyIndex | src/org/tomahawk/libtomahawk/collection/DbCollection.java:66-86 | The index is installed, and every waiting query is removed and resolved, so the waiting set ends empty. |
| Collections.DbCollection.FillOnce | src/org/tomahawk/libtomahawk/collection/DbCollection.java:186-201 | A playlist with a revision is returned as it is. An empty one with a cursor is filled and stamped with the revision. A missing cursor resolves to null. |
| Collections.DbCollection.GetQueries | src/org/tomahawk/libtomahawk/collection/DbCollection.java:160-207 | An unsupported mode gives no answer. Otherwise the playlist under `collectionId_tracks_revision` is filled once with the ordered tracks cursor, then kept. |
| Collections.DbCollection.GetAlbumTracks | src/org/tomahawk/libtomahawk/collection/DbCollection.java:341-374 | The album's playlist under `collectionId_cacheKey_revision` is filled once. An unknown album resolves to null. |
| Collections.DbCollection.GetArtists | src/org/tomahawk/libtomahawk/collection/DbCollection.java:210-242 | A cursor exactly for ALPHA and LAST_MODIFIED, with no bind arguments. It is the artists statement ordered by `artist` for ALPHA and by `artistLastModified` for LAST_MODIFIED. |
| Collections.DbCollection.GetAlbumArtists | src/org/tomahawk/libtomahawk/collection/DbCollection.java:245-277 | As getArtists, over the albumArtists table, ordered by the same two column names. |
| Collections.DbCollection.GetAlbums | src/org/tomahawk/libtomahawk/collection/DbCollection.java:280-313 | A cursor for every supported mode, with no bind arguments. It is the albums statement ending in ` ORDER BY ` and the mode's column: `album` for ALPHA, `artist` for ARTIST_ALPHA, `albumLastModified` for LAST_MODIFIED. |
| InfoOps.LoggedIdsOf | src/org/tomahawk/libtomahawk/infosystem/InfoSystem.java:627-629 | An id is among the ops' logged-op ids iff some op has it. |
| InfoOps.RemoveOpsDistinct | src/org/tomahawk/libtomahawk/infosystem/InfoSystem.java:681 | Removing acknowledged ops from the log keeps its ids distinct. |
| InfoOps.RemoveOpsKeepsLog | src/org/tomahawk/libtomahawk/infosystem/InfoSystem.java:681 | Removing acknowledged ops keeps the log's ids distinct and below the next id and its rows without results, and leaves none of the removed ids. |
| InfoOps.RegisterAllKeys | src/org/tomahawk/libtomahawk/infosystem/InfoSystem.java:627-643 | After registration mLoggedOpsMap holds the old ids plus every id of the log. |
| InfoOps.RegisterAllRequestIds | src/org/tomahawk/libtomahawk/infosystem/InfoSystem.java:627-643 | The returned request ids are those of the ops not yet registered, in log order. |
| InfoOps.RegisterAllQueued | src/org/tomahawk/libtomahawk/infosystem/InfoSystem.java:630-634 | Of the new ops, exactly the playlist-entry ops and playlist deletes are queued, in order. |
| InfoOps.RegisterAllSends | src/org/tomahawk/libtomahawk/infosystem/InfoSystem.java:635-640 | Of the new ops, exactly the others are sent, in log order. |
| InfoOps.RegisterAllCreations | src/org/tomahawk/libtomahawk/infosystem/InfoSystem.java:636-638 | Exactly the new playlist creations become outstanding in mPlaylistsLoggedOpsMap. |
| InfoOps.RegisterAllCovers | src/org/tomahawk/libtomahawk/infosystem/InfoSystem.java:627-643 | Every op of the log is registered afterwards. |
| InfoOps.RegisterAllKnown | src/org/tomahawk/libtomahawk/infosystem/InfoSystem.java:628 | A log whose ids are all registered changes nothing. |
| InfoOps.RegisterAllIdempotent | src/org/tomahawk/libtomahawk/infosystem/InfoSystem.java:627-643 | A second pass over the same log changes nothing. |
| InfoOps.NewLastOpIsSent | src/org/tomahawk/libtomahawk/infosystem/InfoSystem.java:635-640 | A newly logged op that is not queued is among those sent. |
| InfoOps.QueuedHaveNoResults | src/org/tomahawk/libtomahawk/infosystem/InfoSystem.java:634 | Queued ops come from the log and carry no server results. |
| InfoOps.AckAllMatched | src/org/tomahawk/libtomahawk/infosystem/InfoSystem.java:652-675 | Acknowledging collects exactly the sent ops the done ids name, in order; unknown ids are skipped. It unregisters exactly their logged-op ids and collects their types. Ops without results leave the hatchet ids unchanged. |
| InfoOps.AckAllOps | src/org/tomahawk/libtomahawk/infosystem/InfoSystem.java:652-675 | The collected ops are the sent ops the done ids name, in order, after those collected before. |
| InfoOps.AckAllUnregisters | src/org/tomahawk/libtomahawk/infosystem/InfoSystem.java:652-675 | mLoggedOpsMap loses exactly the logged-op ids of the matched ops. |
| InfoOps.AckAllTypes | src/org/tomahawk/libtomahawk/infosystem/InfoSystem.java:652-675 | The collected request types are those of the matched ops. |
| InfoOps.AckAllKeepsHatchetIds | src/org/tomahawk/libtomahawk/infosystem/InfoSystem.java:661-670 | Matched ops without a created playlist leave the stored hatchet ids unchanged. |
| InfoOps.AckOne | src/org/tomahawk/libtomahawk/infosystem/InfoSystem.java:652-675 | Acknowledging one sent op without results collects it and unregisters its id. |
| InfoOps.Deliver | src/org/tomahawk/libtomahawk/infosystem/InfoSystem.java:700-712 | The sent op keeps its ids and types. A playlist-entry post gets the hatchet id as its playlist; any other op gets it as params.playlist_id. |
| InfoOps.DeliveriesAllKnown | src/org/tomahawk/libtomahawk/infosystem/InfoSystem.java:695-720 | When every queued op's playlist has a hatchet id, all of them are sent, in queue order. |
| InfoOps.DeliveriesAppend | src/org/tomahawk/libtomahawk/infosystem/InfoSystem.java:695-720 | Draining a queue splits over concatenation. |
| InfoOps.DeliveriesStep | src/org/tomahawk/libtomahawk/infosystem/InfoSystem.java:696-719 | A queued op is delivered when its playlist has a hatchet id, and skipped otherwise. |
| InfoOps.DiscardedIdsOf | src/org/tomahawk/libtomahawk/infosystem/InfoSystem.java:715-719 | An id is discarded by the drain iff some queued op with that id has no hatchet id. |
| InfoOps.DiscardsEveryUnknown | src/org/tomahawk/libtomahawk/infosystem/InfoSystem.java:715-719 | Every queued op without a hatchet id is among the discarded ids. |
| InfoOps.DiscardedIdsAppend | src/org/tomahawk/libtomahawk/infosystem/InfoSystem.java:695-720 | The ids discarded by draining two queues in turn are the union of each one's. |
| InfoOps.SentAfterAppend | src/org/tomahawk/libtomahawk/infosystem/InfoSystem.java:695-720 | Recording the sends of two queues in turn is recording those of their concatenation. |
| InfoOps.SentAfterFrame | src/org/tomahawk/libtomahawk/infosystem/InfoSystem.java:695-728 | After the drain every queued op's request id is recorded; every other request id keeps its entry. |
| InfoOps.TakenCount | src/org/tomahawk/libtomahawk/infosystem/InfoSystem.java:695-720 | One turn takes at least one op and at most the queue. It takes less than the whole queue only when the front op has a hatchet id. |
| InfoOps.DeliverFront | src/org/tomahawk/libtomahawk/infosystem/InfoSystem.java:700-714 | Draining one op with a hatchet id sends it with the id filled in, records it under its request id, and discards nothing. |
| InfoOps.DiscardFront | src/org/tomahawk/libtomahawk/infosystem/InfoSystem.java:715-728 | Draining a queue whose front op has no hatchet id discards its id besides the rest's, sends only the rest's deliveries, and records the op itself before the rest. |
| InfoOps.DrainAppend | src/org/tomahawk/libtomahawk/infosystem/InfoSystem.java:695-720 | Draining a queue in two parts sends, unregisters, removes from the log and records the same as draining it at once. |
| InfoOps.RemoveOpsMember | src/org/tomahawk/libtomahawk/infosystem/InfoSystem.java:681 | A row stays in the log after a removal iff it was there and its id is not removed. |
| InfoOps.RemoveOpsTwice | src/org/tomahawk/libtomahawk/infosystem/InfoSystem.java:680-681 | Removing two id sets in turn removes their union. |
| InfoOps.RemoveOpsNone | src/org/tomahawk/libtomahawk/infosystem/InfoSystem.java:681 | Removing ids no row has leaves the log unchanged. |
| InfoOps.UnknownNone | src/org/tomahawk/libtomahawk/infosystem/InfoSystem.java:628 | A log whose ids are all registered has no op left to register. |
| InfoOps.QueueableFromLog | src/org/tomahawk/libtomahawk/infosystem/InfoSystem.java:630-634 | The ops registration queues come from the log and wait for a hatchet id. |
| InfoOps.LeftRegistered | src/org/tomahawk/libtomahawk/infosystem/InfoSystem.java:627-644 | Every row left in a registered log after the drain is still registered, so nothing in it is unregistered. |
| InfoOps.FreshOpNotDiscarded | src/org/tomahawk/libtomahawk/infosystem/InfoSystem.java:426-433 | A newly logged op that does not wait for a hatchet id, with an id above every row and queued op, is not among the ids the drain discards. |
| InfoOps.FreshOpStays | src/org/tomahawk/libtomahawk/infosystem/InfoSystem.java:426-433 | Such an op is still in the log after the push, whether the queue is drained or not. |
| InfoOps.OrUnknown | src/org/tomahawk/libtomahawk/infosystem/InfoSystem.java:415-421 | An empty name becomes the placeholder, and any other name is kept. |
| InfoOps.PlaybackEntry | src/org/tomahawk/libtomahawk/infosystem/InfoSystem.java:412-422 | The entry has the album name, the flag and the timestamp. Its artist and track are never empty: "Unknown Artist" / "Unknown Title" when the name is empty, the name otherwise. |
| Info.InfoSystem.constructor | src/org/tomahawk/libtomahawk/infosystem/InfoSystem.java:81-102 | Empty maps, queue and logs over the stored op log. |
| Info.InfoSystem.Resolve | src/org/tomahawk/libtomahawk/infosystem/InfoSystem.java:389-406 | A fresh request id, one resolve handed to the plugins, and nothing else changed. |
| Info.InfoSystem.ResolveArtist | src/org/tomahawk/libtomahawk/infosystem/InfoSystem.java:134-151 | No artist gives no ids and no change. With `full`, two distinct ids are requested, for top hits and albums. Otherwise one id is requested for the artist. |
| Info.InfoSystem.Send | src/org/tomahawk/libtomahawk/infosystem/InfoSystem.java:598-603 | The request is recorded in mSentRequests under its id and handed to the plugins. |
| Info.InfoSystem.AddOpToLog | src/org/tomahawk/libtomahawk/infosystem/InfoSystem.java:431-432 | The op becomes the log's next row, with a new logged-op id. |
| Info.InfoSystem.RegisterLoggedOps | src/org/tomahawk/libtomahawk/infosystem/InfoSystem.java:625-643 | The loop leaves exactly the state `RegisterAll` specifies. |
| Info.InfoSystem.TrySendingQueuedOps | src/org/tomahawk/libtomahawk/infosystem/InfoSystem.java:693-722 | While a creation is outstanding nothing changes. Otherwise the queue ends empty and the sends are `Deliveries(queue)`. The discarded ids (`DiscardedIds(queue)`) leave mLoggedOpsMap and the op log, and nothing else leaves. mSentRequests is `SentAfter(queue)`. Every discarded op is unregistered. |
| Info.InfoSystem.DrainQueue | src/org/tomahawk/libtomahawk/infosystem/InfoSystem.java:695-720 | The while loop empties the queue front-first. It sends `Deliveries(queue)`, removes exactly `DiscardedIds(queue)` from mLoggedOpsMap and the op log, and leaves mSentRequests as `SentAfter(queue)`. |
| Info.InfoSystem.DeliverOrDiscard | src/org/tomahawk/libtomahawk/infosystem/InfoSystem.java:696-719 | One turn of the loop takes the front op, or the whole queue when the front op is discarded (`TakenCount`). What it takes is sent as `Deliveries`, unregistered and removed from the log as `DiscardedIds`, and recorded as `SentAfter`; the rest of the queue stays. |
| Info.InfoSystem.DiscardLoggedOp | src/org/tomahawk/libtomahawk/infosystem/InfoSystem.java:724-729 | The op is recorded in mSentRequests and acknowledged with discard. When no creation is then outstanding, the queue drains too: its discarded ids and the op's leave mLoggedOpsMap and the log. Otherwise only the op's id leaves them and the queue is unchanged. |
| Info.InfoSystem.AcknowledgeAll | src/org/tomahawk/libtomahawk/infosystem/InfoSystem.java:652-675 | The loop leaves exactly the state `AckAll` specifies. |
| Info.InfoSystem.OnLoggedOpsSent | src/org/tomahawk/libtomahawk/infosystem/InfoSystem.java:648-691 | Matched ops are unregistered; unknown ids are ignored. Without `discard` nothing else changes. With `discard`, matched creations are no longer outstanding and the queue is retried. The op log loses the acknowledged ops and, when the queue drained, its discarded ids. When the log ends up empty and some type was acknowledged, an OpLogIsEmptied event with those types and playlist ids is posted last. |
| Info.InfoSystem.ForgetAcknowledged | src/org/tomahawk/libtomahawk/infosystem/InfoSystem.java:676-690 | The acknowledged creations stop being outstanding and the queue is retried. The log loses the acknowledged ops and, when the queue drained, its discarded ids. The event is posted when the log ends up empty. |
| Info.InfoSystem.RemoveFromLog | src/org/tomahawk/libtomahawk/infosystem/InfoSystem.java:681-689 | The log loses exactly the acknowledged ops' rows and keeps its invariants. An OpLogIsEmptied event with the types and playlist ids is appended iff the log is then empty and some type was acknowledged; nothing else changes. |
| Info.InfoSystem.SendLoggedOps | src/org/tomahawk/libtomahawk/infosystem/InfoSystem.java:624-646 | Returns the request ids of exactly the newly registered ops, in log order, and sends the direct ones. mLoggedOpsMap gains every log id. The queue is drained iff no creation is outstanding; then its discarded ids are removed from the map and the log, and otherwise the log is unchanged. Afterwards every row of the log is registered, so a second call returns no ids. The counters, the resolves and the hatchet ids are unchanged, and after a drain no creation is outstanding. |
| Info.InfoSystem.SendPlaybackEntryPostStruct | src/org/tomahawk/libtomahawk/infosystem/InfoSystem.java:408-435 | Nothing changes when nothing plays or the playing query is already logged. Otherwise it is logged once, with the placeholder defaults, pushed, and the op is sent, still in the op log and registered. The request and logged-op counters each advance by one; the resolves and hatchet ids are unchanged. |
| Info.InfoSystem.LogAndPush | src/org/tomahawk/libtomahawk/infosystem/InfoSystem.java:426-433 | The new playback-log op gets the next request id and logged-op id, and both counters advance by one. It is sent with the other newly registered direct ops. The op log is the old log plus the op, less the discarded ids when the queue drains; otherwise the queue gains the queueable new ops. The op stays in the op log, registered: the drain of the push cannot discard it. |
| Info.InfoSystem.SendNowPlayingPostStruct | src/org/tomahawk/libtomahawk/infosystem/InfoSystem.java:437-464 | The same query as now playing changes nothing. Otherwise a previous query that is not yet logged gets a playback-log post (not now playing, stamped now) sent with the next request id and logged-op id, and it stays in the op log, registered; when there is none, or it is already logged, the op log is unchanged. Then the new query becomes now playing, and a now-playing post for it is sent and recorded under the last request id handed out. The request counter advances by two when a playback was logged, so the post's id differs from the logged op's, and by one otherwise. |
| Images.PreparePathForPicasso | src/org/tomahawk/libtomahawk/utils/ImageUtils.java:250-255 | null, empty and web paths are kept, as are paths starting with "file:". Any other path gets "file:" prepended. |
| Images.FileSchemeAddsNoWebScheme | src/org/tomahawk/libtomahawk/utils/ImageUtils.java:251-254 | Prepending "file:" never makes a path contain "https://" or "http://". |
| Images.PreparedPathIsLoadable | src/org/tomahawk/libtomahawk/utils/ImageUtils.java:250-255 | Every non-empty result is a web path or starts with "file:". |
| Images.PreparePathIdempotent | src/org/tomahawk/libtomahawk/utils/ImageUtils.java:250-255 | Preparing twice gives the same as preparing once. |
| Images.Wrap32 | src/org/tomahawk/libtomahawk/utils/ImageUtils.java:264 | Java int wrap-around is the identity on int values. |
| Images.JavaDiv | src/org/tomahawk/libtomahawk/utils/ImageUtils.java:264 | Java's int division truncates toward zero. |
| Images.ActualWidth | src/org/tomahawk/libtomahawk/utils/ImageUtils.java:259-265 | The width is the least of the image's height, the image's width and the cap: the requested width with Wi-Fi, `width*2/3` in Java int arithmetic without. For a non-negative request it is at most the request. |
| Images.BuildImagePath | src/org/tomahawk/libtomahawk/utils/ImageUtils.java:257-269 | A non-Hatchet image's path is returned unchanged. A Hatchet image gets `?width=N&height=N` with the same actual width N twice. |
| Images.SizeQueryInjective | src/org/tomahawk/libtomahawk/utils/ImageUtils.java:266 | Two addresses of the same path are equal only for the same width. |

## Left out

- Threads, `ThreadManager`, promises and `synchronized`: callbacks are sequential calls.
- The SQLite engine: tables are row sequences with insert-or-ignore, and a transaction is atomic.
- `SharedPreferences`, `System.currentTimeMillis` and logging: timestamps are parameters.
- Cursors and `CollectionCursor`: a query's result is the `SqlQuery` (statement and arguments) it would run.
- `FuzzyIndex` search is a function from query to candidate ids, and `PipeLine.reportResults` is a log of reports. `CollectionCursor`'s results are not modelled.
- `Playlist` internals: only its cursor, filled flag and current revision.
- Query.java is not part of this model. A query is a value with its cache key and names. Its references are compared by value, because queries are interned by cache key.
- `getArtistAlbums`, `getAlbumTrackCount`, `isInitializing` and `getIconBackgroundPath` of DbCollection.java are not modelled.
- InfoPlugin network sends and the server's responses: a plugin call is a log entry. A playlist creation's result, the hatchet id, is the op's `createdPlaylist`.
- Gson JSON: payloads are datatypes. `Integer.valueOf` on the hatchet id is not modelled, so the id is kept as the string.
- `InfoRequestData` is a value here. The Java code mutates the queued op in place (the playlist_id of `params`, the JSON string) and `mLoggedOpsMap` holds the same object; the model changes only the copy that is sent.
- `DatabaseHelper`: the op log and playlist hatchet ids are fields.
  - The op-log timestamp `(int) (timeStamp / 1000)` is not stored.
  - A null `playlist_local_id` is not distinguished from a missing hatchet id.
- `sendNowPlayingPostStruct` with a null query is not modelled.
- The track duration: a track's `duration` is already the `int` that the `(int) track.duration` cast (CollectionDb.java:384) yields. ScriptResolverTrack.java is not part of this model, so the field's own type and that narrowing cast are not modelled.
- CollectionDatabase.CollectionDb.AddTracks: the artists' running-maximum map and cachedArtists are keyed by (name, disambiguation) pairs. The source keys them by the strings `name + "♠" + disambiguation` and `concatKeys(name, disambiguation)`, so two pairs whose strings run together share one entry. Both as-written keyings are modelled beside it, under Findings.
- Ingestion.Ingest: the same pair keying as `AddTracks`.
- Collections.DbCollection.DrainWaiting: `mWaitingQueries` is a concurrent set, and its for-each iterator is weakly consistent. When the nested `resolve` has already drained a query, the outer iterator can still hand it out again, which gives reports such as [q2, q1, q2]. The model takes each query from the set as it stands at that moment, so each query is resolved once.
- Collections.DbCollection.Resolve: the same drain as `DrainWaiting`, with the same simplification.
- Collections.DbCollection.InitFuzzyIndex: the same drain as `DrainWaiting`, with the same simplification.
- Collections.DbCollection.GetAlbumArtists: it orders the albumArtists table by the artists table's column names (`artist`, `artistLastModified`), which that table does not have. The model builds the statement as written and does not model SQLite rejecting it.
- Info.InfoSystem.OnLoggedOpsSent: the event is stated only for a log that ends empty and a non-empty type set. Which events the nested queue retries post is not stated.
- The removal loop over `mPlaylistsLoggedOpsMap` is map subtraction of the matched ids.
- The other `resolve` overloads and the other `send…PostStruct`, `deletePlaylist…` and relationship methods of InfoSystem.java are not modelled. Neither are `getSentLoggedOpById`, `reportResults` or the plugin list.
- Picasso loading, transformations and `setTint` / `clearTint`: image library and UI. `NetworkUtils.isWifiAvailable` is a parameter.
- Images.ActualWidth: the bound "at most the requested width" is stated only for a non-negative request. For a negative request the truncating `width*2/3` can exceed it.
- Schema.Insert: a new row gets one more than the largest id in the table. SQLite's AUTOINCREMENT counter (the sqlite_sequence table) is not modelled; it can run ahead of the largest id, for instance when an insert that the UNIQUE constraint ignores still uses up an id. Real ids can therefore skip values the model assigns, so only the key→id relation of the model (IdMapFinds, IngestAttribution, IngestIdempotent) carries over to the source, not the numbers themselves.
- Info.InfoSystem.LogAndPush: the exact sends, mLoggedOpsMap and mSentRequests after the push are stated on SendLoggedOps but not carried over here.
- Info.InfoSystem.SendPlaybackEntryPostStruct: the push's effect on the op log, the queue, mLoggedOpsMap and mSentRequests is stated on LogAndPush, not repeated here.
- Info.InfoSystem.SendNowPlayingPostStruct: the same as SendPlaybackEntryPostStruct for the playback it logs.
- The UI fragments AlbumsFragment.java and UserMusicSelectorFragment.java are not modelled.

## Findings

| source | as written | input that shows it | evidently intended | confidence | as-written member | corrected member |
|---|---|---|---|---|---|---|
| src/org/tomahawk/libtomahawk/database/CollectionDb.java:680-686 | the ORDER BY separator " , " is appended to the join string, so it lands before ORDER BY | orderBy = ["a", "b"] on table t gives `SELECT * FROM t ,  ORDER BY ab` | `SELECT * FROM t ORDER BY a , b` | not executed | SelectStatement.TwoOrderTermsAsWritten | SelectStatement.TwoOrderTermsIntended |
| src/org/tomahawk/libtomahawk/database/CollectionDb.java:309, 326-327, 710-719 | the artist id map is keyed by the names joined with "♣", which may itself occur in a name | artists ("a♣b", "") and ("a", "b♣") both get the key "a♣b♣", so one overwrites the other's id | one key per (name, disambiguation) pair | not executed | CollectionDatabase.ArtistIdCollisionAsWritten | Schema.IdMapFinds |
| src/org/tomahawk/libtomahawk/database/CollectionDb.java:283-296 | the artists' running-maximum map is keyed by `name + "♠" + disambiguation`, which may itself hold "♠" | tracks ("a♠b", "", lastModified 10, album x) then ("a", "b♠", lastModified 5, album y): both use the key "a♠b♠", so the second track's artists and albumArtists rows carry 10 | each (name, disambiguation) pair has its own maximum, 5 for the second | not executed | Ingestion.ArtistKeyCollisionAsWritten | Ingestion.ArtistRunningMax |
