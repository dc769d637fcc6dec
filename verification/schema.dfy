/** The five tables of a collection database (artists, albumArtists, albums,
    artistAlbums, tracks) as sequences of rows in insertion order. Every table
    has a natural key declared UNIQUE ... ON CONFLICT IGNORE, and an
    AUTOINCREMENT primary key "_id". */
module Schema {
  import opened Common

  /** Artist.COMPILATION_ARTIST's name: the album artist of compilation albums. */
  const COMPILATION_ARTIST: string := "Various Artists"

  /** The natural (UNIQUE) key of a row, one variant per table. */
  datatype Key =
    | ArtistKey(name: string, disambiguation: string)
    | AlbumKey(album: string, albumArtistId: int)
    | ArtistAlbumKey(albumId: int, artistId: int)
    | TrackKey(track: string, artistId: int, albumId: int)

  /** The key of the artists row that compilation albums are attributed to. */
  const CompilationKey: Key := ArtistKey(COMPILATION_ARTIST, "")

  /** A row of one of the tables. ArtistRow serves both artists and albumArtists,
      whose columns only differ in name. Nullable TEXT columns are Options. */
  datatype Row =
    | ArtistRow(id: int, name: string, disambiguation: string, lastModified: int)
    | AlbumRow(id: int, album: string, albumArtistId: int, imagePath: Option<string>,
               lastModified: int)
    | ArtistAlbumRow(id: int, albumId: int, artistId: int)
    | TrackRow(id: int, track: string, artistId: int, albumId: int, url: Option<string>,
               duration: int, albumPos: int, linkUrl: Option<string>, lastModified: int)
  {
    function Key(): Key {
      match this
      case ArtistRow(_, name, disambiguation, _) => ArtistKey(name, disambiguation)
      case AlbumRow(_, album, albumArtistId, _, _) => AlbumKey(album, albumArtistId)
      case ArtistAlbumRow(_, albumId, artistId) => ArtistAlbumKey(albumId, artistId)
      case TrackRow(_, track, artistId, albumId, _, _, _, _, _) => TrackKey(track, artistId, albumId)
    }

    function Kind(): TableKind {
      match this
      case ArtistRow(_, _, _, _) => ArtistTable
      case AlbumRow(_, _, _, _, _) => AlbumTable
      case ArtistAlbumRow(_, _, _) => LinkTable
      case TrackRow(_, _, _, _, _, _, _, _, _) => TrackTable
    }
  }

  /** The column layouts: artists and albumArtists share one. */
  datatype TableKind = ArtistTable | AlbumTable | LinkTable | TrackTable

  /** The contents of the whole database. */
  datatype Tables = Tables(artists: seq<Row>, albumArtists: seq<Row>, albums: seq<Row>,
                           artistAlbums: seq<Row>, tracks: seq<Row>)

  const EmptyTables: Tables := Tables([], [], [], [], [])

  predicate HasKey(rows: seq<Row>, k: Key) {
    exists i | 0 <= i < |rows| :: rows[i].Key() == k
  }

  /** What the table constraints guarantee: AUTOINCREMENT ids are positive and
      grow in insertion order, though not necessarily without gaps (nothing is
      ever deleted short of dropping the table, so rowid order is insertion
      order), and no two rows share a natural key. */
  predicate WellFormed(rows: seq<Row>) {
    && (forall i | 0 <= i < |rows| :: rows[i].id >= 1)
    && (forall i, j | 0 <= i < j < |rows| :: rows[i].id < rows[j].id)
    && (forall i, j | 0 <= i < j < |rows| :: rows[i].Key() != rows[j].Key())
  }

  /** The id AUTOINCREMENT hands the next row: one more than the largest id
      in the table, 1 for an empty one. */
  function NextId(rows: seq<Row>): (id: int)
    ensures WellFormed(rows) ==> id >= 1 && forall i | 0 <= i < |rows| :: rows[i].id < id
  {
    if |rows| == 0 then 1 else rows[|rows| - 1].id + 1
  }

  /** Every row of `rows` has the columns of the table named by `kind`. */
  predicate RowsOf(rows: seq<Row>, kind: TableKind) {
    forall i | 0 <= i < |rows| :: rows[i].Kind() == kind
  }

  predicate ValidTable(rows: seq<Row>, kind: TableKind) {
    WellFormed(rows) && RowsOf(rows, kind)
  }

  predicate ValidTables(db: Tables) {
    && ValidTable(db.artists, ArtistTable)
    && ValidTable(db.albumArtists, ArtistTable)
    && ValidTable(db.albums, AlbumTable)
    && ValidTable(db.artistAlbums, LinkTable)
    && ValidTable(db.tracks, TrackTable)
  }

  /** SQLite's INSERT into a table whose natural key is UNIQUE ... ON CONFLICT
      IGNORE: a row whose key is already present is dropped silently, any other
      row is appended with the next id. */
  function Insert(rows: seq<Row>, row: Row): (r: seq<Row>)
    ensures HasKey(r, row.Key())
    ensures HasKey(rows, row.Key()) ==> r == rows
    ensures !HasKey(rows, row.Key()) ==>
              |r| == |rows| + 1 && r[|rows|] == row.(id := NextId(rows))
              && r[|rows|].Key() == row.Key()
    ensures r[..|rows|] == rows
  {
    if HasKey(rows, row.Key()) then rows
    else
      var x := row.(id := NextId(rows));
      assert (rows + [x])[|rows|].Key() == row.Key();
      rows + [x]
  }

  lemma {:induction false} InsertKeepsKeys(rows: seq<Row>, row: Row, k: Key)
    requires HasKey(rows, k)
    ensures HasKey(Insert(rows, row), k)
  {
    var i :| 0 <= i < |rows| && rows[i].Key() == k;
    assert Insert(rows, row)[i] == rows[i];
  }

  /** Inserting a row of the table's layout never breaks the table constraints. */
  lemma {:induction false} InsertKeepsWellFormed(rows: seq<Row>, row: Row)
    requires ValidTable(rows, row.Kind())
    ensures ValidTable(Insert(rows, row), row.Kind())
  {
    if !HasKey(rows, row.Key()) {
      var id := NextId(rows);
      assert forall i | 0 <= i < |rows| :: rows[i].id < id;
    }
  }

  /** The first row with key `k`: what a cursor filtered on the key columns
      yields after moveToFirst. */
  function Find(rows: seq<Row>, k: Key): (r: Option<Row>)
    ensures r.Some? <==> HasKey(rows, k)
    ensures r.Some? ==> r.value in rows && r.value.Key() == k
  {
    if |rows| == 0 then None
    else if rows[0].Key() == k then Some(rows[0])
    else
      var r := Find(rows[1..], k);
      assert forall i | 0 <= i < |rows[1..]| :: rows[1..][i] == rows[i + 1];
      r
  }

  /** The row found is the first one with the key. */
  lemma {:induction false} FindFirst(rows: seq<Row>, k: Key)
    requires HasKey(rows, k)
    ensures exists i | 0 <= i < |rows| :: rows[i] == Find(rows, k).value && !HasKey(rows[..i], k)
    decreases |rows|
  {
    if rows[0].Key() == k {
      assert rows[0] == Find(rows, k).value && !HasKey(rows[..0], k);
    } else {
      var i0 :| 0 <= i0 < |rows| && rows[i0].Key() == k;
      assert rows[1..][i0 - 1] == rows[i0];
      FindFirst(rows[1..], k);
      var i :| 0 <= i < |rows[1..]| && rows[1..][i] == Find(rows[1..], k).value && !HasKey(rows[1..][..i], k);
      assert rows[i + 1] == Find(rows, k).value;
      assert rows[..i + 1] == [rows[0]] + rows[1..][..i];
    }
  }

  /** Finding a key after one more row: an earlier row with the key still wins. */
  lemma {:induction false} FindAppend(rows: seq<Row>, x: Row, k: Key)
    ensures Find(rows + [x], k)
            == if HasKey(rows, k) then Find(rows, k) else if x.Key() == k then Some(x) else None
    decreases |rows|
  {
    if |rows| == 0 {
      assert rows + [x] == [x];
      assert [x][1..] == [];
    } else {
      assert (rows + [x])[1..] == rows[1..] + [x];
      FindAppend(rows[1..], x, k);
      if rows[0].Key() != k {
        assert HasKey(rows, k) == HasKey(rows[1..], k) by {
          if HasKey(rows, k) {
            var i :| 0 <= i < |rows| && rows[i].Key() == k;
            assert rows[1..][i - 1] == rows[i];
          }
          if HasKey(rows[1..], k) {
            var i :| 0 <= i < |rows[1..]| && rows[1..][i].Key() == k;
            assert rows[i + 1] == rows[1..][i];
          }
        }
      }
    }
  }

  /** The row an insert leaves behind for a key: the first one stored. */
  lemma {:induction false} InsertFind(rows: seq<Row>, row: Row, k: Key)
    ensures Find(Insert(rows, row), k)
            == if HasKey(rows, k) then Find(rows, k)
               else if row.Key() == k then Some(row.(id := NextId(rows))) else None
  {
    if !HasKey(rows, row.Key()) {
      FindAppend(rows, row.(id := NextId(rows)), k);
    } else if !HasKey(rows, k) {
      assert row.Key() != k;
    }
  }

  /** In a well-formed table the row found for a key is the only one with it. */
  lemma {:induction false} FindUnique(rows: seq<Row>, k: Key, i: int)
    requires WellFormed(rows) && 0 <= i < |rows| && rows[i].Key() == k
    ensures Find(rows, k) == Some(rows[i])
  {
    FindFirst(rows, k);
    var j :| 0 <= j < |rows| && rows[j] == Find(rows, k).value && !HasKey(rows[..j], k);
  }

  /** The key-to-id map built by walking a cursor over the whole table, later
      rows overwriting earlier ones. */
  function IdMap(rows: seq<Row>): map<Key, int>
  {
    if |rows| == 0 then map[]
    else IdMap(rows[..|rows| - 1])[rows[|rows| - 1].Key() := rows[|rows| - 1].id]
  }

  /** The map holds exactly the keys of the table. */
  lemma {:induction false} IdMapKeys(rows: seq<Row>, k: Key)
    ensures k in IdMap(rows) <==> HasKey(rows, k)
    decreases |rows|
  {
    if |rows| > 0 {
      var p := rows[..|rows| - 1];
      IdMapKeys(p, k);
      if HasKey(p, k) {
        var i :| 0 <= i < |p| && p[i].Key() == k;
        assert rows[i].Key() == k;
      }
      if HasKey(rows, k) && rows[|rows| - 1].Key() != k {
        var i :| 0 <= i < |rows| && rows[i].Key() == k;
        assert p[i].Key() == k;
      }
    }
  }

  /** In a well-formed table the map sends every key to the id of its row. */
  lemma {:induction false} IdMapOfWellFormed(rows: seq<Row>, i: int)
    requires WellFormed(rows) && 0 <= i < |rows|
    ensures rows[i].Key() in IdMap(rows) && IdMap(rows)[rows[i].Key()] == rows[i].id
    decreases |rows|
  {
    var n := |rows| - 1;
    if i < n {
      var p := rows[..n];
      assert WellFormed(p);
      IdMapOfWellFormed(p, i);
      assert rows[n].Key() != rows[i].Key();
    }
  }

  /** Combining the two: the map and a lookup of the table agree. */
  lemma {:induction false} IdMapFinds(rows: seq<Row>, k: Key)
    requires WellFormed(rows) && HasKey(rows, k)
    ensures k in IdMap(rows) && Find(rows, k).Some? && IdMap(rows)[k] == Find(rows, k).value.id
  {
    var i :| 0 <= i < |rows| && rows[i].Key() == k;
    IdMapOfWellFormed(rows, i);
    FindUnique(rows, k, i);
  }
}
