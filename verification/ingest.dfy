/** What CollectionDb.addTracks does to the tables, as a pure function of the
    old tables and the batch. It is built from the same passes the Java method
    makes over the batch; each pass is a fold over a prefix of the batch, so
    that the method's loops can keep "state == pass over the first i tracks"
    as their invariant. */
module Ingestion {
  import opened Common
  import opened Schema

  /** A ScriptResolverTrack as handed to addTracks: every string may be null. */
  datatype RawTrack = RawTrack(
    track: Option<string>, artist: Option<string>, artistDisambiguation: Option<string>,
    album: Option<string>, albumArtist: Option<string>,
    albumArtistDisambiguation: Option<string>,
    url: Option<string>, duration: int, albumPos: int, linkUrl: Option<string>,
    imagePath: Option<string>, lastModified: int)

  /** A track after the first loop of addTracks: the six key strings are non-null. */
  datatype Track = Track(
    track: string, artist: string, artistDisambiguation: string,
    album: string, albumArtist: string, albumArtistDisambiguation: string,
    url: Option<string>, duration: int, albumPos: int, linkUrl: Option<string>,
    imagePath: Option<string>, lastModified: int)

  /** `s` is what the null-to-empty rule makes of `o`. */
  predicate NullBecomesEmpty(o: Option<string>, s: string) {
    (o.None? ==> s == "") && (o.Some? ==> s == o.value)
  }

  /** The first loop's null replacement: the six key strings that were null
      become "", every other field is left as it was (url, linkUrl and imagePath
      may stay null). */
  function Normalize(t: RawTrack): (n: Track)
    ensures NullBecomesEmpty(t.track, n.track)
    ensures NullBecomesEmpty(t.artist, n.artist)
    ensures NullBecomesEmpty(t.artistDisambiguation, n.artistDisambiguation)
    ensures NullBecomesEmpty(t.album, n.album)
    ensures NullBecomesEmpty(t.albumArtist, n.albumArtist)
    ensures NullBecomesEmpty(t.albumArtistDisambiguation, n.albumArtistDisambiguation)
    ensures n.url == t.url && n.linkUrl == t.linkUrl && n.imagePath == t.imagePath
    ensures n.duration == t.duration && n.albumPos == t.albumPos
    ensures n.lastModified == t.lastModified
  {
    Track(t.track.GetOr(""), t.artist.GetOr(""), t.artistDisambiguation.GetOr(""),
          t.album.GetOr(""), t.albumArtist.GetOr(""), t.albumArtistDisambiguation.GetOr(""),
          t.url, t.duration, t.albumPos, t.linkUrl, t.imagePath, t.lastModified)
  }

  function NormalizeAll(batch: seq<RawTrack>): (ts: seq<Track>)
    ensures |ts| == |batch|
    ensures forall i | 0 <= i < |batch| :: ts[i] == Normalize(batch[i])
  {
    if |batch| == 0 then []
    else NormalizeAll(batch[..|batch| - 1]) + [Normalize(batch[|batch| - 1])]
  }

  lemma {:induction false} NormalizeAllSnoc(batch: seq<RawTrack>, i: int)
    requires 0 <= i < |batch|
    ensures NormalizeAll(batch[..i + 1]) == NormalizeAll(batch[..i]) + [Normalize(batch[i])]
  {
    assert batch[..i + 1][..i] == batch[..i];
  }

  function OwnArtistKey(t: Track): Key {
    ArtistKey(t.artist, t.artistDisambiguation)
  }

  function AlbumArtistKey(t: Track): Key {
    ArtistKey(t.albumArtist, t.albumArtistDisambiguation)
  }

  // ---------------------------------------------------------------------------
  // Compilation detection (first loop)

  /** The per-album artist sets of the first loop: an album's set collects the
      track artists, but stops growing once it holds two names. */
  function ArtistSets(ts: seq<Track>): map<string, set<string>>
  {
    if |ts| == 0 then map[]
    else
      var m := ArtistSets(ts[..|ts| - 1]);
      var t := ts[|ts| - 1];
      var artists := if t.album in m then m[t.album] else {};
      m[t.album := if |artists| < 2 then artists + {t.artist} else artists]
  }

  /** The distinct artist names among the batch's tracks on `album`. */
  function ArtistsOf(ts: seq<Track>, album: string): set<string>
  {
    set i | 0 <= i < |ts| && ts[i].album == album :: ts[i].artist
  }

  /** One more track changes only its own album's set. */
  lemma {:induction false} ArtistSetsSnoc(ts: seq<Track>, t: Track)
    ensures var m := ArtistSets(ts);
            var artists := if t.album in m then m[t.album] else {};
            ArtistSets(ts + [t]) == m[t.album := if |artists| < 2 then artists + {t.artist} else artists]
  {
    assert (ts + [t])[..|ts|] == ts;
  }

  lemma {:induction false} ArtistsOfAppend(ts: seq<Track>, t: Track, album: string)
    ensures ArtistsOf(ts + [t], album)
         == ArtistsOf(ts, album) + (if t.album == album then {t.artist} else {})
  {
    var l, r := ArtistsOf(ts + [t], album), ArtistsOf(ts, album);
    forall a | a in r ensures a in l {
      var i :| 0 <= i < |ts| && ts[i].album == album && ts[i].artist == a;
      assert (ts + [t])[i] == ts[i];
    }
    if t.album == album {
      assert (ts + [t])[|ts|] == t;
    }
  }

  lemma {:induction false} SubsetCard(a: set<string>, b: set<string>)
    requires a <= b
    ensures |a| <= |b|
    decreases |a|
  {
    if a != {} {
      var x :| x in a;
      SubsetCard(a - {x}, b - {x});
    }
  }

  lemma {:induction false} SubsetOfSameSize(a: set<string>, b: set<string>)
    requires a <= b && |a| == |b|
    ensures a == b
  {
    forall x | x in b ensures x in a {
      if x !in a {
        SubsetCard(a, b - {x});
      }
    }
  }

  /** An album has a set exactly when the batch has a track on it. */
  lemma {:induction false} ArtistSetsDomain(ts: seq<Track>, album: string)
    ensures album in ArtistSets(ts) <==> ArtistsOf(ts, album) != {}
    decreases |ts|
  {
    if |ts| == 0 {
      assert ArtistsOf(ts, album) == {};
    } else {
      var p, t := ts[..|ts| - 1], ts[|ts| - 1];
      assert ts == p + [t];
      ArtistSetsDomain(p, album);
      ArtistsOfAppend(p, t, album);
    }
  }

  /** An album's set only holds artists of tracks on that album. */
  lemma {:induction false} ArtistSetsSubset(ts: seq<Track>, album: string)
    requires album in ArtistSets(ts)
    ensures ArtistSets(ts)[album] <= ArtistsOf(ts, album)
    decreases |ts|
  {
    var p, t := ts[..|ts| - 1], ts[|ts| - 1];
    assert ts == p + [t];
    ArtistsOfAppend(p, t, album);
    var m := ArtistSets(p);
    if album in m {
      ArtistSetsSubset(p, album);
    }
  }

  /** The size of an album's set is the number of distinct artists on the
      album, capped at 2. */
  lemma {:induction false} ArtistSetsSize(ts: seq<Track>, album: string)
    requires album in ArtistSets(ts)
    ensures |ArtistSets(ts)[album]| == Min(|ArtistsOf(ts, album)|, 2)
    decreases |ts|
  {
    var p, t := ts[..|ts| - 1], ts[|ts| - 1];
    assert ts == p + [t];
    ArtistsOfAppend(p, t, album);
    var m, before, after := ArtistSets(p), ArtistsOf(p, album), ArtistsOf(ts, album);
    if t.album != album {
      assert ArtistSets(ts)[album] == m[album] && after == before;
      ArtistSetsSize(p, album);
    } else if album !in m {
      ArtistSetsDomain(p, album);
      assert before == {} && after == {t.artist};
      assert ArtistSets(ts)[album] == {t.artist};
    } else {
      ArtistSetsSize(p, album);
      ArtistSetsSubset(p, album);
      assert after == before + {t.artist};
      if |m[album]| < 2 {
        ArtistSetsDomain(p, album);
        SubsetOfSameSize(m[album], before);
        assert ArtistSets(ts)[album] == after;
        assert |before| == 1;
      } else {
        assert ArtistSets(ts)[album] == m[album];
        SubsetCard(before, after);
      }
    }
  }

  /** The cap: an album has a set exactly when the batch has a track on it, the
      set only holds artists of that album, and its size is the number of
      distinct artists capped at 2. */
  lemma {:induction false} ArtistSetsCap(ts: seq<Track>, album: string)
    ensures album in ArtistSets(ts) <==> ArtistsOf(ts, album) != {}
    ensures album in ArtistSets(ts) ==>
              && ArtistSets(ts)[album] <= ArtistsOf(ts, album)
              && |ArtistSets(ts)[album]| == Min(|ArtistsOf(ts, album)|, 2)
  {
    ArtistSetsDomain(ts, album);
    if album in ArtistSets(ts) {
      ArtistSetsSubset(ts, album);
      ArtistSetsSize(ts, album);
    }
  }

  /** The source's test for "compilation": the album's set holds two names. */
  predicate IsCompilation(sets: map<string, set<string>>, album: string) {
    album in sets && |sets[album]| > 1
  }

  /** An album of the batch is treated as a compilation exactly when the batch
      holds tracks of it by more than one distinct artist; the later loops' test
      "set size == 1" is the negation of the same condition. */
  lemma {:induction false} CompilationIffSeveralArtists(ts: seq<Track>, i: int)
    requires 0 <= i < |ts|
    ensures ts[i].album in ArtistSets(ts)
    ensures IsCompilation(ArtistSets(ts), ts[i].album) <==> |ArtistsOf(ts, ts[i].album)| > 1
    ensures |ArtistSets(ts)[ts[i].album]| == 1 <==> !IsCompilation(ArtistSets(ts), ts[i].album)
  {
    ArtistSetsCap(ts, ts[i].album);
    assert ts[i].artist in ArtistsOf(ts, ts[i].album);
  }

  // ---------------------------------------------------------------------------
  // Running maximum of lastModified per key

  /** One step of the running-maximum maps (mArtistLastModifiedMap,
      mAlbumLastModifiedMap): the entry for `k` becomes `x` when it is missing or
      smaller than `x`. The value inserted is the entry afterwards. */
  function Bump(lm: map<Key, int>, k: Key, x: int): (r: map<Key, int>)
    ensures k in r && r[k] == (if k in lm then Max(lm[k], x) else x)
    ensures forall k' | k' != k :: (k' in r <==> k' in lm) && (k' in lm ==> r[k'] == lm[k'])
  {
    if k !in lm || lm[k] < x then lm[k := x] else lm
  }

  // ---------------------------------------------------------------------------
  // Second loop: artists and albumArtists

  datatype ArtistPassState = ArtistPassState(artists: seq<Row>, albumArtists: seq<Row>,
                                             lastModified: map<Key, int>)

  /** The first half of an iteration of the second loop: a track on a
      compilation bumps the compilation artist and inserts its artists row. */
  function CompilationStep(s: ArtistPassState, t: Track, sets: map<string, set<string>>): ArtistPassState
  {
    if IsCompilation(sets, t.album) then
      var lm := Bump(s.lastModified, CompilationKey, t.lastModified);
      s.(artists := Insert(s.artists, ArtistRow(0, COMPILATION_ARTIST, "", lm[CompilationKey])),
         lastModified := lm)
    else s
  }

  /** The second half: the track's own artist is bumped and inserted into
      artists, and its album artist into albumArtists, both with the running
      maximum of the track's own artist. */
  function OwnArtistStep(s: ArtistPassState, t: Track): ArtistPassState
  {
    var k := OwnArtistKey(t);
    var lm := Bump(s.lastModified, k, t.lastModified);
    ArtistPassState(
      Insert(s.artists, ArtistRow(0, t.artist, t.artistDisambiguation, lm[k])),
      Insert(s.albumArtists, ArtistRow(0, t.albumArtist, t.albumArtistDisambiguation, lm[k])),
      lm)
  }

  function ArtistStep(s: ArtistPassState, t: Track, sets: map<string, set<string>>): ArtistPassState
  {
    OwnArtistStep(CompilationStep(s, t, sets), t)
  }

  function ArtistPass(s0: ArtistPassState, ts: seq<Track>, sets: map<string, set<string>>): ArtistPassState
  {
    if |ts| == 0 then s0 else ArtistStep(ArtistPass(s0, ts[..|ts| - 1], sets), ts[|ts| - 1], sets)
  }

  /** One more track of the prefix is one more step of the pass. */
  lemma {:induction false} ArtistPassPrefixStep(s0: ArtistPassState, ts: seq<Track>, i: int,
                                                sets: map<string, set<string>>)
    requires 0 <= i < |ts|
    ensures ArtistPass(s0, ts[..i + 1], sets) == ArtistStep(ArtistPass(s0, ts[..i], sets), ts[i], sets)
  {
    assert ts[..i + 1][..i] == ts[..i];
  }

  /** Track `t` bumps key `k` of the artists' running-maximum map. */
  predicate BumpsArtist(t: Track, sets: map<string, set<string>>, k: Key) {
    OwnArtistKey(t) == k || (IsCompilation(sets, t.album) && k == CompilationKey)
  }

  /** The second loop's lastModified map on its own, one track at a time. */
  function ArtistBumps(lm: map<Key, int>, ts: seq<Track>, sets: map<string, set<string>>): map<Key, int>
  {
    if |ts| == 0 then lm
    else
      var t := ts[|ts| - 1];
      var lm1 := ArtistBumps(lm, ts[..|ts| - 1], sets);
      var lm2 := if IsCompilation(sets, t.album) then Bump(lm1, CompilationKey, t.lastModified) else lm1;
      Bump(lm2, OwnArtistKey(t), t.lastModified)
  }

  /** The string mArtistLastModifiedMap is actually keyed by: the name and the
      disambiguation joined by "♠", which may itself occur in either. */
  function ArtistKeyString(name: string, disambiguation: string): string {
    name + "♠" + disambiguation
  }

  /** The running-maximum update of the second loop as written, on a string key. */
  function BumpAsWritten(lm: map<string, int>, k: string, x: int): (r: map<string, int>)
    ensures k in r && r[k] == (if k in lm then Max(lm[k], x) else x)
  {
    if k !in lm || lm[k] < x then lm[k := x] else lm
  }

  /** The second loop's lastModified map as written, over those strings. */
  function ArtistBumpsAsWritten(lm: map<string, int>, ts: seq<Track>, sets: map<string, set<string>>): map<string, int>
  {
    if |ts| == 0 then lm
    else
      var t := ts[|ts| - 1];
      var lm1 := ArtistBumpsAsWritten(lm, ts[..|ts| - 1], sets);
      var lm2 := if IsCompilation(sets, t.album) then BumpAsWritten(lm1, ArtistKeyString(COMPILATION_ARTIST, ""), t.lastModified)
                 else lm1;
      BumpAsWritten(lm2, ArtistKeyString(t.artist, t.artistDisambiguation), t.lastModified)
  }

  /** Two artists whose names and disambiguations run together share one
      string key, so the second one's artists and albumArtists inserts carry
      the first one's larger lastModified; over pairs, each keeps its own. */
  lemma ArtistKeyCollisionAsWritten()
    ensures var t1 := Track("s", "a♠b", "", "x", "a♠b", "", None, 0, 0, None, None, 10);
            var t2 := Track("s", "a", "b♠", "y", "a", "b♠", None, 0, 0, None, None, 5);
            var sets := ArtistSets([t1, t2]);
            && ArtistBumpsAsWritten(map[], [t1, t2], sets)[ArtistKeyString(t2.artist, t2.artistDisambiguation)] == 10
            && ArtistBumps(map[], [t1, t2], sets)[OwnArtistKey(t2)] == 5
  {
    var t1 := Track("s", "a♠b", "", "x", "a♠b", "", None, 0, 0, None, None, 10);
    var t2 := Track("s", "a", "b♠", "y", "a", "b♠", None, 0, 0, None, None, 5);
    var ts := [t1, t2];
    assert ts[..1] == [t1] && [t1][..0] == [];
    assert ArtistSets([t1]) == map["x" := {"a♠b"}];
    var sets := ArtistSets(ts);
    assert sets == map["x" := {"a♠b"}, "y" := {"a"}];
    assert !IsCompilation(sets, "x") && !IsCompilation(sets, "y");
    var key := ArtistKeyString("a♠b", "");
    assert key == ArtistKeyString("a", "b♠") == "a♠b♠";
    var none: seq<Track> := [];
    assert [t1][..0] == none;
    assert ArtistBumpsAsWritten(map[], none, sets) == map[];
    assert ArtistBumps(map[], none, sets) == map[];
    var written := ArtistBumpsAsWritten(map[], [t1], sets);
    assert written == BumpAsWritten(ArtistBumpsAsWritten(map[], none, sets), key, 10);
    assert written[key] == 10;
    assert ArtistBumpsAsWritten(map[], ts, sets) == BumpAsWritten(written, key, 5);
    var pairs := ArtistBumps(map[], [t1], sets);
    assert pairs == Bump(ArtistBumps(map[], none, sets), OwnArtistKey(t1), 10);
    assert OwnArtistKey(t2) !in pairs;
    assert ArtistBumps(map[], ts, sets) == Bump(pairs, OwnArtistKey(t2), 5);
  }

  lemma {:induction false} ArtistPassBumps(s0: ArtistPassState, ts: seq<Track>, sets: map<string, set<string>>)
    ensures ArtistPass(s0, ts, sets).lastModified == ArtistBumps(s0.lastModified, ts, sets)
    decreases |ts|
  {
    if |ts| > 0 {
      ArtistPassBumps(s0, ts[..|ts| - 1], sets);
    }
  }

  /** One iteration raises the entries the track bumps to at least its
      lastModified and leaves the others alone. */
  lemma {:induction false} ArtistBumpsStep(lm: map<Key, int>, ts: seq<Track>, sets: map<string, set<string>>, k: Key)
    requires |ts| > 0
    ensures var t, before, after := ts[|ts| - 1], ArtistBumps(lm, ts[..|ts| - 1], sets), ArtistBumps(lm, ts, sets);
            && (BumpsArtist(t, sets, k) ==>
                  k in after && after[k] == (if k in before then Max(before[k], t.lastModified) else t.lastModified))
            && (!BumpsArtist(t, sets, k) ==> (k in after <==> k in before) && (k in before ==> after[k] == before[k]))
  {
  }

  lemma {:induction false} ArtistStepBumps(s: ArtistPassState, t: Track, sets: map<string, set<string>>, k: Key)
    ensures var lm, lm' := s.lastModified, ArtistStep(s, t, sets).lastModified;
            && (BumpsArtist(t, sets, k) ==>
                  k in lm' && lm'[k] == (if k in lm then Max(lm[k], t.lastModified) else t.lastModified))
            && (!BumpsArtist(t, sets, k) ==> (k in lm' <==> k in lm) && (k in lm ==> lm'[k] == lm[k]))
  {
  }

  /** The running-maximum map has an entry for `k` exactly when some track
      bumped it. */
  lemma {:induction false} ArtistBumpsDomain(ts: seq<Track>, sets: map<string, set<string>>, k: Key)
    ensures k in ArtistBumps(map[], ts, sets) <==> exists i | 0 <= i < |ts| :: BumpsArtist(ts[i], sets, k)
    decreases |ts|
  {
    if |ts| > 0 {
      var p, t := ts[..|ts| - 1], ts[|ts| - 1];
      ArtistBumpsDomain(p, sets, k);
      ArtistBumpsStep(map[], ts, sets, k);
      if exists i | 0 <= i < |ts| :: BumpsArtist(ts[i], sets, k) {
        var i :| 0 <= i < |ts| && BumpsArtist(ts[i], sets, k);
        if i < |p| {
          assert BumpsArtist(p[i], sets, k);
        }
      }
      if k in ArtistBumps(map[], p, sets) {
        var j :| 0 <= j < |p| && BumpsArtist(p[j], sets, k);
        assert BumpsArtist(ts[j], sets, k);
      }
    }
  }

  /** No track that bumped `k` carries a larger lastModified than the map. */
  lemma {:induction false} ArtistBumpsBound(ts: seq<Track>, sets: map<string, set<string>>, k: Key, i: int)
    requires 0 <= i < |ts| && BumpsArtist(ts[i], sets, k)
    ensures k in ArtistBumps(map[], ts, sets)
    ensures ts[i].lastModified <= ArtistBumps(map[], ts, sets)[k]
    decreases |ts|
  {
    var p := ts[..|ts| - 1];
    ArtistBumpsStep(map[], ts, sets, k);
    if i < |p| {
      assert p[i] == ts[i];
      ArtistBumpsBound(p, sets, k, i);
    }
  }

  /** The map's value for `k` is the lastModified of a track that bumped it. */
  lemma {:induction false} ArtistBumpsAttained(ts: seq<Track>, sets: map<string, set<string>>, k: Key)
    requires k in ArtistBumps(map[], ts, sets)
    ensures exists i | 0 <= i < |ts| :: BumpsArtist(ts[i], sets, k) &&
              ts[i].lastModified == ArtistBumps(map[], ts, sets)[k]
    decreases |ts|
  {
    var p, t := ts[..|ts| - 1], ts[|ts| - 1];
    var before, after := ArtistBumps(map[], p, sets), ArtistBumps(map[], ts, sets);
    ArtistBumpsStep(map[], ts, sets, k);
    if k in before && after[k] == before[k] {
      ArtistBumpsAttained(p, sets, k);
      var j :| 0 <= j < |p| && BumpsArtist(p[j], sets, k) && p[j].lastModified == before[k];
      assert ts[j] == p[j];
    } else {
      assert BumpsArtist(ts[|ts| - 1], sets, k) && ts[|ts| - 1].lastModified == after[k];
    }
  }

  /** The value the second loop carries for an artist key after the tracks
      `ts` is the largest lastModified among the tracks that bumped the key:
      a running maximum over the earlier tracks with the same key. */
  lemma {:induction false} ArtistRunningMax(s0: ArtistPassState, ts: seq<Track>, sets: map<string, set<string>>, k: Key)
    requires s0.lastModified == map[]
    ensures var lm := ArtistPass(s0, ts, sets).lastModified;
            && (k in lm <==> exists i | 0 <= i < |ts| :: BumpsArtist(ts[i], sets, k))
            && (k in lm ==> && (forall i | 0 <= i < |ts| && BumpsArtist(ts[i], sets, k) ::
                                  ts[i].lastModified <= lm[k])
                            && (exists i | 0 <= i < |ts| :: BumpsArtist(ts[i], sets, k) &&
                                  ts[i].lastModified == lm[k]))
  {
    ArtistPassBumps(s0, ts, sets);
    ArtistBumpsDomain(ts, sets, k);
    forall i | 0 <= i < |ts| && BumpsArtist(ts[i], sets, k)
      ensures ts[i].lastModified <= ArtistBumps(map[], ts, sets)[k]
    {
      ArtistBumpsBound(ts, sets, k, i);
    }
    if k in ArtistBumps(map[], ts, sets) {
      ArtistBumpsAttained(ts, sets, k);
    }
  }

  /** What one iteration inserts, and that it keeps the rows already there. */
  lemma {:induction false} ArtistStepKeys(s: ArtistPassState, t: Track, sets: map<string, set<string>>)
    ensures var s' := ArtistStep(s, t, sets);
            && (forall k | HasKey(s.artists, k) :: HasKey(s'.artists, k))
            && (forall k | HasKey(s.albumArtists, k) :: HasKey(s'.albumArtists, k))
            && HasKey(s'.artists, OwnArtistKey(t))
            && HasKey(s'.albumArtists, AlbumArtistKey(t))
            && (IsCompilation(sets, t.album) ==> HasKey(s'.artists, CompilationKey))
  {
    var s1 := CompilationStep(s, t, sets);
    var s' := OwnArtistStep(s1, t);
    assert s1.albumArtists == s.albumArtists;
    assert s1.artists[..|s.artists|] == s.artists;
    assert s'.artists[..|s1.artists|] == s1.artists;
    assert s'.albumArtists[..|s1.albumArtists|] == s1.albumArtists;
    forall k | HasKey(s.artists, k) ensures HasKey(s'.artists, k) {
      var i :| 0 <= i < |s.artists| && s.artists[i].Key() == k;
      assert s'.artists[i] == s1.artists[i] == s.artists[i];
    }
    forall k | HasKey(s.albumArtists, k) ensures HasKey(s'.albumArtists, k) {
      var i :| 0 <= i < |s.albumArtists| && s.albumArtists[i].Key() == k;
      assert s'.albumArtists[i] == s.albumArtists[i];
    }
    if IsCompilation(sets, t.album) {
      var i :| 0 <= i < |s1.artists| && s1.artists[i].Key() == CompilationKey;
      assert s'.artists[i] == s1.artists[i];
    }
  }

  lemma {:induction false} ArtistStepWellFormed(s: ArtistPassState, t: Track, sets: map<string, set<string>>)
    requires ValidTable(s.artists, ArtistTable) && ValidTable(s.albumArtists, ArtistTable)
    ensures ValidTable(ArtistStep(s, t, sets).artists, ArtistTable)
    ensures ValidTable(ArtistStep(s, t, sets).albumArtists, ArtistTable)
  {
    var s1 := CompilationStep(s, t, sets);
    if IsCompilation(sets, t.album) {
      var lm := Bump(s.lastModified, CompilationKey, t.lastModified);
      InsertKeepsWellFormed(s.artists, ArtistRow(0, COMPILATION_ARTIST, "", lm[CompilationKey]));
    }
    assert ValidTable(s1.artists, ArtistTable) && s1.albumArtists == s.albumArtists;
    var k := OwnArtistKey(t);
    var lm := Bump(s1.lastModified, k, t.lastModified);
    InsertKeepsWellFormed(s1.artists, ArtistRow(0, t.artist, t.artistDisambiguation, lm[k]));
    InsertKeepsWellFormed(s1.albumArtists, ArtistRow(0, t.albumArtist, t.albumArtistDisambiguation, lm[k]));
  }

  /** After the pass every track's own artist has an artists row. */
  lemma {:induction false} ArtistPassOwnKeys(s0: ArtistPassState, ts: seq<Track>,
                                             sets: map<string, set<string>>, i: int)
    requires 0 <= i < |ts|
    ensures HasKey(ArtistPass(s0, ts, sets).artists, OwnArtistKey(ts[i]))
    decreases |ts|
  {
    var p, t := ts[..|ts| - 1], ts[|ts| - 1];
    var sp := ArtistPass(s0, p, sets);
    assert ArtistPass(s0, ts, sets) == ArtistStep(sp, t, sets);
    ArtistStepKeys(sp, t, sets);
    if i < |p| {
      assert ts[i] == p[i];
      ArtistPassOwnKeys(s0, p, sets, i);
    }
  }

  /** After the pass every track's album artist has an albumArtists row. */
  lemma {:induction false} ArtistPassAlbumArtistKeys(s0: ArtistPassState, ts: seq<Track>,
                                                     sets: map<string, set<string>>, i: int)
    requires 0 <= i < |ts|
    ensures HasKey(ArtistPass(s0, ts, sets).albumArtists, AlbumArtistKey(ts[i]))
    decreases |ts|
  {
    var p, t := ts[..|ts| - 1], ts[|ts| - 1];
    var sp := ArtistPass(s0, p, sets);
    assert ArtistPass(s0, ts, sets) == ArtistStep(sp, t, sets);
    ArtistStepKeys(sp, t, sets);
    if i < |p| {
      assert ts[i] == p[i];
      ArtistPassAlbumArtistKeys(s0, p, sets, i);
    }
  }

  /** After the pass the compilation artist has a row when a track of the
      batch is on a compilation. */
  lemma {:induction false} ArtistPassCompilationKey(s0: ArtistPassState, ts: seq<Track>,
                                                    sets: map<string, set<string>>, i: int)
    requires 0 <= i < |ts| && IsCompilation(sets, ts[i].album)
    ensures HasKey(ArtistPass(s0, ts, sets).artists, CompilationKey)
    decreases |ts|
  {
    var p, t := ts[..|ts| - 1], ts[|ts| - 1];
    var sp := ArtistPass(s0, p, sets);
    assert ArtistPass(s0, ts, sets) == ArtistStep(sp, t, sets);
    ArtistStepKeys(sp, t, sets);
    if i < |p| {
      assert ts[i] == p[i];
      ArtistPassCompilationKey(s0, p, sets, i);
    }
  }

  /** After the pass every track's own artist and album artist, and the
      compilation artist when one of its albums is a compilation, have rows. */
  lemma {:induction false} ArtistPassKeys(s0: ArtistPassState, ts: seq<Track>, sets: map<string, set<string>>)
    ensures var s := ArtistPass(s0, ts, sets);
            && (forall i | 0 <= i < |ts| :: HasKey(s.artists, OwnArtistKey(ts[i])))
            && (forall i | 0 <= i < |ts| :: HasKey(s.albumArtists, AlbumArtistKey(ts[i])))
            && (forall i | 0 <= i < |ts| && IsCompilation(sets, ts[i].album) ::
                  HasKey(s.artists, CompilationKey))
  {
    forall i | 0 <= i < |ts|
      ensures HasKey(ArtistPass(s0, ts, sets).artists, OwnArtistKey(ts[i]))
      ensures HasKey(ArtistPass(s0, ts, sets).albumArtists, AlbumArtistKey(ts[i]))
      ensures IsCompilation(sets, ts[i].album) ==> HasKey(ArtistPass(s0, ts, sets).artists, CompilationKey)
    {
      ArtistPassOwnKeys(s0, ts, sets, i);
      ArtistPassAlbumArtistKeys(s0, ts, sets, i);
      if IsCompilation(sets, ts[i].album) {
        ArtistPassCompilationKey(s0, ts, sets, i);
      }
    }
  }

  /** When every key the pass would insert is already present, the pass leaves
      both tables as they were. */
  lemma {:induction false} ArtistPassNoop(s0: ArtistPassState, ts: seq<Track>,
                                          sets: map<string, set<string>>)
    requires forall i | 0 <= i < |ts| :: HasKey(s0.artists, OwnArtistKey(ts[i]))
    requires forall i | 0 <= i < |ts| :: HasKey(s0.albumArtists, AlbumArtistKey(ts[i]))
    requires forall i | 0 <= i < |ts| && IsCompilation(sets, ts[i].album) ::
               HasKey(s0.artists, CompilationKey)
    ensures ArtistPass(s0, ts, sets).artists == s0.artists
    ensures ArtistPass(s0, ts, sets).albumArtists == s0.albumArtists
    decreases |ts|
  {
    if |ts| > 0 {
      var p := ts[..|ts| - 1];
      forall i | 0 <= i < |p| ensures p[i] == ts[i] { }
      ArtistPassNoop(s0, p, sets);
      var sp := ArtistPass(s0, p, sets);
      var s1 := CompilationStep(sp, ts[|ts| - 1], sets);
      assert s1.artists == s0.artists;
    }
  }

  lemma {:induction false} ArtistPassWellFormed(s0: ArtistPassState, ts: seq<Track>,
                                                sets: map<string, set<string>>)
    requires ValidTable(s0.artists, ArtistTable) && ValidTable(s0.albumArtists, ArtistTable)
    ensures ValidTable(ArtistPass(s0, ts, sets).artists, ArtistTable)
    ensures ValidTable(ArtistPass(s0, ts, sets).albumArtists, ArtistTable)
    decreases |ts|
  {
    if |ts| > 0 {
      ArtistPassWellFormed(s0, ts[..|ts| - 1], sets);
      ArtistStepWellFormed(ArtistPass(s0, ts[..|ts| - 1], sets), ts[|ts| - 1], sets);
    }
  }

  /** Rows are never changed or removed by the pass: each table only grows at
      its end. */
  lemma {:induction false} ArtistPassExtends(s0: ArtistPassState, ts: seq<Track>, sets: map<string, set<string>>)
    ensures var s := ArtistPass(s0, ts, sets);
            |s0.artists| <= |s.artists| && s.artists[..|s0.artists|] == s0.artists
    decreases |ts|
  {
    if |ts| > 0 {
      var sp := ArtistPass(s0, ts[..|ts| - 1], sets);
      ArtistPassExtends(s0, ts[..|ts| - 1], sets);
      var s1 := CompilationStep(sp, ts[|ts| - 1], sets);
      assert s1.artists[..|sp.artists|] == sp.artists;
    }
  }

  /** What one iteration does to the artists row found for `k`: a row already
      there stays; a key the track bumps for the first time gets a row carrying
      the track's own lastModified; any other key stays absent. */
  lemma {:induction false} ArtistStepFind(s: ArtistPassState, t: Track, sets: map<string, set<string>>, k: Key)
    ensures var s' := ArtistStep(s, t, sets);
            && (HasKey(s.artists, k) ==> Find(s'.artists, k) == Find(s.artists, k))
            && (!HasKey(s.artists, k) && k !in s.lastModified && BumpsArtist(t, sets, k) ==>
                  Find(s'.artists, k).Some? && Find(s'.artists, k).value.lastModified == t.lastModified)
            && (!HasKey(s.artists, k) && !BumpsArtist(t, sets, k) ==> !HasKey(s'.artists, k))
  {
    var s1 := CompilationStep(s, t, sets);
    var s' := OwnArtistStep(s1, t);
    if IsCompilation(sets, t.album) {
      var lm := Bump(s.lastModified, CompilationKey, t.lastModified);
      InsertFind(s.artists, ArtistRow(0, COMPILATION_ARTIST, "", lm[CompilationKey]), k);
    }
    var lm := Bump(s1.lastModified, OwnArtistKey(t), t.lastModified);
    InsertFind(s1.artists, ArtistRow(0, t.artist, t.artistDisambiguation, lm[OwnArtistKey(t)]), k);
  }

  /** Before the first track that bumps `k`, the pass has neither a row nor a
      running maximum for it. */
  lemma {:induction false} ArtistPassBeforeFirst(s0: ArtistPassState, ts: seq<Track>,
                                                 sets: map<string, set<string>>, k: Key)
    requires !HasKey(s0.artists, k) && k !in s0.lastModified
    requires forall j | 0 <= j < |ts| :: !BumpsArtist(ts[j], sets, k)
    ensures !HasKey(ArtistPass(s0, ts, sets).artists, k)
    ensures k !in ArtistPass(s0, ts, sets).lastModified
    decreases |ts|
  {
    if |ts| > 0 {
      var p := ts[..|ts| - 1];
      assert forall j | 0 <= j < |p| :: p[j] == ts[j];
      ArtistPassBeforeFirst(s0, p, sets, k);
      ArtistStepFind(ArtistPass(s0, p, sets), ts[|ts| - 1], sets, k);
      ArtistStepBumps(ArtistPass(s0, p, sets), ts[|ts| - 1], sets, k);
    }
  }

  /** Once a row for `k` exists, later iterations keep it as it is. */
  lemma {:induction false} ArtistPassFindStable(s0: ArtistPassState, ts: seq<Track>,
                                                sets: map<string, set<string>>, k: Key, n: nat)
    requires n <= |ts| && HasKey(ArtistPass(s0, ts[..n], sets).artists, k)
    ensures Find(ArtistPass(s0, ts, sets).artists, k) == Find(ArtistPass(s0, ts[..n], sets).artists, k)
    decreases |ts| - n
  {
    if n < |ts| {
      var p := ts[..|ts| - 1];
      assert p[..n] == ts[..n];
      ArtistPassFindStable(s0, p, sets, k, n);
      assert Find(ArtistPass(s0, p, sets).artists, k).Some?;
      ArtistStepFind(ArtistPass(s0, p, sets), ts[|ts| - 1], sets, k);
    } else {
      assert ts[..n] == ts;
    }
  }

  /** Only the first insert per key is stored: a new artists row keeps the
      lastModified of the first track that bumped its key, not the running
      maximum the later inserts carry. */
  lemma {:induction false} ArtistFirstInsertWins(s0: ArtistPassState, ts: seq<Track>, sets: map<string, set<string>>,
                              k: Key, i: int)
    requires s0.lastModified == map[] && !HasKey(s0.artists, k)
    requires 0 <= i < |ts| && BumpsArtist(ts[i], sets, k)
    requires forall j | 0 <= j < i :: !BumpsArtist(ts[j], sets, k)
    ensures Find(ArtistPass(s0, ts, sets).artists, k).Some?
    ensures Find(ArtistPass(s0, ts, sets).artists, k).value.lastModified == ts[i].lastModified
  {
    var before := ts[..i];
    assert forall j | 0 <= j < |before| :: before[j] == ts[j];
    ArtistPassBeforeFirst(s0, before, sets, k);
    assert ts[..i + 1][..i] == before;
    ArtistStepFind(ArtistPass(s0, before, sets), ts[i], sets, k);
    ArtistPassFindStable(s0, ts, sets, k, i + 1);
  }

  /** What one iteration does to the albumArtists row found for `k`: a row
      already there stays; a new row for the track's album artist carries the
      running maximum of the track's own artist key after the iteration; any
      other key stays absent. */
  lemma {:induction false} AlbumArtistStepFind(s: ArtistPassState, t: Track, sets: map<string, set<string>>, k: Key)
    ensures var s' := ArtistStep(s, t, sets);
            && (HasKey(s.albumArtists, k) ==> Find(s'.albumArtists, k) == Find(s.albumArtists, k))
            && (!HasKey(s.albumArtists, k) && AlbumArtistKey(t) == k ==>
                  Find(s'.albumArtists, k).Some? &&
                  Find(s'.albumArtists, k).value.lastModified == s'.lastModified[OwnArtistKey(t)])
            && (!HasKey(s.albumArtists, k) && AlbumArtistKey(t) != k ==> !HasKey(s'.albumArtists, k))
  {
    var s1 := CompilationStep(s, t, sets);
    var lm := Bump(s1.lastModified, OwnArtistKey(t), t.lastModified);
    InsertFind(s1.albumArtists, ArtistRow(0, t.albumArtist, t.albumArtistDisambiguation, lm[OwnArtistKey(t)]), k);
  }

  lemma {:induction false} AlbumArtistPassBeforeFirst(s0: ArtistPassState, ts: seq<Track>,
                                                      sets: map<string, set<string>>, k: Key)
    requires !HasKey(s0.albumArtists, k)
    requires forall j | 0 <= j < |ts| :: AlbumArtistKey(ts[j]) != k
    ensures !HasKey(ArtistPass(s0, ts, sets).albumArtists, k)
    decreases |ts|
  {
    if |ts| > 0 {
      var p := ts[..|ts| - 1];
      assert forall j | 0 <= j < |p| :: p[j] == ts[j];
      AlbumArtistPassBeforeFirst(s0, p, sets, k);
      AlbumArtistStepFind(ArtistPass(s0, p, sets), ts[|ts| - 1], sets, k);
    }
  }

  lemma {:induction false} AlbumArtistPassFindStable(s0: ArtistPassState, ts: seq<Track>,
                                                     sets: map<string, set<string>>, k: Key, n: nat)
    requires n <= |ts| && HasKey(ArtistPass(s0, ts[..n], sets).albumArtists, k)
    ensures Find(ArtistPass(s0, ts, sets).albumArtists, k) == Find(ArtistPass(s0, ts[..n], sets).albumArtists, k)
    decreases |ts| - n
  {
    if n < |ts| {
      var p := ts[..|ts| - 1];
      assert p[..n] == ts[..n];
      AlbumArtistPassFindStable(s0, p, sets, k, n);
      assert Find(ArtistPass(s0, p, sets).albumArtists, k).Some?;
      AlbumArtistStepFind(ArtistPass(s0, p, sets), ts[|ts| - 1], sets, k);
    } else {
      assert ts[..n] == ts;
    }
  }

  /** A new albumArtists row keeps the value the first track naming its album
      artist inserted: the running maximum of that track's own artist key
      right after its iteration. */
  lemma {:induction false} AlbumArtistFirstInsertValue(s0: ArtistPassState, ts: seq<Track>,
                                                       sets: map<string, set<string>>, k: Key, i: int)
    requires !HasKey(s0.albumArtists, k)
    requires 0 <= i < |ts| && AlbumArtistKey(ts[i]) == k
    requires forall j | 0 <= j < i :: AlbumArtistKey(ts[j]) != k
    ensures Find(ArtistPass(s0, ts, sets).albumArtists, k).Some?
    ensures OwnArtistKey(ts[i]) in ArtistPass(s0, ts[..i + 1], sets).lastModified
    ensures Find(ArtistPass(s0, ts, sets).albumArtists, k).value.lastModified
            == ArtistPass(s0, ts[..i + 1], sets).lastModified[OwnArtistKey(ts[i])]
  {
    var before := ts[..i];
    assert forall j | 0 <= j < |before| :: before[j] == ts[j];
    AlbumArtistPassBeforeFirst(s0, before, sets, k);
    assert ts[..i + 1][..i] == before;
    AlbumArtistStepFind(ArtistPass(s0, before, sets), ts[i], sets, k);
    ArtistStepBumps(ArtistPass(s0, before, sets), ts[i], sets, OwnArtistKey(ts[i]));
    AlbumArtistPassFindStable(s0, ts, sets, k, i + 1);
  }

  /** The value of a new albumArtists row is the running maximum of the OWN
      artist key of the first track naming its album artist, over the tracks
      up to that one: the largest lastModified among them that bumped the
      track's artist, not among those that name the album artist. */
  lemma {:induction false} AlbumArtistFirstInsert(s0: ArtistPassState, ts: seq<Track>, sets: map<string, set<string>>,
                                                  k: Key, i: int)
    requires s0.lastModified == map[] && !HasKey(s0.albumArtists, k)
    requires 0 <= i < |ts| && AlbumArtistKey(ts[i]) == k
    requires forall j | 0 <= j < i :: AlbumArtistKey(ts[j]) != k
    ensures Find(ArtistPass(s0, ts, sets).albumArtists, k).Some?
    ensures var v := Find(ArtistPass(s0, ts, sets).albumArtists, k).value.lastModified;
            && (forall j | 0 <= j <= i && BumpsArtist(ts[j], sets, OwnArtistKey(ts[i])) :: ts[j].lastModified <= v)
            && (exists j | 0 <= j <= i && BumpsArtist(ts[j], sets, OwnArtistKey(ts[i])) :: ts[j].lastModified == v)
  {
    AlbumArtistFirstInsertValue(s0, ts, sets, k, i);
    var upTo := ts[..i + 1];
    var own := OwnArtistKey(ts[i]);
    var v := ArtistPass(s0, upTo, sets).lastModified[own];
    ArtistRunningMax(s0, upTo, sets, own);
    forall j | 0 <= j <= i && BumpsArtist(ts[j], sets, own) ensures ts[j].lastModified <= v {
      assert upTo[j] == ts[j];
    }
    var j :| 0 <= j < |upTo| && BumpsArtist(upTo[j], sets, own) && upTo[j].lastModified == v;
    assert ts[j] == upTo[j];
  }

  // ---------------------------------------------------------------------------
  // Third loop: albums

  /** The id the albums row of `t` is attributed to. It is looked up in the
      ids of the artists table (not albumArtists): the track's own artist when
      the album's set holds one name, the compilation artist otherwise. */
  function AlbumArtistIdOf(t: Track, sets: map<string, set<string>>, cachedArtists: map<Key, int>): int
    requires t.album in sets && OwnArtistKey(t) in cachedArtists
    requires |sets[t.album]| != 1 ==> CompilationKey in cachedArtists
  {
    if |sets[t.album]| == 1 then cachedArtists[OwnArtistKey(t)] else cachedArtists[CompilationKey]
  }

  /** Every lookup the third and fourth loops make in the artist id map succeeds. */
  predicate ArtistIdsResolvable(ts: seq<Track>, sets: map<string, set<string>>, cachedArtists: map<Key, int>) {
    forall i | 0 <= i < |ts| ::
      && ts[i].album in sets
      && OwnArtistKey(ts[i]) in cachedArtists
      && (|sets[ts[i].album]| != 1 ==> CompilationKey in cachedArtists)
  }

  function AlbumKeyOf(t: Track, sets: map<string, set<string>>, cachedArtists: map<Key, int>): Key
    requires t.album in sets && OwnArtistKey(t) in cachedArtists
    requires |sets[t.album]| != 1 ==> CompilationKey in cachedArtists
  {
    AlbumKey(t.album, AlbumArtistIdOf(t, sets, cachedArtists))
  }

  datatype AlbumPassState = AlbumPassState(albums: seq<Row>, lastModified: map<Key, int>)

  function AlbumStep(s: AlbumPassState, t: Track, sets: map<string, set<string>>,
                     cachedArtists: map<Key, int>): AlbumPassState
    requires t.album in sets && OwnArtistKey(t) in cachedArtists
    requires |sets[t.album]| != 1 ==> CompilationKey in cachedArtists
  {
    var albumArtistId := AlbumArtistIdOf(t, sets, cachedArtists);
    var k := AlbumKey(t.album, albumArtistId);
    var lm := Bump(s.lastModified, k, t.lastModified);
    AlbumPassState(Insert(s.albums, AlbumRow(0, t.album, albumArtistId, t.imagePath, lm[k])), lm)
  }

  function AlbumPass(s0: AlbumPassState, ts: seq<Track>, sets: map<string, set<string>>,
                     cachedArtists: map<Key, int>): AlbumPassState
    requires ArtistIdsResolvable(ts, sets, cachedArtists)
  {
    if |ts| == 0 then s0
    else AlbumStep(AlbumPass(s0, ts[..|ts| - 1], sets, cachedArtists), ts[|ts| - 1], sets, cachedArtists)
  }

  /** One more track of the prefix is one more step of the pass. */
  lemma {:induction false} AlbumPassPrefixStep(s0: AlbumPassState, ts: seq<Track>, i: int,
                                               sets: map<string, set<string>>, cachedArtists: map<Key, int>)
    requires 0 <= i < |ts| && ArtistIdsResolvable(ts, sets, cachedArtists)
    ensures ArtistIdsResolvable(ts[..i], sets, cachedArtists)
    ensures ArtistIdsResolvable(ts[..i + 1], sets, cachedArtists)
    ensures AlbumPass(s0, ts[..i + 1], sets, cachedArtists)
            == AlbumStep(AlbumPass(s0, ts[..i], sets, cachedArtists), ts[i], sets, cachedArtists)
  {
    assert ts[..i + 1][..i] == ts[..i];
  }

  lemma {:induction false} AlbumPassKeys(s0: AlbumPassState, ts: seq<Track>,
                                         sets: map<string, set<string>>, cachedArtists: map<Key, int>)
    requires ArtistIdsResolvable(ts, sets, cachedArtists)
    ensures var s := AlbumPass(s0, ts, sets, cachedArtists);
            && (forall k | HasKey(s0.albums, k) :: HasKey(s.albums, k))
            && (forall i | 0 <= i < |ts| :: HasKey(s.albums, AlbumKeyOf(ts[i], sets, cachedArtists)))
    decreases |ts|
  {
    if |ts| > 0 {
      var p, t := ts[..|ts| - 1], ts[|ts| - 1];
      assert ArtistIdsResolvable(p, sets, cachedArtists) by {
        forall i | 0 <= i < |p| ensures p[i] == ts[i] { }
      }
      AlbumPassKeys(s0, p, sets, cachedArtists);
      var sp := AlbumPass(s0, p, sets, cachedArtists);
      var aid := AlbumArtistIdOf(t, sets, cachedArtists);
      var lm := Bump(sp.lastModified, AlbumKey(t.album, aid), t.lastModified);
      var row := AlbumRow(0, t.album, aid, t.imagePath, lm[AlbumKey(t.album, aid)]);
      forall k | HasKey(sp.albums, k) ensures HasKey(Insert(sp.albums, row), k) {
        InsertKeepsKeys(sp.albums, row, k);
      }
      forall i | 0 <= i < |ts|
        ensures HasKey(AlbumPass(s0, ts, sets, cachedArtists).albums, AlbumKeyOf(ts[i], sets, cachedArtists))
      {
        if i < |p| { assert ts[i] == p[i]; }
      }
    }
  }

  lemma {:induction false} AlbumPassNoop(s0: AlbumPassState, ts: seq<Track>,
                                         sets: map<string, set<string>>, cachedArtists: map<Key, int>)
    requires ArtistIdsResolvable(ts, sets, cachedArtists)
    requires forall i | 0 <= i < |ts| :: HasKey(s0.albums, AlbumKeyOf(ts[i], sets, cachedArtists))
    ensures AlbumPass(s0, ts, sets, cachedArtists).albums == s0.albums
    decreases |ts|
  {
    if |ts| > 0 {
      var p := ts[..|ts| - 1];
      forall i | 0 <= i < |p| ensures p[i] == ts[i] { }
      AlbumPassNoop(s0, p, sets, cachedArtists);
    }
  }

  lemma {:induction false} AlbumPassWellFormed(s0: AlbumPassState, ts: seq<Track>,
                                               sets: map<string, set<string>>, cachedArtists: map<Key, int>)
    requires ArtistIdsResolvable(ts, sets, cachedArtists)
    requires ValidTable(s0.albums, AlbumTable)
    ensures ValidTable(AlbumPass(s0, ts, sets, cachedArtists).albums, AlbumTable)
    decreases |ts|
  {
    if |ts| > 0 {
      var p := ts[..|ts| - 1];
      assert ArtistIdsResolvable(p, sets, cachedArtists) by {
        forall i | 0 <= i < |p| ensures p[i] == ts[i] { }
      }
      AlbumPassWellFormed(s0, p, sets, cachedArtists);
      var t, sp := ts[|ts| - 1], AlbumPass(s0, p, sets, cachedArtists);
      var albumArtistId := AlbumArtistIdOf(t, sets, cachedArtists);
      var lm := Bump(sp.lastModified, AlbumKey(t.album, albumArtistId), t.lastModified);
      InsertKeepsWellFormed(sp.albums, AlbumRow(0, t.album, albumArtistId, t.imagePath,
                                                lm[AlbumKey(t.album, albumArtistId)]));
    }
  }

  /** Track `t` bumps key `k` of the albums' running-maximum map: its artist
      ids resolve and its albums insert is keyed by `k`. */
  predicate BumpsAlbum(t: Track, sets: map<string, set<string>>, cachedArtists: map<Key, int>, k: Key) {
    && t.album in sets && OwnArtistKey(t) in cachedArtists
    && (|sets[t.album]| != 1 ==> CompilationKey in cachedArtists)
    && AlbumKeyOf(t, sets, cachedArtists) == k
  }

  lemma {:induction false} ResolvablePrefix(ts: seq<Track>, sets: map<string, set<string>>,
                                            cachedArtists: map<Key, int>, n: nat)
    requires ArtistIdsResolvable(ts, sets, cachedArtists) && n <= |ts|
    ensures ArtistIdsResolvable(ts[..n], sets, cachedArtists)
  {
    forall i | 0 <= i < n ensures ts[..n][i] == ts[i] { }
  }

  /** What one iteration of the third loop does to the running maximum for `k`. */
  lemma {:induction false} AlbumStepBumps(s: AlbumPassState, t: Track, sets: map<string, set<string>>,
                                          cachedArtists: map<Key, int>, k: Key)
    requires t.album in sets && OwnArtistKey(t) in cachedArtists
    requires |sets[t.album]| != 1 ==> CompilationKey in cachedArtists
    ensures var lm, lm' := s.lastModified, AlbumStep(s, t, sets, cachedArtists).lastModified;
            && (BumpsAlbum(t, sets, cachedArtists, k) ==>
                  k in lm' && lm'[k] == (if k in lm then Max(lm[k], t.lastModified) else t.lastModified))
            && (!BumpsAlbum(t, sets, cachedArtists, k) ==> (k in lm' <==> k in lm) && (k in lm ==> lm'[k] == lm[k]))
  {
  }

  /** What one iteration of the third loop does to the albums row found for
      `k`: a row already there stays; a key the track bumps for the first time
      gets a row carrying the running maximum; any other key stays absent. */
  lemma {:induction false} AlbumStepFind(s: AlbumPassState, t: Track, sets: map<string, set<string>>,
                                         cachedArtists: map<Key, int>, k: Key)
    requires t.album in sets && OwnArtistKey(t) in cachedArtists
    requires |sets[t.album]| != 1 ==> CompilationKey in cachedArtists
    ensures var s' := AlbumStep(s, t, sets, cachedArtists);
            && (HasKey(s.albums, k) ==> Find(s'.albums, k) == Find(s.albums, k))
            && (!HasKey(s.albums, k) && BumpsAlbum(t, sets, cachedArtists, k) ==>
                  k in s'.lastModified &&
                  Find(s'.albums, k).Some? && Find(s'.albums, k).value.lastModified == s'.lastModified[k])
            && (!HasKey(s.albums, k) && !BumpsAlbum(t, sets, cachedArtists, k) ==> !HasKey(s'.albums, k))
  {
    var aid := AlbumArtistIdOf(t, sets, cachedArtists);
    var lm := Bump(s.lastModified, AlbumKey(t.album, aid), t.lastModified);
    InsertFind(s.albums, AlbumRow(0, t.album, aid, t.imagePath, lm[AlbumKey(t.album, aid)]), k);
  }

  /** The albums running-maximum map has an entry for `k` exactly when some
      track bumped it. */
  lemma {:induction false} AlbumBumpsDomain(s0: AlbumPassState, ts: seq<Track>, sets: map<string, set<string>>,
                                            cachedArtists: map<Key, int>, k: Key)
    requires ArtistIdsResolvable(ts, sets, cachedArtists) && s0.lastModified == map[]
    ensures k in AlbumPass(s0, ts, sets, cachedArtists).lastModified
            <==> exists i | 0 <= i < |ts| :: BumpsAlbum(ts[i], sets, cachedArtists, k)
    decreases |ts|
  {
    if |ts| > 0 {
      var p, t := ts[..|ts| - 1], ts[|ts| - 1];
      ResolvablePrefix(ts, sets, cachedArtists, |ts| - 1);
      var sp := AlbumPass(s0, p, sets, cachedArtists);
      assert AlbumPass(s0, ts, sets, cachedArtists) == AlbumStep(sp, t, sets, cachedArtists);
      AlbumBumpsDomain(s0, p, sets, cachedArtists, k);
      AlbumStepBumps(sp, t, sets, cachedArtists, k);
      if k in AlbumStep(sp, t, sets, cachedArtists).lastModified {
        if !BumpsAlbum(t, sets, cachedArtists, k) {
          var j :| 0 <= j < |p| && BumpsAlbum(p[j], sets, cachedArtists, k);
          assert ts[j] == p[j];
        }
      } else {
        forall i | 0 <= i < |ts| ensures !BumpsAlbum(ts[i], sets, cachedArtists, k) {
          if i < |p| { assert ts[i] == p[i]; }
        }
      }
    }
  }

  /** No track that bumped `k` carries a larger lastModified than the map. */
  lemma {:induction false} AlbumBumpsBound(s0: AlbumPassState, ts: seq<Track>, sets: map<string, set<string>>,
                                           cachedArtists: map<Key, int>, k: Key, i: int)
    requires ArtistIdsResolvable(ts, sets, cachedArtists)
    requires 0 <= i < |ts| && BumpsAlbum(ts[i], sets, cachedArtists, k)
    ensures k in AlbumPass(s0, ts, sets, cachedArtists).lastModified
    ensures ts[i].lastModified <= AlbumPass(s0, ts, sets, cachedArtists).lastModified[k]
    decreases |ts|
  {
    var p := ts[..|ts| - 1];
    ResolvablePrefix(ts, sets, cachedArtists, |ts| - 1);
    AlbumStepBumps(AlbumPass(s0, p, sets, cachedArtists), ts[|ts| - 1], sets, cachedArtists, k);
    if i < |p| {
      assert p[i] == ts[i];
      AlbumBumpsBound(s0, p, sets, cachedArtists, k, i);
    }
  }

  /** The map's value for `k` is the lastModified of a track that bumped it. */
  lemma {:induction false} AlbumBumpsAttained(s0: AlbumPassState, ts: seq<Track>, sets: map<string, set<string>>,
                                              cachedArtists: map<Key, int>, k: Key)
    requires ArtistIdsResolvable(ts, sets, cachedArtists) && s0.lastModified == map[]
    requires k in AlbumPass(s0, ts, sets, cachedArtists).lastModified
    ensures exists i | 0 <= i < |ts| :: BumpsAlbum(ts[i], sets, cachedArtists, k) &&
              ts[i].lastModified == AlbumPass(s0, ts, sets, cachedArtists).lastModified[k]
    decreases |ts|
  {
    var p := ts[..|ts| - 1];
    ResolvablePrefix(ts, sets, cachedArtists, |ts| - 1);
    var before := AlbumPass(s0, p, sets, cachedArtists).lastModified;
    var after := AlbumPass(s0, ts, sets, cachedArtists).lastModified;
    AlbumStepBumps(AlbumPass(s0, p, sets, cachedArtists), ts[|ts| - 1], sets, cachedArtists, k);
    if k in before && after[k] == before[k] {
      AlbumBumpsAttained(s0, p, sets, cachedArtists, k);
      var j :| 0 <= j < |p| && BumpsAlbum(p[j], sets, cachedArtists, k) && p[j].lastModified == before[k];
      assert ts[j] == p[j];
    } else {
      assert BumpsAlbum(ts[|ts| - 1], sets, cachedArtists, k) && ts[|ts| - 1].lastModified == after[k];
    }
  }

  /** The value the third loop carries for an album key after the tracks `ts`
      is the largest lastModified among the tracks whose album is filed under
      that key. */
  lemma {:induction false} AlbumRunningMax(s0: AlbumPassState, ts: seq<Track>, sets: map<string, set<string>>,
                                           cachedArtists: map<Key, int>, k: Key)
    requires ArtistIdsResolvable(ts, sets, cachedArtists) && s0.lastModified == map[]
    ensures var lm := AlbumPass(s0, ts, sets, cachedArtists).lastModified;
            && (k in lm <==> exists i | 0 <= i < |ts| :: BumpsAlbum(ts[i], sets, cachedArtists, k))
            && (k in lm ==> && (forall i | 0 <= i < |ts| && BumpsAlbum(ts[i], sets, cachedArtists, k) ::
                                  ts[i].lastModified <= lm[k])
                            && (exists i | 0 <= i < |ts| :: BumpsAlbum(ts[i], sets, cachedArtists, k) &&
                                  ts[i].lastModified == lm[k]))
  {
    AlbumBumpsDomain(s0, ts, sets, cachedArtists, k);
    forall i | 0 <= i < |ts| && BumpsAlbum(ts[i], sets, cachedArtists, k)
      ensures ts[i].lastModified <= AlbumPass(s0, ts, sets, cachedArtists).lastModified[k]
    {
      AlbumBumpsBound(s0, ts, sets, cachedArtists, k, i);
    }
    if k in AlbumPass(s0, ts, sets, cachedArtists).lastModified {
      AlbumBumpsAttained(s0, ts, sets, cachedArtists, k);
    }
  }

  lemma {:induction false} AlbumPassBeforeFirst(s0: AlbumPassState, ts: seq<Track>, sets: map<string, set<string>>,
                                                cachedArtists: map<Key, int>, k: Key)
    requires ArtistIdsResolvable(ts, sets, cachedArtists)
    requires !HasKey(s0.albums, k) && k !in s0.lastModified
    requires forall j | 0 <= j < |ts| :: !BumpsAlbum(ts[j], sets, cachedArtists, k)
    ensures !HasKey(AlbumPass(s0, ts, sets, cachedArtists).albums, k)
    ensures k !in AlbumPass(s0, ts, sets, cachedArtists).lastModified
    decreases |ts|
  {
    if |ts| > 0 {
      var p := ts[..|ts| - 1];
      ResolvablePrefix(ts, sets, cachedArtists, |ts| - 1);
      assert forall j | 0 <= j < |p| :: p[j] == ts[j];
      AlbumPassBeforeFirst(s0, p, sets, cachedArtists, k);
      AlbumStepFind(AlbumPass(s0, p, sets, cachedArtists), ts[|ts| - 1], sets, cachedArtists, k);
      AlbumStepBumps(AlbumPass(s0, p, sets, cachedArtists), ts[|ts| - 1], sets, cachedArtists, k);
    }
  }

  lemma {:induction false} AlbumPassFindStable(s0: AlbumPassState, ts: seq<Track>, sets: map<string, set<string>>,
                                               cachedArtists: map<Key, int>, k: Key, n: nat)
    requires ArtistIdsResolvable(ts, sets, cachedArtists) && n <= |ts|
    requires ArtistIdsResolvable(ts[..n], sets, cachedArtists)
    requires HasKey(AlbumPass(s0, ts[..n], sets, cachedArtists).albums, k)
    ensures Find(AlbumPass(s0, ts, sets, cachedArtists).albums, k)
            == Find(AlbumPass(s0, ts[..n], sets, cachedArtists).albums, k)
    decreases |ts| - n
  {
    if n < |ts| {
      var p := ts[..|ts| - 1];
      ResolvablePrefix(ts, sets, cachedArtists, |ts| - 1);
      assert p[..n] == ts[..n];
      AlbumPassFindStable(s0, p, sets, cachedArtists, k, n);
      assert Find(AlbumPass(s0, p, sets, cachedArtists).albums, k).Some?;
      AlbumStepFind(AlbumPass(s0, p, sets, cachedArtists), ts[|ts| - 1], sets, cachedArtists, k);
    } else {
      assert ts[..n] == ts;
    }
  }

  /** Only the first insert per album key is stored: a new albums row keeps the
      lastModified of the first track filed under its key, not the running
      maximum the later inserts carry. */
  lemma {:induction false} AlbumFirstInsertWins(s0: AlbumPassState, ts: seq<Track>, sets: map<string, set<string>>,
                                                cachedArtists: map<Key, int>, k: Key, i: int)
    requires ArtistIdsResolvable(ts, sets, cachedArtists)
    requires s0.lastModified == map[] && !HasKey(s0.albums, k)
    requires 0 <= i < |ts| && BumpsAlbum(ts[i], sets, cachedArtists, k)
    requires forall j | 0 <= j < i :: !BumpsAlbum(ts[j], sets, cachedArtists, k)
    ensures Find(AlbumPass(s0, ts, sets, cachedArtists).albums, k).Some?
    ensures Find(AlbumPass(s0, ts, sets, cachedArtists).albums, k).value.lastModified == ts[i].lastModified
  {
    var before := ts[..i];
    ResolvablePrefix(ts, sets, cachedArtists, i);
    ResolvablePrefix(ts, sets, cachedArtists, i + 1);
    assert forall j | 0 <= j < |before| :: before[j] == ts[j];
    AlbumPassBeforeFirst(s0, before, sets, cachedArtists, k);
    assert ts[..i + 1][..i] == before;
    AlbumStepFind(AlbumPass(s0, before, sets, cachedArtists), ts[i], sets, cachedArtists, k);
    AlbumStepBumps(AlbumPass(s0, before, sets, cachedArtists), ts[i], sets, cachedArtists, k);
    AlbumPassFindStable(s0, ts, sets, cachedArtists, k, i + 1);
  }

  // ---------------------------------------------------------------------------
  // Fourth loop: artistAlbums links and tracks

  predicate AlbumIdsResolvable(ts: seq<Track>, sets: map<string, set<string>>,
                               cachedArtists: map<Key, int>, cachedAlbums: map<Key, int>)
  {
    && ArtistIdsResolvable(ts, sets, cachedArtists)
    && forall i | 0 <= i < |ts| :: AlbumKeyOf(ts[i], sets, cachedArtists) in cachedAlbums
  }

  datatype TrackPassState = TrackPassState(artistAlbums: seq<Row>, tracks: seq<Row>)

  function TrackStep(s: TrackPassState, t: Track, sets: map<string, set<string>>,
                     cachedArtists: map<Key, int>, cachedAlbums: map<Key, int>): TrackPassState
    requires t.album in sets && OwnArtistKey(t) in cachedArtists
    requires |sets[t.album]| != 1 ==> CompilationKey in cachedArtists
    requires AlbumKeyOf(t, sets, cachedArtists) in cachedAlbums
  {
    var artistId := cachedArtists[OwnArtistKey(t)];
    var albumId := cachedAlbums[AlbumKeyOf(t, sets, cachedArtists)];
    TrackPassState(
      Insert(s.artistAlbums, ArtistAlbumRow(0, albumId, artistId)),
      Insert(s.tracks, TrackRow(0, t.track, artistId, albumId, t.url, t.duration, t.albumPos,
                                t.linkUrl, t.lastModified)))
  }

  function TrackPass(s0: TrackPassState, ts: seq<Track>, sets: map<string, set<string>>,
                     cachedArtists: map<Key, int>, cachedAlbums: map<Key, int>): TrackPassState
    requires AlbumIdsResolvable(ts, sets, cachedArtists, cachedAlbums)
  {
    if |ts| == 0 then s0
    else TrackStep(TrackPass(s0, ts[..|ts| - 1], sets, cachedArtists, cachedAlbums),
                   ts[|ts| - 1], sets, cachedArtists, cachedAlbums)
  }

  /** The link and track keys the fourth loop inserts for `t`. */
  function LinkKeyOf(t: Track, sets: map<string, set<string>>,
                     cachedArtists: map<Key, int>, cachedAlbums: map<Key, int>): Key
    requires t.album in sets && OwnArtistKey(t) in cachedArtists
    requires |sets[t.album]| != 1 ==> CompilationKey in cachedArtists
    requires AlbumKeyOf(t, sets, cachedArtists) in cachedAlbums
  {
    ArtistAlbumKey(cachedAlbums[AlbumKeyOf(t, sets, cachedArtists)], cachedArtists[OwnArtistKey(t)])
  }

  function TrackKeyOf(t: Track, sets: map<string, set<string>>,
                      cachedArtists: map<Key, int>, cachedAlbums: map<Key, int>): Key
    requires t.album in sets && OwnArtistKey(t) in cachedArtists
    requires |sets[t.album]| != 1 ==> CompilationKey in cachedArtists
    requires AlbumKeyOf(t, sets, cachedArtists) in cachedAlbums
  {
    TrackKey(t.track, cachedArtists[OwnArtistKey(t)], cachedAlbums[AlbumKeyOf(t, sets, cachedArtists)])
  }

  lemma {:induction false} TrackPassKeys(s0: TrackPassState, ts: seq<Track>, sets: map<string, set<string>>,
                                         cachedArtists: map<Key, int>, cachedAlbums: map<Key, int>)
    requires AlbumIdsResolvable(ts, sets, cachedArtists, cachedAlbums)
    ensures var s := TrackPass(s0, ts, sets, cachedArtists, cachedAlbums);
            && (forall i | 0 <= i < |ts| ::
                  && HasKey(s.artistAlbums, LinkKeyOf(ts[i], sets, cachedArtists, cachedAlbums))
                  && HasKey(s.tracks, TrackKeyOf(ts[i], sets, cachedArtists, cachedAlbums)))
    decreases |ts|
  {
    if |ts| > 0 {
      var p, t := ts[..|ts| - 1], ts[|ts| - 1];
      assert AlbumIdsResolvable(p, sets, cachedArtists, cachedAlbums) by {
        forall i | 0 <= i < |p| ensures p[i] == ts[i] { }
      }
      TrackPassKeys(s0, p, sets, cachedArtists, cachedAlbums);
      var sp := TrackPass(s0, p, sets, cachedArtists, cachedAlbums);
      var artistId := cachedArtists[OwnArtistKey(t)];
      var albumId := cachedAlbums[AlbumKeyOf(t, sets, cachedArtists)];
      var link := ArtistAlbumRow(0, albumId, artistId);
      var row := TrackRow(0, t.track, artistId, albumId, t.url, t.duration, t.albumPos,
                          t.linkUrl, t.lastModified);
      forall i | 0 <= i < |ts|
        ensures HasKey(Insert(sp.artistAlbums, link), LinkKeyOf(ts[i], sets, cachedArtists, cachedAlbums))
        ensures HasKey(Insert(sp.tracks, row), TrackKeyOf(ts[i], sets, cachedArtists, cachedAlbums))
      {
        if i < |p| {
          assert ts[i] == p[i];
          InsertKeepsKeys(sp.artistAlbums, link, LinkKeyOf(ts[i], sets, cachedArtists, cachedAlbums));
          InsertKeepsKeys(sp.tracks, row, TrackKeyOf(ts[i], sets, cachedArtists, cachedAlbums));
        } else {
          assert ts[i] == t && link.Key() == LinkKeyOf(t, sets, cachedArtists, cachedAlbums);
        }
      }
    }
  }

  lemma {:induction false} TrackPassNoop(s0: TrackPassState, ts: seq<Track>, sets: map<string, set<string>>,
                                         cachedArtists: map<Key, int>, cachedAlbums: map<Key, int>)
    requires AlbumIdsResolvable(ts, sets, cachedArtists, cachedAlbums)
    requires forall i | 0 <= i < |ts| ::
               && HasKey(s0.artistAlbums, LinkKeyOf(ts[i], sets, cachedArtists, cachedAlbums))
               && HasKey(s0.tracks, TrackKeyOf(ts[i], sets, cachedArtists, cachedAlbums))
    ensures TrackPass(s0, ts, sets, cachedArtists, cachedAlbums) == s0
    decreases |ts|
  {
    if |ts| > 0 {
      var p := ts[..|ts| - 1];
      forall i | 0 <= i < |p| ensures p[i] == ts[i] { }
      TrackPassNoop(s0, p, sets, cachedArtists, cachedAlbums);
    }
  }

  lemma {:induction false} TrackStepWellFormed(s: TrackPassState, t: Track, sets: map<string, set<string>>,
                            cachedArtists: map<Key, int>, cachedAlbums: map<Key, int>)
    requires t.album in sets && OwnArtistKey(t) in cachedArtists
    requires |sets[t.album]| != 1 ==> CompilationKey in cachedArtists
    requires AlbumKeyOf(t, sets, cachedArtists) in cachedAlbums
    requires ValidTable(s.artistAlbums, LinkTable) && ValidTable(s.tracks, TrackTable)
    ensures ValidTable(TrackStep(s, t, sets, cachedArtists, cachedAlbums).artistAlbums, LinkTable)
    ensures ValidTable(TrackStep(s, t, sets, cachedArtists, cachedAlbums).tracks, TrackTable)
  {
    var artistId := cachedArtists[OwnArtistKey(t)];
    var albumId := cachedAlbums[AlbumKeyOf(t, sets, cachedArtists)];
    InsertKeepsWellFormed(s.artistAlbums, ArtistAlbumRow(0, albumId, artistId));
    InsertKeepsWellFormed(s.tracks, TrackRow(0, t.track, artistId, albumId, t.url, t.duration, t.albumPos,
                                             t.linkUrl, t.lastModified));
  }

  lemma {:induction false} TrackPassWellFormed(s0: TrackPassState, ts: seq<Track>, sets: map<string, set<string>>,
                                               cachedArtists: map<Key, int>, cachedAlbums: map<Key, int>)
    requires AlbumIdsResolvable(ts, sets, cachedArtists, cachedAlbums)
    requires ValidTable(s0.artistAlbums, LinkTable) && ValidTable(s0.tracks, TrackTable)
    ensures ValidTable(TrackPass(s0, ts, sets, cachedArtists, cachedAlbums).artistAlbums, LinkTable)
    ensures ValidTable(TrackPass(s0, ts, sets, cachedArtists, cachedAlbums).tracks, TrackTable)
    decreases |ts|
  {
    if |ts| > 0 {
      var p := ts[..|ts| - 1];
      assert AlbumIdsResolvable(p, sets, cachedArtists, cachedAlbums) by {
        forall i | 0 <= i < |p| ensures p[i] == ts[i] { }
      }
      TrackPassWellFormed(s0, p, sets, cachedArtists, cachedAlbums);
      TrackStepWellFormed(TrackPass(s0, p, sets, cachedArtists, cachedAlbums), ts[|ts| - 1],
                          sets, cachedArtists, cachedAlbums);
    }
  }

  // ---------------------------------------------------------------------------
  // The whole transaction

  /** After the second loop every id lookup of the later loops succeeds. */
  lemma {:induction false} ArtistIdsResolve(s0: ArtistPassState, ts: seq<Track>)
    ensures ArtistIdsResolvable(ts, ArtistSets(ts), IdMap(ArtistPass(s0, ts, ArtistSets(ts)).artists))
  {
    var sets := ArtistSets(ts);
    var artists := ArtistPass(s0, ts, sets).artists;
    ArtistPassKeys(s0, ts, sets);
    forall i | 0 <= i < |ts|
      ensures ts[i].album in sets && OwnArtistKey(ts[i]) in IdMap(artists)
      ensures |sets[ts[i].album]| != 1 ==> CompilationKey in IdMap(artists)
    {
      CompilationIffSeveralArtists(ts, i);
      IdMapKeys(artists, OwnArtistKey(ts[i]));
      IdMapKeys(artists, CompilationKey);
    }
  }

  lemma {:induction false} AlbumIdsResolve(s0: AlbumPassState, ts: seq<Track>, sets: map<string, set<string>>,
                        cachedArtists: map<Key, int>)
    requires ArtistIdsResolvable(ts, sets, cachedArtists)
    ensures AlbumIdsResolvable(ts, sets, cachedArtists, IdMap(AlbumPass(s0, ts, sets, cachedArtists).albums))
  {
    var albums := AlbumPass(s0, ts, sets, cachedArtists).albums;
    AlbumPassKeys(s0, ts, sets, cachedArtists);
    forall i | 0 <= i < |ts| ensures AlbumKeyOf(ts[i], sets, cachedArtists) in IdMap(albums) {
      IdMapKeys(albums, AlbumKeyOf(ts[i], sets, cachedArtists));
    }
  }

  /** The intermediate results of one addTracks transaction. */
  datatype Run = Run(ts: seq<Track>, sets: map<string, set<string>>, artistPass: ArtistPassState,
                     cachedArtists: map<Key, int>, albumPass: AlbumPassState,
                     cachedAlbums: map<Key, int>, trackPass: TrackPassState)

  function RunOf(db: Tables, batch: seq<RawTrack>): (r: Run)
    ensures AlbumIdsResolvable(r.ts, r.sets, r.cachedArtists, r.cachedAlbums)
  {
    var ts := NormalizeAll(batch);
    var sets := ArtistSets(ts);
    var ap := ArtistPass(ArtistPassState(db.artists, db.albumArtists, map[]), ts, sets);
    var cachedArtists := IdMap(ap.artists);
    ArtistIdsResolve(ArtistPassState(db.artists, db.albumArtists, map[]), ts);
    var alp := AlbumPass(AlbumPassState(db.albums, map[]), ts, sets, cachedArtists);
    var cachedAlbums := IdMap(alp.albums);
    AlbumIdsResolve(AlbumPassState(db.albums, map[]), ts, sets, cachedArtists);
    var tp := TrackPass(TrackPassState(db.artistAlbums, db.tracks), ts, sets, cachedArtists, cachedAlbums);
    Run(ts, sets, ap, cachedArtists, alp, cachedAlbums, tp)
  }

  /** The tables after a successful addTracks transaction. */
  function Ingest(db: Tables, batch: seq<RawTrack>): Tables
  {
    var r := RunOf(db, batch);
    Tables(r.artistPass.artists, r.artistPass.albumArtists, r.albumPass.albums,
           r.trackPass.artistAlbums, r.trackPass.tracks)
  }

  /** Ingesting keeps every table constraint. */
  lemma {:induction false} IngestKeepsValid(db: Tables, batch: seq<RawTrack>)
    requires ValidTables(db)
    ensures ValidTables(Ingest(db, batch))
  {
    var r := RunOf(db, batch);
    ArtistPassWellFormed(ArtistPassState(db.artists, db.albumArtists, map[]), r.ts, r.sets);
    AlbumPassWellFormed(AlbumPassState(db.albums, map[]), r.ts, r.sets, r.cachedArtists);
    TrackPassWellFormed(TrackPassState(db.artistAlbums, db.tracks), r.ts, r.sets, r.cachedArtists, r.cachedAlbums);
  }

  /** The artist a track's album is filed under: COMPILATION_ARTIST when the
      batch holds the album by more than one artist, the track's own artist
      otherwise. */
  function FiledKey(ts: seq<Track>, t: Track): (k: Key)
    ensures k.ArtistKey?
  {
    if |ArtistsOf(ts, t.album)| > 1 then CompilationKey else OwnArtistKey(t)
  }

  /** A track is filed under `albumArtist` in `out`: its own artist and the
      album artist have artists rows, the album has an albums row under the
      album artist's id, and the track row and the artist-album link exist. */
  predicate FiledUnder(out: Tables, t: Track, albumArtist: Key) {
    && Find(out.artists, OwnArtistKey(t)).Some?
    && Find(out.artists, albumArtist).Some?
    && var artistId := Find(out.artists, OwnArtistKey(t)).value.id;
       var albumKey := AlbumKey(t.album, Find(out.artists, albumArtist).value.id);
       && Find(out.albums, albumKey).Some?
       && var albumId := Find(out.albums, albumKey).value.id;
          && HasKey(out.tracks, TrackKey(t.track, artistId, albumId))
          && HasKey(out.artistAlbums, ArtistAlbumKey(albumId, artistId))
  }

  /** The attribution rule. For the i-th track of a batch, after ingesting:
      its artists row exists; the albums row it is filed under is keyed by the
      album name and, when the batch holds tracks of that album by more than one
      distinct artist, the id of the artists row (COMPILATION_ARTIST, ""), else
      the id of the track's own artists row; and the artistAlbums link and the
      tracks row carry the track's own artist id and that album's id. */
  lemma {:induction false} IngestAttribution(db: Tables, batch: seq<RawTrack>, i: int)
    requires ValidTables(db) && 0 <= i < |batch|
    ensures FiledUnder(Ingest(db, batch), Normalize(batch[i]), FiledKey(NormalizeAll(batch), Normalize(batch[i])))
  {
    var r := RunOf(db, batch);
    var out := Ingest(db, batch);
    var ts := r.ts;
    var t := ts[i];
    var s0 := ArtistPassState(db.artists, db.albumArtists, map[]);
    ArtistPassWellFormed(s0, ts, r.sets);
    ArtistPassKeys(s0, ts, r.sets);
    AlbumPassWellFormed(AlbumPassState(db.albums, map[]), ts, r.sets, r.cachedArtists);
    AlbumPassKeys(AlbumPassState(db.albums, map[]), ts, r.sets, r.cachedArtists);
    TrackPassKeys(TrackPassState(db.artistAlbums, db.tracks), ts, r.sets, r.cachedArtists, r.cachedAlbums);
    CompilationIffSeveralArtists(ts, i);
    IdMapFinds(out.artists, OwnArtistKey(t));
    if IsCompilation(r.sets, t.album) {
      IdMapFinds(out.artists, CompilationKey);
    }
    IdMapFinds(out.albums, AlbumKeyOf(t, r.sets, r.cachedArtists));
  }

  /** Re-running addTracks on the same batch adds no row to any table: every
      insert of the second run hits a key the first run left behind. */
  lemma {:induction false} IngestIdempotent(db: Tables, batch: seq<RawTrack>)
    ensures Ingest(Ingest(db, batch), batch) == Ingest(db, batch)
  {
    var r1 := RunOf(db, batch);
    var db1 := Ingest(db, batch);
    var r2 := RunOf(db1, batch);
    var ts, sets := r1.ts, r1.sets;
    assert r2.ts == ts && r2.sets == sets;
    ArtistPassKeys(ArtistPassState(db.artists, db.albumArtists, map[]), ts, sets);
    ArtistPassNoop(ArtistPassState(db1.artists, db1.albumArtists, map[]), ts, sets);
    assert r2.cachedArtists == r1.cachedArtists;
    AlbumPassKeys(AlbumPassState(db.albums, map[]), ts, sets, r1.cachedArtists);
    AlbumPassNoop(AlbumPassState(db1.albums, map[]), ts, sets, r1.cachedArtists);
    assert r2.cachedAlbums == r1.cachedAlbums;
    TrackPassKeys(TrackPassState(db.artistAlbums, db.tracks), ts, sets, r1.cachedArtists, r1.cachedAlbums);
    TrackPassNoop(TrackPassState(db1.artistAlbums, db1.tracks), ts, sets, r1.cachedArtists, r1.cachedAlbums);
  }
}
