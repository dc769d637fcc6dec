/** The values the info system's logged-op queue works on, and the pure
    functions that specify each step of it: registering the op log,
    acknowledging sent requests and delivering queued ops. */
module InfoOps {
  import opened Common
  import opened Media

  /** InfoRequestData's request types that the queue distinguishes. */
  datatype RequestType =
    | Artists | ArtistsTopHits | ArtistsAlbums
    | Playlists | PlaylistEntries | PlaybackLogEntries
    | OtherRequest(code: int)

  datatype HttpType = HttpGet | HttpPost | HttpPut | HttpDelete

  /** QueryParams: the artist name a resolution asks about, the local id of
      the playlist a playlist op concerns and the hatchet id filled in for it. */
  datatype QueryParams = QueryParams(name: string, playlistLocalId: string, playlistId: Option<string>)

  const NoParams: QueryParams := QueryParams("", "", None)

  /** HatchetPlaybackLogEntry: type "nowplaying" is the flag. */
  datatype PlaybackLogEntry = PlaybackLogEntry(album: string, artist: string, track: string,
                                               nowPlaying: bool, timestamp: int)

  /** The JSON an op posts, as the structure it serializes. */
  datatype Payload =
    | NoPayload
    | PlaybackLogPost(entry: PlaybackLogEntry)
    | PlaylistEntryPost(trackJson: string, playlist: Option<string>)
    | OtherJson(json: string)

  /** An InfoRequestData: its session-unique request id, the id of its op-log
      row, its types, parameters and payload, and the hatchet id of the
      playlist the server created for it (its result list, once answered). */
  datatype Op = Op(requestId: string, loggedOpId: int, requestType: RequestType, httpType: HttpType,
                   params: QueryParams, payload: Payload, createdPlaylist: Option<string>)

  /** OpLogIsEmptiedEvent. */
  datatype OpLogIsEmptied = OpLogIsEmptied(requestTypes: set<RequestType>, playlistIds: set<string>)

  // ---------------------------------------------------------------------------
  // Op sets

  /** Playlist-entry ops and playlist deletes need the playlist's hatchet id,
      so they wait until no playlist creation is outstanding. */
  predicate IsQueued(op: Op) {
    op.requestType == PlaylistEntries || (op.httpType == HttpDelete && op.requestType == Playlists)
  }

  /** A playlist op that is not a delete creates the playlist on the server. */
  predicate CreatesPlaylist(op: Op) {
    !IsQueued(op) && op.requestType == Playlists
  }

  function LoggedIds(ops: seq<Op>): (r: set<int>)
    ensures r == {} <==> ops == []
  {
    if |ops| == 0 then {} else LoggedIds(ops[..|ops| - 1]) + {ops[|ops| - 1].loggedOpId}
  }

  /** The ids are those of the ops. */
  lemma {:induction false} LoggedIdsOf(ops: seq<Op>, id: int)
    ensures id in LoggedIds(ops) <==> exists i | 0 <= i < |ops| :: ops[i].loggedOpId == id
    decreases |ops|
  {
    if |ops| > 0 {
      var p := ops[..|ops| - 1];
      LoggedIdsOf(p, id);
      if id in LoggedIds(p) {
        var i :| 0 <= i < |p| && p[i].loggedOpId == id;
        assert ops[i] == p[i];
      }
      if id != ops[|ops| - 1].loggedOpId && exists i | 0 <= i < |ops| :: ops[i].loggedOpId == id {
        var i :| 0 <= i < |ops| && ops[i].loggedOpId == id;
        assert p[i] == ops[i];
      }
    }
  }

  function RequestIdsOf(ops: seq<Op>): (r: seq<string>)
    ensures |r| == |ops|
  {
    if |ops| == 0 then [] else RequestIdsOf(ops[..|ops| - 1]) + [ops[|ops| - 1].requestId]
  }

  /** The op-log ids are the rows' primary keys. */
  predicate DistinctLoggedIds(ops: seq<Op>) {
    forall i, j | 0 <= i < j < |ops| :: ops[i].loggedOpId != ops[j].loggedOpId
  }

  /** The ops whose id is not among `known`, in order. */
  function Unknown(known: set<int>, ops: seq<Op>): (r: seq<Op>)
  {
    if |ops| == 0 then []
    else
      var x := ops[|ops| - 1];
      Unknown(known, ops[..|ops| - 1]) + if x.loggedOpId in known then [] else [x]
  }

  /** The ops that wait for hatchet ids, in order. */
  function Queueable(ops: seq<Op>): (r: seq<Op>)
  {
    if |ops| == 0 then []
    else Queueable(ops[..|ops| - 1]) + if IsQueued(ops[|ops| - 1]) then [ops[|ops| - 1]] else []
  }

  /** The ops sent as soon as they are registered, in order. */
  function Direct(ops: seq<Op>): (r: seq<Op>)
  {
    if |ops| == 0 then []
    else Direct(ops[..|ops| - 1]) + if IsQueued(ops[|ops| - 1]) then [] else [ops[|ops| - 1]]
  }

  /** The playlist creations, in order. */
  function Creations(ops: seq<Op>): (r: seq<Op>)
  {
    if |ops| == 0 then []
    else Creations(ops[..|ops| - 1]) + if CreatesPlaylist(ops[|ops| - 1]) then [ops[|ops| - 1]] else []
  }

  /** DatabaseHelper.removeOpsFromInfoSystemOpLog: drop the rows with the
      given ids, keeping the order of the rest. */
  function RemoveOps(log: seq<Op>, ids: set<int>): (r: seq<Op>)
    ensures |r| <= |log|
  {
    if |log| == 0 then []
    else
      var x := log[|log| - 1];
      RemoveOps(log[..|log| - 1], ids) + if x.loggedOpId in ids then [] else [x]
  }

  /** The rows left are exactly the rows whose id is not removed. */
  lemma {:induction false} RemoveOpsMember(log: seq<Op>, ids: set<int>, x: Op)
    ensures x in RemoveOps(log, ids) <==> x in log && x.loggedOpId !in ids
    decreases |log|
  {
    if |log| > 0 {
      var p, y := log[..|log| - 1], log[|log| - 1];
      RemoveOpsMember(p, ids, x);
      assert log == p + [y];
      assert x in log <==> x in p || x == y;
    }
  }

  /** Removing rows keeps the primary keys distinct. */
  lemma {:induction false} RemoveOpsDistinct(log: seq<Op>, ids: set<int>)
    requires DistinctLoggedIds(log)
    ensures DistinctLoggedIds(RemoveOps(log, ids))
    decreases |log|
  {
    if |log| > 0 {
      var p := log[..|log| - 1];
      var x := log[|log| - 1];
      assert DistinctLoggedIds(p);
      RemoveOpsDistinct(p, ids);
      var rp := RemoveOps(p, ids);
      forall y | y in rp
        ensures y.loggedOpId != x.loggedOpId
      {
        RemoveOpsMember(p, ids, y);
        var j :| 0 <= j < |p| && p[j] == y;
        assert log[j] == y;
      }
    }
  }

  /** Removing rows keeps what holds of every stored row: distinct ids below
      the next one and no results; no removed id is left. */
  lemma {:induction false} RemoveOpsKeepsLog(log: seq<Op>, ids: set<int>, nextId: int)
    requires DistinctLoggedIds(log) && NoResults(log)
    requires forall i | 0 <= i < |log| :: log[i].loggedOpId < nextId
    ensures var r := RemoveOps(log, ids);
            && DistinctLoggedIds(r) && NoResults(r)
            && (forall i | 0 <= i < |r| :: r[i].loggedOpId < nextId)
            && (forall i | 0 <= i < |r| :: r[i].loggedOpId !in ids)
  {
    RemoveOpsDistinct(log, ids);
    var r := RemoveOps(log, ids);
    forall i | 0 <= i < |r|
      ensures r[i].loggedOpId < nextId && r[i].createdPlaylist.None? && r[i].loggedOpId !in ids
    {
      assert r[i] in r;
      RemoveOpsMember(log, ids, r[i]);
      var j :| 0 <= j < |log| && log[j] == r[i];
    }
  }

  // ---------------------------------------------------------------------------
  // Registering the op log (the loop of sendLoggedOps)

  /** The state the registration loop updates: mLoggedOpsMap,
      mPlaylistsLoggedOpsMap, mQueuedLoggedOps, mSentRequests, the sends made
      to the plugins, and the request ids returned. */
  datatype Outbox = Outbox(loggedOps: map<int, Op>, playlistOps: map<int, Op>, queued: seq<Op>,
                           sent: map<string, Op>, sends: seq<Op>, requestIds: seq<string>)

  /** One op of the log: skipped when its id is registered already;
      otherwise registered and either queued, or sent (and, when it creates a
      playlist, remembered as outstanding). */
  function Register(o: Outbox, op: Op): Outbox {
    if op.loggedOpId in o.loggedOps then o
    else
      var o1 := o.(loggedOps := o.loggedOps[op.loggedOpId := op], requestIds := o.requestIds + [op.requestId]);
      if IsQueued(op) then o1.(queued := o1.queued + [op])
      else
        var o2 := if op.requestType == Playlists then o1.(playlistOps := o1.playlistOps[op.loggedOpId := op]) else o1;
        o2.(sent := o2.sent[op.requestId := op], sends := o2.sends + [op])
  }

  function RegisterAll(o: Outbox, ops: seq<Op>): Outbox {
    if |ops| == 0 then o else Register(RegisterAll(o, ops[..|ops| - 1]), ops[|ops| - 1])
  }

  /** Registration registers every op of the log and keeps what was
      registered before. */
  lemma {:induction false} RegisterAllKeys(o: Outbox, ops: seq<Op>)
    ensures RegisterAll(o, ops).loggedOps.Keys == o.loggedOps.Keys + LoggedIds(ops)
    decreases |ops|
  {
    if |ops| > 0 {
      var p, x := ops[..|ops| - 1], ops[|ops| - 1];
      var q := RegisterAll(o, p);
      RegisterAllKeys(o, p);
      assert RegisterAll(o, ops).loggedOps == Register(q, x).loggedOps;
      assert Register(q, x).loggedOps.Keys == q.loggedOps.Keys + {x.loggedOpId};
    }
  }

  /** Registering an op that is not registered yet. */
  lemma {:induction false} RegisterNew(o: Outbox, x: Op)
    requires x.loggedOpId !in o.loggedOps
    ensures var r := Register(o, x);
            && r.requestIds == o.requestIds + [x.requestId]
            && r.queued == o.queued + (if IsQueued(x) then [x] else [])
            && r.sends == o.sends + (if IsQueued(x) then [] else [x])
            && r.playlistOps.Keys == o.playlistOps.Keys + (if CreatesPlaylist(x) then {x.loggedOpId} else {})
  {
  }

  /** The filters of a log that gains one new op. */
  lemma {:induction false} FiltersOfNew(f: seq<Op>, x: Op)
    ensures var g := f + [x];
            && RequestIdsOf(g) == RequestIdsOf(f) + [x.requestId]
            && Queueable(g) == Queueable(f) + (if IsQueued(x) then [x] else [])
            && Direct(g) == Direct(f) + (if IsQueued(x) then [] else [x])
  {
    var g := f + [x];
    assert g[..|g| - 1] == f;
  }

  lemma {:induction false} CreationsOfNew(f: seq<Op>, x: Op)
    ensures CreatesPlaylist(x) ==> LoggedIds(Creations(f + [x])) == LoggedIds(Creations(f)) + {x.loggedOpId}
    ensures !CreatesPlaylist(x) ==> LoggedIds(Creations(f + [x])) == LoggedIds(Creations(f))
  {
    var g := f + [x];
    assert g[..|g| - 1] == f;
    if CreatesPlaylist(x) {
      var c := Creations(f) + [x];
      assert Creations(g) == c;
      assert c[..|c| - 1] == Creations(f);
      assert LoggedIds(c) == LoggedIds(Creations(f)) + {x.loggedOpId};
    } else {
      assert Creations(g) == Creations(f);
    }
  }

  /** Peeling the last op off a log with distinct ids: it is new to the
      registration of the rest exactly when it is new to the start. */
  lemma {:induction false} RegisterAllLast(o: Outbox, ops: seq<Op>)
    requires DistinctLoggedIds(ops) && |ops| > 0
    ensures var p := ops[..|ops| - 1];
            var x := ops[|ops| - 1];
            var known := o.loggedOps.Keys;
            && DistinctLoggedIds(p)
            && RegisterAll(o, ops) == Register(RegisterAll(o, p), x)
            && (x.loggedOpId in RegisterAll(o, p).loggedOps <==> x.loggedOpId in known)
            && Unknown(known, ops) == Unknown(known, p) + if x.loggedOpId in known then [] else [x]
  {
    var p := ops[..|ops| - 1];
    var x := ops[|ops| - 1];
    RegisterAllKeys(o, p);
    forall j | 0 <= j < |p|
      ensures p[j].loggedOpId != x.loggedOpId
    {
      assert p[j] == ops[j];
    }
    LoggedIdsOf(p, x.loggedOpId);
  }

  /** Over a log with distinct ids, registration returns the request ids of
      exactly the ops not registered before, in log order. */
  lemma {:induction false} RegisterAllRequestIds(o: Outbox, ops: seq<Op>)
    requires DistinctLoggedIds(ops)
    ensures RegisterAll(o, ops).requestIds == o.requestIds + RequestIdsOf(Unknown(o.loggedOps.Keys, ops))
    decreases |ops|
  {
    if |ops| > 0 {
      var p, x := ops[..|ops| - 1], ops[|ops| - 1];
      RegisterAllLast(o, ops);
      RegisterAllRequestIds(o, p);
      var fp := Unknown(o.loggedOps.Keys, p);
      if x.loggedOpId !in o.loggedOps {
        RegisterNew(RegisterAll(o, p), x);
        FiltersOfNew(fp, x);
        var ids := RequestIdsOf(fp);
        assert o.requestIds + ids + [x.requestId] == o.requestIds + (ids + [x.requestId]);
      } else {
        assert RegisterAll(o, ops) == RegisterAll(o, p);
        assert Unknown(o.loggedOps.Keys, ops) == fp;
      }
    }
  }

  /** Of the new ops, it queues exactly those waiting for hatchet ids, in
      log order. */
  lemma {:induction false} RegisterAllQueued(o: Outbox, ops: seq<Op>)
    requires DistinctLoggedIds(ops)
    ensures RegisterAll(o, ops).queued == o.queued + Queueable(Unknown(o.loggedOps.Keys, ops))
    decreases |ops|
  {
    if |ops| > 0 {
      var p, x := ops[..|ops| - 1], ops[|ops| - 1];
      RegisterAllLast(o, ops);
      RegisterAllQueued(o, p);
      var fp := Unknown(o.loggedOps.Keys, p);
      if x.loggedOpId !in o.loggedOps {
        RegisterNew(RegisterAll(o, p), x);
        FiltersOfNew(fp, x);
        if IsQueued(x) {
          assert o.queued + Queueable(fp) + [x] == o.queued + Queueable(fp + [x]);
        } else {
          assert Queueable(fp + [x]) == Queueable(fp);
        }
      } else {
        assert RegisterAll(o, ops) == RegisterAll(o, p);
        assert Unknown(o.loggedOps.Keys, ops) == fp;
      }
    }
  }

  /** Of the new ops, it sends exactly the others, in log order. */
  lemma {:induction false} RegisterAllSends(o: Outbox, ops: seq<Op>)
    requires DistinctLoggedIds(ops)
    ensures RegisterAll(o, ops).sends == o.sends + Direct(Unknown(o.loggedOps.Keys, ops))
    decreases |ops|
  {
    if |ops| > 0 {
      var p, x := ops[..|ops| - 1], ops[|ops| - 1];
      RegisterAllLast(o, ops);
      RegisterAllSends(o, p);
      var fp := Unknown(o.loggedOps.Keys, p);
      if x.loggedOpId !in o.loggedOps {
        RegisterNew(RegisterAll(o, p), x);
        FiltersOfNew(fp, x);
        if !IsQueued(x) {
          assert o.sends + Direct(fp) + [x] == o.sends + Direct(fp + [x]);
        } else {
          assert Direct(fp + [x]) == Direct(fp);
        }
      } else {
        assert RegisterAll(o, ops) == RegisterAll(o, p);
        assert Unknown(o.loggedOps.Keys, ops) == fp;
      }
    }
  }

  /** The new playlist creations, and only they, become outstanding. */
  lemma {:induction false} RegisterAllCreations(o: Outbox, ops: seq<Op>)
    requires DistinctLoggedIds(ops)
    ensures RegisterAll(o, ops).playlistOps.Keys
            == o.playlistOps.Keys + LoggedIds(Creations(Unknown(o.loggedOps.Keys, ops)))
    decreases |ops|
  {
    if |ops| > 0 {
      var p, x := ops[..|ops| - 1], ops[|ops| - 1];
      RegisterAllLast(o, ops);
      RegisterAllCreations(o, p);
      var fp := Unknown(o.loggedOps.Keys, p);
      if x.loggedOpId !in o.loggedOps {
        RegisterNew(RegisterAll(o, p), x);
        CreationsOfNew(fp, x);
      } else {
        assert RegisterAll(o, ops) == RegisterAll(o, p);
        assert Unknown(o.loggedOps.Keys, ops) == fp;
      }
    }
  }

  /** Every op of the log is registered afterwards, and nothing registered
      before is forgotten. */
  lemma {:induction false} RegisterAllCovers(o: Outbox, ops: seq<Op>)
    ensures o.loggedOps.Keys + LoggedIds(ops) <= RegisterAll(o, ops).loggedOps.Keys
    decreases |ops|
  {
    if |ops| > 0 {
      RegisterAllCovers(o, ops[..|ops| - 1]);
    }
  }

  /** A log whose ops are all registered registers nothing. */
  lemma {:induction false} RegisterAllKnown(o: Outbox, ops: seq<Op>)
    requires LoggedIds(ops) <= o.loggedOps.Keys
    ensures RegisterAll(o, ops) == o
    decreases |ops|
  {
    if |ops| > 0 {
      var p := ops[..|ops| - 1];
      assert LoggedIds(p) <= LoggedIds(ops);
      RegisterAllKnown(o, p);
    }
  }

  /** Registration deduplicates by id: a second pass over the same log
      changes nothing and returns no further request ids. */
  lemma {:induction false} RegisterAllIdempotent(o: Outbox, ops: seq<Op>)
    ensures RegisterAll(RegisterAll(o, ops), ops) == RegisterAll(o, ops)
  {
    RegisterAllCovers(o, ops);
    RegisterAllKnown(RegisterAll(o, ops), ops);
  }

  /** A new op the log ends with is among the ops sent directly, unless it
      waits for a hatchet id. */
  lemma {:induction false} NewLastOpIsSent(known: set<int>, log: seq<Op>, x: Op)
    requires x.loggedOpId !in known && !IsQueued(x)
    ensures x in Direct(Unknown(known, log + [x]))
  {
    var ops := log + [x];
    assert ops[..|ops| - 1] == log;
    var f := Unknown(known, log) + [x];
    assert Unknown(known, ops) == f;
    assert f[..|f| - 1] == Unknown(known, log);
  }

  /** Ops read from the op log carry no results, and neither do the ones
      registration queues from it. */
  lemma {:induction false} QueuedHaveNoResults(known: set<int>, ops: seq<Op>)
    requires NoResults(ops)
    ensures NoResults(Queueable(Unknown(known, ops)))
    decreases |ops|
  {
    if |ops| > 0 {
      var p, x := ops[..|ops| - 1], ops[|ops| - 1];
      assert NoResults(p) by {
        forall i | 0 <= i < |p| ensures p[i].createdPlaylist.None? {
          assert p[i] == ops[i];
        }
      }
      QueuedHaveNoResults(known, p);
      var fp := Unknown(known, p);
      if x.loggedOpId !in known {
        assert Unknown(known, ops) == fp + [x];
        FiltersOfNew(fp, x);
      } else {
        assert Unknown(known, ops) == fp;
      }
    }
  }

  /** The request a resolution hands to the plugins. */
  function ResolveOp(requestId: string, requestType: RequestType, params: QueryParams): Op {
    Op(requestId, 0, requestType, HttpGet, params, NoPayload, None)
  }

  /** What a sequence starts with, it holds. */
  lemma {:induction false} InPrefix(x: Op, a: seq<Op>, b: seq<Op>)
    requires x in a && a <= b
    ensures x in b
  {
    var i :| 0 <= i < |a| && a[i] == x;
    assert b[i] == x;
  }

  // ---------------------------------------------------------------------------
  // Acknowledgements (the loop of onLoggedOpsSent)

  /** What the acknowledgement loop collects: the matched ops, their request
      types, the playlist ids they concern, and the updated mLoggedOpsMap and
      stored hatchet ids. */
  datatype Acks = Acks(ops: seq<Op>, types: set<RequestType>, playlistIds: set<string>,
                       loggedOps: map<int, Op>, hatchetIds: map<string, string>)

  /** One done request id: ignored unless it is a sent request; otherwise its
      op is collected and unregistered. A playlist creation the server
      answered with a hatchet id stores that id for its local playlist. */
  function Ack(sent: map<string, Op>, a: Acks, requestId: string): Acks {
    if requestId !in sent then a
    else
      var op := sent[requestId];
      var a1 := a.(ops := a.ops + [op], types := a.types + {op.requestType},
                   loggedOps := a.loggedOps - {op.loggedOpId});
      if op.requestType == PlaylistEntries then
        a1.(playlistIds := a1.playlistIds + {op.params.playlistLocalId})
      else if op.requestType == Playlists && op.createdPlaylist.Some? then
        a1.(playlistIds := a1.playlistIds + {op.createdPlaylist.value},
            hatchetIds := a1.hatchetIds[op.params.playlistLocalId := op.createdPlaylist.value])
      else a1
  }

  function AckAll(sent: map<string, Op>, a: Acks, requestIds: seq<string>): Acks {
    if |requestIds| == 0 then a
    else Ack(sent, AckAll(sent, a, requestIds[..|requestIds| - 1]), requestIds[|requestIds| - 1])
  }

  /** The sent ops the done ids name, in order; unknown ids are skipped. */
  function Matched(sent: map<string, Op>, requestIds: seq<string>): (r: seq<Op>)
    ensures |r| <= |requestIds|
  {
    if |requestIds| == 0 then []
    else
      var id := requestIds[|requestIds| - 1];
      Matched(sent, requestIds[..|requestIds| - 1]) + if id in sent then [sent[id]] else []
  }

  function TypesOf(ops: seq<Op>): (r: set<RequestType>)
    ensures r == {} <==> ops == []
  {
    if |ops| == 0 then {} else TypesOf(ops[..|ops| - 1]) + {ops[|ops| - 1].requestType}
  }

  predicate NoResults(ops: seq<Op>) {
    forall i | 0 <= i < |ops| :: ops[i].createdPlaylist.None?
  }

  /** Acknowledging collects exactly the matched ops, in order. */
  lemma {:induction false} AckAllOps(sent: map<string, Op>, a: Acks, requestIds: seq<string>)
    ensures AckAll(sent, a, requestIds).ops == a.ops + Matched(sent, requestIds)
    decreases |requestIds|
  {
    if |requestIds| > 0 {
      AckAllOps(sent, a, requestIds[..|requestIds| - 1]);
    }
  }

  /** Acknowledging unregisters exactly the matched ops' ids. */
  lemma {:induction false} AckAllUnregisters(sent: map<string, Op>, a: Acks, requestIds: seq<string>)
    ensures AckAll(sent, a, requestIds).loggedOps == a.loggedOps - LoggedIds(Matched(sent, requestIds))
    decreases |requestIds|
  {
    if |requestIds| > 0 {
      var p := requestIds[..|requestIds| - 1];
      var id := requestIds[|requestIds| - 1];
      AckAllUnregisters(sent, a, p);
      var mp := Matched(sent, p);
      var mid := AckAll(sent, a, p);
      assert AckAll(sent, a, requestIds) == Ack(sent, mid, id);
      if id in sent {
        assert Ack(sent, mid, id).loggedOps == mid.loggedOps - {sent[id].loggedOpId};
        var m := mp + [sent[id]];
        assert Matched(sent, requestIds) == m;
        assert m[..|m| - 1] == mp;
        assert LoggedIds(m) == LoggedIds(mp) + {sent[id].loggedOpId};
        assert a.loggedOps - LoggedIds(mp) - {sent[id].loggedOpId} == a.loggedOps - LoggedIds(m);
      } else {
        assert Matched(sent, requestIds) == mp;
      }
    }
  }

  /** Acknowledging records exactly the matched ops' request types. */
  lemma {:induction false} AckAllTypes(sent: map<string, Op>, a: Acks, requestIds: seq<string>)
    ensures AckAll(sent, a, requestIds).types == a.types + TypesOf(Matched(sent, requestIds))
    decreases |requestIds|
  {
    if |requestIds| > 0 {
      var p := requestIds[..|requestIds| - 1];
      var id := requestIds[|requestIds| - 1];
      AckAllTypes(sent, a, p);
      var mp := Matched(sent, p);
      var mid := AckAll(sent, a, p);
      assert AckAll(sent, a, requestIds) == Ack(sent, mid, id);
      if id in sent {
        assert Ack(sent, mid, id).types == mid.types + {sent[id].requestType};
        var m := mp + [sent[id]];
        assert Matched(sent, requestIds) == m;
        assert m[..|m| - 1] == mp;
        assert TypesOf(m) == TypesOf(mp) + {sent[id].requestType};
      } else {
        assert Matched(sent, requestIds) == mp;
      }
    }
  }

  /** Only answered playlist creations touch the stored hatchet ids. */
  lemma {:induction false} AckAllKeepsHatchetIds(sent: map<string, Op>, a: Acks, requestIds: seq<string>)
    requires NoResults(Matched(sent, requestIds))
    ensures AckAll(sent, a, requestIds).hatchetIds == a.hatchetIds
    decreases |requestIds|
  {
    if |requestIds| > 0 {
      var p := requestIds[..|requestIds| - 1];
      var id := requestIds[|requestIds| - 1];
      var mp := Matched(sent, p);
      var m := Matched(sent, requestIds);
      assert NoResults(mp) by {
        forall i | 0 <= i < |mp| ensures mp[i].createdPlaylist.None? {
          assert m[i] == mp[i];
        }
      }
      AckAllKeepsHatchetIds(sent, a, p);
      if id in sent {
        assert m[|m| - 1] == sent[id];
      }
    }
  }

  /** Acknowledging collects exactly the matched ops, unregisters exactly
      their ids and records their request types (none at all when no id
      matched); only answered playlist creations touch the hatchet ids. */
  lemma {:induction false} AckAllMatched(sent: map<string, Op>, a: Acks, requestIds: seq<string>)
    ensures var r := AckAll(sent, a, requestIds);
            var m := Matched(sent, requestIds);
            && r.ops == a.ops + m
            && r.loggedOps == a.loggedOps - LoggedIds(m)
            && r.types == a.types + TypesOf(m)
            && (NoResults(m) ==> r.hatchetIds == a.hatchetIds)
  {
    AckAllOps(sent, a, requestIds);
    AckAllUnregisters(sent, a, requestIds);
    AckAllTypes(sent, a, requestIds);
    if NoResults(Matched(sent, requestIds)) {
      AckAllKeepsHatchetIds(sent, a, requestIds);
    }
  }

  /** Acknowledging one sent op without results. */
  lemma {:induction false} AckOne(sent: map<string, Op>, a: Acks, op: Op)
    requires op.requestId in sent && sent[op.requestId] == op && op.createdPlaylist.None?
    ensures var r := AckAll(sent, a, [op.requestId]);
            && r.ops == a.ops + [op]
            && r.loggedOps == a.loggedOps - {op.loggedOpId}
            && r.hatchetIds == a.hatchetIds
  {
    assert [op.requestId][..0] == [];
  }

  // ---------------------------------------------------------------------------
  // Delivering queued ops (the loop of trySendingQueuedOps)

  /** A queued op with its playlist's hatchet id filled in: in the posted
      entry for playlist entries, in the parameters for playlist deletes. */
  function Deliver(op: Op, hatchetId: string): (r: Op)
    ensures r.requestId == op.requestId && r.loggedOpId == op.loggedOpId
    ensures r.requestType == op.requestType && r.httpType == op.httpType
    ensures op.requestType == PlaylistEntries && op.payload.PlaylistEntryPost? ==>
              r.payload.PlaylistEntryPost? && r.payload.playlist == Some(hatchetId)
    ensures op.requestType != PlaylistEntries ==> r.params.playlistId == Some(hatchetId)
  {
    if op.requestType == PlaylistEntries then
      if op.payload.PlaylistEntryPost? then op.(payload := op.payload.(playlist := Some(hatchetId))) else op
    else op.(params := op.params.(playlistId := Some(hatchetId)))
  }

  /** What draining `queue` sends, front first: each op whose local playlist
      has a hatchet id, with the id filled in; the others are discarded. */
  function Deliveries(queue: seq<Op>, hatchetIds: map<string, string>): (r: seq<Op>)
    ensures |r| <= |queue|
  {
    if |queue| == 0 then []
    else
      var op := queue[0];
      (if op.params.playlistLocalId in hatchetIds then [Deliver(op, hatchetIds[op.params.playlistLocalId])] else [])
      + Deliveries(queue[1..], hatchetIds)
  }

  /** Ops whose playlists all have hatchet ids are all sent, in queue order. */
  lemma {:induction false} DeliveriesAllKnown(queue: seq<Op>, hatchetIds: map<string, string>)
    requires forall i | 0 <= i < |queue| :: queue[i].params.playlistLocalId in hatchetIds
    ensures |Deliveries(queue, hatchetIds)| == |queue|
    ensures forall i | 0 <= i < |queue| ::
              Deliveries(queue, hatchetIds)[i] == Deliver(queue[i], hatchetIds[queue[i].params.playlistLocalId])
    decreases |queue|
  {
    if |queue| > 0 {
      DeliveriesAllKnown(queue[1..], hatchetIds);
    }
  }

  lemma {:induction false} DeliveriesAppend(a: seq<Op>, b: seq<Op>, hatchetIds: map<string, string>)
    ensures Deliveries(a + b, hatchetIds) == Deliveries(a, hatchetIds) + Deliveries(b, hatchetIds)
    decreases |a|
  {
    if |a| == 0 {
      assert a + b == b;
    } else {
      assert (a + b)[1..] == a[1..] + b;
      DeliveriesAppend(a[1..], b, hatchetIds);
    }
  }

  /** Draining past `op`, taken off the queue after the ops `done`: a
      delivery when its playlist has a hatchet id; otherwise nothing for
      it, whatever is delivered of the ops still behind it. */
  lemma {:induction false} DeliveriesStep(done: seq<Op>, op: Op, rest: seq<Op>, hatchetIds: map<string, string>)
    ensures op.params.playlistLocalId in hatchetIds ==>
              Deliveries(done + [op], hatchetIds)
              == Deliveries(done, hatchetIds) + [Deliver(op, hatchetIds[op.params.playlistLocalId])]
    ensures op.params.playlistLocalId !in hatchetIds ==>
              Deliveries(done, hatchetIds) + Deliveries(rest, hatchetIds) == Deliveries(done + [op] + rest, hatchetIds)
  {
    DeliveriesAppend(done, [op], hatchetIds);
    assert [op][1..] == [];
    DeliveriesAppend(done + [op], rest, hatchetIds);
  }

  /** The op-log ids draining `queue` discards: those of the ops whose local
      playlist has no hatchet id. */
  function DiscardedIds(queue: seq<Op>, hatchetIds: map<string, string>): set<int>
  {
    if |queue| == 0 then {}
    else
      var op := queue[0];
      (if op.params.playlistLocalId in hatchetIds then {} else {op.loggedOpId}) + DiscardedIds(queue[1..], hatchetIds)
  }

  /** mSentRequests after draining `queue`, front first: each op recorded
      under its request id, with the hatchet id filled in when it is sent,
      as it is when it is discarded. */
  function SentAfter(sent: map<string, Op>, queue: seq<Op>, hatchetIds: map<string, string>): map<string, Op>
    decreases |queue|
  {
    if |queue| == 0 then sent
    else
      var op := queue[0];
      var recorded := if op.params.playlistLocalId in hatchetIds then Deliver(op, hatchetIds[op.params.playlistLocalId]) else op;
      SentAfter(sent[op.requestId := recorded], queue[1..], hatchetIds)
  }

  /** The discarded ids are exactly the ids of the queued ops without a
      hatchet id. */
  lemma {:induction false} DiscardedIdsOf(queue: seq<Op>, hatchetIds: map<string, string>, id: int)
    ensures id in DiscardedIds(queue, hatchetIds) <==>
              exists i | 0 <= i < |queue| :: queue[i].loggedOpId == id && queue[i].params.playlistLocalId !in hatchetIds
    decreases |queue|
  {
    if |queue| > 0 {
      var rest := queue[1..];
      DiscardedIdsOf(rest, hatchetIds, id);
      if id in DiscardedIds(rest, hatchetIds) {
        var i :| 0 <= i < |rest| && rest[i].loggedOpId == id && rest[i].params.playlistLocalId !in hatchetIds;
        assert queue[i + 1] == rest[i];
      }
      if exists i | 0 <= i < |queue| :: queue[i].loggedOpId == id && queue[i].params.playlistLocalId !in hatchetIds {
        var i :| 0 <= i < |queue| && queue[i].loggedOpId == id && queue[i].params.playlistLocalId !in hatchetIds;
        if i > 0 {
          assert rest[i - 1] == queue[i];
        }
      }
    }
  }

  /** Every queued op without a hatchet id is discarded. */
  lemma DiscardsEveryUnknown(queue: seq<Op>, hatchetIds: map<string, string>)
    ensures forall i | 0 <= i < |queue| && queue[i].params.playlistLocalId !in hatchetIds ::
              queue[i].loggedOpId in DiscardedIds(queue, hatchetIds)
  {
    forall i | 0 <= i < |queue| && queue[i].params.playlistLocalId !in hatchetIds
      ensures queue[i].loggedOpId in DiscardedIds(queue, hatchetIds)
    {
      DiscardedIdsOf(queue, hatchetIds, queue[i].loggedOpId);
    }
  }

  lemma {:induction false} DiscardedIdsAppend(a: seq<Op>, b: seq<Op>, hatchetIds: map<string, string>)
    ensures DiscardedIds(a + b, hatchetIds) == DiscardedIds(a, hatchetIds) + DiscardedIds(b, hatchetIds)
    decreases |a|
  {
    if |a| == 0 {
      assert a + b == b;
    } else {
      assert (a + b)[1..] == a[1..] + b;
      DiscardedIdsAppend(a[1..], b, hatchetIds);
    }
  }

  lemma {:induction false} SentAfterAppend(sent: map<string, Op>, a: seq<Op>, b: seq<Op>, hatchetIds: map<string, string>)
    ensures SentAfter(sent, a + b, hatchetIds) == SentAfter(SentAfter(sent, a, hatchetIds), b, hatchetIds)
    decreases |a|
  {
    if |a| == 0 {
      assert a + b == b;
    } else {
      assert (a + b)[1..] == a[1..] + b;
      var op := a[0];
      var recorded := if op.params.playlistLocalId in hatchetIds then Deliver(op, hatchetIds[op.params.playlistLocalId]) else op;
      SentAfterAppend(sent[op.requestId := recorded], a[1..], b, hatchetIds);
    }
  }

  /** Draining records every queued op's request id and leaves every other
      recorded request as it was. */
  lemma {:induction false} SentAfterFrame(sent: map<string, Op>, queue: seq<Op>, hatchetIds: map<string, string>, k: string)
    ensures var r := SentAfter(sent, queue, hatchetIds);
            && (k in sent ==> k in r)
            && ((exists i | 0 <= i < |queue| :: queue[i].requestId == k) ==> k in r)
            && ((forall i | 0 <= i < |queue| :: queue[i].requestId != k) ==> (k in r <==> k in sent) && (k in sent ==> r[k] == sent[k]))
    decreases |queue|
  {
    if |queue| > 0 {
      var op := queue[0];
      var recorded := if op.params.playlistLocalId in hatchetIds then Deliver(op, hatchetIds[op.params.playlistLocalId]) else op;
      var rest := queue[1..];
      SentAfterFrame(sent[op.requestId := recorded], rest, hatchetIds, k);
      if exists i | 0 <= i < |queue| :: queue[i].requestId == k {
        var i :| 0 <= i < |queue| && queue[i].requestId == k;
        if i > 0 {
          assert rest[i - 1] == queue[i];
        }
      }
      if forall i | 0 <= i < |queue| :: queue[i].requestId != k {
        assert queue[0].requestId != k;
        forall i | 0 <= i < |rest| ensures rest[i].requestId != k {
          assert rest[i] == queue[i + 1];
        }
      }
    }
  }

  /** How much of the queue one turn of the drain loop takes: the front op
      when its playlist has a hatchet id, otherwise the whole queue. */
  function TakenCount(queue: seq<Op>, hatchetIds: map<string, string>): (n: nat)
    requires |queue| > 0
    ensures 1 <= n <= |queue|
    ensures n < |queue| ==> queue[0].params.playlistLocalId in hatchetIds
  {
    if queue[0].params.playlistLocalId in hatchetIds then 1 else |queue|
  }

  /** Draining a single op whose playlist has a hatchet id sends it with
      that id filled in, records it so under its request id, and discards
      nothing. */
  lemma DeliverFront(sent: map<string, Op>, log: seq<Op>, op: Op, hatchetIds: map<string, string>)
    requires op.params.playlistLocalId in hatchetIds
    ensures var delivered := Deliver(op, hatchetIds[op.params.playlistLocalId]);
            && Deliveries([op], hatchetIds) == [delivered]
            && DiscardedIds([op], hatchetIds) == {}
            && SentAfter(sent, [op], hatchetIds) == sent[op.requestId := delivered]
            && RemoveOps(log, {}) == log
  {
    assert [op][1..] == [];
    RemoveOpsNone(log, {});
  }

  /** Draining `done` and then `tail` sends, unregisters, removes from the
      op log and records what draining `done + tail` does. */
  lemma DrainAppend(sends0: seq<Op>, map0: map<int, Op>, log0: seq<Op>, sent0: map<string, Op>,
                    done: seq<Op>, tail: seq<Op>, hatchetIds: map<string, string>)
    ensures sends0 + Deliveries(done, hatchetIds) + Deliveries(tail, hatchetIds)
            == sends0 + Deliveries(done + tail, hatchetIds)
    ensures map0 - DiscardedIds(done, hatchetIds) - DiscardedIds(tail, hatchetIds)
            == map0 - DiscardedIds(done + tail, hatchetIds)
    ensures RemoveOps(RemoveOps(log0, DiscardedIds(done, hatchetIds)), DiscardedIds(tail, hatchetIds))
            == RemoveOps(log0, DiscardedIds(done + tail, hatchetIds))
    ensures SentAfter(SentAfter(sent0, done, hatchetIds), tail, hatchetIds) == SentAfter(sent0, done + tail, hatchetIds)
  {
    var before, after := DiscardedIds(done, hatchetIds), DiscardedIds(tail, hatchetIds);
    assert DiscardedIds(done + tail, hatchetIds) == before + after by {
      DiscardedIdsAppend(done, tail, hatchetIds);
    }
    assert map0 - before - after == map0 - (before + after);
    DeliveriesAppend(done, tail, hatchetIds);
    assert sends0 + Deliveries(done, hatchetIds) + Deliveries(tail, hatchetIds)
           == sends0 + (Deliveries(done, hatchetIds) + Deliveries(tail, hatchetIds));
    RemoveOpsTwice(log0, before, after);
    SentAfterAppend(sent0, done, tail, hatchetIds);
  }

  /** An op whose playlist has no hatchet id, drained in front of `rest`. */
  lemma DiscardFront(sent: map<string, Op>, op: Op, rest: seq<Op>, hatchetIds: map<string, string>)
    requires op.params.playlistLocalId !in hatchetIds
    ensures DiscardedIds([op] + rest, hatchetIds) == DiscardedIds(rest, hatchetIds) + {op.loggedOpId}
    ensures SentAfter(sent, [op] + rest, hatchetIds) == SentAfter(sent[op.requestId := op], rest, hatchetIds)
    ensures Deliveries([op] + rest, hatchetIds) == Deliveries(rest, hatchetIds)
  {
    assert ([op] + rest)[1..] == rest;
  }

  /** Removing two sets of rows in turn removes their union. */
  lemma {:induction false} RemoveOpsTwice(log: seq<Op>, a: set<int>, b: set<int>)
    ensures RemoveOps(RemoveOps(log, a), b) == RemoveOps(log, a + b)
    decreases |log|
  {
    if |log| > 0 {
      var p, x := log[..|log| - 1], log[|log| - 1];
      RemoveOpsTwice(p, a, b);
      var rp := RemoveOps(p, a);
      if x.loggedOpId in a {
        assert RemoveOps(log, a) == rp;
        assert RemoveOps(log, a + b) == RemoveOps(p, a + b);
      } else {
        var r := rp + [x];
        assert RemoveOps(log, a) == r;
        assert r[..|r| - 1] == rp && r[|r| - 1] == x;
        assert RemoveOps(r, b) == RemoveOps(rp, b) + if x.loggedOpId in b then [] else [x];
      }
    }
  }

  /** Removing ids no row has keeps the log. */
  lemma {:induction false} RemoveOpsNone(log: seq<Op>, ids: set<int>)
    requires forall i | 0 <= i < |log| :: log[i].loggedOpId !in ids
    ensures RemoveOps(log, ids) == log
    decreases |log|
  {
    if |log| > 0 {
      var p, x := log[..|log| - 1], log[|log| - 1];
      assert forall i | 0 <= i < |p| :: p[i] == log[i];
      RemoveOpsNone(p, ids);
      calc {
        RemoveOps(log, ids);
        RemoveOps(p, ids) + [x];
        p + [x];
        { assert p + [x] == log; }
        log;
      }
    }
  }

  /** A log whose ids are all known has nothing unknown. */
  lemma {:induction false} UnknownNone(known: set<int>, ops: seq<Op>)
    requires forall i | 0 <= i < |ops| :: ops[i].loggedOpId in known
    ensures Unknown(known, ops) == []
    decreases |ops|
  {
    if |ops| > 0 {
      UnknownNone(known, ops[..|ops| - 1]);
    }
  }

  /** The ops registration queues come from the log and wait for hatchet ids. */
  lemma {:induction false} QueueableFromLog(known: set<int>, ops: seq<Op>)
    ensures forall x | x in Queueable(Unknown(known, ops)) :: x in ops && IsQueued(x)
    decreases |ops|
  {
    if |ops| > 0 {
      var p, x := ops[..|ops| - 1], ops[|ops| - 1];
      QueueableFromLog(known, p);
      var fp := Unknown(known, p);
      forall y | y in p ensures y in ops {
        var j :| 0 <= j < |p| && p[j] == y;
        assert ops[j] == y;
      }
      if x.loggedOpId !in known {
        assert Unknown(known, ops) == fp + [x];
        FiltersOfNew(fp, x);
      } else {
        assert Unknown(known, ops) == fp;
      }
    }
  }

  /** Every op of a log has its id among the log's ids. */
  lemma LogIdsListed(log: seq<Op>)
    ensures forall i | 0 <= i < |log| :: log[i].loggedOpId in LoggedIds(log)
  {
    forall i | 0 <= i < |log| ensures log[i].loggedOpId in LoggedIds(log) {
      LoggedIdsOf(log, log[i].loggedOpId);
    }
  }

  /** Rows left after removing `ids` from a registered log are registered
      and not removed. */
  lemma RemainingRegistered(log: seq<Op>, ids: set<int>, keys: set<int>)
    requires LoggedIds(log) <= keys
    ensures forall i | 0 <= i < |RemoveOps(log, ids)| :: RemoveOps(log, ids)[i].loggedOpId in keys - ids
  {
    var r := RemoveOps(log, ids);
    forall i | 0 <= i < |r| ensures r[i].loggedOpId in keys - ids {
      RemoveOpsMember(log, ids, r[i]);
      var j :| 0 <= j < |log| && log[j] == r[i];
      LoggedIdsOf(log, r[i].loggedOpId);
    }
  }

  /** Every row of a registered log stays registered whether the drain
      leaves log and registrations alone or removes `ids` from both, so
      nothing in it is unknown. */
  lemma LeftRegistered(log: seq<Op>, keys: set<int>, ids: set<int>, newKeys: set<int>, newLog: seq<Op>)
    requires LoggedIds(log) <= keys
    requires (newLog == log && newKeys == keys) || (newLog == RemoveOps(log, ids) && newKeys == keys - ids)
    ensures forall i | 0 <= i < |newLog| :: newLog[i].loggedOpId in newKeys
    ensures Unknown(newKeys, newLog) == []
  {
    if newLog == log && newKeys == keys {
      LogIdsListed(log);
    } else {
      RemainingRegistered(log, ids, keys);
    }
    UnknownNone(newKeys, newLog);
  }

  /** The ids of a log whose ids are below `nextId` are below it. */
  lemma LoggedIdsBelow(log: seq<Op>, nextId: int)
    requires forall i | 0 <= i < |log| :: log[i].loggedOpId < nextId
    ensures forall id | id in LoggedIds(log) :: id < nextId
  {
    forall id | id in LoggedIds(log) ensures id < nextId {
      LoggedIdsOf(log, id);
    }
  }

  /** Queueing a log's waiting ops behind a queue keeps what holds of both:
      no results, ids below `nextId`. */
  lemma QueueFromLog(queue: seq<Op>, known: set<int>, log: seq<Op>, nextId: int)
    requires NoResults(queue) && (forall i | 0 <= i < |queue| :: queue[i].loggedOpId < nextId)
    requires NoResults(log) && (forall i | 0 <= i < |log| :: log[i].loggedOpId < nextId)
    ensures var q := queue + Queueable(Unknown(known, log));
            NoResults(q) && forall i | 0 <= i < |q| :: q[i].loggedOpId < nextId
  {
    var added := Queueable(Unknown(known, log));
    QueueableFromLog(known, log);
    var q := queue + added;
    forall i | 0 <= i < |q|
      ensures q[i].createdPlaylist.None? && q[i].loggedOpId < nextId
    {
      if i >= |queue| {
        var x := added[i - |queue|];
        assert q[i] == x && x in added;
        var j :| 0 <= j < |log| && log[j] == x;
      }
    }
  }

  /** Taking the front op off a queue keeps what holds of its ops. */
  lemma QueueTail(queue: seq<Op>, nextId: int)
    requires |queue| > 0
    requires NoResults(queue) && forall i | 0 <= i < |queue| :: queue[i].loggedOpId < nextId
    ensures queue[0].createdPlaylist.None?
    ensures NoResults(queue[1..]) && forall i | 0 <= i < |queue[1..]| :: queue[1..][i].loggedOpId < nextId
  {
    forall i | 0 <= i < |queue[1..]| ensures queue[1..][i] == queue[i + 1] { }
  }

  /** A new op that does not wait for a hatchet id, logged after every other
      row and after every queued op, is not among the ids draining discards. */
  lemma FreshOpNotDiscarded(queue: seq<Op>, known: set<int>, log: seq<Op>, x: Op, hatchetIds: map<string, string>)
    requires !IsQueued(x)
    requires forall i | 0 <= i < |queue| :: queue[i].loggedOpId < x.loggedOpId
    requires forall i | 0 <= i < |log| :: log[i].loggedOpId < x.loggedOpId
    ensures x.loggedOpId !in DiscardedIds(queue + Queueable(Unknown(known, log + [x])), hatchetIds)
  {
    var added := Queueable(Unknown(known, log + [x]));
    var q := queue + added;
    QueueableFromLog(known, log + [x]);
    DiscardedIdsOf(q, hatchetIds, x.loggedOpId);
    forall i | 0 <= i < |q| ensures q[i].loggedOpId != x.loggedOpId {
      if i >= |queue| {
        var y := added[i - |queue|];
        assert y in added;
        assert q[i] == y;
        if y != x {
          var j :| 0 <= j < |log + [x]| && (log + [x])[j] == y;
          assert log[j] == y;
        }
      }
    }
  }

  /** Pushing a log whose last row is such a fresh op keeps that row,
      whether the queue is then drained or not. */
  lemma FreshOpStays(queue: seq<Op>, known: set<int>, log: seq<Op>, x: Op, hatchetIds: map<string, string>)
    requires !IsQueued(x)
    requires forall i | 0 <= i < |queue| :: queue[i].loggedOpId < x.loggedOpId
    requires forall i | 0 <= i < |log| :: log[i].loggedOpId < x.loggedOpId
    ensures x in log + [x]
    ensures x in RemoveOps(log + [x], DiscardedIds(queue + Queueable(Unknown(known, log + [x])), hatchetIds))
  {
    var ids := DiscardedIds(queue + Queueable(Unknown(known, log + [x])), hatchetIds);
    FreshOpNotDiscarded(queue, known, log, x, hatchetIds);
    RemoveOpsMember(log + [x], ids, x);
    assert (log + [x])[|log|] == x;
  }

  // ---------------------------------------------------------------------------
  // Playback log entries

  /** The name sent for an empty one is the placeholder. */
  function OrUnknown(s: string, placeholder: string): (r: string)
    ensures s != "" ==> r == s
    ensures s == "" ==> r == placeholder
  {
    if s == "" then placeholder else s
  }

  /** The playback-log entry for a query: its album name, and its artist and
      track names with placeholders for empty ones. */
  function PlaybackEntry(q: Query, nowPlaying: bool, timestamp: int): (e: PlaybackLogEntry)
    ensures e.album == q.albumName && e.nowPlaying == nowPlaying && e.timestamp == timestamp
    ensures e.artist != "" && e.track != ""
    ensures q.artistName != "" ==> e.artist == q.artistName
    ensures q.name != "" ==> e.track == q.name
  {
    PlaybackLogEntry(q.albumName, OrUnknown(q.artistName, "Unknown Artist"),
                     OrUnknown(q.name, "Unknown Title"), nowPlaying, timestamp)
  }
}
