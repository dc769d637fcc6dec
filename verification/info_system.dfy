/** InfoSystem: the logged-op queue that pushes the local op log to the
    server, and the now-playing / playback-log posts. The op log and the
    stored playlist hatchet ids (DatabaseHelper), the plugins' sends and
    resolutions, the EventBus and the session-unique id source are fields of
    the object; plugins record each call and never answer within it. */
module Info {
  import opened Common
  import opened Media
  import opened InfoOps

  class InfoSystem {
    /** mSentRequests: every request sent, by request id. */
    var sentRequests: map<string, Op>
    /** mLoggedOpsMap: the logged ops registered and not yet acknowledged. */
    var loggedOpsMap: map<int, Op>
    /** mPlaylistsLoggedOpsMap: playlist creations not yet acknowledged. */
    var playlistsLoggedOpsMap: map<int, Op>
    /** mQueuedLoggedOps: ops waiting for the playlist creations. */
    var queuedLoggedOps: seq<Op>
    var lastPlaybackLogEntry: Option<Query>
    var nowPlaying: Option<Query>

    /** DatabaseHelper's op log in row order, and the id its next row gets. */
    var opLog: seq<Op>
    var nextLoggedOpId: int
    /** DatabaseHelper's hatchet ids of local playlists. */
    var playlistHatchetIds: map<string, string>
    /** Every InfoPlugin.send and InfoPlugin.resolve call, oldest first. */
    var pluginSends: seq<Op>
    var pluginResolves: seq<Op>
    /** Every OpLogIsEmptiedEvent posted, oldest first. */
    var events: seq<OpLogIsEmptied>
    /** getSessionUniqueStringId hands out the decimal numbers in turn. */
    var nextRequestId: nat

    /** The op log's rows have distinct ids below the next one and, read
        from storage, no results; registered ids come from the log; queued
        ops come from the log too. */
    predicate Valid()
      reads this
    {
      && DistinctLoggedIds(opLog)
      && (forall i | 0 <= i < |opLog| :: opLog[i].loggedOpId < nextLoggedOpId)
      && NoResults(opLog)
      && (forall id | id in loggedOpsMap :: id < nextLoggedOpId)
      && NoResults(queuedLoggedOps)
      && (forall i | 0 <= i < |queuedLoggedOps| :: queuedLoggedOps[i].loggedOpId < nextLoggedOpId)
    }

    /** The registration state, with the request ids returned so far. */
    function Outgoing(requestIds: seq<string>): Outbox
      reads this
    {
      Outbox(loggedOpsMap, playlistsLoggedOpsMap, queuedLoggedOps, sentRequests, pluginSends, requestIds)
    }

    /** What an acknowledgement starts from. */
    function AckStart(): Acks
      reads this
    {
      Acks([], {}, {}, loggedOpsMap, playlistHatchetIds)
    }

    /** The state the queue never touches. */
    function Session(): (Option<Query>, Option<Query>, nat, int, seq<Op>)
      reads this
    {
      (nowPlaying, lastPlaybackLogEntry, nextRequestId, nextLoggedOpId, pluginResolves)
    }

    /** An info system over a stored op log and stored hatchet ids. */
    constructor (opLog: seq<Op>, nextLoggedOpId: int, playlistHatchetIds: map<string, string>)
      requires DistinctLoggedIds(opLog) && NoResults(opLog)
      requires forall i | 0 <= i < |opLog| :: opLog[i].loggedOpId < nextLoggedOpId
      ensures Valid()
      ensures sentRequests == map[] && loggedOpsMap == map[] && playlistsLoggedOpsMap == map[]
      ensures queuedLoggedOps == [] && nowPlaying.None? && lastPlaybackLogEntry.None?
      ensures this.opLog == opLog && this.nextLoggedOpId == nextLoggedOpId
      ensures this.playlistHatchetIds == playlistHatchetIds
      ensures pluginSends == [] && pluginResolves == [] && events == [] && nextRequestId == 0
    {
      sentRequests := map[];
      loggedOpsMap := map[];
      playlistsLoggedOpsMap := map[];
      queuedLoggedOps := [];
      lastPlaybackLogEntry := None;
      nowPlaying := None;
      this.opLog := opLog;
      this.nextLoggedOpId := nextLoggedOpId;
      this.playlistHatchetIds := playlistHatchetIds;
      pluginSends := [];
      pluginResolves := [];
      events := [];
      nextRequestId := 0;
    }

    /** getSessionUniqueStringId. */
    method NewRequestId() returns (requestId: string)
      modifies this
      ensures requestId == IntToString(old(nextRequestId))
      ensures nextRequestId == old(nextRequestId) + 1
      ensures Outgoing([]) == old(Outgoing([])) && opLog == old(opLog) && events == old(events)
      ensures playlistHatchetIds == old(playlistHatchetIds) && nextLoggedOpId == old(nextLoggedOpId)
      ensures nowPlaying == old(nowPlaying) && lastPlaybackLogEntry == old(lastPlaybackLogEntry)
      ensures pluginResolves == old(pluginResolves)
    {
      requestId := IntToString(nextRequestId);
      nextRequestId := nextRequestId + 1;
    }

    /** resolve(type, params): a request with a new id, handed to the plugins. */
    method Resolve(requestType: RequestType, params: QueryParams) returns (requestId: string)
      modifies this
      ensures requestId == IntToString(old(nextRequestId))
      ensures nextRequestId == old(nextRequestId) + 1
      ensures pluginResolves == old(pluginResolves) + [ResolveOp(requestId, requestType, params)]
      ensures Outgoing([]) == old(Outgoing([])) && opLog == old(opLog) && events == old(events)
      ensures playlistHatchetIds == old(playlistHatchetIds) && nextLoggedOpId == old(nextLoggedOpId)
      ensures nowPlaying == old(nowPlaying) && lastPlaybackLogEntry == old(lastPlaybackLogEntry)
    {
      requestId := NewRequestId();
      pluginResolves := pluginResolves + [ResolveOp(requestId, requestType, params)];
    }

    /** resolve(Artist, full): nothing for no artist; otherwise its top hits
        and its albums when `full`, its artist page otherwise. The request
        ids are returned in that order and are distinct. */
    method ResolveArtist(artistName: Option<string>, full: bool) returns (requestIds: seq<string>)
      modifies this
      ensures artistName.None? ==> requestIds == [] && unchanged(this)
      ensures artistName.Some? ==>
                var params := QueryParams(artistName.value, "", None);
                var n := old(nextRequestId);
                && (full ==> && requestIds == [IntToString(n), IntToString(n + 1)]
                             && requestIds[0] != requestIds[1]
                             && pluginResolves == old(pluginResolves)
                                                  + [ResolveOp(requestIds[0], ArtistsTopHits, params),
                                                     ResolveOp(requestIds[1], ArtistsAlbums, params)])
                && (!full ==> && requestIds == [IntToString(n)]
                              && pluginResolves == old(pluginResolves) + [ResolveOp(requestIds[0], Artists, params)])
                && nextRequestId == n + |requestIds|
      ensures Outgoing([]) == old(Outgoing([])) && opLog == old(opLog) && events == old(events)
      ensures playlistHatchetIds == old(playlistHatchetIds) && nextLoggedOpId == old(nextLoggedOpId)
      ensures nowPlaying == old(nowPlaying) && lastPlaybackLogEntry == old(lastPlaybackLogEntry)
    {
      requestIds := [];
      if artistName.Some? {
        var params := QueryParams(artistName.value, "", None);
        if full {
          var topHits := Resolve(ArtistsTopHits, params);
          var albums := Resolve(ArtistsAlbums, params);
          requestIds := [topHits, albums];
          if topHits == albums {
            IntToStringInjective(old(nextRequestId), old(nextRequestId) + 1);
          }
        } else {
          var artist := Resolve(Artists, params);
          requestIds := [artist];
        }
      }
    }

    /** send: record the request under its id and hand it to the plugins. */
    method Send(op: Op)
      modifies this
      ensures sentRequests == old(sentRequests)[op.requestId := op]
      ensures pluginSends == old(pluginSends) + [op]
      ensures loggedOpsMap == old(loggedOpsMap) && playlistsLoggedOpsMap == old(playlistsLoggedOpsMap)
      ensures queuedLoggedOps == old(queuedLoggedOps)
      ensures opLog == old(opLog) && playlistHatchetIds == old(playlistHatchetIds) && events == old(events)
      ensures Session() == old(Session())
    {
      sentRequests := sentRequests[op.requestId := op];
      pluginSends := pluginSends + [op];
    }

    /** DatabaseHelper.addOpToInfoSystemOpLog: store the op as the next row. */
    method AddOpToLog(op: Op) returns (stored: Op)
      requires Valid() && op.createdPlaylist.None?
      modifies this
      ensures Valid()
      ensures stored == op.(loggedOpId := old(nextLoggedOpId))
      ensures opLog == old(opLog) + [stored] && nextLoggedOpId == old(nextLoggedOpId) + 1
      ensures Outgoing([]) == old(Outgoing([])) && playlistHatchetIds == old(playlistHatchetIds)
      ensures events == old(events) && pluginResolves == old(pluginResolves)
      ensures nowPlaying == old(nowPlaying) && lastPlaybackLogEntry == old(lastPlaybackLogEntry)
      ensures nextRequestId == old(nextRequestId)
    {
      stored := op.(loggedOpId := nextLoggedOpId);
      opLog := opLog + [stored];
      nextLoggedOpId := nextLoggedOpId + 1;
    }

    /** The loop of sendLoggedOps over the ops the log holds. */
    method RegisterLoggedOps(loggedOps: seq<Op>) returns (requestIds: seq<string>)
      modifies this
      ensures Outgoing(requestIds) == RegisterAll(old(Outgoing([])), loggedOps)
      ensures opLog == old(opLog) && playlistHatchetIds == old(playlistHatchetIds) && events == old(events)
      ensures Session() == old(Session())
    {
      requestIds := [];
      for i := 0 to |loggedOps|
        invariant Outgoing(requestIds) == RegisterAll(old(Outgoing([])), loggedOps[..i])
        invariant opLog == old(opLog) && playlistHatchetIds == old(playlistHatchetIds) && events == old(events)
        invariant Session() == old(Session())
      {
        var op := loggedOps[i];
        if op.loggedOpId !in loggedOpsMap {
          loggedOpsMap := loggedOpsMap[op.loggedOpId := op];
          if IsQueued(op) {
            queuedLoggedOps := queuedLoggedOps + [op];
          } else {
            if op.requestType == Playlists {
              playlistsLoggedOpsMap := playlistsLoggedOpsMap[op.loggedOpId := op];
            }
            Send(op);
          }
          requestIds := requestIds + [op.requestId];
        }
        assert loggedOps[..i + 1][..i] == loggedOps[..i];
      }
      assert loggedOps[..|loggedOps|] == loggedOps;
    }

    /** trySendingQueuedOps: while a playlist creation is outstanding, do
        nothing; otherwise drain the queue. */
    method TrySendingQueuedOps()
      requires Valid()
      modifies this
      decreases |queuedLoggedOps|, 2
      ensures Valid()
      ensures Session() == old(Session()) && playlistHatchetIds == old(playlistHatchetIds)
      ensures playlistsLoggedOpsMap == old(playlistsLoggedOpsMap)
      ensures loggedOpsMap.Keys <= old(loggedOpsMap).Keys && old(events) <= events
      ensures old(playlistsLoggedOpsMap) != map[] ==>
                && queuedLoggedOps == old(queuedLoggedOps) && pluginSends == old(pluginSends)
                && sentRequests == old(sentRequests) && loggedOpsMap == old(loggedOpsMap)
                && opLog == old(opLog) && events == old(events)
      ensures old(playlistsLoggedOpsMap) == map[] ==>
                var discarded := DiscardedIds(old(queuedLoggedOps), playlistHatchetIds);
                && queuedLoggedOps == []
                && pluginSends == old(pluginSends) + Deliveries(old(queuedLoggedOps), playlistHatchetIds)
                && loggedOpsMap == old(loggedOpsMap) - discarded
                && opLog == RemoveOps(old(opLog), discarded)
                && sentRequests == SentAfter(old(sentRequests), old(queuedLoggedOps), playlistHatchetIds)
                && forall i | 0 <= i < |old(queuedLoggedOps)| &&
                              old(queuedLoggedOps)[i].params.playlistLocalId !in playlistHatchetIds ::
                     old(queuedLoggedOps)[i].loggedOpId !in loggedOpsMap
    {
      if playlistsLoggedOpsMap == map[] {
        DrainQueue();
      }
    }

    /** The while loop of trySendingQueuedOps: take the queue's front op;
        send it with its playlist's hatchet id filled in when there is one,
        discard it otherwise; until the queue is empty. What it sends, the
        ids it unregisters and removes from the op log and the requests it
        records are those of the whole queue. */
    method DrainQueue()
      requires Valid() && playlistsLoggedOpsMap == map[]
      modifies this
      decreases |queuedLoggedOps|, 1
      ensures Valid()
      ensures Session() == old(Session()) && playlistHatchetIds == old(playlistHatchetIds)
      ensures playlistsLoggedOpsMap == map[]
      ensures loggedOpsMap.Keys <= old(loggedOpsMap).Keys && old(events) <= events
      ensures queuedLoggedOps == []
      ensures pluginSends == old(pluginSends) + Deliveries(old(queuedLoggedOps), playlistHatchetIds)
      ensures loggedOpsMap == old(loggedOpsMap) - DiscardedIds(old(queuedLoggedOps), playlistHatchetIds)
      ensures opLog == RemoveOps(old(opLog), DiscardedIds(old(queuedLoggedOps), playlistHatchetIds))
      ensures sentRequests == SentAfter(old(sentRequests), old(queuedLoggedOps), playlistHatchetIds)
      ensures forall i | 0 <= i < |old(queuedLoggedOps)| &&
                         old(queuedLoggedOps)[i].params.playlistLocalId !in playlistHatchetIds ::
                old(queuedLoggedOps)[i].loggedOpId !in loggedOpsMap
    {
      ghost var q0, h := queuedLoggedOps, playlistHatchetIds;
      ghost var sends0, session0, events0 := pluginSends, Session(), events;
      ghost var map0, log0, sent0 := loggedOpsMap, opLog, sentRequests;
      while queuedLoggedOps != []
        invariant Valid()
        invariant playlistHatchetIds == h && playlistsLoggedOpsMap == map[]
        invariant Session() == session0 && events0 <= events
        invariant pluginSends + Deliveries(queuedLoggedOps, h) == sends0 + Deliveries(q0, h)
        invariant loggedOpsMap - DiscardedIds(queuedLoggedOps, h) == map0 - DiscardedIds(q0, h)
        invariant RemoveOps(opLog, DiscardedIds(queuedLoggedOps, h)) == RemoveOps(log0, DiscardedIds(q0, h))
        invariant SentAfter(sentRequests, queuedLoggedOps, h) == SentAfter(sent0, q0, h)
        decreases |queuedLoggedOps|
      {
        ghost var n := TakenCount(queuedLoggedOps, h);
        ghost var taken, rest := queuedLoggedOps[..n], queuedLoggedOps[n..];
        assert queuedLoggedOps == taken + rest;
        DrainAppend(pluginSends, loggedOpsMap, opLog, sentRequests, taken, rest, h);
        DeliverOrDiscard();
      }
      assert Deliveries([], h) == [] && DiscardedIds([], h) == {} && SentAfter(sentRequests, [], h) == sentRequests;
      assert pluginSends + [] == pluginSends && loggedOpsMap - {} == loggedOpsMap;
      RemoveOpsNone(opLog, {});
      DiscardsEveryUnknown(q0, h);
    }

    /** One turn of that loop: take the front op off the queue and send it
        with its playlist's hatchet id, or discard it when the playlist has
        none, which drains the rest of the queue as well. What it takes is
        the front op or the whole queue, as TakenCount says. */
    method DeliverOrDiscard()
      requires Valid() && playlistsLoggedOpsMap == map[] && queuedLoggedOps != []
      modifies this
      decreases |queuedLoggedOps|, 0
      ensures Valid()
      ensures Session() == old(Session()) && playlistHatchetIds == old(playlistHatchetIds)
      ensures playlistsLoggedOpsMap == map[] && old(events) <= events
      ensures var n := TakenCount(old(queuedLoggedOps), playlistHatchetIds);
              var taken := old(queuedLoggedOps)[..n];
              var discarded := DiscardedIds(taken, playlistHatchetIds);
              && queuedLoggedOps == old(queuedLoggedOps)[n..]
              && pluginSends == old(pluginSends) + Deliveries(taken, playlistHatchetIds)
              && loggedOpsMap == old(loggedOpsMap) - discarded
              && opLog == RemoveOps(old(opLog), discarded)
              && sentRequests == SentAfter(old(sentRequests), taken, playlistHatchetIds)
    {
      var op := queuedLoggedOps[0];
      QueueTail(queuedLoggedOps, nextLoggedOpId);
      queuedLoggedOps := queuedLoggedOps[1..];
      var localId := op.params.playlistLocalId;
      if localId in playlistHatchetIds {
        Send(Deliver(op, playlistHatchetIds[localId]));
        assert old(queuedLoggedOps)[..1] == [op];
        DeliverFront(old(sentRequests), opLog, op, playlistHatchetIds);
      } else {
        assert old(queuedLoggedOps) == [op] + queuedLoggedOps;
        assert old(queuedLoggedOps)[..|old(queuedLoggedOps)|] == old(queuedLoggedOps);
        DiscardFront(old(sentRequests), op, queuedLoggedOps, playlistHatchetIds);
        DiscardLoggedOp(op);
      }
    }

    /** discardLoggedOp: record the op as sent and acknowledge it at once,
        discarding it. */
    method DiscardLoggedOp(op: Op)
      requires Valid() && op.createdPlaylist.None?
      modifies this
      decreases |queuedLoggedOps|, 5
      ensures Valid()
      ensures Session() == old(Session()) && playlistHatchetIds == old(playlistHatchetIds)
      ensures op.loggedOpId !in loggedOpsMap && loggedOpsMap.Keys <= old(loggedOpsMap).Keys
      ensures old(events) <= events
      ensures forall j | 0 <= j < |opLog| :: opLog[j].loggedOpId != op.loggedOpId
      ensures playlistsLoggedOpsMap == old(playlistsLoggedOpsMap) - {op.loggedOpId}
      ensures playlistsLoggedOpsMap == map[] ==>
                var discarded := DiscardedIds(old(queuedLoggedOps), playlistHatchetIds) + {op.loggedOpId};
                && queuedLoggedOps == []
                && pluginSends == old(pluginSends) + Deliveries(old(queuedLoggedOps), playlistHatchetIds)
                && loggedOpsMap == old(loggedOpsMap) - discarded
                && opLog == RemoveOps(old(opLog), discarded)
                && sentRequests == SentAfter(old(sentRequests)[op.requestId := op], old(queuedLoggedOps), playlistHatchetIds)
                && forall i | 0 <= i < |old(queuedLoggedOps)| &&
                              old(queuedLoggedOps)[i].params.playlistLocalId !in playlistHatchetIds ::
                     old(queuedLoggedOps)[i].loggedOpId !in loggedOpsMap
      ensures playlistsLoggedOpsMap != map[] ==>
                && queuedLoggedOps == old(queuedLoggedOps) && pluginSends == old(pluginSends)
                && loggedOpsMap == old(loggedOpsMap) - {op.loggedOpId}
                && opLog == RemoveOps(old(opLog), {op.loggedOpId})
                && sentRequests == old(sentRequests)[op.requestId := op]
    {
      sentRequests := sentRequests[op.requestId := op];
      AckOne(sentRequests, AckStart(), op);
      assert LoggedIds([op]) == {op.loggedOpId} by {
        assert [op][..0] == [];
      }
      OnLoggedOpsSent([op.requestId], true);
    }

    /** onLoggedOpsSent: acknowledge the done request ids, skipping ids that
        were never sent. Each matched op is unregistered; with `discard` it
        also stops being an outstanding playlist creation, the queue is
        retried, the ops leave the op log, and when the op log is then empty
        and some request was matched an OpLogIsEmptiedEvent is posted. */
    method OnLoggedOpsSent(doneIds: seq<string>, discard: bool)
      requires Valid()
      modifies this
      decreases |queuedLoggedOps|, 4
      ensures Valid()
      ensures Session() == old(Session()) && old(events) <= events
      ensures var a := AckAll(old(sentRequests), old(AckStart()), doneIds);
              && playlistHatchetIds == a.hatchetIds
              && loggedOpsMap.Keys <= a.loggedOps.Keys
              && (!discard ==>
                    && loggedOpsMap == a.loggedOps
                    && playlistsLoggedOpsMap == old(playlistsLoggedOpsMap)
                    && queuedLoggedOps == old(queuedLoggedOps) && pluginSends == old(pluginSends)
                    && sentRequests == old(sentRequests) && opLog == old(opLog) && events == old(events))
              && (discard ==> playlistsLoggedOpsMap == old(playlistsLoggedOpsMap) - LoggedIds(a.ops))
              && (discard && playlistsLoggedOpsMap == map[] ==>
                    var discarded := DiscardedIds(old(queuedLoggedOps), a.hatchetIds);
                    && queuedLoggedOps == []
                    && pluginSends == old(pluginSends) + Deliveries(old(queuedLoggedOps), a.hatchetIds)
                    && loggedOpsMap == a.loggedOps - discarded
                    && opLog == RemoveOps(old(opLog), discarded + LoggedIds(a.ops))
                    && sentRequests == SentAfter(old(sentRequests), old(queuedLoggedOps), a.hatchetIds)
                    && forall i | 0 <= i < |old(queuedLoggedOps)| &&
                                  old(queuedLoggedOps)[i].params.playlistLocalId !in a.hatchetIds ::
                         old(queuedLoggedOps)[i].loggedOpId !in loggedOpsMap)
              && (discard && playlistsLoggedOpsMap != map[] ==>
                    && queuedLoggedOps == old(queuedLoggedOps) && pluginSends == old(pluginSends)
                    && loggedOpsMap == a.loggedOps && opLog == RemoveOps(old(opLog), LoggedIds(a.ops))
                    && sentRequests == old(sentRequests))
              && (discard ==> forall j | 0 <= j < |opLog| :: opLog[j].loggedOpId !in LoggedIds(a.ops))
              && (discard && opLog == [] && a.types != {} ==>
                    |events| > 0 && events[|events| - 1] == OpLogIsEmptied(a.types, a.playlistIds))
    {
      var ops, types, playlistIds := AcknowledgeAll(doneIds);
      if discard {
        ForgetAcknowledged(ops, types, playlistIds);
      }
    }

    /** The `discard` block of onLoggedOpsSent, on the ops just
        acknowledged: they stop being outstanding playlist creations, the
        queue is retried, they leave the op log, and an OpLogIsEmptiedEvent
        is posted when the op log is then empty and there was some op. */
    method ForgetAcknowledged(ops: seq<Op>, types: set<RequestType>, playlistIds: set<string>)
      requires Valid()
      modifies this
      decreases |queuedLoggedOps|, 3
      ensures Valid()
      ensures Session() == old(Session()) && playlistHatchetIds == old(playlistHatchetIds)
      ensures loggedOpsMap.Keys <= old(loggedOpsMap).Keys && old(events) <= events
      ensures playlistsLoggedOpsMap == old(playlistsLoggedOpsMap) - LoggedIds(ops)
      ensures playlistsLoggedOpsMap == map[] ==>
                var discarded := DiscardedIds(old(queuedLoggedOps), playlistHatchetIds);
                && queuedLoggedOps == []
                && pluginSends == old(pluginSends) + Deliveries(old(queuedLoggedOps), playlistHatchetIds)
                && loggedOpsMap == old(loggedOpsMap) - discarded
                && opLog == RemoveOps(old(opLog), discarded + LoggedIds(ops))
                && sentRequests == SentAfter(old(sentRequests), old(queuedLoggedOps), playlistHatchetIds)
                && forall i | 0 <= i < |old(queuedLoggedOps)| &&
                              old(queuedLoggedOps)[i].params.playlistLocalId !in playlistHatchetIds ::
                     old(queuedLoggedOps)[i].loggedOpId !in loggedOpsMap
      ensures playlistsLoggedOpsMap != map[] ==>
                && queuedLoggedOps == old(queuedLoggedOps) && pluginSends == old(pluginSends)
                && loggedOpsMap == old(loggedOpsMap) && opLog == RemoveOps(old(opLog), LoggedIds(ops))
                && sentRequests == old(sentRequests)
      ensures forall j | 0 <= j < |opLog| :: opLog[j].loggedOpId !in LoggedIds(ops)
      ensures opLog == [] && types != {} ==>
                |events| > 0 && events[|events| - 1] == OpLogIsEmptied(types, playlistIds)
    {
      playlistsLoggedOpsMap := playlistsLoggedOpsMap - LoggedIds(ops);
      ghost var log0 := opLog;
      TrySendingQueuedOps();
      if playlistsLoggedOpsMap == map[] {
        RemoveOpsTwice(log0, DiscardedIds(old(queuedLoggedOps), playlistHatchetIds), LoggedIds(ops));
      }
      RemoveFromLog(ops, types, playlistIds);
    }

    /** DatabaseHelper.removeOpsFromInfoSystemOpLog on the acknowledged ops,
        then, when the op log is empty and some request type was
        acknowledged, an OpLogIsEmptiedEvent with those types and playlist
        ids. */
    method RemoveFromLog(ops: seq<Op>, types: set<RequestType>, playlistIds: set<string>)
      requires Valid()
      modifies this
      ensures Valid()
      ensures opLog == RemoveOps(old(opLog), LoggedIds(ops))
      ensures forall j | 0 <= j < |opLog| :: opLog[j].loggedOpId !in LoggedIds(ops)
      ensures Outgoing([]) == old(Outgoing([])) && playlistHatchetIds == old(playlistHatchetIds)
      ensures Session() == old(Session())
      ensures opLog == [] && types != {} ==> events == old(events) + [OpLogIsEmptied(types, playlistIds)]
      ensures opLog != [] || types == {} ==> events == old(events)
    {
      RemoveOpsKeepsLog(opLog, LoggedIds(ops), nextLoggedOpId);
      opLog := RemoveOps(opLog, LoggedIds(ops));
      if |opLog| == 0 && types != {} {
        events := events + [OpLogIsEmptied(types, playlistIds)];
      }
    }

    /** The loop of onLoggedOpsSent over the done request ids. */
    method AcknowledgeAll(doneIds: seq<string>)
      returns (ops: seq<Op>, types: set<RequestType>, playlistIds: set<string>)
      requires Valid()
      modifies this
      ensures Valid()
      ensures Acks(ops, types, playlistIds, loggedOpsMap, playlistHatchetIds)
              == AckAll(old(sentRequests), old(AckStart()), doneIds)
      ensures loggedOpsMap.Keys <= old(loggedOpsMap).Keys
      ensures sentRequests == old(sentRequests) && playlistsLoggedOpsMap == old(playlistsLoggedOpsMap)
      ensures queuedLoggedOps == old(queuedLoggedOps) && pluginSends == old(pluginSends)
      ensures opLog == old(opLog) && events == old(events) && Session() == old(Session())
    {
      ops, types, playlistIds := [], {}, {};
      for i := 0 to |doneIds|
        invariant Acks(ops, types, playlistIds, loggedOpsMap, playlistHatchetIds)
                  == AckAll(sentRequests, old(AckStart()), doneIds[..i])
        invariant loggedOpsMap.Keys <= old(loggedOpsMap).Keys
        invariant sentRequests == old(sentRequests) && playlistsLoggedOpsMap == old(playlistsLoggedOpsMap)
        invariant queuedLoggedOps == old(queuedLoggedOps) && pluginSends == old(pluginSends)
        invariant opLog == old(opLog) && events == old(events) && Session() == old(Session())
      {
        var requestId := doneIds[i];
        if requestId in sentRequests {
          var op := sentRequests[requestId];
          ops := ops + [op];
          types := types + {op.requestType};
          if op.requestType == PlaylistEntries {
            playlistIds := playlistIds + {op.params.playlistLocalId};
          } else if op.requestType == Playlists && op.createdPlaylist.Some? {
            playlistIds := playlistIds + {op.createdPlaylist.value};
            playlistHatchetIds := playlistHatchetIds[op.params.playlistLocalId := op.createdPlaylist.value];
          }
          loggedOpsMap := loggedOpsMap - {op.loggedOpId};
        }
        assert doneIds[..i + 1][..i] == doneIds[..i];
      }
      assert doneIds[..|doneIds|] == doneIds;
    }

    /** sendLoggedOps: register the op log's ops not registered yet, in log
        order, sending or queueing each; return their request ids; then try
        the queue. Afterwards every op left in the log is registered, so a
        second call returns no request ids. */
    method SendLoggedOps() returns (requestIds: seq<string>)
      requires Valid()
      modifies this
      ensures Valid()
      ensures Session() == old(Session()) && playlistHatchetIds == old(playlistHatchetIds)
      ensures var added := Unknown(old(loggedOpsMap).Keys, old(opLog));
              var queue := old(queuedLoggedOps) + Queueable(added);
              var registered := RegisterAll(old(Outgoing([])), old(opLog));
              && requestIds == RequestIdsOf(added)
              && old(pluginSends) + Direct(added) <= pluginSends
              && (old(playlistsLoggedOpsMap) == map[] && Creations(added) == [] ==>
                    var discarded := DiscardedIds(queue, old(playlistHatchetIds));
                    && queuedLoggedOps == [] && playlistsLoggedOpsMap == map[]
                    && pluginSends == old(pluginSends) + Direct(added) + Deliveries(queue, old(playlistHatchetIds))
                    && loggedOpsMap.Keys == (old(loggedOpsMap).Keys + LoggedIds(old(opLog))) - discarded
                    && opLog == RemoveOps(old(opLog), discarded)
                    && sentRequests == SentAfter(registered.sent, queue, old(playlistHatchetIds)))
              && (old(playlistsLoggedOpsMap) != map[] || Creations(added) != [] ==>
                    && queuedLoggedOps == queue
                    && pluginSends == old(pluginSends) + Direct(added)
                    && loggedOpsMap.Keys == old(loggedOpsMap).Keys + LoggedIds(old(opLog))
                    && playlistsLoggedOpsMap.Keys
                       == old(playlistsLoggedOpsMap).Keys + LoggedIds(Creations(added))
                    && opLog == old(opLog) && sentRequests == registered.sent)
      ensures forall i | 0 <= i < |opLog| :: opLog[i].loggedOpId in loggedOpsMap
      ensures Unknown(loggedOpsMap.Keys, opLog) == []
    {
      var loggedOps := opLog;
      ghost var o := Outgoing([]);
      requestIds := RegisterLoggedOps(loggedOps);
      RegisterAllKeys(o, loggedOps);
      RegisterAllRequestIds(o, loggedOps);
      RegisterAllQueued(o, loggedOps);
      RegisterAllSends(o, loggedOps);
      RegisterAllCreations(o, loggedOps);
      ghost var added := Unknown(o.loggedOps.Keys, loggedOps);
      LoggedIdsBelow(loggedOps, nextLoggedOpId);
      QueueFromLog(old(queuedLoggedOps), o.loggedOps.Keys, loggedOps, nextLoggedOpId);
      assert playlistsLoggedOpsMap == map[] <==> playlistsLoggedOpsMap.Keys == {};
      assert old(playlistsLoggedOpsMap) == map[] <==> old(playlistsLoggedOpsMap).Keys == {};
      ghost var keys := loggedOpsMap.Keys;
      ghost var discarded := DiscardedIds(queuedLoggedOps, playlistHatchetIds);
      TrySendingQueuedOps();
      assert loggedOpsMap.Keys == keys || loggedOpsMap.Keys == keys - discarded;
      LeftRegistered(loggedOps, keys, discarded, loggedOpsMap.Keys, opLog);
    }

    /** sendPlaybackEntryPostStruct: when a query is playing and its
        playback has not been logged, log it (with placeholders for empty
        names) as a playback-log POST and push the op log. The entry is then
        among the requests sent. */
    method SendPlaybackEntryPostStruct(now: int) returns (ghost logged: Op)
      requires Valid()
      modifies this
      ensures Valid()
      ensures nowPlaying == old(nowPlaying)
      ensures old(nowPlaying).None? || old(nowPlaying) == old(lastPlaybackLogEntry) ==> unchanged(this)
      ensures old(nowPlaying).Some? && old(nowPlaying) != old(lastPlaybackLogEntry) ==>
                && lastPlaybackLogEntry == nowPlaying
                && logged == Op(IntToString(old(nextRequestId)), old(nextLoggedOpId), PlaybackLogEntries,
                                HttpPost, NoParams,
                                PlaybackLogPost(PlaybackEntry(old(nowPlaying).value, false, now)), None)
                && logged in pluginSends && logged in opLog && logged.loggedOpId in loggedOpsMap
                && nextRequestId == old(nextRequestId) + 1 && nextLoggedOpId == old(nextLoggedOpId) + 1
                && pluginResolves == old(pluginResolves) && playlistHatchetIds == old(playlistHatchetIds)
    {
      logged := Op("", 0, PlaybackLogEntries, HttpPost, NoParams, NoPayload, None);
      if nowPlaying.Some? && nowPlaying != lastPlaybackLogEntry {
        lastPlaybackLogEntry := nowPlaying;
        logged := LogAndPush(PlaybackLogPost(PlaybackEntry(nowPlaying.value, false, now)));
      }
    }

    /** The logging half of sendPlaybackEntryPostStruct: store a
        playback-log POST with a new request id in the op log and push the
        log; the op is sent with the other ops new to the registration, and
        it stays in the op log until its request is acknowledged. */
    method LogAndPush(payload: Payload) returns (ghost logged: Op)
      requires Valid()
      modifies this
      ensures Valid()
      ensures nowPlaying == old(nowPlaying) && lastPlaybackLogEntry == old(lastPlaybackLogEntry)
      ensures logged == Op(IntToString(old(nextRequestId)), old(nextLoggedOpId), PlaybackLogEntries,
                           HttpPost, NoParams, payload, None)
      ensures logged in pluginSends
      ensures logged in opLog && logged.loggedOpId in loggedOpsMap
      ensures nextRequestId == old(nextRequestId) + 1 && nextLoggedOpId == old(nextLoggedOpId) + 1
      ensures pluginResolves == old(pluginResolves) && playlistHatchetIds == old(playlistHatchetIds)
      ensures var added := Unknown(old(loggedOpsMap).Keys, old(opLog) + [logged]);
              var queue := old(queuedLoggedOps) + Queueable(added);
              && old(pluginSends) + Direct(added) <= pluginSends
              && (old(playlistsLoggedOpsMap) == map[] && Creations(added) == [] ==>
                    && queuedLoggedOps == []
                    && opLog == RemoveOps(old(opLog) + [logged], DiscardedIds(queue, old(playlistHatchetIds))))
              && (old(playlistsLoggedOpsMap) != map[] || Creations(added) != [] ==>
                    queuedLoggedOps == queue && opLog == old(opLog) + [logged])
    {
      ghost var log, queue0, known, h := opLog, queuedLoggedOps, loggedOpsMap.Keys, playlistHatchetIds;
      ghost var drains := playlistsLoggedOpsMap == map[];
      ghost var x := Op(IntToString(nextRequestId), nextLoggedOpId, PlaybackLogEntries, HttpPost, NoParams, payload, None);
      FreshOpStays(queue0, known, log, x, h);
      var requestId := NewRequestId();
      logged := AddOpToLog(Op(requestId, 0, PlaybackLogEntries, HttpPost, NoParams, payload, None));
      assert logged == x && opLog == log + [logged];
      NewLastOpIsSent(known, log, logged);
      ghost var sends0 := pluginSends;
      ghost var added := Unknown(known, opLog);
      assert logged in sends0 + Direct(added);
      var _ := SendLoggedOps();
      InPrefix(logged, sends0 + Direct(added), pluginSends);
      if drains && Creations(added) == [] {
        assert opLog == RemoveOps(log + [logged], DiscardedIds(queue0 + Queueable(added), h));
      } else {
        assert opLog == log + [logged];
      }
    }

    /** sendNowPlayingPostStruct: for a query other than the one playing,
        log the playback of the one playing, make the query the one playing
        and send (without logging) a now-playing POST for it. */
    method SendNowPlayingPostStruct(query: Query, now: int)
      requires Valid()
      modifies this
      ensures Valid()
      ensures old(nowPlaying) == Some(query) ==> unchanged(this)
      ensures old(nowPlaying) != Some(query) ==>
                && nowPlaying == Some(query)
                && lastPlaybackLogEntry == (if old(nowPlaying).Some? then old(nowPlaying) else old(lastPlaybackLogEntry))
                && |pluginSends| > 0
                && pluginResolves == old(pluginResolves) && playlistHatchetIds == old(playlistHatchetIds)
                && var sent := pluginSends[|pluginSends| - 1];
                   && sent.requestType == PlaybackLogEntries && sent.httpType == HttpPost
                   && sent.payload == PlaybackLogPost(PlaybackEntry(query, true, now))
                   && sent.requestId in sentRequests && sentRequests[sent.requestId] == sent
                   && sent.requestId == IntToString(nextRequestId - 1)
      ensures old(nowPlaying) != Some(query) && old(nowPlaying).Some? && old(nowPlaying) != old(lastPlaybackLogEntry) ==>
                var logged := Op(IntToString(old(nextRequestId)), old(nextLoggedOpId), PlaybackLogEntries, HttpPost,
                                 NoParams, PlaybackLogPost(PlaybackEntry(old(nowPlaying).value, false, now)), None);
                && logged in pluginSends && logged in opLog && logged.loggedOpId in loggedOpsMap
                && nextRequestId == old(nextRequestId) + 2 && nextLoggedOpId == old(nextLoggedOpId) + 1
                && pluginSends[|pluginSends| - 1].requestId == IntToString(old(nextRequestId) + 1)
                && pluginSends[|pluginSends| - 1].requestId != logged.requestId
      ensures old(nowPlaying) != Some(query) && (old(nowPlaying).None? || old(nowPlaying) == old(lastPlaybackLogEntry)) ==>
                && opLog == old(opLog) && nextLoggedOpId == old(nextLoggedOpId)
                && nextRequestId == old(nextRequestId) + 1
                && pluginSends == old(pluginSends) + [Op(IntToString(old(nextRequestId)), 0, PlaybackLogEntries,
                                                         HttpPost, NoParams,
                                                         PlaybackLogPost(PlaybackEntry(query, true, now)), None)]
    {
      if nowPlaying != Some(query) {
        ghost var n := nextRequestId;
        ghost var logged := SendPlaybackEntryPostStruct(now);
        nowPlaying := Some(query);
        var entry := PlaybackEntry(query, true, now);
        var requestId := NewRequestId();
        Send(Op(requestId, 0, PlaybackLogEntries, HttpPost, NoParams, PlaybackLogPost(entry), None));
        if IntToString(n + 1) == IntToString(n) {
          IntToStringInjective(n + 1, n);
        }
      }
    }
  }
}
