/** The two runtime entry points that feed the cache (server_p2p.go). */
module HubEvents {
  import opened PeerState
  import opened PeerCacheStore
  import opened Ranking
  import opened HubProxy
  import GpuSummary
  import Health

  const JOIN := "JOIN"

  /** A broadcast that lists no GPUs gets the ones its summary names. */
  function WithEntries(info: GpuInfo): GpuInfo {
    if info.gpus == [] && info.summary != "" then info.(gpus := GpuSummary.ParseSummary(info.summary)) else info
  }

  /** The operations one broadcast causes: the merge, and a JOIN event when the peer was unknown. */
  function GossipOps(m: PeerMap, info: GpuInfo, now: string): seq<Op> {
    if info.nodeID == "" then []
    else
      [Gossip(WithEntries(info), now)] +
      (if info.finite && info.nodeID !in m then [Event(PeerEvent(info.nodeID, info.addr, JOIN, 0, 0, now, ""))] else [])
  }

  datatype Cluster = Cluster(prefillNodes: int, decodeNodes: int)

  /** The lists a dispatcher computes from a live map, or keeps when nobody in it is usable. */
  ghost predicate Reloaded(before: BackendLists, after: BackendLists, m: PeerMap, cluster: Cluster,
                           decodes: PeerData -> bool) {
    exists snapshot :: IsRanking(snapshot, m) &&
      var us := Usable(snapshot);
      after == if us == [] then before
               else (Backends(PrefillPeers(us, cluster.prefillNodes, cluster.decodeNodes, decodes)),
                     Backends(DecodePeers(us, cluster.prefillNodes, cluster.decodeNodes, decodes)))
  }

  /** The broadcast is merged, an unknown peer is logged as joining, and the dispatcher (if there is
      one) recomputes its backends from the new map. */
  method ServerProcessGossipMessage(cache: PeerCache, proxy: ProxyServer?, message: GpuInfo, now: string,
                                    cluster: Cluster, decodes: PeerData -> bool)
    requires cache.Valid()
    modifies cache, if proxy == null then {} else {proxy}
    ensures cache.Valid()
    ensures cache.Abs() == ApplyAll(old(cache.Abs()), GossipOps(old(cache.peers), message, now))
    ensures proxy != null && message.nodeID != "" ==>
      Reloaded(old(proxy.Lists()), proxy.Lists(), cache.peers, cluster, decodes)
    ensures message.nodeID == "" || !message.finite ==> cache.Abs() == old(cache.Abs())
    ensures message.nodeID != "" && message.finite ==>
      && cache.peers.Keys == old(cache.peers).Keys + {message.nodeID} && message.nodeID !in cache.pendingDeletes
      && cache.peers[message.nodeID].gpuInfo == Encoded(WithEntries(message))
      && cache.peers[message.nodeID].role == message.role && cache.peers[message.nodeID].lastPing == now
      && cache.pendingEvents == old(cache.pendingEvents) +
           if message.nodeID in old(cache.peers) then []
           else [PeerEvent(message.nodeID, message.addr, "JOIN", 0, 0, now, "")]
    ensures proxy != null && message.nodeID == "" ==> proxy.Lists() == old(proxy.Lists())
    ensures proxy != null ==> proxy.decodeIndex == old(proxy.decodeIndex)
  {
    if message.nodeID == "" {
      return;
    }
    Merge(cache, message, now);
    GossipMeans(old(cache.Abs()), message, now);
    if proxy != null {
      var snapshot := cache.Snapshot();
      proxy.ReloadBackends(snapshot, cluster.prefillNodes, cluster.decodeNodes, decodes);
    }
  }

  /** What those operations leave behind. */
  lemma GossipMeans(c: Cache, message: GpuInfo, now: string)
    requires message.nodeID != ""
    ensures
      var c' := ApplyAll(c, GossipOps(c.peers, message, now));
      && (!message.finite ==> c' == c)
      && (message.finite ==>
            && c'.peers.Keys == c.peers.Keys + {message.nodeID} && message.nodeID !in c'.deletes
            && c'.peers[message.nodeID].gpuInfo == Encoded(WithEntries(message))
            && c'.peers[message.nodeID].role == message.role && c'.peers[message.nodeID].lastPing == now
            && c'.events == c.events +
                 if message.nodeID in c.peers then []
                 else [PeerEvent(message.nodeID, message.addr, "JOIN", 0, 0, now, "")])
  {
    var join := Event(PeerEvent(message.nodeID, message.addr, JOIN, 0, 0, now, ""));
    ApplyTwo(c, Gossip(WithEntries(message), now), join);
    assert c.events + [] == c.events;
  }

  /** A listed broadcast is stored as it is; an unlisted one gets the entries its summary names, and only
      those. */
  lemma EntriesFilledIn(info: GpuInfo)
    ensures info.gpus != [] || info.summary == "" ==> WithEntries(info) == info
    ensures info.gpus == [] && info.summary != "" ==>
      WithEntries(info) == info.(gpus := GpuSummary.ParseSummary(info.summary))
  {}

  method Merge(cache: PeerCache, message: GpuInfo, now: string)
    requires cache.Valid() && message.nodeID != ""
    modifies cache
    ensures cache.Valid()
    ensures cache.Abs() == ApplyAll(old(cache.Abs()), GossipOps(old(cache.peers), message, now))
  {
    var info := message;
    if |info.gpus| == 0 && info.summary != "" {
      var gpus := GpuSummary.ParseSummaryGPUs(info.summary);
      info := info.(gpus := gpus);
    }
    var join := Event(PeerEvent(info.nodeID, info.addr, JOIN, 0, 0, now, ""));
    ApplyTwo(old(cache.Abs()), Gossip(info, now), join);
    var isNew := cache.UpsertGossip(info, now);
    if isNew {
      cache.QueueEvent(join.event);
    }
  }

  /** What one health check means.  An answer marks the ping as OK and, if there had been failures,
      clears them for one penalty point; a failure is counted, unless that would reach the limit, when
      it is only reported; each of these leaves one audit event, a plain answer none. */
  ghost predicate Checked(p: PeerData, decodable: bool, answered: bool, limit: int, now: string, c: Cache, c': Cache) {
    var id := p.peerID;
    var failing := decodable && !answered;
    && c'.peers.Keys == c.peers.Keys && c'.deletes == c.deletes
    && (forall k :: k in c.peers && k != id ==> c'.peers[k] == c.peers[k])
    && (id in c.peers ==>
          && c'.peers[id].lastPing == (if decodable && answered then "OK" else c.peers[id].lastPing)
          && c'.peers[id].failCount ==
               (if decodable && answered && p.failCount > 0 then 0
                else if failing && p.failCount + 1 < limit then p.failCount + 1 else c.peers[id].failCount)
          && c'.peers[id].penaltyPoints ==
               (if decodable && answered && p.failCount > 0 then p.penaltyPoints + 1
                else if failing && p.failCount + 1 < limit then p.penaltyPoints else c.peers[id].penaltyPoints))
    && c'.events == c.events +
         (if decodable && answered && p.failCount > 0 then
            [PeerEvent(id, p.ipAddress, "RECOVERED_PENALTY", 0, p.penaltyPoints + 1, now, "")]
          else if failing && p.failCount + 1 >= limit then
            [PeerEvent(id, p.ipAddress, "WARNING_OFFLINE", p.failCount + 1, p.penaltyPoints, now, "")]
          else if failing then
            [PeerEvent(id, p.ipAddress, "FAIL_INCREMENT", p.failCount + 1, p.penaltyPoints, now, "")]
          else [])
  }

  /** That is what the operations of a check do. */
  lemma CheckMeans(c: Cache, p: PeerData, decodable: bool, answered: bool, maxFailCount: int, now: string)
    ensures
      var ops := if decodable then Health.PingOps(p, answered, Health.Limit(maxFailCount), now) else [];
      Checked(p, decodable, answered, if maxFailCount <= 0 then 3 else maxFailCount, now, c, ApplyAll(c, ops))
  {
    assert c.events + [] == c.events;
    if decodable {
      var ops := Health.PingOps(p, answered, Health.Limit(maxFailCount), now);
      if answered && p.failCount > 0 {
        assert ops[..2] == [ops[0], ops[1]];
        ApplyTwo(c, ops[0], ops[1]);
      } else if |ops| == 1 {
        assert ops == [ops[0]];
        ApplyTwo(c, ops[0], ops[0]);
      } else {
        assert ops == [ops[0], ops[1]];
        ApplyTwo(c, ops[0], ops[1]);
      }
    }
  }

  /** One health check of `p`, the row a snapshot handed out. */
  method PingOnePeer(cache: PeerCache, p: PeerData, decodable: bool, answered: bool, maxFailCount: int, now: string)
    requires cache.Valid()
    modifies cache
    ensures cache.Valid()
    ensures cache.Abs() ==
      ApplyAll(old(cache.Abs()), if decodable then Health.PingOps(p, answered, Health.Limit(maxFailCount), now) else [])
    ensures Checked(p, decodable, answered, if maxFailCount <= 0 then 3 else maxFailCount, now,
                    old(cache.Abs()), cache.Abs())
  {
    CheckMeans(old(cache.Abs()), p, decodable, answered, maxFailCount, now);
    if !decodable {
      return;
    }
    ghost var before := cache.Abs();
    ghost var ops := Health.PingOps(p, answered, Health.Limit(maxFailCount), now);
    if answered {
      cache.SetPing(p.peerID, "OK");
      if p.failCount > 0 {
        var newPenalty := p.penaltyPoints + 1;
        cache.UpdateHealth(p.peerID, 0, newPenalty);
        cache.QueueEvent(PeerEvent(p.peerID, p.ipAddress, Health.RECOVERED_PENALTY, 0, newPenalty, now, ""));
        assert ops == [ops[0], ops[1], ops[2]] && ops[..2] == [ops[0], ops[1]];
        ApplyTwo(before, ops[0], ops[1]);
      } else {
        assert ops == [ops[0]];
        ApplyTwo(before, ops[0], ops[0]);
      }
      return;
    }
    var newFail := p.failCount + 1;
    var maxFail := maxFailCount;
    if maxFail <= 0 {
      maxFail := 3;
    }
    if newFail >= maxFail {
      cache.QueueEvent(PeerEvent(p.peerID, p.ipAddress, Health.WARNING_OFFLINE, newFail, p.penaltyPoints, now, ""));
      ApplyTwo(before, ops[0], ops[0]);
      return;
    }
    cache.UpdateHealth(p.peerID, newFail, p.penaltyPoints);
    cache.QueueEvent(PeerEvent(p.peerID, p.ipAddress, Health.FAIL_INCREMENT, newFail, p.penaltyPoints, now, ""));
    ApplyTwo(before, ops[0], ops[1]);
  }
}
