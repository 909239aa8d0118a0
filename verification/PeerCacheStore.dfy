/** The mutable peer cache (peer_cache.go).  Each method is one critical section of its mutex and is
    proved to be the corresponding operation of `PeerState`; `Flush` runs the three phases of
    `WriteBehind` with nothing in between. */
module PeerCacheStore {
  import opened PeerState
  import opened PeerDatabase
  import opened WriteBehind
  import opened Ranking

  /** The map while a reset is under way: every row but those still to do is zeroed. */
  ghost function ResetExcept(m: PeerMap, todo: set<string>): PeerMap {
    map id | id in m :: if id in todo then m[id] else ZeroStats(m[id])
  }

  lemma ResetNext(m: PeerMap, todo: set<string>, id: string)
    requires id in m && id in todo
    ensures ResetExcept(m, todo)[id := ZeroStats(ResetExcept(m, todo)[id])] == ResetExcept(m, todo - {id})
  {}

  /** What a broadcast does to a row: telemetry, role and endpoints are the broadcast's, the address only
      until a connection has been seen, requests, tokens and score only upwards, and the rest is kept. */
  ghost predicate Merged(p: PeerData, info: GpuInfo, now: string, p': PeerData) {
    var score := 10.0 * info.totalRequests as real + info.totalTokens as real / 10.0;
    var counted := info.totalRequests > 0 || info.totalTokens > 0;
    && p'.gpuInfo == Encoded(info) && p'.role == info.role && p'.lastPing == now
    && p'.bootstrapAddr == info.bootstrapAddr && p'.engineID == info.engineID
    && p'.ipAddress == (if p.ipVerified then p.ipAddress else info.addr)
    && p'.totalRequests ==
         (if counted && info.totalRequests > p.totalRequests then info.totalRequests else p.totalRequests)
    && p'.totalTokens == (if counted && info.totalTokens > p.totalTokens then info.totalTokens else p.totalTokens)
    && p'.contributionScore == (if counted && score > p.contributionScore then score else p.contributionScore)
    && p'.peerID == p.peerID && p'.ipVerified == p.ipVerified && p'.failCount == p.failCount
    && p'.penaltyPoints == p.penaltyPoints && p'.inTokens == p.inTokens && p'.outTokens == p.outTokens
  }

  /** So the gossip operation touches the sender's row only, inserting it if need be. */
  lemma GossipMerges(m: PeerMap, info: GpuInfo, now: string)
    requires info.finite
    ensures
      var m' := PeersAfter(m, Gossip(info, now));
      && m'.Keys == m.Keys + {info.nodeID}
      && Merged(if info.nodeID in m then m[info.nodeID] else NewPeer(info.nodeID), info, now, m'[info.nodeID])
  {}

  /** What one credit does to a row. */
  ghost predicate Credited(p: PeerData, p': PeerData, requests: int, inTokens: int, outTokens: int, tokens: int) {
    && p'.totalRequests == p.totalRequests + requests && p'.totalTokens == p.totalTokens + tokens
    && p'.inTokens == p.inTokens + inTokens && p'.outTokens == p.outTokens + outTokens
    && p'.contributionScore == p.contributionScore + 10.0 * requests as real + tokens as real / 10.0
    && p' == p.(totalRequests := p'.totalRequests, totalTokens := p'.totalTokens, inTokens := p'.inTokens,
                outTokens := p'.outTokens, contributionScore := p'.contributionScore)
  }

  /** Every cumulative column is zero and everything else is as it was. */
  ghost predicate WasReset(p: PeerData, p': PeerData) {
    && p'.totalRequests == 0 && p'.totalTokens == 0 && p'.inTokens == 0 && p'.outTokens == 0
    && p'.contributionScore == 0.0
    && p == p'.(totalRequests := p.totalRequests, totalTokens := p.totalTokens, inTokens := p.inTokens,
                outTokens := p.outTokens, contributionScore := p.contributionScore)
  }

  lemma ResetZeroes(m: PeerMap)
    ensures PeersAfter(m, Reset).Keys == m.Keys
    ensures forall id :: id in m ==> WasReset(m[id], PeersAfter(m, Reset)[id])
  {}

  class PeerCache {
    var peers: PeerMap
    var pendingEvents: seq<PeerEvent>
    var pendingDeletes: set<string>

    ghost function Abs(): Cache
      reads this
    {
      Cache(peers, pendingEvents, pendingDeletes)
    }

    ghost predicate Valid()
      reads this
    {
      Keyed(peers)
    }

    constructor ()
      ensures Valid() && Abs() == EMPTY_CACHE
    {
      peers, pendingEvents, pendingDeletes := map[], [], {};
    }

    method UpsertGossip(info: GpuInfo, now: string) returns (isNew: bool)
      requires Valid()
      modifies this
      ensures Valid() && Abs() == Apply(old(Abs()), Gossip(info, now))
      ensures isNew == (info.finite && info.nodeID !in old(peers))
    {
      var gpuData := Marshal(info);
      if gpuData.None? {
        return false;
      }
      pendingDeletes := pendingDeletes - {info.nodeID};
      var p := NewPeer(info.nodeID);
      isNew := info.nodeID !in peers;
      if !isNew {
        p := peers[info.nodeID];
      }
      if !p.ipVerified {
        p := p.(ipAddress := info.addr);
      }
      p := p.(lastPing := now);
      p := p.(gpuInfo := gpuData.value);
      p := p.(bootstrapAddr := info.bootstrapAddr);
      p := p.(engineID := info.engineID);
      p := p.(role := info.role);
      if info.totalTokens > 0 || info.totalRequests > 0 {
        if info.totalRequests > p.totalRequests {
          p := p.(totalRequests := info.totalRequests);
        }
        if info.totalTokens > p.totalTokens {
          p := p.(totalTokens := info.totalTokens);
        }
        var addedScore := info.totalRequests as real * 10.0 + info.totalTokens as real / 10.0;
        if addedScore > p.contributionScore {
          p := p.(contributionScore := addedScore);
        }
      }
      peers := peers[info.nodeID := p];
    }

    method UpsertConnection(id: string, addr: string, now: string)
      requires Valid()
      modifies this
      ensures Valid() && Abs() == Apply(old(Abs()), Connect(id, addr, now))
      ensures peers.Keys == old(peers).Keys + {id} && id !in pendingDeletes
      ensures peers[id].ipAddress == addr && peers[id].ipVerified && peers[id].lastPing == now
      ensures
        var before := if id in old(peers) then old(peers)[id] else NewPeer(id).(gpuInfo := EmptyArray);
        peers[id] == before.(ipAddress := addr, ipVerified := true, lastPing := now)
    {
      pendingDeletes := pendingDeletes - {id};
      if id !in peers {
        var p := PeerData(id, EmptyArray, addr, now, "", "", 0, 0, 0, 0, 0, 0, 0.0, "", true);
        peers := peers[id := p];
        return;
      }
      var p := peers[id];
      p := p.(ipAddress := addr);
      p := p.(lastPing := now);
      p := p.(ipVerified := true);
      peers := peers[id := p];
    }

    method RemovePeer(id: string)
      requires Valid()
      modifies this
      ensures Valid() && Abs() == Apply(old(Abs()), Remove(id))
    {
      peers := peers - {id};
      pendingDeletes := pendingDeletes + {id};
    }

    method SetPing(id: string, value: string)
      requires Valid()
      modifies this
      ensures Valid() && Abs() == Apply(old(Abs()), Ping(id, value))
    {
      if id in peers {
        peers := peers[id := peers[id].(lastPing := value)];
      }
    }

    method UpdateHealth(id: string, failCount: int, penaltyPoints: int)
      requires Valid()
      modifies this
      ensures Valid() && Abs() == Apply(old(Abs()), Health(id, failCount, penaltyPoints))
    {
      if id in peers {
        peers := peers[id := peers[id].(failCount := failCount, penaltyPoints := penaltyPoints)];
      }
    }

    method QueueEvent(e: PeerEvent)
      requires Valid()
      modifies this
      ensures Valid() && Abs() == Apply(old(Abs()), Event(e))
    {
      pendingEvents := pendingEvents + [e];
    }

    method IncrementContribution(id: string, requests: int, tokens: int)
      requires Valid()
      modifies this
      ensures Valid() && Abs() == Apply(old(Abs()), Credit(id, requests, tokens))
      ensures id !in old(peers) ==> peers == old(peers)
      ensures id in old(peers) ==>
        Credited(old(peers)[id], peers[id], if requests <= 0 then 1 else requests, 0, 0, tokens)
    {
      var n := requests;
      if n <= 0 {
        n := 1;
      }
      var addedScore := n as real * 10.0 + tokens as real / 10.0;
      if id !in peers {
        return;
      }
      var p := peers[id];
      p := p.(totalRequests := p.totalRequests + n);
      p := p.(totalTokens := p.totalTokens + tokens);
      p := p.(contributionScore := p.contributionScore + addedScore);
      peers := peers[id := p];
    }

    method IncrementTokensDetail(id: string, requests: int, inTokens: int, outTokens: int)
      requires Valid()
      modifies this
      ensures Valid() && Abs() == Apply(old(Abs()), CreditDetail(id, requests, inTokens, outTokens))
      ensures id !in old(peers) ==> peers == old(peers)
      ensures id in old(peers) ==>
        Credited(old(peers)[id], peers[id], if requests <= 0 then 1 else requests, inTokens, outTokens,
                 inTokens + outTokens)
    {
      var n := requests;
      if n <= 0 {
        n := 1;
      }
      var totTokens := inTokens + outTokens;
      var addedScore := n as real * 10.0 + totTokens as real / 10.0;
      if id !in peers {
        return;
      }
      var p := peers[id];
      p := p.(totalRequests := p.totalRequests + n);
      p := p.(totalTokens := p.totalTokens + totTokens);
      p := p.(inTokens := p.inTokens + inTokens);
      p := p.(outTokens := p.outTokens + outTokens);
      p := p.(contributionScore := p.contributionScore + addedScore);
      peers := peers[id := p];
    }

    method ResetStats() returns (n: nat)
      requires Valid()
      modifies this
      ensures Valid() && Abs() == Apply(old(Abs()), Reset)
      ensures peers.Keys == old(peers).Keys && forall id :: id in peers ==> WasReset(old(peers)[id], peers[id])
      ensures n == |old(peers)|
    {
      var todo := peers.Keys;
      assert peers == ResetExcept(peers, todo);
      while todo != {}
        invariant todo <= old(peers).Keys && peers == ResetExcept(old(peers), todo)
        invariant pendingEvents == old(pendingEvents) && pendingDeletes == old(pendingDeletes)
        decreases |todo|
      {
        var id :| id in todo;
        ResetNext(old(peers), todo, id);
        peers := peers[id := ZeroStats(peers[id])];
        todo := todo - {id};
      }
      assert peers == PeersAfter(old(peers), Reset);
      n := |peers|;
      ResetZeroes(old(peers));
    }

    /** A copy of every row in map-iteration order. */
    method CopyPeers() returns (out: seq<PeerData>)
      requires Valid()
      ensures IsListing(out, peers)
    {
      out := [];
      var todo := peers.Keys;
      while todo != {}
        invariant IsListingExcept(out, peers, todo)
        decreases |todo|
      {
        var id :| id in todo;
        ListNext(out, peers, todo, id);
        out := out + [peers[id]];
        todo := todo - {id};
      }
    }

    method Snapshot() returns (out: seq<PeerData>)
      requires Valid()
      ensures IsRanking(out, peers)
      ensures forall other :: IsRanking(other, peers) ==> other == out
    {
      out := CopyPeers();
      out := SortByRank(out, peers);
      forall other | IsRanking(other, peers) ensures other == out {
        RankingUnique(other, out, peers);
      }
    }

    /** One snapshot entry: a new peer is taken whole, a known one only moves its counters up. */
    method MergePeer(q: PeerData)
      modifies this`peers
      ensures peers == PeerState.MergePeer(old(peers), q)
    {
      if q.peerID !in peers {
        peers := peers[q.peerID := q];
        return;
      }
      var p := peers[q.peerID];
      if q.totalRequests > p.totalRequests { p := p.(totalRequests := q.totalRequests); }
      if q.totalTokens > p.totalTokens { p := p.(totalTokens := q.totalTokens); }
      if q.contributionScore > p.contributionScore { p := p.(contributionScore := q.contributionScore); }
      if q.inTokens > p.inTokens { p := p.(inTokens := q.inTokens); }
      if q.outTokens > p.outTokens { p := p.(outTokens := q.outTokens); }
      peers := peers[q.peerID := p];
    }

    method LoadSnapshot(entries: seq<PeerData>)
      requires Valid()
      modifies this
      ensures Valid() && Abs() == Apply(old(Abs()), Load(entries))
    {
      for i := 0 to |entries|
        invariant peers == LoadPeers(old(peers), entries[..i])
        invariant pendingEvents == old(pendingEvents) && pendingDeletes == old(pendingDeletes)
      {
        assert entries[..i + 1][..i] == entries[..i];
        MergePeer(entries[i]);
      }
      assert entries[..|entries|] == entries;
      KeyedLoad(old(peers), entries);
    }

    /** Any one operation. */
    method Perform(op: Op)
      requires Valid()
      modifies this
      ensures Valid() && Abs() == Apply(old(Abs()), op)
    {
      match op
      case Gossip(info, now) => var _ := UpsertGossip(info, now);
      case Connect(id, addr, now) => UpsertConnection(id, addr, now);
      case Remove(id) => RemovePeer(id);
      case Ping(id, value) => SetPing(id, value);
      case Health(id, fail, penalty) => UpdateHealth(id, fail, penalty);
      case Event(e) => QueueEvent(e);
      case Credit(id, requests, tokens) => IncrementContribution(id, requests, tokens);
      case CreditDetail(id, requests, inTokens, outTokens) => IncrementTokensDetail(id, requests, inTokens, outTokens);
      case Reset => var _ := ResetStats();
      case Load(entries) => LoadSnapshot(entries);
    }

    /** A history of operations is the history of `PeerState`. */
    method PerformAll(ops: seq<Op>)
      requires Valid()
      modifies this
      ensures Valid() && Abs() == ApplyAll(old(Abs()), ops)
    {
      for i := 0 to |ops|
        invariant Valid() && Abs() == ApplyAll(old(Abs()), ops[..i])
      {
        assert ops[..i + 1][..i] == ops[..i];
        Perform(ops[i]);
      }
      assert ops[..|ops|] == ops;
    }

    /** First phase of a flush: copy everything under the lock. */
    method TakeForFlush() returns (b: Batch)
      requires Valid()
      ensures IsBatch(b, Abs())
    {
      var peersSnap := CopyPeers();
      var deletesSnap: seq<string> := [];
      var todo := pendingDeletes;
      while todo != {}
        invariant todo <= pendingDeletes && Elements(deletesSnap) == pendingDeletes - todo
        decreases |todo|
      {
        var id :| id in todo;
        ghost var before := deletesSnap;
        deletesSnap := deletesSnap + [id];
        todo := todo - {id};
        assert Elements(deletesSnap) == Elements(before) + {id};
      }
      b := Batch(peersSnap, pendingEvents, deletesSnap);
    }

    /** Last phase: drop exactly what was committed from both queues. */
    method DrainFlushed(b: Batch)
      requires Valid() && |b.events| <= |pendingEvents|
      modifies this
      ensures Valid() && Abs() == DrainBatch(old(Abs()), b)
    {
      pendingEvents := pendingEvents[|b.events|..];
      for i := 0 to |b.deletes|
        invariant peers == old(peers) && pendingEvents == old(pendingEvents)[|b.events|..]
        invariant pendingDeletes == old(pendingDeletes) - Elements(b.deletes[..i])
      {
        assert b.deletes[..i + 1] == b.deletes[..i] + [b.deletes[i]];
        pendingDeletes := pendingDeletes - {b.deletes[i]};
      }
      assert b.deletes[..|b.deletes|] == b.deletes;
    }

    /** The reset handler: zero everything, then write it out at once, since a restart would reload the
        old totals.  If the flush gets through, every row of the table reads back with zeroes. */
    method ResetAndFlush(db: DBManager, commits: bool) returns (n: nat, ok: bool)
      requires Valid() && (db as object) != this
      requires peers.Keys !! pendingDeletes && db.rows.Keys <= peers.Keys + pendingDeletes
      modifies this, db
      ensures Valid() && n == |old(peers)| && (commits ==> ok)
      ensures peers.Keys == old(peers).Keys && forall id :: id in peers ==> WasReset(old(peers)[id], peers[id])
      ensures ok ==>
        && db.rows.Keys == old(peers).Keys
        && forall id :: id in db.rows ==> WasReset(old(peers)[id], ScanRow(id, db.rows[id]))
    {
      n := ResetStats();
      ok := Flush(db, commits);
      assert ok ==> db.rows.Keys == Scan(db.rows).Keys;
      assert ok ==> forall id :: id in db.rows ==> ScanRow(id, db.rows[id]) == Scan(db.rows)[id];
    }

    /** An undisturbed flush.  With every row live or pending delete beforehand, success makes the
        table read back as the live map, appends the queue to the log and empties both queues;
        failure changes nothing. */
    method Flush(db: DBManager, commits: bool) returns (ok: bool)
      requires Valid() && (db as object) != this
      requires peers.Keys !! pendingDeletes && db.rows.Keys <= peers.Keys + pendingDeletes
      modifies this, db
      ensures Valid() && peers == old(peers)
      ensures commits ==> ok
      ensures ok ==>
        && Scan(db.rows) == peers
        && db.log == old(db.log) + old(pendingEvents)
        && pendingEvents == [] && pendingDeletes == {}
      ensures !ok ==> Abs() == old(Abs()) && db.Abs() == old(db.Abs())
    {
      var b := TakeForFlush();
      if |b.peers| == 0 && |b.events| == 0 && |b.deletes| == 0 {
        assert peers.Keys == {} && pendingDeletes == {};
        assert db.rows == map[] && peers == map[];
        return true;
      }
      FlushRowsIsListed(db.rows, peers, b.peers, b.deletes);
      ok := db.BatchFlush(b.peers, b.events, b.deletes, commits);
      if !ok {
        return;
      }
      DrainFlushed(b);
    }
  }
}
