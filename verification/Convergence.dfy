/** Two hubs that hear the same broadcasts agree, whatever the order and however often each
    broadcast is delivered. */
module Convergence {
  import opened PeerState
  import opened Ranking
  import opened Provenance
  import opened BootMerge

  /** What a hub without credits, removals, resets or merges does. */
  predicate Listens(op: Op) {
    op.Gossip? || op.Connect? || op.Ping? || op.Health? || op.Event?
  }

  /** The broadcasts of peer `id` a hub has merged, as a set: order and repetition are gone. */
  function Heard(ops: seq<Op>, id: string): set<GpuInfo> {
    set op | op in ops && op.Gossip? && op.info.finite && op.info.nodeID == id :: op.info
  }

  /** Peers that have ever connected or broadcast. */
  function Seen(ops: seq<Op>): set<string> {
    (set op | op in ops && op.Connect? :: op.id) +
    (set op | op in ops && op.Gossip? && op.info.finite :: op.info.nodeID)
  }

  /** A broadcast's candidate for one keep-max column. */
  function Claim(info: GpuInfo, c: Column): real {
    match c
    case Requests => info.totalRequests as real
    case Tokens => info.totalTokens as real
    case Score => ScoreOf(info.totalRequests, info.totalTokens)
    case _ => 0.0
  }

  /** `v` is the maximum of the claims, floored at zero. */
  ghost predicate MaxClaim(v: real, heard: set<GpuInfo>, c: Column) {
    && 0.0 <= v
    && (forall info :: info in heard ==> Claim(info, c) <= v)
    && (v == 0.0 || exists info :: info in heard && Claim(info, c) == v)
  }

  lemma HeardSnoc(ops: seq<Op>, id: string)
    requires ops != []
    ensures
      var init, op := ops[..|ops| - 1], ops[|ops| - 1];
      Heard(ops, id) ==
        Heard(init, id) + if op.Gossip? && op.info.finite && op.info.nodeID == id then {op.info} else {}
  {
    assert ops == ops[..|ops| - 1] + [ops[|ops| - 1]];
  }

  lemma SeenSnoc(ops: seq<Op>)
    requires ops != []
    ensures
      var init, op := ops[..|ops| - 1], ops[|ops| - 1];
      Seen(ops) == Seen(init)
        + (if op.Connect? then {op.id} else {})
        + (if op.Gossip? && op.info.finite then {op.info.nodeID} else {})
  {
    assert ops == ops[..|ops| - 1] + [ops[|ops| - 1]];
  }

  lemma {:induction false} LiveIsSeen(ops: seq<Op>)
    requires forall op :: op in ops ==> Listens(op)
    ensures PeersRun(map[], ops).Keys == Seen(ops)
  {
    if ops != [] {
      assert Listens(ops[|ops| - 1]);
      LiveIsSeen(ops[..|ops| - 1]);
      SeenSnoc(ops);
    }
  }

  /** The column of a live peer, or zero. */
  function ValueIn(m: PeerMap, id: string, c: Column): real {
    if id in m then Value(m[id], c) else 0.0
  }

  lemma OthersKeepColumns(m: PeerMap, op: Op, id: string, c: Column)
    requires Listens(op) && !(op.Gossip? && op.info.finite && op.info.nodeID == id)
    ensures ValueIn(PeersAfter(m, op), id, c) == ValueIn(m, id, c)
  {}

  /** Every keep-max column is the maximum over the broadcasts heard. */
  lemma {:induction false} ColumnsAreMaxima(ops: seq<Op>, id: string, c: Column)
    requires forall op :: op in ops ==> Listens(op)
    requires c.Requests? || c.Tokens? || c.Score?
    ensures MaxClaim(ValueIn(PeersRun(map[], ops), id, c), Heard(ops, id), c)
  {
    if ops != [] {
      var init, op := ops[..|ops| - 1], ops[|ops| - 1];
      assert Listens(op);
      ColumnsAreMaxima(init, id, c);
      HeardSnoc(ops, id);
      var before := PeersRun(map[], init);
      if op.Gossip? && op.info.finite && op.info.nodeID == id {
        GossipKeepsMaximum(before, op.info, op.now, Heard(init, id), c);
      } else {
        OthersKeepColumns(before, op, id, c);
      }
    }
  }

  lemma GossipKeepsMaximum(m: PeerMap, info: GpuInfo, now: string, heard: set<GpuInfo>, c: Column)
    requires info.finite
    requires c.Requests? || c.Tokens? || c.Score?
    requires MaxClaim(ValueIn(m, info.nodeID, c), heard, c)
    ensures MaxClaim(ValueIn(PeersAfter(m, Gossip(info, now)), info.nodeID, c), heard + {info}, c)
  {
    var v := ValueIn(m, info.nodeID, c);
    var v' := ValueIn(PeersAfter(m, Gossip(info, now)), info.nodeID, c);
    assert v' == v || v' == Claim(info, c);
    assert v <= v' && Claim(info, c) <= v';
    if v' == v {
      if v != 0.0 {
        var best :| best in heard && Claim(best, c) == v;
        assert best in heard + {info};
      }
    } else {
      assert info in heard + {info};
    }
  }

  /** Same broadcasts, any order, any repetition: the keep-max columns agree. */
  lemma {:induction false} HubsAgree(a: seq<Op>, b: seq<Op>, id: string, c: Column)
    requires forall op :: op in a ==> Listens(op)
    requires forall op :: op in b ==> Listens(op)
    requires Heard(a, id) == Heard(b, id)
    requires c.Requests? || c.Tokens? || c.Score?
    ensures ValueIn(PeersRun(map[], a), id, c) == ValueIn(PeersRun(map[], b), id, c)
  {
    ColumnsAreMaxima(a, id, c);
    ColumnsAreMaxima(b, id, c);
    SameMaximum(ValueIn(PeersRun(map[], a), id, c), ValueIn(PeersRun(map[], b), id, c), Heard(a, id), c);
  }

  /** If the last broadcast of each peer agrees too, both hubs compute the same prefill and decode
      assignment, peer by peer. */
  lemma {:induction false} HubsAssignAlike(
    a: seq<Op>, b: seq<Op>, ps: seq<PeerData>, qs: seq<PeerData>,
    prefill: int, decode: int, canDecode: string -> bool)
    requires forall op :: op in a ==> Listens(op)
    requires forall op :: op in b ==> Listens(op)
    requires Seen(a) == Seen(b)
    requires forall id :: Heard(a, id) == Heard(b, id) && LastGossip(a, id) == LastGossip(b, id)
    requires IsRanking(ps, PeersRun(map[], a)) && IsRanking(qs, PeersRun(map[], b))
    ensures
      var decodes := (p: PeerData) => canDecode(p.peerID);
      && SameIDs(PrefillPeers(Usable(ps), prefill, decode, decodes), PrefillPeers(Usable(qs), prefill, decode, decodes))
      && SameIDs(DecodePeers(Usable(ps), prefill, decode, decodes), DecodePeers(Usable(qs), prefill, decode, decodes))
  {
    SameSnapshots(a, b, ps, qs);
    KeepSameIDs(ps, qs, (p: PeerData) => Serves(p));
    SameSplit(Usable(ps), Usable(qs), prefill, decode, (p: PeerData) => canDecode(p.peerID));
  }

  /** What one hub holds of a peer is fixed by what it heard of it: the score ... */
  lemma ScoreFromHistory(ops: seq<Op>, id: string)
    requires forall op :: op in ops ==> Listens(op)
    requires id in PeersRun(map[], ops)
    ensures MaxClaim(PeersRun(map[], ops)[id].contributionScore, Heard(ops, id), Score)
  {
    ColumnsAreMaxima(ops, id, Score);
  }

  /** ... and the row. */
  lemma RowFromHistory(ops: seq<Op>, id: string)
    requires forall op :: op in ops ==> Listens(op)
    requires id in PeersRun(map[], ops)
    ensures FromSources(PeersRun(map[], ops)[id], LastConnection(ops, id), LastGossip(ops, id))
  {
    NeverRemoved(ops, id);
    RowComesFromLifetime(map[], ops, id);
  }

  lemma SameMaximum(v: real, w: real, heard: set<GpuInfo>, c: Column)
    requires MaxClaim(v, heard, c) && MaxClaim(w, heard, c)
    ensures v == w
  {}

  /** A peer seen by both hubs has the same score and serves, or not, alike in both. */
  lemma PeersAlike(a: seq<Op>, b: seq<Op>, id: string)
    requires forall op :: op in a ==> Listens(op)
    requires forall op :: op in b ==> Listens(op)
    requires Heard(a, id) == Heard(b, id) && LastGossip(a, id) == LastGossip(b, id)
    requires id in PeersRun(map[], a) && id in PeersRun(map[], b)
    ensures
      var p, q := PeersRun(map[], a)[id], PeersRun(map[], b)[id];
      p.contributionScore == q.contributionScore && Serves(p) == Serves(q)
  {
    var p, q := PeersRun(map[], a)[id], PeersRun(map[], b)[id];
    ScoreFromHistory(a, id);
    ScoreFromHistory(b, id);
    SameMaximum(p.contributionScore, q.contributionScore, Heard(a, id), Score);
    RowFromHistory(a, id);
    RowFromHistory(b, id);
    SameBroadcastServes(p, q, LastConnection(a, id), LastConnection(b, id), LastGossip(a, id));
  }

  lemma SameBroadcastServes(p: PeerData, q: PeerData, c: Option<string>, d: Option<string>, gossip: Option<GpuInfo>)
    requires FromSources(p, c, gossip) && FromSources(q, d, gossip)
    ensures Serves(p) == Serves(q)
  {}

  /** The two rankings name the same peers in the same places and agree on who serves. */
  lemma SameSnapshots(a: seq<Op>, b: seq<Op>, ps: seq<PeerData>, qs: seq<PeerData>)
    requires forall op :: op in a ==> Listens(op)
    requires forall op :: op in b ==> Listens(op)
    requires Seen(a) == Seen(b)
    requires forall id :: Heard(a, id) == Heard(b, id) && LastGossip(a, id) == LastGossip(b, id)
    requires IsRanking(ps, PeersRun(map[], a)) && IsRanking(qs, PeersRun(map[], b))
    ensures SameIDs(ps, qs)
    ensures forall i :: 0 <= i < |ps| ==> Serves(ps[i]) == Serves(qs[i])
  {
    LiveIsSeen(a);
    LiveIsSeen(b);
    forall i, j | 0 <= i < |ps| && 0 <= j < |qs| && ps[i].peerID == qs[j].peerID
      ensures ps[i].contributionScore == qs[j].contributionScore && Serves(ps[i]) == Serves(qs[j])
    {
      PeersAlike(a, b, ps[i].peerID);
    }
    forall p, q | p in ps && q in qs && p.peerID == q.peerID
      ensures p.contributionScore == q.contributionScore
    {
      var i :| 0 <= i < |ps| && ps[i] == p;
      var j :| 0 <= j < |qs| && qs[j] == q;
    }
    RankingDetermined(ps, qs);
  }

  lemma {:induction false} NeverRemoved(ops: seq<Op>, id: string)
    requires forall op :: op in ops ==> Listens(op)
    ensures Lifetime(ops, id) == ops
  {
    if ops != [] {
      assert ops[|ops| - 1] in ops;
      NeverRemoved(ops[..|ops| - 1], id);
    }
  }

  lemma SameSplit(us: seq<PeerData>, vs: seq<PeerData>, prefill: int, decode: int, decodes: PeerData -> bool)
    requires SameIDs(us, vs) && forall i :: 0 <= i < |us| ==> decodes(us[i]) == decodes(vs[i])
    ensures SameIDs(PrefillPeers(us, prefill, decode, decodes), PrefillPeers(vs, prefill, decode, decodes))
    ensures SameIDs(DecodePeers(us, prefill, decode, decodes), DecodePeers(vs, prefill, decode, decodes))
  {
    var k := Clamp(prefill, |us|);
    KeepSameIDs(us, vs, decodes);
    KeepSameIDs(us[..k], vs[..k], decodes);
    KeepSameIDs(us[k..], vs[k..], decodes);
  }
}
