/** The live peer map of a hub, its two pending queues, and what each cache operation does to
    them (peer_cache.go).  Everything here is a value; `PeerCacheStore` holds the mutable class.
    Scores are `real`, counters are unbounded `int`, and a wall-clock reading is a string passed
    in by the caller.  */
module PeerState {
  datatype Option<+T> = None | Some(value: T)

  datatype GpuEntry = GpuEntry(id: string, num: int)

  /** The part of a gossip broadcast the hub looks at.  `finite` says that no float field of the
      broadcast is NaN or infinite, which is when its JSON encoding succeeds. */
  datatype GpuInfo = GpuInfo(
    nodeID: string, addr: string, role: string, summary: string,
    bootstrapAddr: string, engineID: string,
    totalTokens: int, totalRequests: int, gpus: seq<GpuEntry>, finite: bool)

  /** The gpu_info text column: the literal "[]", an encoded broadcast, or any other text. */
  datatype GpuColumn = EmptyArray | Encoded(info: GpuInfo) | OtherText(text: string)

  function Marshal(info: GpuInfo): Option<GpuColumn> {
    if info.finite then Some(Encoded(info)) else None
  }

  datatype PeerData = PeerData(
    peerID: string, gpuInfo: GpuColumn, ipAddress: string, lastPing: string,
    bootstrapAddr: string, engineID: string, failCount: int, penaltyPoints: int,
    totalRequests: int, totalTokens: int, inTokens: int, outTokens: int,
    contributionScore: real, role: string, ipVerified: bool)

  function NewPeer(id: string): PeerData {
    PeerData(id, OtherText(""), "", "", "", "", 0, 0, 0, 0, 0, 0, 0.0, "", false)
  }

  datatype PeerEvent = PeerEvent(
    peerID: string, ipAddress: string, eventType: string,
    failCount: int, penaltyPoints: int, timestamp: string, detail: string)

  type PeerMap = map<string, PeerData>

  /** Every row sits under its own peer ID. */
  ghost predicate Keyed(m: PeerMap) {
    forall id :: id in m ==> m[id].peerID == id
  }

  datatype Cache = Cache(peers: PeerMap, events: seq<PeerEvent>, deletes: set<string>)

  const EMPTY_CACHE := Cache(map[], [], {})

  /** One critical section of the cache mutex. */
  datatype Op =
    | Gossip(info: GpuInfo, now: string)
    | Connect(id: string, addr: string, now: string)
    | Remove(id: string)
    | Ping(id: string, value: string)
    | Health(id: string, failCount: int, penaltyPoints: int)
    | Event(event: PeerEvent)
    | Credit(id: string, requests: int, tokens: int)
    | CreditDetail(id: string, requests: int, inTokens: int, outTokens: int)
    | Reset
    | Load(peers: seq<PeerData>)

  function Max(a: int, b: int): int {
    if b > a then b else a
  }

  function MaxScore(a: real, b: real): real {
    if b > a then b else a
  }

  /** The contribution formula shared by every accounting path. */
  function ScoreOf(requests: int, tokens: int): real {
    requests as real * 10.0 + tokens as real / 10.0
  }

  /** A broadcast merged into a known row: a connection-observed address survives, and the
      cumulative columns move only upwards. */
  function MergeGossip(p: PeerData, info: GpuInfo, now: string, column: GpuColumn): PeerData {
    var counted := info.totalTokens > 0 || info.totalRequests > 0;
    p.(ipAddress := if p.ipVerified then p.ipAddress else info.addr,
       lastPing := now, gpuInfo := column,
       bootstrapAddr := info.bootstrapAddr, engineID := info.engineID, role := info.role,
       totalRequests := if counted then Max(p.totalRequests, info.totalRequests) else p.totalRequests,
       totalTokens := if counted then Max(p.totalTokens, info.totalTokens) else p.totalTokens,
       contributionScore :=
         if counted then MaxScore(p.contributionScore, ScoreOf(info.totalRequests, info.totalTokens))
         else p.contributionScore)
  }

  function ConnectedPeer(id: string, addr: string, now: string): PeerData {
    NewPeer(id).(gpuInfo := EmptyArray, ipAddress := addr, lastPing := now, ipVerified := true)
  }

  function Billed(requests: int): int {
    if requests <= 0 then 1 else requests
  }

  function AddCredit(p: PeerData, requests: int, inTokens: int, outTokens: int, tokens: int): PeerData {
    p.(totalRequests := p.totalRequests + Billed(requests),
       totalTokens := p.totalTokens + tokens,
       inTokens := p.inTokens + inTokens,
       outTokens := p.outTokens + outTokens,
       contributionScore := p.contributionScore + ScoreOf(Billed(requests), tokens))
  }

  function ZeroStats(p: PeerData): PeerData {
    p.(totalRequests := 0, totalTokens := 0, inTokens := 0, outTokens := 0, contributionScore := 0.0)
  }

  /** A snapshot entry folded into a row that is already known. */
  function MergeStats(p: PeerData, q: PeerData): PeerData {
    p.(totalRequests := Max(p.totalRequests, q.totalRequests),
       totalTokens := Max(p.totalTokens, q.totalTokens),
       inTokens := Max(p.inTokens, q.inTokens),
       outTokens := Max(p.outTokens, q.outTokens),
       contributionScore := MaxScore(p.contributionScore, q.contributionScore))
  }

  function MergePeer(m: PeerMap, q: PeerData): PeerMap {
    m[q.peerID := if q.peerID in m then MergeStats(m[q.peerID], q) else q]
  }

  function LoadPeers(m: PeerMap, peers: seq<PeerData>): PeerMap {
    if peers == [] then m
    else MergePeer(LoadPeers(m, peers[..|peers| - 1]), peers[|peers| - 1])
  }

  /** What an operation does to the live map ... */
  function PeersAfter(m: PeerMap, op: Op): PeerMap {
    match op
    case Gossip(info, now) =>
      (match Marshal(info)
       case None => m
       case Some(column) =>
         var p := if info.nodeID in m then m[info.nodeID] else NewPeer(info.nodeID);
         m[info.nodeID := MergeGossip(p, info, now, column)])
    case Connect(id, addr, now) =>
      if id in m then m[id := m[id].(ipAddress := addr, lastPing := now, ipVerified := true)]
      else m[id := ConnectedPeer(id, addr, now)]
    case Remove(id) => m - {id}
    case Ping(id, value) => if id in m then m[id := m[id].(lastPing := value)] else m
    case Health(id, fail, penalty) =>
      if id in m then m[id := m[id].(failCount := fail, penaltyPoints := penalty)] else m
    case Event(_) => m
    case Credit(id, requests, tokens) =>
      if id in m then m[id := AddCredit(m[id], requests, 0, 0, tokens)] else m
    case CreditDetail(id, requests, inTokens, outTokens) =>
      if id in m then m[id := AddCredit(m[id], requests, inTokens, outTokens, inTokens + outTokens)] else m
    case Reset => map id | id in m :: ZeroStats(m[id])
    case Load(peers) => LoadPeers(m, peers)
  }

  /** ... to the pending audit events ... */
  function EventsAfter(events: seq<PeerEvent>, op: Op): seq<PeerEvent> {
    match op
    case Event(e) => events + [e]
    case _ => events
  }

  /** ... and to the pending deletes: an insert cancels one, a removal queues one. */
  function DeletesAfter(deletes: set<string>, op: Op): set<string> {
    match op
    case Gossip(info, _) => if info.finite then deletes - {info.nodeID} else deletes
    case Connect(id, _, _) => deletes - {id}
    case Remove(id) => deletes + {id}
    case _ => deletes
  }

  function Apply(c: Cache, op: Op): Cache {
    Cache(PeersAfter(c.peers, op), EventsAfter(c.events, op), DeletesAfter(c.deletes, op))
  }

  /** The live map after a history of operations, oldest first. */
  function PeersRun(m: PeerMap, ops: seq<Op>): PeerMap {
    if ops == [] then m else PeersAfter(PeersRun(m, ops[..|ops| - 1]), ops[|ops| - 1])
  }

  /** Every audit event queued by a history, in order. */
  function EventsOf(ops: seq<Op>): seq<PeerEvent> {
    if ops == [] then [] else EventsAfter(EventsOf(ops[..|ops| - 1]), ops[|ops| - 1])
  }

  function ApplyAll(c: Cache, ops: seq<Op>): Cache {
    if ops == [] then c else Apply(ApplyAll(c, ops[..|ops| - 1]), ops[|ops| - 1])
  }

  lemma ApplyTwo(c: Cache, a: Op, b: Op)
    ensures ApplyAll(c, [a]) == Apply(c, a)
    ensures ApplyAll(c, [a, b]) == Apply(Apply(c, a), b)
  {
    assert [a, b][..1] == [a] && [a][..0] == [];
  }

  lemma {:induction false} ApplyAppend(c: Cache, a: seq<Op>, b: seq<Op>)
    ensures ApplyAll(ApplyAll(c, a), b) == ApplyAll(c, a + b)
  {
    if b == [] {
      assert a + b == a;
    } else {
      ApplyAppend(c, a, b[..|b| - 1]);
      assert (a + b)[..|a + b| - 1] == a + b[..|b| - 1];
    }
  }

  // ---------------------------------------------------------------------------------------
  // Listings: the order in which a map or set is iterated is arbitrary.

  function IDs(ps: seq<PeerData>): set<string> {
    set p | p in ps :: p.peerID
  }

  ghost predicate Distinct(ps: seq<PeerData>) {
    forall i, j :: 0 <= i < j < |ps| ==> ps[i].peerID != ps[j].peerID
  }

  /** `ps` lists every row of `m` once, in some order. */
  ghost predicate IsListing(ps: seq<PeerData>, m: PeerMap) {
    && (forall i :: 0 <= i < |ps| ==> ps[i].peerID in m && m[ps[i].peerID] == ps[i])
    && Distinct(ps)
    && IDs(ps) == m.Keys
  }

  function Elements<T(==)>(s: seq<T>): set<T> {
    set x | x in s
  }

  // ---------------------------------------------------------------------------------------
  // Facts every later argument uses.

  lemma IDsSnoc(ps: seq<PeerData>)
    requires ps != []
    ensures IDs(ps) == IDs(ps[..|ps| - 1]) + {ps[|ps| - 1].peerID}
  {
    var init, last := ps[..|ps| - 1], ps[|ps| - 1];
    assert ps == init + [last];
  }

  lemma {:induction false} KeyedLoad(m: PeerMap, peers: seq<PeerData>)
    requires Keyed(m)
    ensures Keyed(LoadPeers(m, peers))
    ensures LoadPeers(m, peers).Keys == m.Keys + IDs(peers)
  {
    if peers == [] {
    } else {
      KeyedLoad(m, peers[..|peers| - 1]);
      IDsSnoc(peers);
    }
  }

  lemma KeyedAfter(m: PeerMap, op: Op)
    requires Keyed(m)
    ensures Keyed(PeersAfter(m, op))
  {
    if op.Load? { KeyedLoad(m, op.peers); }
  }

  lemma KeyedRun(m: PeerMap, ops: seq<Op>)
    requires Keyed(m)
    ensures Keyed(PeersRun(m, ops))
  {
    if ops == [] {
    } else {
      KeyedRun(m, ops[..|ops| - 1]);
      KeyedAfter(PeersRun(m, ops[..|ops| - 1]), ops[|ops| - 1]);
    }
  }

  lemma RunSnoc(m: PeerMap, ops: seq<Op>, op: Op)
    ensures PeersRun(m, ops + [op]) == PeersAfter(PeersRun(m, ops), op)
    ensures EventsOf(ops + [op]) == EventsAfter(EventsOf(ops), op)
  {
    assert (ops + [op])[..|ops|] == ops;
  }

  lemma RunTwo(m: PeerMap, a: Op, b: Op)
    ensures PeersRun(m, [a]) == PeersAfter(m, a)
    ensures PeersRun(m, [a, b]) == PeersAfter(PeersAfter(m, a), b)
    ensures EventsOf([a, b]) == EventsAfter(EventsAfter([], a), b)
  {
    assert [a] == [] + [a] && [a, b] == [a] + [b];
    RunSnoc(m, [], a);
    RunSnoc(m, [a], b);
  }

  lemma {:induction false} RunAppend(m: PeerMap, a: seq<Op>, b: seq<Op>)
    ensures PeersRun(m, a + b) == PeersRun(PeersRun(m, a), b)
    ensures EventsOf(a + b) == EventsOf(a) + EventsOf(b)
  {
    if b == [] {
      assert a + b == a;
    } else {
      var init, last := b[..|b| - 1], b[|b| - 1];
      RunAppend(m, a, init);
      assert (a + b)[..|a + b| - 1] == a + init;
    }
  }

  /** Loading a listing of a map into an empty cache rebuilds that map: the boot warm start. */
  lemma {:induction false} LoadListing(ps: seq<PeerData>, m: PeerMap)
    requires IsListing(ps, m)
    ensures LoadPeers(map[], ps) == m
  {
    LoadDistinct(ps);
    KeyedLoad(map[], ps);
    forall id | id in m ensures LoadPeers(map[], ps)[id] == m[id] {
      assert id in IDs(ps);
      var p :| p in ps && p.peerID == id;
    }
  }

  lemma {:induction false} LoadDistinct(ps: seq<PeerData>)
    requires Distinct(ps)
    ensures forall p :: p in ps ==> p.peerID in LoadPeers(map[], ps) && LoadPeers(map[], ps)[p.peerID] == p
  {
    if ps == [] {
    } else {
      var init, last := ps[..|ps| - 1], ps[|ps| - 1];
      LoadDistinct(init);
      KeyedLoad(map[], init);
      LastIsNew(ps);
      forall p | p in ps
        ensures p.peerID in LoadPeers(map[], ps) && LoadPeers(map[], ps)[p.peerID] == p
      {
        assert p in init || p == last;
      }
    }
  }

  lemma AppendNew(ps: seq<PeerData>, p: PeerData)
    requires Distinct(ps) && p.peerID !in IDs(ps)
    ensures Distinct(ps + [p]) && IDs(ps + [p]) == IDs(ps) + {p.peerID}
  {
    IDsSnoc(ps + [p]);
    assert (ps + [p])[..|ps|] == ps;
    forall i | 0 <= i < |ps| ensures ps[i].peerID != p.peerID {
      assert ps[i] in ps;
    }
  }

  /** `ps` lists every row of `m` except those still to do. */
  ghost predicate IsListingExcept(ps: seq<PeerData>, m: PeerMap, todo: set<string>) {
    && todo <= m.Keys
    && (forall i :: 0 <= i < |ps| ==> ps[i].peerID in m && m[ps[i].peerID] == ps[i])
    && Distinct(ps)
    && IDs(ps) == m.Keys - todo
  }

  lemma ListNext(ps: seq<PeerData>, m: PeerMap, todo: set<string>, id: string)
    requires IsListingExcept(ps, m, todo) && id in todo && m[id].peerID == id
    ensures IsListingExcept(ps + [m[id]], m, todo - {id})
  {
    AppendNew(ps, m[id]);
  }

  lemma LastIsNew(ps: seq<PeerData>)
    requires Distinct(ps) && ps != []
    ensures ps[|ps| - 1].peerID !in IDs(ps[..|ps| - 1])
  {
    var init := ps[..|ps| - 1];
    forall p | p in init ensures p.peerID != ps[|ps| - 1].peerID {
      var i :| 0 <= i < |init| && init[i] == p;
      assert ps[i] == p;
    }
  }
}
