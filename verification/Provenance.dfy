/** Where a live row's address, role and telemetry come from. */
module Provenance {
  import opened PeerState

  /** The history since peer `id` was last removed. */
  function Lifetime(ops: seq<Op>, id: string): seq<Op> {
    if ops == [] then []
    else
      var op := ops[|ops| - 1];
      if op == Remove(id) then [] else Lifetime(ops[..|ops| - 1], id) + [op]
  }

  /** The last address `id` was seen connecting from. */
  function LastConnection(ops: seq<Op>, id: string): Option<string> {
    if ops == [] then None
    else
      match ops[|ops| - 1]
      case Connect(k, addr, _) => if k == id then Some(addr) else LastConnection(ops[..|ops| - 1], id)
      case _ => LastConnection(ops[..|ops| - 1], id)
  }

  /** The last broadcast of `id` that could be encoded. */
  function LastGossip(ops: seq<Op>, id: string): Option<GpuInfo> {
    if ops == [] then None
    else
      match ops[|ops| - 1]
      case Gossip(info, _) =>
        if info.nodeID == id && info.finite then Some(info) else LastGossip(ops[..|ops| - 1], id)
      case _ => LastGossip(ops[..|ops| - 1], id)
  }

  ghost predicate FromSources(p: PeerData, connection: Option<string>, gossip: Option<GpuInfo>) {
    && p.ipVerified == connection.Some?
    && p.ipAddress == (if connection.Some? then connection.value else if gossip.Some? then gossip.value.addr else "")
    && p.role == (if gossip.Some? then gossip.value.role else "")
    && p.gpuInfo == (if gossip.Some? then Encoded(gossip.value) else EmptyArray)
    && p.bootstrapAddr == (if gossip.Some? then gossip.value.bootstrapAddr else "")
    && p.engineID == (if gossip.Some? then gossip.value.engineID else "")
  }

  lemma LifetimeSnoc(ops: seq<Op>, id: string)
    requires ops != [] && ops[|ops| - 1] != Remove(id)
    ensures
      var life, init, op := Lifetime(ops, id), Lifetime(ops[..|ops| - 1], id), ops[|ops| - 1];
      && life != [] && life[..|life| - 1] == init && life[|life| - 1] == op
  {}

  /** After any runtime history a peer that was inserted at runtime is live exactly when it has
      connected or broadcast since its last removal; its address is that of the last connection if
      there was one, else that of the last broadcast; its role, telemetry and endpoints are those
      of the last broadcast.  A connection never touches what a broadcast said. */
  lemma {:induction false} RowComesFromLifetime(m: PeerMap, ops: seq<Op>, id: string)
    requires forall op :: op in ops ==> !op.Load?
    requires id !in m || Remove(id) in ops
    ensures
      var life, end := Lifetime(ops, id), PeersRun(m, ops);
      var connection, gossip := LastConnection(life, id), LastGossip(life, id);
      && (id in end <==> connection.Some? || gossip.Some?)
      && (id in end ==> FromSources(end[id], connection, gossip))
  {
    if ops != [] {
      var init, op := ops[..|ops| - 1], ops[|ops| - 1];
      assert !op.Load?;
      if op != Remove(id) {
        assert ops == init + [op];
        RowComesFromLifetime(m, init, id);
        LifetimeSnoc(ops, id);
        RowStep(PeersRun(m, init), op, id,
                LastConnection(Lifetime(init, id), id), LastGossip(Lifetime(init, id), id));
      }
    }
  }

  lemma RowStep(m: PeerMap, op: Op, id: string, connection: Option<string>, gossip: Option<GpuInfo>)
    requires !op.Load? && op != Remove(id)
    requires id in m <==> connection.Some? || gossip.Some?
    requires id in m ==> FromSources(m[id], connection, gossip)
    ensures
      var m' := PeersAfter(m, op);
      var connection' := if op.Connect? && op.id == id then Some(op.addr) else connection;
      var gossip' := if op.Gossip? && op.info.nodeID == id && op.info.finite then Some(op.info) else gossip;
      && (id in m' <==> connection'.Some? || gossip'.Some?)
      && (id in m' ==> FromSources(m'[id], connection', gossip'))
  {}
}
