/** The claim that the in-memory operations replicate the older per-event SQL path exactly. */
module SqlReplica {
  import opened PeerState
  import opened PeerDatabase

  /** ResetStats and LoadSnapshot never had a per-event SQL counterpart. */
  predicate HasStatement(op: Op) {
    !op.Reset? && !op.Load?
  }

  function GossipRows(rows: Table, info: GpuInfo, now: string, column: GpuColumn): Table {
    var upserted := UpsertPeer(rows, info.nodeID, info.addr, column, info.bootstrapAddr, info.engineID, info.role, now);
    SyncPeerStats(upserted, info.nodeID, info.totalRequests, info.totalTokens)
  }

  /** The statements the older hub issued for one event.  A broadcast is two statements. */
  function SqlStep(db: Database, op: Op): Database
    requires HasStatement(op)
  {
    match op
    case Gossip(info, now) =>
      (match Marshal(info)
       case None => db
       case Some(column) =>
         db.(rows := GossipRows(db.rows, info, now, column)))
    case Connect(id, addr, now) => db.(rows := UpsertPeerConnection(db.rows, id, addr, now))
    case Remove(id) => db.(rows := DeletePeer(db.rows, id))
    case Ping(id, value) => db.(rows := UpdatePeerPing(db.rows, id, value))
    case Health(id, fail, penalty) => db.(rows := UpdatePeerHealth(db.rows, id, fail, penalty))
    case Event(e) => db.(log := db.log + [e])
    case Credit(id, requests, tokens) =>
      db.(rows := IncrementPeerContribution(db.rows, id, requests, tokens))
    case CreditDetail(id, requests, inT, outT) =>
      db.(rows := IncrementPeerTokensDetail(db.rows, id, requests, inT, outT))
  }

  function SqlRun(db: Database, ops: seq<Op>): Database
    requires forall op :: op in ops ==> HasStatement(op)
  {
    if ops == [] then db else SqlStep(SqlRun(db, ops[..|ops| - 1]), ops[|ops| - 1])
  }

  lemma ScanUpdate(rows: Table, id: string, r: Row)
    ensures Scan(rows[id := r]) == Scan(rows)[id := ScanRow(id, r)]
  {}

  /** Both statements of a broadcast write one row only ... */
  lemma GossipWritesOneRow(rows: Table, info: GpuInfo, now: string, column: GpuColumn)
    ensures info.nodeID in GossipRows(rows, info, now, column)
    ensures GossipRows(rows, info, now, column) == rows[info.nodeID := GossipRows(rows, info, now, column)[info.nodeID]]
  {}

  /** ... which reads back as the merged cache entry. */
  lemma GossipRowReadsBack(rows: Table, info: GpuInfo, now: string, column: GpuColumn)
    requires info.nodeID in GossipRows(rows, info, now, column)
    ensures
      var id := info.nodeID;
      ScanRow(id, GossipRows(rows, info, now, column)[id]) ==
        MergeGossip(if id in rows then ScanRow(id, rows[id]) else NewPeer(id), info, now, column)
  {}

  lemma GossipReplicates(rows: Table, info: GpuInfo, now: string, column: GpuColumn)
    requires Marshal(info) == Some(column)
    ensures Scan(GossipRows(rows, info, now, column)) == PeersAfter(Scan(rows), Gossip(info, now))
  {
    GossipWritesOneRow(rows, info, now, column);
    GossipRowReadsBack(rows, info, now, column);
    ScanUpdate(rows, info.nodeID, GossipRows(rows, info, now, column)[info.nodeID]);
  }

  lemma CreditReplicates(rows: Table, op: Op)
    requires op.Credit? || op.CreditDetail?
    ensures Scan(SqlStep(Database(rows, []), op).rows) == PeersAfter(Scan(rows), op)
  {
    if op.id in rows { ScanUpdate(rows, op.id, SqlStep(Database(rows, []), op).rows[op.id]); }
  }

  /** Reading the table back after the statements gives the cache operation's result. */
  lemma StepReplicates(db: Database, op: Op)
    requires HasStatement(op)
    ensures Scan(SqlStep(db, op).rows) == PeersAfter(Scan(db.rows), op)
    ensures SqlStep(db, op).log == EventsAfter(db.log, op)
  {
    var rows := db.rows;
    match op
    case Gossip(info, now) =>
      if info.finite { GossipReplicates(rows, info, now, Encoded(info)); }
    case Connect(id, addr, now) => ScanUpdate(rows, id, UpsertPeerConnection(rows, id, addr, now)[id]);
    case Remove(id) => assert Scan(rows - {id}) == Scan(rows) - {id};
    case Event(_) =>
    case Ping(id, _) => if id in rows { ScanUpdate(rows, id, SqlStep(db, op).rows[id]); }
    case Health(id, _, _) => if id in rows { ScanUpdate(rows, id, SqlStep(db, op).rows[id]); }
    case Credit(_, _, _) => CreditReplicates(rows, op);
    case CreditDetail(_, _, _, _) => CreditReplicates(rows, op);
  }

  /** For every history of events the in-memory map equals the row map that the per-event
      statements produce, and the audit log grows by the same events in the same order. */
  lemma {:induction false} RunReplicates(db: Database, ops: seq<Op>)
    requires forall op :: op in ops ==> HasStatement(op)
    ensures Scan(SqlRun(db, ops).rows) == PeersRun(Scan(db.rows), ops)
    ensures SqlRun(db, ops).log == db.log + EventsOf(ops)
  {
    if ops == [] {
    } else {
      var init, last := ops[..|ops| - 1], ops[|ops| - 1];
      RunReplicates(db, init);
      StepReplicates(SqlRun(db, init), last);
    }
  }
}
