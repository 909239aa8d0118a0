/** The peers table and the audit log (server_db.go).  SQLite is abstracted to a row map, an event
    sequence and an atomic transaction that either commits or leaves everything as it was. */
module PeerDatabase {
  import opened PeerState

  /** A row of the peers table.  bootstrap_addr and engine_id have no default and may be NULL;
      ip_verified is an integer flag. */
  datatype Row = Row(
    gpuInfo: GpuColumn, ipAddress: string, lastPing: string,
    bootstrapAddr: Option<string>, engineID: Option<string>, failCount: int, penaltyPoints: int,
    totalRequests: int, totalTokens: int, inTokens: int, outTokens: int,
    contributionScore: real, role: string, ipVerified: int)

  type Table = map<string, Row>

  datatype Database = Database(rows: Table, log: seq<PeerEvent>)

  function Coalesce(column: Option<string>): string {
    if column.Some? then column.value else ""
  }

  /** The shared projection: NULL text columns read back as empty strings. */
  function ScanRow(id: string, r: Row): PeerData {
    PeerData(id, r.gpuInfo, r.ipAddress, r.lastPing, Coalesce(r.bootstrapAddr), Coalesce(r.engineID),
             r.failCount, r.penaltyPoints, r.totalRequests, r.totalTokens, r.inTokens, r.outTokens,
             r.contributionScore, r.role, r.ipVerified == 1)
  }

  function Scan(rows: Table): PeerMap {
    map id | id in rows :: ScanRow(id, rows[id])
  }

  function RowOf(p: PeerData): Row {
    Row(p.gpuInfo, p.ipAddress, p.lastPing, Some(p.bootstrapAddr), Some(p.engineID),
        p.failCount, p.penaltyPoints, p.totalRequests, p.totalTokens, p.inTokens, p.outTokens,
        p.contributionScore, p.role, if p.ipVerified then 1 else 0)
  }

  /** A row inserted with only the named columns; the others take their declared defaults. */
  function DefaultRow(gpuInfo: GpuColumn, ip: string, ping: string, role: string, verified: int): Row {
    Row(gpuInfo, ip, ping, None, None, 0, 0, 0, 0, 0, 0, 0.0, role, verified)
  }

  // ---------------------------------------------------------------------------------------
  // The statements of the older path, one transaction per event.

  function UpsertPeer(rows: Table, id: string, ip: string, gpuInfo: GpuColumn,
                      bootstrap: string, engine: string, role: string, now: string): Table {
    var excluded := DefaultRow(gpuInfo, ip, now, role, 0)
                    .(bootstrapAddr := Some(bootstrap), engineID := Some(engine));
    if id !in rows then rows[id := excluded]
    else
      rows[id := rows[id].(
        ipAddress := if rows[id].ipVerified == 1 then rows[id].ipAddress else excluded.ipAddress,
        lastPing := excluded.lastPing, gpuInfo := excluded.gpuInfo,
        bootstrapAddr := excluded.bootstrapAddr, engineID := excluded.engineID, role := excluded.role)]
  }

  function UpsertPeerConnection(rows: Table, id: string, ip: string, now: string): Table {
    var excluded := DefaultRow(EmptyArray, ip, now, "", 1);
    if id !in rows then rows[id := excluded]
    else rows[id := rows[id].(ipAddress := excluded.ipAddress, lastPing := excluded.lastPing, ipVerified := 1)]
  }

  /** UPDATE ... WHERE peer_id = id: no effect when there is no such row. */
  function UpdateRow(rows: Table, id: string, f: Row -> Row): Table {
    if id in rows then rows[id := f(rows[id])] else rows
  }

  function UpdatePeerPing(rows: Table, id: string, rtt: string): Table {
    UpdateRow(rows, id, (r: Row) => r.(lastPing := rtt))
  }

  function UpdatePeerHealth(rows: Table, id: string, fail: int, penalty: int): Table {
    UpdateRow(rows, id, (r: Row) => r.(failCount := fail, penaltyPoints := penalty))
  }

  function IncrementPeerContribution(rows: Table, id: string, requests: int, tokens: int): Table {
    var requests' := if requests <= 0 then 1 else requests;
    var added := requests' as real * 10.0 + tokens as real / 10.0;
    UpdateRow(rows, id, (r: Row) =>
      r.(totalRequests := r.totalRequests + requests', totalTokens := r.totalTokens + tokens,
         contributionScore := r.contributionScore + added))
  }

  function IncrementPeerTokensDetail(rows: Table, id: string, requests: int, inT: int, outT: int): Table {
    var requests' := if requests <= 0 then 1 else requests;
    var total := inT + outT;
    var added := requests' as real * 10.0 + total as real / 10.0;
    UpdateRow(rows, id, (r: Row) =>
      r.(totalRequests := r.totalRequests + requests', totalTokens := r.totalTokens + total,
         inTokens := r.inTokens + inT, outTokens := r.outTokens + outT,
         contributionScore := r.contributionScore + added))
  }

  function SyncPeerStats(rows: Table, id: string, requests: int, tokens: int): Table {
    if requests <= 0 && tokens <= 0 then rows
    else
      var added := requests as real * 10.0 + tokens as real / 10.0;
      UpdateRow(rows, id, (r: Row) =>
        r.(totalRequests := if requests > r.totalRequests then requests else r.totalRequests,
           totalTokens := if tokens > r.totalTokens then tokens else r.totalTokens,
           contributionScore := if added > r.contributionScore then added else r.contributionScore))
  }

  function DeletePeer(rows: Table, id: string): Table {
    rows - {id}
  }

  // ---------------------------------------------------------------------------------------
  // The batched path.

  function UpsertAll(rows: Table, peers: seq<PeerData>): Table {
    if peers == [] then rows
    else
      var last := peers[|peers| - 1];
      UpsertAll(rows, peers[..|peers| - 1])[last.peerID := RowOf(last)]
  }

  function FlushRows(rows: Table, peers: seq<PeerData>, deletes: seq<string>): Table {
    UpsertAll(rows - Elements(deletes), peers)
  }

  /** A batch written over a table whose keys are all listed or deleted leaves exactly the listed
      map: no stale row survives and no listed row is lost. */
  lemma FlushRowsIsListed(rows: Table, m: PeerMap, peers: seq<PeerData>, deletes: seq<string>)
    requires IsListing(peers, m)
    requires rows.Keys <= m.Keys + Elements(deletes)
    ensures Scan(FlushRows(rows, peers, deletes)) == m
  {
    UpsertDistinct(rows - Elements(deletes), peers);
    var result := FlushRows(rows, peers, deletes);
    assert result.Keys == m.Keys;
    forall id | id in m ensures ScanRow(id, result[id]) == m[id] {
      assert id in IDs(peers);
      var p :| p in peers && p.peerID == id;
      assert result[p.peerID] == RowOf(p);
    }
  }

  lemma {:induction false} UpsertDistinct(rows: Table, peers: seq<PeerData>)
    requires Distinct(peers)
    ensures UpsertAll(rows, peers).Keys == rows.Keys + IDs(peers)
    ensures forall p :: p in peers ==>
      p.peerID in UpsertAll(rows, peers) && UpsertAll(rows, peers)[p.peerID] == RowOf(p)
  {
    if peers == [] {
    } else {
      var init, last := peers[..|peers| - 1], peers[|peers| - 1];
      UpsertDistinct(rows, init);
      IDsSnoc(peers);
      LastIsNew(peers);
      forall p | p in peers
        ensures p.peerID in UpsertAll(rows, peers) && UpsertAll(rows, peers)[p.peerID] == RowOf(p)
      {
        assert p in init || p == last;
      }
    }
  }

  /** The connection pool's owner.  Statements change the table in place. */
  class DBManager {
    var rows: Table
    /** Peer IDs of rows that the scan drops, because an older version left ip_address, last_ping or
        gpu_info NULL; no statement here writes such a row. */
    var unreadable: set<string>
    var log: seq<PeerEvent>

    ghost function Abs(): Database
      reads this
    {
      Database(rows, log)
    }

    constructor ()
      ensures Abs() == Database(map[], []) && unreadable == {}
    {
      rows, unreadable, log := map[], {}, [];
    }

    /** SELECT ... FROM peers: every row that scans, in an order the engine picks. */
    method GetAllPeers() returns (peers: seq<PeerData>)
      ensures IsListing(peers, Scan(rows))
    {
      peers := [];
      var todo := rows.Keys + unreadable;
      while todo != {}
        invariant IsListingExcept(peers, Scan(rows), todo * rows.Keys)
        decreases |todo|
      {
        var id :| id in todo;
        if id in rows {
          ListNext(peers, Scan(rows), todo * rows.Keys, id);
          peers := peers + [ScanRow(id, rows[id])];
        }
        assert (todo - {id}) * rows.Keys == todo * rows.Keys - {id};
        todo := todo - {id};
      }
    }

    /** One transaction: deletes, then upserts, then events.  `commits` is the environment's
        verdict on the statements and the commit; a failed transaction is rolled back. */
    method BatchFlush(peers: seq<PeerData>, events: seq<PeerEvent>, deletes: seq<string>, commits: bool)
      returns (ok: bool)
      modifies this
      ensures ok == (commits || (peers == [] && events == [] && deletes == []))
      ensures ok ==> rows == FlushRows(old(rows), peers, deletes) && log == old(log) + events
      ensures ok ==> unreadable == old(unreadable) - Elements(deletes) - IDs(peers)
      ensures !ok ==> Abs() == old(Abs()) && unreadable == old(unreadable)
    {
      if |peers| == 0 && |events| == 0 && |deletes| == 0 {
        assert rows - Elements(deletes) == rows && IDs(peers) == {};
        return true;
      }
      var txRows, txLog := rows, log;
      if |deletes| > 0 {
        txRows := txRows - (set id | id in deletes);
      } else {
        assert rows - Elements(deletes) == rows;
      }
      for i := 0 to |peers|
        invariant txRows == UpsertAll(rows - Elements(deletes), peers[..i])
      {
        txRows := txRows[peers[i].peerID := RowOf(peers[i])];
        assert peers[..i + 1][..i] == peers[..i];
      }
      for i := 0 to |events|
        invariant txLog == log + events[..i]
      {
        txLog := txLog + [events[i]];
        assert events[..i + 1] == events[..i] + [events[i]];
      }
      if !commits {
        return false;
      }
      assert peers[..|peers|] == peers && events[..|events|] == events;
      rows, log := txRows, txLog;
      unreadable := unreadable - (set id | id in deletes) - (set p | p in peers :: p.peerID);
      return true;
    }
  }
}
