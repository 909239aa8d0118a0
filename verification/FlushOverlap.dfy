/** Nothing in the code keeps two flushes apart: the shutdown flush (app.go) and the one issued by
    the reset handler (server_web.go) can run while the periodic one is between its phases.  Here
    flush `a` copies the cache first, flush `b` copies it later, and both go through.  The lemmas
    say exactly what that does to the audit log and to the table. */
module FlushOverlap {
  import opened PeerState
  import opened PeerDatabase
  import opened WriteBehind

  // ---------------------------------------------------------------------------------------
  // The audit log.

  /** Both drains fit the queue, and log and remaining queue together are the events of `truth`. */
  ghost predicate LogExact(log: seq<PeerEvent>, queue: seq<PeerEvent>, a: Batch, b: Batch, truth: seq<PeerEvent>) {
    && |a.events| + |b.events| <= |queue|
    && log + queue[|a.events|..][|b.events|..] == truth
  }

  /** `mid` was queued between the two copies and `more` from then until the second drain.  The second drain slices past
      the end of the queue, or the log duplicates old events and drops new ones, unless enough is
      queued meanwhile and it happens to repeat what the first flush copied: shifted by `mid` if
      `a` commits first, literally if `b` does.  In particular an overlap is always harmless when
      nothing was pending at the first copy. */
  lemma OverlapKeepsLogIff(db: Database, c: Cache, a: Batch, mid: seq<PeerEvent>, b: Batch, more: seq<PeerEvent>)
    requires IsBatch(a, c) && b.events == c.events + mid
    ensures
      var queue := c.events + mid + more;
      && (LogExact(CommitBatch(CommitBatch(db, a), b).log, queue, a, b, db.log + queue) <==>
            |c.events| <= |more| && c.events + mid == mid + more[..|c.events|])
      && (LogExact(CommitBatch(CommitBatch(db, b), a).log, queue, a, b, db.log + queue) <==> c.events <= more)
  {
    TwiceDrained(db.log, c.events, mid, more);
    ShiftedIff(db.log, c.events, mid, more);
    LiteralIff(db.log, c.events, mid, more);
  }

  lemma TwiceDrained(log: seq<PeerEvent>, es: seq<PeerEvent>, mid: seq<PeerEvent>, more: seq<PeerEvent>)
    ensures |es| <= |more| ==> (es + mid + more)[|es|..][|es + mid|..] == more[|es|..]
  {
    assert (es + mid + more)[|es|..] == mid + more;
  }

  lemma ShiftedIff(log: seq<PeerEvent>, es: seq<PeerEvent>, mid: seq<PeerEvent>, more: seq<PeerEvent>)
    ensures |es| <= |more| ==>
      (log + es + (es + mid) + more[|es|..] == log + (es + mid + more) <==> es + mid == mid + more[..|es|])
  {
    if |es| <= |more| {
      var u, v := more[..|es|], more[|es|..];
      Regrouped(log + es, es + mid, mid + u, v);
      assert log + es + (es + mid) + v == (log + es) + ((es + mid) + v);
      assert log + (es + mid + more) == (log + es) + ((mid + u) + v);
    }
  }

  lemma LiteralIff(log: seq<PeerEvent>, es: seq<PeerEvent>, mid: seq<PeerEvent>, more: seq<PeerEvent>)
    ensures |es| <= |more| ==>
      (log + (es + mid) + es + more[|es|..] == log + (es + mid + more) <==> es == more[..|es|])
  {
    if |es| <= |more| {
      var u, v := more[..|es|], more[|es|..];
      Regrouped(log + es + mid, es, u, v);
      assert log + (es + mid) + es + v == (log + es + mid) + (es + v);
      assert log + (es + mid + more) == (log + es + mid) + (u + v);
    }
  }

  lemma Regrouped(p: seq<PeerEvent>, x: seq<PeerEvent>, y: seq<PeerEvent>, v: seq<PeerEvent>)
    requires |x| == |y|
    ensures p + (x + v) == p + (y + v) <==> x == y
  {
    var s, t := p + (x + v), p + (y + v);
    assert s[|p|..|p| + |x|] == x && t[|p|..|p| + |y|] == y;
  }

  // ---------------------------------------------------------------------------------------
  // The table.

  /** The table after `b`, which copied `c1`, and then `a`, which had copied `c`, have committed. */
  function StaleRows(db: Database, b: Batch, a: Batch): Table {
    CommitBatch(CommitBatch(db, b), a).rows
  }

  /** What may have happened between the two copies: any operations, with a bulk load only while no
      delete is pending. */
  ghost predicate Between(c: Cache, ops: seq<Op>) {
    ops == [] ||
    (Between(c, ops[..|ops| - 1])
     && (ops[|ops| - 1].Load? ==> ApplyAll(c, ops[..|ops| - 1]).deletes == {}))
  }

  lemma {:induction false} BetweenKeeps(c: Cache, ops: seq<Op>)
    requires Keyed(c.peers) && c.peers.Keys !! c.deletes && Between(c, ops)
    ensures
      var c1 := ApplyAll(c, ops);
      && Keyed(c1.peers) && c1.peers.Keys !! c1.deletes
      && c.peers.Keys + c.deletes <= c1.peers.Keys + c1.deletes
  {
    if ops != [] {
      var init, op := ops[..|ops| - 1], ops[|ops| - 1];
      BetweenKeeps(c, init);
      KeysAfter(ApplyAll(c, init), op);
      KeyedAfter(ApplyAll(c, init).peers, op);
    }
  }

  /** The stale commit puts every row it copied back over the newer one and deletes what had been
      pending then. */
  lemma StaleCommitOverwrites(db: Database, c: Cache, c1: Cache, a: Batch, b: Batch)
    requires IsBatch(a, c) && IsBatch(b, c1) && c.peers.Keys !! c.deletes
    requires db.rows.Keys <= c1.peers.Keys + c1.deletes
    ensures Scan(StaleRows(db, b, a)) == (c1.peers - c.deletes) + c.peers
  {
    var db1 := CommitBatch(db, b);
    FlushRowsIsListed(db.rows, c1.peers, b.peers, b.deletes);
    ReadBack(db1.rows - c.deletes, a.peers, c.peers);
    ScanWithout(db1.rows, c.deletes);
  }

  lemma ScanWithout(rows: Table, gone: set<string>)
    ensures Scan(rows - gone) == Scan(rows) - gone
  {}

  lemma ReadBack(rows: Table, peers: seq<PeerData>, m: PeerMap)
    requires IsListing(peers, m)
    ensures Scan(UpsertAll(rows, peers)) == Scan(rows) + m
  {
    UpsertKeys(rows, peers, m);
    forall id | id in UpsertAll(rows, peers)
      ensures ScanRow(id, UpsertAll(rows, peers)[id]) == if id in m then m[id] else ScanRow(id, rows[id])
    {
      RowReadsBack(rows, peers, m, id);
    }
    ScanOverlay(UpsertAll(rows, peers), rows, m);
  }

  lemma ScanOverlay(after: Table, rows: Table, m: PeerMap)
    requires after.Keys == rows.Keys + m.Keys
    requires forall id :: id in after ==>
      ScanRow(id, after[id]) == if id in m then m[id] else ScanRow(id, rows[id])
    ensures Scan(after) == Scan(rows) + m
  {}

  lemma RowReadsBack(rows: Table, peers: seq<PeerData>, m: PeerMap, id: string)
    requires IsListing(peers, m) && id in UpsertAll(rows, peers) && (id in m || id in rows)
    ensures ScanRow(id, UpsertAll(rows, peers)[id]) == if id in m then m[id] else ScanRow(id, rows[id])
  {
    if id in m { ListedReadsBack(rows, peers, m, id); } else { UpsertElsewhere(rows, peers, id); }
  }

  lemma UpsertKeys(rows: Table, peers: seq<PeerData>, m: PeerMap)
    requires IsListing(peers, m)
    ensures UpsertAll(rows, peers).Keys == rows.Keys + m.Keys
  {
    UpsertDistinct(rows, peers);
  }

  lemma ListedReadsBack(rows: Table, peers: seq<PeerData>, m: PeerMap, id: string)
    requires IsListing(peers, m) && id in m
    ensures id in UpsertAll(rows, peers) && ScanRow(id, UpsertAll(rows, peers)[id]) == m[id]
  {
    UpsertDistinct(rows, peers);
    assert id in IDs(peers);
    var p :| p in peers && p.peerID == id;
  }

  lemma {:induction false} UpsertElsewhere(rows: Table, peers: seq<PeerData>, id: string)
    requires id !in IDs(peers)
    ensures id in UpsertAll(rows, peers) <==> id in rows
    ensures id in rows ==> UpsertAll(rows, peers)[id] == rows[id]
  {
    if peers != [] {
      IDsSnoc(peers);
      UpsertElsewhere(rows, peers[..|peers| - 1], id);
    }
  }

  /** A flush drains: what it deleted is no longer pending. */
  function Drained(c: Cache, b: Batch): Cache {
    c.(deletes := c.deletes - Elements(b.deletes))
  }

  /** After the newer copy `c1` come `more`, the drain of `first` and `last`; this is the cache just
      before the other drain. */
  function BeforeLastDrain(c1: Cache, more: seq<Op>, first: Batch, last: seq<Op>): Cache {
    ApplyAll(Drained(ApplyAll(c1, more), first), last)
  }

  /** Every row is live or pending delete. */
  ghost predicate NoneOrphaned(rows: Table, c: Cache) {
    rows.Keys <= c.peers.Keys + c.deletes
  }

  /** What may happen around two overlapping flushes: `ops` between the copies, `more` between the
      newer copy and the first drain, `last` between the drains.  `aFirst` says whose drain that is;
      a drain may come any time after its own commit. */
  ghost predicate Overlapping(db: Database, c: Cache, ops: seq<Op>, more: seq<Op>, last: seq<Op>,
                              a: Batch, b: Batch, aFirst: bool) {
    && Keyed(c.peers) && c.peers.Keys !! c.deletes && db.rows.Keys <= c.peers.Keys + c.deletes
    && Between(c, ops) && Between(ApplyAll(c, ops), more)
    && Between(Drained(ApplyAll(ApplyAll(c, ops), more), if aFirst then a else b), last)
    && IsBatch(a, c) && IsBatch(b, ApplyAll(c, ops))
  }

  /** The older flush commits last.  No row is orphaned if and only if every peer live at the older
      copy was live at the newer one, or is live again before the last drain, or (if the newer flush
      drained first) has at least been removed again since; and the stale commit changes nothing that
      the newer flush had written if and only if the older peers' rows were all still there unchanged
      and no peer pending deletion then had come back. */
  lemma StaleCommitHarmlessIff(db: Database, c: Cache, ops: seq<Op>, more: seq<Op>, last: seq<Op>,
                               a: Batch, b: Batch, aFirst: bool)
    requires Overlapping(db, c, ops, more, last, a, b, aFirst)
    ensures
      var c1, rows := ApplyAll(c, ops), StaleRows(db, b, a);
      var e := BeforeLastDrain(c1, more, if aFirst then a else b, last);
      && (NoneOrphaned(rows, Drained(e, if aFirst then b else a)) <==>
            c.peers.Keys <= c1.peers.Keys + e.peers.Keys + if aFirst then {} else e.deletes)
      && (Scan(rows) == c1.peers <==>
            c1.peers.Keys !! c.deletes && forall id :: id in c.peers ==> id in c1.peers && c1.peers[id] == c.peers[id])
  {
    var c1, rows := ApplyAll(c, ops), StaleRows(db, b, a);
    BetweenKeeps(c, ops);
    StaleCommitOverwrites(db, c, c1, a, b);
    assert rows.Keys == Scan(rows).Keys;
    OverlayIff(c1.peers, c.deletes, c.peers);
    AroundDrain(c1, more, if aFirst then a else b, last);
    var e := BeforeLastDrain(c1, more, if aFirst then a else b, last);
    OrphansIff(c.peers.Keys, c.deletes, c1.peers.Keys, c1.deletes, e.peers.Keys, e.deletes, aFirst);
  }

  /** The same, in terms of live and pending IDs at the two copies and before the last drain. */
  lemma OrphansIff(live: set<string>, pending: set<string>, live1: set<string>, pending1: set<string>,
                   live2: set<string>, pending2: set<string>, aFirst: bool)
    requires live !! pending && live1 !! pending1 && live + pending <= live1 + pending1
    requires (live1 + pending1) - (if aFirst then pending else pending1) <= live2 + pending2
    ensures (live1 - pending) + live <= live2 + (pending2 - if aFirst then pending1 else pending)
      <==> live <= live1 + live2 + if aFirst then {} else pending2
  {
    var dropped := if aFirst then pending else pending1;
    var left := live2 + (pending2 - if aFirst then pending1 else pending);
    forall id | id in live1 - pending ensures id in left {
      assert id in live1 + pending1 && id !in dropped;
      assert id in live2 + pending2;
    }
    if live <= left {
      forall id | id in live ensures id in live1 + live2 + if aFirst then {} else pending2 {
        assert id in left && id in live1 + pending1;
      }
    }
  }

  /** The commits come in the order of the copies.  The table is then the newer copy; and no row is
      orphaned if and only if every peer that was pending deletion at the older copy and back at the
      newer one is live before the last drain, or (if the older flush drained first) at least has
      been removed since: the older flush drops a pending delete that is not its own. */
  lemma InOrderCommitsHarmlessIff(db: Database, c: Cache, ops: seq<Op>, more: seq<Op>, last: seq<Op>,
                                  a: Batch, b: Batch, aFirst: bool)
    requires Overlapping(db, c, ops, more, last, a, b, aFirst)
    ensures
      var c1, rows := ApplyAll(c, ops), CommitBatch(CommitBatch(db, a), b).rows;
      var e := BeforeLastDrain(c1, more, if aFirst then a else b, last);
      && Scan(rows) == c1.peers
      && (NoneOrphaned(rows, Drained(e, if aFirst then b else a)) <==>
            c1.peers.Keys * c.deletes <= e.peers.Keys + if aFirst then e.deletes else {})
  {
    var c1 := ApplyAll(c, ops);
    BetweenKeeps(c, ops);
    InOrderRows(db, c, c1, a, b);
    AroundDrain(c1, more, if aFirst then a else b, last);
  }

  lemma InOrderRows(db: Database, c: Cache, c1: Cache, a: Batch, b: Batch)
    requires IsBatch(a, c) && IsBatch(b, c1) && db.rows.Keys <= c.peers.Keys + c.deletes
    requires c.peers.Keys + c.deletes <= c1.peers.Keys + c1.deletes
    ensures
      var rows := CommitBatch(CommitBatch(db, a), b).rows;
      Scan(rows) == c1.peers && rows.Keys == c1.peers.Keys
  {
    var db1 := CommitBatch(db, a);
    FlushRowsIsListed(db.rows, c.peers, a.peers, a.deletes);
    assert db1.rows.Keys == Scan(db1.rows).Keys == c.peers.Keys;
    FlushRowsIsListed(db1.rows, c1.peers, b.peers, b.deletes);
    var rows := CommitBatch(db1, b).rows;
    assert rows.Keys == Scan(rows).Keys;
  }

  /** Across the first drain only what it drops can cease to be live or pending. */
  lemma AroundDrain(c1: Cache, more: seq<Op>, first: Batch, last: seq<Op>)
    requires Keyed(c1.peers) && c1.peers.Keys !! c1.deletes
    requires Between(c1, more) && Between(Drained(ApplyAll(c1, more), first), last)
    ensures
      var e := BeforeLastDrain(c1, more, first, last);
      && e.peers.Keys !! e.deletes
      && (c1.peers.Keys + c1.deletes) - Elements(first.deletes) <= e.peers.Keys + e.deletes
  {
    BetweenKeeps(c1, more);
    BetweenKeeps(Drained(ApplyAll(c1, more), first), last);
  }

  lemma OverlayIff(m: PeerMap, gone: set<string>, stale: PeerMap)
    requires stale.Keys !! gone
    ensures (m - gone) + stale == m <==> m.Keys !! gone && forall id :: id in stale ==> id in m && m[id] == stale[id]
    ensures ((m - gone) + stale).Keys <= m.Keys <==> stale.Keys <= m.Keys
  {
    var overlay := (m - gone) + stale;
    if overlay == m {
      forall id | id in stale ensures id in m && m[id] == stale[id] {
        assert overlay[id] == stale[id];
      }
      forall id | id in m ensures id !in gone {
        assert id in overlay;
      }
    }
    assert forall id :: id in stale ==> id in overlay;
  }

  /** The peer `id` disconnected between the copies: its row comes back, with neither a live entry
      nor a pending delete, exactly when it had been live. */
  lemma StaleCommitOrphansIff(db: Database, c: Cache, a: Batch, b: Batch, id: string)
    requires Keyed(c.peers) && c.peers.Keys !! c.deletes && db.rows.Keys <= c.peers.Keys + c.deletes
    requires IsBatch(a, c) && IsBatch(b, Apply(c, Remove(id)))
    ensures NoneOrphaned(StaleRows(db, b, a), Drained(Drained(Apply(c, Remove(id)), b), a)) <==> id !in c.peers
  {
    ApplyTwo(c, Remove(id), Remove(id));
    assert [Remove(id)][..0] == [];
    StaleCommitHarmlessIff(db, c, [Remove(id)], [], [], a, b, false);
  }

  /** The statistics were reset between the copies, and the reset handler's own flush is `b`: the
      stale commit writes all the old totals back, so the reset is durable exactly when there was
      nothing to reset. */
  lemma StaleCommitUndoesResetIff(db: Database, c: Cache, a: Batch, b: Batch)
    requires Keyed(c.peers) && c.peers.Keys !! c.deletes && db.rows.Keys <= c.peers.Keys + c.deletes
    requires IsBatch(a, c) && IsBatch(b, Apply(c, Reset))
    ensures
      var rows := Scan(StaleRows(db, b, a));
      && rows == c.peers
      && (rows == Apply(c, Reset).peers <==> forall id :: id in c.peers ==> ZeroStats(c.peers[id]) == c.peers[id])
  {
    StaleCommitOverwrites(db, c, Apply(c, Reset), a, b);
    ResetOverlaid(c.peers, c.deletes);
  }

  lemma ResetOverlaid(m: PeerMap, gone: set<string>)
    requires m.Keys !! gone
    ensures
      var reset := PeersAfter(m, Reset);
      && (reset - gone) + m == m
      && (m == reset <==> forall id :: id in m ==> ZeroStats(m[id]) == m[id])
  {
    var reset := PeersAfter(m, Reset);
    assert reset.Keys == m.Keys;
    if m == reset {
      forall id | id in m ensures ZeroStats(m[id]) == m[id] {
        assert reset[id] == ZeroStats(m[id]);
      }
    }
  }
}
