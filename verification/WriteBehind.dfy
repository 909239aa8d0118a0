/** The hub's write-behind protocol (PeerCache.Flush): copy under the lock, commit one transaction
    with the lock released, re-take the lock and drain exactly what was committed.  Any cache
    operation may land between those phases and any commit may fail.  One flush is in flight at a
    time; `FlushOverlap` shows what happens otherwise. */
module WriteBehind {
  import opened PeerState
  import opened PeerDatabase
  import opened SqlReplica

  datatype Batch = Batch(peers: seq<PeerData>, events: seq<PeerEvent>, deletes: seq<string>)

  datatype Phase = Idle | Taken(batch: Batch) | Committed(batch: Batch)

  /** `ops` is every operation since boot; `taken` is its length when the flush in flight copied
      the cache and `cut` its length at the copy instant of the last flush that got through. */
  datatype Hub = Hub(cache: Cache, db: Database, phase: Phase, ops: seq<Op>, taken: nat, cut: nat)

  datatype Label =
    | Mutate(op: Op)
    | Take(batch: Batch)
    | Skip                         // nothing to write: Flush returns early
    | Commit
    | Fail
    | Drain
    | Seed(peers: seq<PeerData>)   // boot-time persist of a fetched seed snapshot

  /** What Flush copies: map and set iteration order is arbitrary. */
  ghost predicate IsBatch(b: Batch, c: Cache) {
    && IsListing(b.peers, c.peers)
    && b.events == c.events
    && Elements(b.deletes) == c.deletes
  }

  const EMPTY_BATCH := Batch([], [], [])

  function CommitBatch(db: Database, b: Batch): Database {
    Database(FlushRows(db.rows, b.peers, b.deletes), db.log + b.events)
  }

  function DrainBatch(c: Cache, b: Batch): Cache
    requires |b.events| <= |c.events|
  {
    c.(events := c.events[|b.events|..], deletes := c.deletes - Elements(b.deletes))
  }

  /** A restart warm-starts the cache from the table. */
  function Boot(db: Database): Hub {
    Hub(Cache(Scan(db.rows), [], {}), db, Idle, [], 0, 0)
  }

  ghost predicate Enabled(h: Hub, l: Label) {
    match l
    case Mutate(op) => op.Load? ==> h.cache.deletes == {}
    case Take(batch) => h.phase.Idle? && IsBatch(batch, h.cache)
    case Skip => h.phase == Taken(EMPTY_BATCH)
    case Commit => h.phase.Taken? && h.phase.batch != EMPTY_BATCH
    case Fail => h.phase.Taken? && h.phase.batch != EMPTY_BATCH
    case Drain => h.phase.Committed? && |h.phase.batch.events| <= |h.cache.events|
    case Seed(peers) =>
      h.phase.Idle? && h.cache.events == [] && h.cache.deletes == {} && IsListing(peers, h.cache.peers)
  }

  ghost function Next(h: Hub, l: Label): Hub
    requires Enabled(h, l)
  {
    match l
    case Mutate(op) => h.(cache := Apply(h.cache, op), ops := h.ops + [op])
    case Take(batch) => h.(phase := Taken(batch), taken := |h.ops|)
    case Skip => h.(phase := Idle, cut := h.taken)
    case Commit => h.(phase := Committed(h.phase.batch), db := CommitBatch(h.db, h.phase.batch), cut := h.taken)
    case Fail => h.(phase := Idle)
    case Drain => h.(phase := Idle, cache := DrainBatch(h.cache, h.phase.batch))
    case Seed(peers) => h.(db := CommitBatch(h.db, Batch(peers, [], [])), cut := |h.ops|)
  }

  ghost predicate Legal(h: Hub, run: seq<Label>)
    decreases |run|, 0
  {
    run == [] || (Legal(h, run[..|run| - 1]) && Enabled(After(h, run[..|run| - 1]), run[|run| - 1]))
  }

  ghost function After(h: Hub, run: seq<Label>): Hub
    requires Legal(h, run)
    decreases |run|, 1
  {
    if run == [] then h else Next(After(h, run[..|run| - 1]), run[|run| - 1])
  }

  // ---------------------------------------------------------------------------------------
  // The invariant.

  function BatchOf(p: Phase): Batch {
    if p.Idle? then EMPTY_BATCH else p.batch
  }

  /** The queued events that are not yet in the log. */
  function Uncommitted(h: Hub): seq<PeerEvent>
    requires |BatchOf(h.phase).events| <= |h.cache.events|
  {
    if h.phase.Committed? then h.cache.events[|h.phase.batch.events|..] else h.cache.events
  }

  /** Live and pending delete are disjoint, and every row is one or the other. */
  ghost predicate NoOrphans(h: Hub) {
    && h.cache.peers.Keys !! h.cache.deletes
    && h.db.rows.Keys <= h.cache.peers.Keys + h.cache.deletes
  }

  /** The batch in flight stays a prefix of the queue until it is drained, and the log followed by
      the uncommitted suffix is every event ever queued, in order. */
  ghost predicate ExactlyOnce(boot: Database, h: Hub) {
    && BatchOf(h.phase).events <= h.cache.events
    && h.db.log + Uncommitted(h) == boot.log + EventsOf(h.ops)
  }

  ghost predicate Persisted(boot: Database, db: Database, ops: seq<Op>) {
    && Scan(db.rows) == PeersRun(Scan(boot.rows), ops)
    && db.log == boot.log + EventsOf(ops)
  }

  /** What the flush in flight still promises about the rows it will write, delete or drain. */
  ghost predicate BatchOk(boot: Database, h: Hub)
    requires h.taken <= |h.ops|
  {
    h.phase.Idle? ||
    (var b := h.phase.batch;
     && IDs(b.peers) !! Elements(b.deletes)
     && IDs(b.peers) <= h.cache.peers.Keys + h.cache.deletes
     && (h.phase.Taken? ==>
           && IsListing(b.peers, PeersRun(Scan(boot.rows), h.ops[..h.taken]))
           && boot.log + EventsOf(h.ops[..h.taken]) == h.db.log + b.events
           && h.db.rows.Keys <= IDs(b.peers) + Elements(b.deletes))
     && (h.phase.Committed? ==> h.db.rows.Keys !! Elements(b.deletes)))
  }

  ghost predicate Inv(boot: Database, h: Hub) {
    && h.cut <= |h.ops| && h.taken <= |h.ops|
    && h.cache.peers == PeersRun(Scan(boot.rows), h.ops)
    && NoOrphans(h)
    && ExactlyOnce(boot, h)
    && BatchOk(boot, h)
    && Persisted(boot, h.db, h.ops[..h.cut])
  }

  lemma BootInv(boot: Database)
    ensures Inv(boot, Boot(boot))
  {}

  /** Live plus pending never loses an ID, and the two stay disjoint. */
  lemma KeysAfter(c: Cache, op: Op)
    requires Keyed(c.peers) && c.peers.Keys !! c.deletes
    requires op.Load? ==> c.deletes == {}
    ensures c.peers.Keys + c.deletes <= Apply(c, op).peers.Keys + Apply(c, op).deletes
    ensures Apply(c, op).peers.Keys !! Apply(c, op).deletes
  {
    if op.Load? { KeyedLoad(c.peers, op.peers); }
  }

  lemma MutateInv(boot: Database, h: Hub, op: Op)
    requires Inv(boot, h) && Enabled(h, Mutate(op))
    ensures Inv(boot, Next(h, Mutate(op)))
  {
    var h' := Next(h, Mutate(op));
    KeyedRun(Scan(boot.rows), h.ops);
    KeysAfter(h.cache, op);
    RunSnoc(Scan(boot.rows), h.ops, op);
    assert h'.ops[..h.cut] == h.ops[..h.cut] && h'.ops[..h.taken] == h.ops[..h.taken];
    MutateExactlyOnce(boot, h, op);
  }

  lemma MutateExactlyOnce(boot: Database, h: Hub, op: Op)
    requires ExactlyOnce(boot, h) && Enabled(h, Mutate(op))
    ensures ExactlyOnce(boot, Next(h, Mutate(op)))
  {
    EventsSnoc(h.ops, op);
    if op.Event? {
      assert Uncommitted(Next(h, Mutate(op))) == Uncommitted(h) + [op.event];
      AppendBoth(h.db.log, Uncommitted(h), boot.log, EventsOf(h.ops), op.event);
    }
  }

  lemma EventsSnoc(ops: seq<Op>, op: Op)
    ensures EventsOf(ops + [op]) == EventsOf(ops) + if op.Event? then [op.event] else []
  {
    RunSnoc(map[], ops, op);
    assert EventsOf(ops) + [] == EventsOf(ops);
  }

  lemma AppendBoth<T>(a: seq<T>, b: seq<T>, c: seq<T>, d: seq<T>, x: T)
    requires a + b == c + d
    ensures a + (b + [x]) == c + (d + [x])
  {
    assert a + (b + [x]) == (a + b) + [x] && c + (d + [x]) == (c + d) + [x];
  }

  lemma TakeInv(boot: Database, h: Hub, batch: Batch)
    requires Inv(boot, h) && Enabled(h, Take(batch))
    ensures Inv(boot, Next(h, Take(batch)))
  {
    assert h.ops[..|h.ops|] == h.ops;
  }

  /** The early return is sound: with nothing live and nothing pending the table has no rows. */
  lemma SkipInv(boot: Database, h: Hub)
    requires Inv(boot, h) && Enabled(h, Skip)
    ensures Inv(boot, Next(h, Skip))
    ensures h.db.rows == map[]
  {
    assert h.db.rows.Keys <= {};
    assert h.db.rows == map[] && Scan(h.db.rows) == map[];
    assert PeersRun(Scan(boot.rows), h.ops[..h.taken]).Keys == {};
    assert h.db.log + [] == h.db.log;
  }

  lemma CommitRows(rows: Table, m: PeerMap, b: Batch)
    requires IsListing(b.peers, m) && rows.Keys <= IDs(b.peers) + Elements(b.deletes)
    ensures Scan(FlushRows(rows, b.peers, b.deletes)) == m
    ensures FlushRows(rows, b.peers, b.deletes).Keys == IDs(b.peers)
  {
    FlushRowsIsListed(rows, m, b.peers, b.deletes);
    assert FlushRows(rows, b.peers, b.deletes).Keys == Scan(FlushRows(rows, b.peers, b.deletes)).Keys;
  }

  lemma CommitExactlyOnce(boot: Database, h: Hub)
    requires ExactlyOnce(boot, h) && Enabled(h, Commit)
    ensures ExactlyOnce(boot, Next(h, Commit))
  {
    var b, rest := h.phase.batch, Uncommitted(Next(h, Commit));
    assert h.cache.events == b.events + rest;
    assert h.db.log + (b.events + rest) == h.db.log + b.events + rest;
  }

  lemma CommitInv(boot: Database, h: Hub)
    requires Inv(boot, h) && Enabled(h, Commit)
    ensures Inv(boot, Next(h, Commit))
  {
    CommitRows(h.db.rows, PeersRun(Scan(boot.rows), h.ops[..h.taken]), h.phase.batch);
    CommitExactlyOnce(boot, h);
  }

  lemma DrainInv(boot: Database, h: Hub)
    requires Inv(boot, h) && Enabled(h, Drain)
    ensures Inv(boot, Next(h, Drain))
  {}

  lemma SeedInv(boot: Database, h: Hub, peers: seq<PeerData>)
    requires Inv(boot, h) && Enabled(h, Seed(peers))
    ensures Inv(boot, Next(h, Seed(peers)))
  {
    var h' := Next(h, Seed(peers));
    assert Elements<string>([]) == {};
    FlushRowsIsListed(h.db.rows, h.cache.peers, peers, []);
    assert h'.db.rows.Keys == Scan(h'.db.rows).Keys == IDs(peers);
    assert h.ops[..|h.ops|] == h.ops;
    assert h'.db.log == h.db.log && h.db.log + [] == h.db.log;
  }

  lemma NextInv(boot: Database, h: Hub, l: Label)
    requires Inv(boot, h) && Enabled(h, l)
    ensures Inv(boot, Next(h, l))
  {
    match l
    case Mutate(op) => MutateInv(boot, h, op);
    case Take(batch) => TakeInv(boot, h, batch);
    case Skip => SkipInv(boot, h);
    case Commit => CommitInv(boot, h);
    case Fail =>
    case Drain => DrainInv(boot, h);
    case Seed(peers) => SeedInv(boot, h, peers);
  }

  lemma {:induction false} RunInv(boot: Database, run: seq<Label>)
    requires Legal(Boot(boot), run)
    ensures Inv(boot, After(Boot(boot), run))
  {
    if run == [] {
      BootInv(boot);
    } else {
      RunInv(boot, run[..|run| - 1]);
      NextInv(boot, After(Boot(boot), run[..|run| - 1]), run[|run| - 1]);
    }
  }

  // ---------------------------------------------------------------------------------------
  // The promises, over every run.

  /** A crash at any moment leaves table and log together equal to the cache and the event queue
      as they were at one instant of the history, and a warm start recovers exactly that map. */
  lemma {:induction false} CrashRecoversPrefix(boot: Database, run: seq<Label>, listing: seq<PeerData>)
    requires Legal(Boot(boot), run)
    requires IsListing(listing, Scan(After(Boot(boot), run).db.rows))
    ensures
      var h := After(Boot(boot), run);
      && h.cut <= |h.ops|
      && Persisted(boot, h.db, h.ops[..h.cut])
      && LoadPeers(map[], listing) == PeersRun(Scan(boot.rows), h.ops[..h.cut])
  {
    RunInv(boot, run);
    LoadListing(listing, Scan(After(Boot(boot), run).db.rows));
  }

  /** The persisted state is also what the per-event SQL path would have written for that prefix. */
  lemma {:induction false} PersistedIsSqlPrefix(boot: Database, run: seq<Label>)
    requires Legal(Boot(boot), run)
    requires
      var h := After(Boot(boot), run);
      h.cut <= |h.ops| ==> forall op :: op in h.ops[..h.cut] ==> HasStatement(op)
    ensures
      var h := After(Boot(boot), run);
      h.cut <= |h.ops| &&
      var direct := SqlRun(boot, h.ops[..h.cut]);
      Scan(h.db.rows) == Scan(direct.rows) && h.db.log == direct.log
  {
    RunInv(boot, run);
    var h := After(Boot(boot), run);
    RunReplicates(boot, h.ops[..h.cut]);
  }

  /** Nothing queued is lost or written twice, and no row is ever orphaned. */
  lemma {:induction false} NothingLostOrOrphaned(boot: Database, run: seq<Label>)
    requires Legal(Boot(boot), run)
    ensures ExactlyOnce(boot, After(Boot(boot), run)) && NoOrphans(After(Boot(boot), run))
  {
    RunInv(boot, run);
  }

  /** The durable instant never moves backwards, and a failed commit changes neither store. */
  lemma {:induction false} CutOnlyAdvances(boot: Database, run: seq<Label>, l: Label)
    requires Legal(Boot(boot), run) && Enabled(After(Boot(boot), run), l)
    ensures After(Boot(boot), run).cut <= Next(After(Boot(boot), run), l).cut
    ensures l.Fail? ==>
      Next(After(Boot(boot), run), l).(phase := After(Boot(boot), run).phase) == After(Boot(boot), run)
  {
    TakenAfterCut(boot, run);
  }

  lemma {:induction false} TakenAfterCut(boot: Database, run: seq<Label>)
    requires Legal(Boot(boot), run)
    ensures var h := After(Boot(boot), run);
      h.cut <= |h.ops| && h.taken <= |h.ops| && (h.phase.Taken? ==> h.cut <= h.taken)
  {
    if run != [] { TakenAfterCut(boot, run[..|run| - 1]); }
  }

  /** An undisturbed successful flush from any reachable idle state leaves the table equal to the
      cache and both queues empty. */
  lemma {:induction false} QuietFlush(boot: Database, run: seq<Label>, batch: Batch)
    requires Legal(Boot(boot), run)
    requires Enabled(After(Boot(boot), run), Take(batch)) && batch != EMPTY_BATCH
    ensures
      var h := After(Boot(boot), run);
      var h1 := Next(Next(h, Take(batch)), Commit);
      && Enabled(h1, Drain)
      && Scan(Next(h1, Drain).db.rows) == h.cache.peers
      && Next(h1, Drain).cache == h.cache.(events := [], deletes := {})
      && Next(h1, Drain).cut == |h.ops|
  {
    RunInv(boot, run);
    var h := After(Boot(boot), run);
    TakeInv(boot, h, batch);
    CommitInv(boot, Next(h, Take(batch)));
    assert h.ops[..|h.ops|] == h.ops;
  }
}
