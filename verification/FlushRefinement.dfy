/** The mutable cache, the mutable database and a flush in three phases, used in any interleaving, take
    exactly the steps of the `WriteBehind` machine; so that machine's promises hold of the objects. */
module FlushRefinement {
  import opened PeerState
  import opened PeerDatabase
  import opened PeerCacheStore
  import opened WriteBehind

  /** One thing that happens to the hub: an operation, one phase of the flush in flight, or the
      boot-time persist of a fetched snapshot. */
  datatype Action = Operate(op: Op) | Copy | Write(commits: bool) | Finish | Persist(commits: bool)

  class FlushingHub {
    const cache: PeerCache
    const db: DBManager
    /** The local variables of the flush in flight. */
    var phase: Phase
    ghost var boot: Database
    ghost var run: seq<Label>

    /** The objects are where the machine is after the labels so far. */
    ghost predicate Valid()
      reads this, cache, db
    {
      && cache.Valid() && Legal(Boot(boot), run)
      && var h := After(Boot(boot), run);
         h.cache == cache.Abs() && h.db == db.Abs() && h.phase == phase
    }

    /** Warm start: a new cache loaded with every row of the table. */
    constructor (db: DBManager)
      ensures Valid() && this.db == db && fresh(cache) && run == [] && boot == old(db.Abs()) == db.Abs()
    {
      var peers := db.GetAllPeers();
      var warm := new PeerCache();
      warm.LoadSnapshot(peers);
      LoadListing(peers, Scan(db.rows));
      cache := warm;
      this.db := db;
      phase := Idle;
      boot := db.Abs();
      run := [];
    }

    /** The machine follows with one label. */
    ghost method Follow(l: Label)
      requires Legal(Boot(boot), run) && Enabled(After(Boot(boot), run), l)
      modifies this`run
      ensures run == old(run) + [l] && Legal(Boot(boot), run)
      ensures After(Boot(boot), run) == Next(After(Boot(boot), old(run)), l)
    {
      ghost var before := run;
      run := run + [l];
      assert run[..|run| - 1] == before;
    }

    method Operate(op: Op)
      requires Valid() && (op.Load? ==> cache.pendingDeletes == {})
      modifies this`run, cache
      ensures Valid() && run == old(run) + [Mutate(op)]
    {
      cache.Perform(op);
      Follow(Mutate(op));
    }

    /** The copy under the lock. */
    method Copy()
      requires Valid() && phase.Idle?
      modifies this
      ensures Valid() && phase.Taken? && run == old(run) + [Take(phase.batch)]
    {
      var b := cache.TakeForFlush();
      phase := Taken(b);
      Follow(Take(b));
    }

    /** The transaction, with the lock released; nothing is written when nothing was copied. */
    method Write(commits: bool)
      requires Valid() && phase.Taken?
      modifies this, db
      ensures Valid() && !phase.Taken?
      ensures run == old(run) + [if old(phase.batch) == EMPTY_BATCH then Skip else if commits then Commit else Fail]
    {
      var b := phase.batch;
      if |b.peers| == 0 && |b.events| == 0 && |b.deletes| == 0 {
        phase := Idle;
        Follow(Skip);
        return;
      }
      var ok := db.BatchFlush(b.peers, b.events, b.deletes, commits);
      if ok {
        phase := Committed(b);
        Follow(Commit);
      } else {
        phase := Idle;
        Follow(Fail);
      }
    }

    /** The drain, under the lock again.  What was committed is still at the head of the queue. */
    method Finish()
      requires Valid() && phase.Committed?
      modifies this, cache
      ensures Valid() && phase.Idle? && run == old(run) + [Drain]
    {
      RunInv(boot, run);
      cache.DrainFlushed(phase.batch);
      phase := Idle;
      Follow(Drain);
    }

    /** The boot-time persist: all rows, no events, no deletes. */
    method Persist(commits: bool)
      requires Valid() && phase.Idle? && cache.pendingEvents == [] && cache.pendingDeletes == {}
      modifies this`run, db
      ensures Valid()
      ensures run == old(run) || (|run| == |old(run)| + 1 && run[..|old(run)|] == old(run) && run[|old(run)|].Seed?)
      ensures commits ==> run != old(run)
    {
      var peers := cache.Snapshot();
      var ok := db.BatchFlush(peers, [], [], commits);
      if ok {
        Follow(Seed(peers));
      }
    }

    /** Whatever happens next, if it can. */
    method Perform(action: Action)
      requires Valid()
      modifies this, cache, db
      ensures Valid()
    {
      match action
      case Operate(op) => if !op.Load? || cache.pendingDeletes == {} { Operate(op); }
      case Copy => if phase.Idle? { Copy(); }
      case Write(commits) => if phase.Taken? { Write(commits); }
      case Finish => if phase.Committed? { Finish(); }
      case Persist(commits) =>
        if phase.Idle? && cache.pendingEvents == [] && cache.pendingDeletes == {} { Persist(commits); }
    }

    /** Any script, in any interleaving, leaves the objects in a state of the machine: so there is a
        prefix of the operations so far whose outcome is what the database holds, nothing queued is
        lost or doubled, and no row is orphaned. */
    method PerformAll(script: seq<Action>) returns (ghost ops: seq<Op>, ghost cut: nat)
      requires Valid()
      modifies this, cache, db
      ensures Valid() && cut <= |ops| && Persisted(boot, db.Abs(), ops[..cut])
      ensures cache.peers == PeersRun(Scan(boot.rows), ops)
      ensures ExactlyOnce(boot, After(Boot(boot), run)) && NoOrphans(After(Boot(boot), run))
    {
      for i := 0 to |script|
        invariant Valid()
      {
        Perform(script[i]);
      }
      RunInv(boot, run);
      ops, cut := After(Boot(boot), run).ops, After(Boot(boot), run).cut;
    }
  }
}
