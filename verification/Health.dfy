/** The ping health machine (pingOnePeer in server_p2p.go): stored health is a function of the
    peer's ping history, and the audit log replays to it. */
module Health {
  import opened PeerState
  import BootMerge

  const FAIL_INCREMENT := "FAIL_INCREMENT"
  const RECOVERED_PENALTY := "RECOVERED_PENALTY"
  const WARNING_OFFLINE := "WARNING_OFFLINE"

  /** server_mode.max_fail_count, with its default. */
  function Limit(configured: int): (m: int)
    ensures m >= 1
  {
    if configured <= 0 then 3 else configured
  }

  /** The cache operations one health check issues, from the row it was handed. */
  function PingOps(p: PeerData, ok: bool, limit: int, now: string): seq<Op> {
    if ok then
      [Ping(p.peerID, "OK")] +
      (if p.failCount > 0 then
         [Health(p.peerID, 0, p.penaltyPoints + 1),
          Event(PeerEvent(p.peerID, p.ipAddress, RECOVERED_PENALTY, 0, p.penaltyPoints + 1, now, ""))]
       else [])
    else if p.failCount + 1 >= limit then
      [Event(PeerEvent(p.peerID, p.ipAddress, WARNING_OFFLINE, p.failCount + 1, p.penaltyPoints, now, ""))]
    else
      [Health(p.peerID, p.failCount + 1, p.penaltyPoints),
       Event(PeerEvent(p.peerID, p.ipAddress, FAIL_INCREMENT, p.failCount + 1, p.penaltyPoints, now, ""))]
  }

  /** A completed health check of the peer under study, or anything else that happens to the cache. */
  datatype Step = Probe(ok: bool, now: string) | Other(op: Op)

  predicate Replayed(e: PeerEvent, id: string) {
    e.peerID == id && (e.eventType == FAIL_INCREMENT || e.eventType == RECOVERED_PENALTY)
  }

  /** Other traffic neither removes the peer nor impersonates its health checks. */
  predicate Unrelated(op: Op, id: string) {
    && op != Remove(id)
    && !(op.Health? && op.id == id)
    && !(op.Event? && Replayed(op.event, id))
  }

  /** The operations of a history, each check reading the row the previous steps left. */
  function OpsOf(m: PeerMap, steps: seq<Step>, id: string, limit: int): seq<Op> {
    if steps == [] then []
    else
      var before := OpsOf(m, steps[..|steps| - 1], id, limit);
      before + match steps[|steps| - 1]
        case Other(op) => [op]
        case Probe(ok, now) =>
          var m' := PeersRun(m, before);
          if id in m' then PingOps(m'[id], ok, limit, now) else []
  }

  /** Failed checks since the last successful one. */
  function TrailingFailures(steps: seq<Step>): nat {
    if steps == [] then 0
    else
      match steps[|steps| - 1]
      case Other(_) => TrailingFailures(steps[..|steps| - 1])
      case Probe(ok, _) => if ok then 0 else TrailingFailures(steps[..|steps| - 1]) + 1
  }

  /** Successful checks that end a run of failures. */
  function Recoveries(steps: seq<Step>): nat {
    if steps == [] then 0
    else
      var init := steps[..|steps| - 1];
      var step := steps[|steps| - 1];
      Recoveries(init) + if step.Probe? && step.ok && TrailingFailures(init) > 0 then 1 else 0
  }

  function Least(a: int, b: int): int {
    if a < b then a else b
  }

  /** The pair the audit log says is stored. */
  function Replay(events: seq<PeerEvent>, id: string, start: (int, int)): (int, int) {
    if events == [] then start
    else
      var e := events[|events| - 1];
      if Replayed(e, id) then (e.failCount, e.penaltyPoints)
      else Replay(events[..|events| - 1], id, start)
  }

  ghost predicate StoredHealth(m: PeerMap, id: string, fail: int, penalty: int) {
    id in m && m[id].peerID == id && m[id].failCount == fail && m[id].penaltyPoints == penalty
  }

  lemma OtherKeepsHealth(m: PeerMap, op: Op, id: string, fail: int, penalty: int)
    requires Keyed(m) && StoredHealth(m, id, fail, penalty) && Unrelated(op, id)
    ensures StoredHealth(PeersAfter(m, op), id, fail, penalty)
  {
    if op.Load? { BootMerge.LoadKeepsKnown(m, op.peers, id); }
  }

  /** What one check stores. */
  lemma ProbeStores(m: PeerMap, id: string, ok: bool, limit: int, now: string)
    requires id in m && m[id].peerID == id
    ensures
      var p := m[id];
      var ops := PingOps(p, ok, limit, now);
      var fail := if ok then (if p.failCount > 0 then 0 else p.failCount)
                  else if p.failCount + 1 >= limit then p.failCount else p.failCount + 1;
      var penalty := if ok && p.failCount > 0 then p.penaltyPoints + 1 else p.penaltyPoints;
      && StoredHealth(PeersRun(m, ops), id, fail, penalty)
      && Replay(EventsOf(ops), id, (p.failCount, p.penaltyPoints)) == (fail, penalty)
  {
    var p := m[id];
    var ops := PingOps(p, ok, limit, now);
    if ok && p.failCount > 0 {
      RunTwo(m, ops[0], ops[1]);
      assert ops == [ops[0], ops[1]] + [ops[2]];
      RunSnoc(m, [ops[0], ops[1]], ops[2]);
    } else if !ok && p.failCount + 1 < limit {
      RunTwo(m, ops[0], ops[1]);
    } else {
      assert ops == [] + [ops[0]];
      RunSnoc(m, [], ops[0]);
    }
  }

  lemma {:induction false} ReplayAppend(a: seq<PeerEvent>, b: seq<PeerEvent>, id: string, start: (int, int))
    ensures Replay(a + b, id, start) == Replay(b, id, Replay(a, id, start))
  {
    if b == [] {
      assert a + b == a;
    } else {
      assert (a + b)[..|a + b| - 1] == a + b[..|b| - 1];
      ReplayAppend(a, b[..|b| - 1], id, start);
    }
  }

  /** Stored pair and replayed log are both what the ping history says. */
  ghost predicate Explained(m: PeerMap, events: seq<PeerEvent>, id: string, steps: seq<Step>,
                            limit: int, penalty: int) {
    var fail := Least(TrailingFailures(steps), limit - 1);
    var earned := if limit > 1 then Recoveries(steps) else 0;
    && StoredHealth(m, id, fail, penalty + earned)
    && Replay(events, id, (0, penalty)) == (fail, penalty + earned)
  }

  lemma ProbeExplained(m: PeerMap, events: seq<PeerEvent>, id: string, steps: seq<Step>, limit: int, penalty: int,
                       ok: bool, now: string)
    requires limit >= 1 && Explained(m, events, id, steps, limit, penalty)
    ensures
      var ops := PingOps(m[id], ok, limit, now);
      Explained(PeersRun(m, ops), events + EventsOf(ops), id, steps + [Probe(ok, now)], limit, penalty)
  {
    var ops := PingOps(m[id], ok, limit, now);
    ProbeStores(m, id, ok, limit, now);
    ReplayAppend(events, EventsOf(ops), id, (0, penalty));
    assert (steps + [Probe(ok, now)])[..|steps|] == steps;
  }

  lemma OtherExplained(m: PeerMap, events: seq<PeerEvent>, id: string, steps: seq<Step>,
                       limit: int, penalty: int, op: Op)
    requires Keyed(m) && Unrelated(op, id) && Explained(m, events, id, steps, limit, penalty)
    ensures Explained(PeersAfter(m, op), EventsAfter(events, op), id, steps + [Other(op)], limit, penalty)
  {
    OtherKeepsHealth(m, op, id, m[id].failCount, m[id].penaltyPoints);
    assert (steps + [Other(op)])[..|steps|] == steps;
  }

  /** With serial checks, no removal and a zero starting fail count: the stored fail count is
      min(trailing failures, limit - 1) and so never reaches the limit; the penalty has grown by
      one per recovery (by none when the limit is one, since then no failure is ever recorded);
      and replaying the audit log reproduces the stored pair. */
  lemma {:induction false} HealthIsHistory(m: PeerMap, steps: seq<Step>, id: string, limit: int, penalty: int)
    requires limit >= 1 && Keyed(m) && StoredHealth(m, id, 0, penalty)
    requires forall s :: s in steps && s.Other? ==> Unrelated(s.op, id)
    ensures
      var ops := OpsOf(m, steps, id, limit);
      && Least(TrailingFailures(steps), limit - 1) < limit
      && Explained(PeersRun(m, ops), EventsOf(ops), id, steps, limit, penalty)
  {
    if steps != [] {
      var init, step := steps[..|steps| - 1], steps[|steps| - 1];
      HealthIsHistory(m, init, id, limit, penalty);
      var before := OpsOf(m, init, id, limit);
      var m', events := PeersRun(m, before), EventsOf(before);
      KeyedRun(m, before);
      assert steps == init + [step];
      match step
      case Other(op) =>
        assert Unrelated(op, id) by { assert step in steps; }
        RunSnoc(m, before, op);
        OtherExplained(m', events, id, init, limit, penalty, op);
      case Probe(ok, now) =>
        RunAppend(m, before, PingOps(m'[id], ok, limit, now));
        ProbeExplained(m', events, id, init, limit, penalty, ok, now);
    }
  }

  // ---------------------------------------------------------------------------------------
  // Two checks of one peer that overlap: both were handed the row as it was before either.

  function StoredPair(p: PeerData): (int, int) {
    (p.failCount, p.penaltyPoints)
  }

  /** What a check that was handed the row `p` makes of the stored pair. */
  function Handed(p: PeerData, ok: bool, limit: int, stored: (int, int)): (int, int) {
    if ok then (if p.failCount > 0 then (0, p.penaltyPoints + 1) else stored)
    else if p.failCount + 1 >= limit then stored
    else (p.failCount + 1, p.penaltyPoints)
  }

  lemma CheckStores(m: PeerMap, p: PeerData, ok: bool, limit: int, now: string)
    requires p.peerID in m
    ensures
      var m' := PeersRun(m, PingOps(p, ok, limit, now));
      && p.peerID in m' && m'[p.peerID].peerID == m[p.peerID].peerID
      && StoredPair(m'[p.peerID]) == Handed(p, ok, limit, StoredPair(m[p.peerID]))
  {
    if ok { SuccessStores(m, p, limit, now); } else { FailureStores(m, p, limit, now); }
  }

  lemma SuccessStores(m: PeerMap, p: PeerData, limit: int, now: string)
    requires p.peerID in m
    ensures
      var m' := PeersRun(m, PingOps(p, true, limit, now));
      && p.peerID in m' && m'[p.peerID].peerID == m[p.peerID].peerID
      && StoredPair(m'[p.peerID]) == Handed(p, true, limit, StoredPair(m[p.peerID]))
  {
    var ops := PingOps(p, true, limit, now);
    if p.failCount > 0 {
      RunTwo(m, ops[0], ops[1]);
      assert ops == [ops[0], ops[1]] + [ops[2]];
      RunSnoc(m, [ops[0], ops[1]], ops[2]);
    } else {
      assert ops == [] + [ops[0]];
      RunSnoc(m, [], ops[0]);
    }
  }

  lemma FailureStores(m: PeerMap, p: PeerData, limit: int, now: string)
    requires p.peerID in m
    ensures
      var m' := PeersRun(m, PingOps(p, false, limit, now));
      && p.peerID in m' && m'[p.peerID].peerID == m[p.peerID].peerID
      && StoredPair(m'[p.peerID]) == Handed(p, false, limit, StoredPair(m[p.peerID]))
  {
    var ops := PingOps(p, false, limit, now);
    if p.failCount + 1 < limit {
      RunTwo(m, ops[0], ops[1]);
    } else {
      assert ops == [] + [ops[0]];
      RunSnoc(m, [], ops[0]);
    }
  }

  /** When the overlap loses nothing, by the two outcomes in the order in which they are stored.  Two
      successes never do harm.  Two failures lose a count unless the second would not have been
      recorded anyway.  A failure after a success brings back the count and takes away the penalty
      point, unless there was no failure to recover from (or failures are never recorded).  A
      success after a failure misses it exactly when it was the first of its kind. */
  predicate OverlapHarmless(fail: int, limit: int, first: bool, second: bool) {
    match (first, second)
    case (true, true) => true
    case (false, false) => fail + 2 >= limit
    case (true, false) => fail <= 0 || limit <= 1
    case (false, true) => fail != 0 || fail + 1 >= limit
  }

  /** Two overlapping checks store the pair that running them one after the other would have stored,
      if and only if the overlap is harmless. */
  lemma OverlappedChecksIff(m: PeerMap, id: string, first: bool, second: bool, limit: int,
                            now: string, later: string)
    requires id in m && m[id].peerID == id
    ensures
      var once := PeersRun(m, PingOps(m[id], first, limit, now));
      && id in once
      && var overlapped := PeersRun(once, PingOps(m[id], second, limit, later));
         var serial := PeersRun(once, PingOps(once[id], second, limit, later));
         && id in overlapped && id in serial
         && (StoredPair(overlapped[id]) == StoredPair(serial[id])
             <==> OverlapHarmless(m[id].failCount, limit, first, second))
  {
    var once := PeersRun(m, PingOps(m[id], first, limit, now));
    CheckStores(m, m[id], first, limit, now);
    CheckStores(once, m[id], second, limit, later);
    CheckStores(once, once[id], second, limit, later);
  }
}
