/** What some schedule can do to a request of the dispatcher: exactly which requests can panic, and
    exactly which can give up without having tried every peer they knew.  In both cases the bad
    schedule is built from the request's own steps and from other requests that each draw once. */
module DispatchSchedules {
  import opened PeerState
  import opened Text
  import opened Dispatcher

  // ---------------------------------------------------------------------------------------
  // Reaching one state from another.

  ghost predicate Leads(a: World, run: seq<Label>, b: World) {
    Legal(a, run) && After(a, run) == b
  }

  ghost predicate CanReach(a: World, b: World) {
    exists run :: Leads(a, run, b)
  }

  /** Reachable from a dispatcher that has just been started. */
  ghost predicate Reachable(w: World) {
    exists start :: Initial(start) && CanReach(start, w)
  }

  lemma Stay(a: World)
    ensures CanReach(a, a)
  {
    assert Leads(a, [], a);
  }

  lemma Go(a: World, l: Label)
    requires Enabled(a, l)
    ensures CanReach(a, Next(a, l))
  {
    assert [l][..0] == [];
    assert Legal(a, []) && After(a, []) == a;
    assert Leads(a, [l], Next(a, l));
  }

  lemma {:induction false} Join(a: World, x: seq<Label>, b: World, y: seq<Label>)
    requires Leads(a, x, b) && Legal(b, y)
    ensures Leads(a, x + y, After(b, y))
  {
    if y == [] {
      assert x + y == x;
    } else {
      Join(a, x, b, y[..|y| - 1]);
      assert (x + y)[..|x + y| - 1] == x + y[..|y| - 1];
    }
  }

  lemma Then(a: World, b: World, c: World)
    requires CanReach(a, b) && CanReach(b, c)
    ensures CanReach(a, c)
  {
    var x :| Leads(a, x, b);
    var y :| Leads(b, y, c);
    Join(a, x, b, y);
  }

  lemma NextKeepsIdentity(w: World, l: Label, id: nat)
    requires Enabled(w, l) && AllOk(w) && id in w.reqs
    ensures
      var w' := Next(w, l);
      && w'.self == w.self && id in w'.reqs
      && w'.reqs[id].peers == w.reqs[id].peers && w'.reqs[id].top == w.reqs[id].top
  {
    if l.Step? { StepDraws(w.self, w.shared, w.reqs[l.id], l.outcome); }
  }

  /** A request keeps the peers and the topology it arrived with. */
  lemma {:induction false} IdentityKept(a: World, run: seq<Label>, id: nat)
    requires AllOk(a) && Legal(a, run) && id in a.reqs
    ensures AllOk(After(a, run))
    ensures
      var r, reqs := a.reqs[id], After(a, run).reqs;
      id in reqs && reqs[id].peers == r.peers && reqs[id].top == r.top
  {
    if run != [] {
      var init, l := run[..|run| - 1], run[|run| - 1];
      IdentityKept(a, init, id);
      NextKeepsIdentity(After(a, init), l, id);
      NextKeepsRequests(After(a, init), l);
    }
  }

  /** Nobody the request drew was too short to abbreviate, unless it panicked. */
  ghost predicate DrewLong(r: Request) {
    r.pc.Panicked? || forall k :: k in r.picks ==> k < |r.peers| && !ShortID(r.peers[k])
  }

  ghost predicate AllDrewLong(w: World) {
    forall id :: id in w.reqs ==> DrewLong(w.reqs[id])
  }

  lemma StepDrawsLong(self: string, s: Shared, r: Request, o: Outcome)
    requires RequestOk(r) && Running(r) && DrewLong(r)
    ensures DrewLong(StepRequest(self, s, r, o).r)
  {
    StepDraws(self, s, r, o);
    if SplitPc(r) { SplitDraws(self, s, r, o); }
  }

  lemma {:induction false} RunKeepsAll(a: World, run: seq<Label>)
    requires AllOk(a) && AllDrewLong(a) && Legal(a, run)
    ensures AllOk(After(a, run)) && AllDrewLong(After(a, run))
  {
    if run != [] {
      var init, l := run[..|run| - 1], run[|run| - 1];
      RunKeepsAll(a, init);
      var w := After(a, init);
      NextKeepsRequests(w, l);
      if l.Step? { StepDrawsLong(w.self, w.shared, w.reqs[l.id], l.outcome); }
    }
  }

  lemma ReachableOk(w: World)
    requires Reachable(w)
    ensures AllOk(w) && AllDrewLong(w)
  {
    var start :| Initial(start) && CanReach(start, w);
    var run :| Leads(start, run, w);
    RunKeepsAll(start, run);
  }

  // ---------------------------------------------------------------------------------------
  // Driving one request while everything else stands still.

  /** The request that `Arrive` creates. */
  function Fresh(known: seq<GpuInfo>, self: string, top: Topology): Request {
    Request(Start, Candidates(known, self), top, 0, [])
  }

  /** `b` is `a` with request `id` at `r` and these shared fields; only the draws may be more. */
  ghost predicate Moved(a: World, b: World, id: nat, r: Request, s: Shared) {
    b.self == a.self && b.shared == s && b.reqs == a.reqs[id := r]
  }

  ghost predicate CanMove(a: World, id: nat, r: Request, s: Shared) {
    exists b :: CanReach(a, b) && Moved(a, b, id, r, s)
  }

  /** One step of request `id`, its exchange (if it makes one) failing. */
  lemma Move(a: World, id: nat, e: Effect)
    requires id in a.reqs && Running(a.reqs[id]) && PcOk(a.reqs[id])
    requires e == StepRequest(a.self, a.shared, a.reqs[id], Bad)
    ensures CanMove(a, id, e.r, e.shared)
  {
    Go(a, Step(id, Bad));
    assert Moved(a, Next(a, Step(id, Bad)), id, e.r, e.shared);
  }

  /** ... and one step more. */
  lemma MoveOn(a: World, id: nat, r: Request, s: Shared, e: Effect)
    requires CanMove(a, id, r, s) && Running(r) && PcOk(r) && e == StepRequest(a.self, s, r, Bad)
    ensures CanMove(a, id, e.r, e.shared)
  {
    var b :| CanReach(a, b) && Moved(a, b, id, r, s);
    var c := Next(b, Step(id, Bad));
    Go(b, Step(id, Bad));
    Then(a, b, c);
    assert Moved(a, c, id, e.r, e.shared);
  }

  /** From its arrival to its first draw, a PD-together request that knows a peer leaves the shared
      fields as they were when its local attempt fails. */
  lemma ReachPick(a: World, id: nat)
    requires id in a.reqs
    requires var r := a.reqs[id]; r.pc.Start? && TogetherMode(r.top) && r.peers != []
    ensures CanMove(a, id, a.reqs[id].(pc := Pick(1)), a.shared)
  {
    var r, s := a.reqs[id], a.shared;
    Move(a, id, Goto(s, r, FirstLoad));
    if s.ready {
      MoveOn(a, id, r.(pc := FirstLoad), s, Goto(s, r, Swap));
      FailLocally(a, id, r.(pc := Swap), s);
    } else {
      MoveOn(a, id, r.(pc := FirstLoad), s, Goto(s, r, SecondLoad));
      MoveOn(a, id, r.(pc := SecondLoad), s, Goto(s, r, Pick(1)));
    }
  }

  lemma FailLocally(a: World, id: nat, r: Request, s: Shared)
    requires CanMove(a, id, r, s) && r.pc.Swap? && s.ready && r.peers != []
    ensures CanMove(a, id, r.(pc := Pick(1)), s)
  {
    if s.busy {
      MoveOn(a, id, r, s, Goto(s, r, SecondLoad));
      MoveOn(a, id, r.(pc := SecondLoad), s, Goto(s, r, Pick(1)));
    } else {
      ThroughSlot(a, id, r, s);
    }
  }

  lemma ThroughSlot(a: World, id: nat, r: Request, s: Shared)
    requires CanMove(a, id, r, s) && r.pc.Swap? && s.ready && !s.busy
    ensures CanMove(a, id, r.(pc := Pick(1)), s)
  {
    var held, failed := s.(busy := true), SlotRelease(false, 0);
    MoveOn(a, id, r, s, Goto(held, r, SlotCheck));
    MoveOn(a, id, r.(pc := SlotCheck), held, Goto(held, r, SlotCall));
    MoveOn(a, id, r.(pc := SlotCall), held, Goto(held, r, failed));
    MoveOn(a, id, r.(pc := failed), held, Goto(s, r, Pick(1)));
  }

  /** The number of indices a request of this kind draws from. */
  function ListLength(peers: seq<string>, top: Topology): nat {
    if TogetherMode(top) then |peers| else if top.prefills == [] then 0 else |top.decodes|
  }

  /** Where a request makes its first draw. */
  function FirstDraw(top: Topology): PC {
    if TogetherMode(top) then Pick(1) else SplitPick(1)
  }

  /** A new request arrives and goes as far as its first draw. */
  lemma ArriveAndWait(a: World, id: nat, known: seq<GpuInfo>, top: Topology) returns (b: World)
    requires id !in a.reqs && ListLength(Candidates(known, a.self), top) > 0
    ensures CanReach(Next(a, Arrive(id, known, top)), b)
    ensures Moved(a, b, id, Fresh(known, a.self, top).(pc := FirstDraw(top)), a.shared)
  {
    var arrived, r := Next(a, Arrive(id, known, top)), Fresh(known, a.self, top);
    if TogetherMode(top) {
      ReachPick(arrived, id);
    } else {
      Move(arrived, id, Goto(a.shared, r, SplitPick(1)));
    }
    b :| CanReach(arrived, b) && Moved(arrived, b, id, r.(pc := FirstDraw(top)), a.shared);
  }

  // ---------------------------------------------------------------------------------------
  // Bystanders: other requests that draw one index each and then hang on their exchange.

  /** Same dispatcher and same fields, but for the index; every old request is where it was. */
  ghost predicate Stands(a: World, b: World, index: nat) {
    && CanReach(a, b) && b.self == a.self && b.shared == a.shared.(index := index)
    && forall id :: id in a.reqs ==> id in b.reqs && b.reqs[id] == a.reqs[id]
  }

  lemma StandsThen(a: World, b: World, i: nat, c: World, j: nat)
    requires Stands(a, b, i) && Stands(b, c, j)
    ensures Stands(a, c, j)
  {
    Then(a, b, c);
  }

  lemma {:induction false} Bound(ids: set<nat>) returns (n: nat)
    ensures forall k :: k in ids ==> k < n
  {
    n := 0;
    if ids != {} {
      var k :| k in ids;
      var m := Bound(ids - {k});
      n := if k < m then m else k + 1;
      assert forall j :: j in ids ==> j == k || j in ids - {k};
    }
  }

  lemma DrawEffect(self: string, s: Shared, r: Request)
    requires r.pc == FirstDraw(r.top) && ListLength(r.peers, r.top) > 0
    ensures StepRequest(self, s, r, Bad).shared == s.(index := (s.index + 1) % ListLength(r.peers, r.top))
  {}

  lemma BystanderDraws(a: World, known: seq<GpuInfo>, top: Topology) returns (b: World)
    requires ListLength(Candidates(known, a.self), top) > 0
    ensures Stands(a, b, (a.shared.index + 1) % ListLength(Candidates(known, a.self), top))
  {
    var id := Bound(a.reqs.Keys);
    Go(a, Arrive(id, known, top));
    var waiting := ArriveAndWait(a, id, known, top);
    Then(a, Next(a, Arrive(id, known, top)), waiting);
    b := NewcomerDraws(a, waiting, id, Fresh(known, a.self, top).(pc := FirstDraw(top)));
  }

  lemma NewcomerDraws(a: World, waiting: World, id: nat, r: Request) returns (b: World)
    requires CanReach(a, waiting) && Moved(a, waiting, id, r, a.shared) && id !in a.reqs
    requires r.pc == FirstDraw(r.top) && ListLength(r.peers, r.top) > 0
    ensures Stands(a, b, (a.shared.index + 1) % ListLength(r.peers, r.top))
  {
    DrawEffect(a.self, a.shared, r);
    Go(waiting, Step(id, Bad));
    b := Next(waiting, Step(id, Bad));
    Then(a, waiting, b);
  }

  /** Bystanders move an index that is within the list anywhere in it. */
  lemma {:induction false} ShiftTo(a: World, known: seq<GpuInfo>, top: Topology, target: nat) returns (b: World)
    requires target < ListLength(Candidates(known, a.self), top)
    requires a.shared.index < ListLength(Candidates(known, a.self), top)
    ensures Stands(a, b, target)
    decreases
      if a.shared.index <= target then target - a.shared.index
      else target + ListLength(Candidates(known, a.self), top) - a.shared.index
  {
    if a.shared.index == target {
      b := a;
      Stay(a);
    } else {
      var one := BystanderDraws(a, known, top);
      WrapOne(a.shared.index, ListLength(Candidates(known, a.self), top));
      b := ShiftTo(one, known, top, target);
      StandsThen(a, one, one.shared.index, b, target);
    }
  }

  /** Bystanders move the index to just before `target`, so that the next draw hits it. */
  lemma Aim(a: World, known: seq<GpuInfo>, top: Topology, target: nat) returns (b: World)
    requires target < ListLength(Candidates(known, a.self), top)
    ensures Stands(a, b, b.shared.index)
    ensures (b.shared.index + 1) % ListLength(Candidates(known, a.self), top) == target
  {
    var n := ListLength(Candidates(known, a.self), top);
    var one := BystanderDraws(a, known, top);
    var index := if target == 0 then n - 1 else target - 1;
    WrapOne(index, n);
    b := ShiftTo(one, known, top, index);
    StandsThen(a, one, one.shared.index, b, index);
  }

  // ---------------------------------------------------------------------------------------
  // Which requests can panic.

  ghost predicate PanicsIn(a: World, id: nat) {
    exists b :: CanReach(a, b) && id in b.reqs && b.reqs[id].pc.Panicked?
  }

  /** In any reachable state, the request that is about to arrive panics under some schedule if and
      only if it may have to abbreviate an ID of less than eight bytes: one of its peers in
      PD-together mode; the first prefill backend or one of the decode backends, with neither
      list empty, in the two-stage mode. */
  lemma PanicIff(w: World, id: nat, known: seq<GpuInfo>, top: Topology)
    requires Reachable(w) && Enabled(w, Arrive(id, known, top))
    ensures PanicsIn(Next(w, Arrive(id, known, top)), id) <==> CanPanic(Fresh(known, w.self, top))
  {
    var arrived := Next(w, Arrive(id, known, top));
    if CanPanic(Fresh(known, w.self, top)) {
      var b := PanicRun(w, id, known, top);
    }
    if b :| CanReach(arrived, b) && id in b.reqs && b.reqs[id].pc.Panicked? {
      ReachableOk(w);
      NextKeepsRequests(w, Arrive(id, known, top));
      var run :| Leads(arrived, run, b);
      IdentityKept(arrived, run, id);
    }
  }

  /** An index whose draw makes the request panic. */
  lemma ShortIndex(r: Request) returns (k: nat)
    requires CanPanic(r)
    ensures k < ListLength(r.peers, r.top)
    ensures TogetherMode(r.top) ==> ShortID(r.peers[k])
    ensures !TogetherMode(r.top) ==> ShortID(r.top.prefills[0]) || ShortID(r.top.decodes[k])
  {
    if TogetherMode(r.top) {
      k :| 0 <= k < |r.peers| && ShortID(r.peers[k]);
    } else if ShortID(r.top.prefills[0]) {
      k := 0;
    } else {
      k :| 0 <= k < |r.top.decodes| && ShortID(r.top.decodes[k]);
    }
  }

  lemma PanicRun(w: World, id: nat, known: seq<GpuInfo>, top: Topology) returns (b: World)
    requires id !in w.reqs && CanPanic(Fresh(known, w.self, top))
    ensures CanReach(Next(w, Arrive(id, known, top)), b) && id in b.reqs && b.reqs[id].pc.Panicked?
  {
    var arrived, r := Next(w, Arrive(id, known, top)), Fresh(known, w.self, top);
    var k := ShortIndex(r);
    var waiting := ArriveAndWait(w, id, known, top);
    var aimed := Aim(waiting, known, top, k);
    Then(arrived, waiting, aimed);
    DrawPanics(w.self, aimed.shared, r.(pc := FirstDraw(top)), k);
    Go(aimed, Step(id, Bad));
    b := Next(aimed, Step(id, Bad));
    Then(arrived, aimed, b);
  }

  lemma DrawPanics(self: string, s: Shared, r: Request, k: nat)
    requires r.pc == FirstDraw(r.top) && k < ListLength(r.peers, r.top)
    requires (s.index + 1) % ListLength(r.peers, r.top) == k
    requires TogetherMode(r.top) ==> ShortID(r.peers[k])
    requires !TogetherMode(r.top) ==> ShortID(r.top.prefills[0]) || ShortID(r.top.decodes[k])
    ensures StepRequest(self, s, r, Bad).r.pc.Panicked?
  {}

  /** A name of seven bytes is enough: from a dispatcher that has just been started, a request that
      knows only this peer reaches the panic, and its client gets no response. */
  lemma ShortNamePanics() returns (w: World, b: World)
    ensures Initial(w) && CanReach(w, b) && 0 in b.reqs && b.reqs[0].pc.Panicked? && b.reqs[0].written == 0
  {
    w := World("", Shared(false, false, 0), map[], []);
    var known, top := OneShortPeer();
    b := PanicRun(w, 0, known, top);
    Go(w, Arrive(0, known, top));
    Then(w, Next(w, Arrive(0, known, top)), b);
    PanickedWroteNothing(w, b, 0);
  }

  lemma OneShortPeer() returns (known: seq<GpuInfo>, top: Topology)
    ensures CanPanic(Fresh(known, "", top))
  {
    known := [GpuInfo("shorter", "", "", "", "", "", 0, 0, [], true)];
    top := Topology(true, [], []);
    assert known[..0] == [] && Candidates(known, "") == ["shorter"];
    SevenBytes();
    assert "shorter" in Fresh(known, "", top).peers;
  }

  lemma PanickedWroteNothing(w: World, b: World, id: nat)
    requires Initial(w) && CanReach(w, b) && id in b.reqs && b.reqs[id].pc.Panicked?
    ensures b.reqs[id].written == 0
  {
    ReachableOk(b);
  }

  lemma SevenBytes()
    ensures Utf8Length("shorter") == 7
  {
    assert "shorter"[1..] == "horter" && "horter"[1..] == "orter" && "orter"[1..] == "rter" && "rter"[1..] == "ter";
    assert "ter"[1..] == "er" && "er"[1..] == "r" && "r"[1..] == "";
  }

  // ---------------------------------------------------------------------------------------
  // Which requests can give up without having tried everybody.

  predicate Tried(r: Request, p: string) {
    exists k :: k in r.picks && k < |r.peers| && r.peers[k] == p
  }

  /** The request has given up with the dispatcher's own 502, some peer it knew never tried. */
  ghost predicate GaveUpUntried(r: Request) {
    r.pc == Done(Failed(502)) && exists p :: p in r.peers && !Tried(r, p)
  }

  ghost predicate MissesIn(a: World, id: nat) {
    exists b :: CanReach(a, b) && id in b.reqs && GaveUpUntried(b.reqs[id])
  }

  /** In any reachable state, the PD-together request that is about to arrive gives up under some
      schedule without having tried every peer it knew, if and only if it knows two different peers
      (one of them with an ID long enough to be abbreviated, or it would panic instead).  So "every
      known node is tried" holds under every schedule exactly for lists of at most one peer. */
  lemma MissesAPeerIff(w: World, id: nat, known: seq<GpuInfo>, top: Topology)
    requires Reachable(w) && Enabled(w, Arrive(id, known, top)) && TogetherMode(top)
    ensures MissesIn(Next(w, Arrive(id, known, top)), id) <==> TwoPeers(Candidates(known, w.self))
  {
    if TwoPeers(Candidates(known, w.self)) {
      SomeScheduleMisses(w, id, known, top);
    }
    if MissesIn(Next(w, Arrive(id, known, top)), id) {
      ReachableOk(w);
      UntriedKnowsTwo(Next(w, Arrive(id, known, top)), id);
    }
  }

  /** Two different peers, one of them with an ID long enough to be abbreviated. */
  ghost predicate TwoPeers(peers: seq<string>) {
    exists p, q :: p in peers && q in peers && Utf8Length(p) >= 8 && p != q
  }

  lemma SomeScheduleMisses(w: World, id: nat, known: seq<GpuInfo>, top: Topology)
    requires id !in w.reqs && TogetherMode(top) && TwoPeers(Candidates(known, w.self))
    ensures MissesIn(Next(w, Arrive(id, known, top)), id)
  {
    var peers := Candidates(known, w.self);
    var p, q :| p in peers && q in peers && !ShortID(p) && p != q;
    var j :| 0 <= j < |peers| && peers[j] == p;
    var b := OnlyEverTries(w, id, known, top, j);
    assert q in b.reqs[id].peers && !Tried(b.reqs[id], q);
  }

  lemma UntriedKnowsTwo(a: World, id: nat)
    requires AllOk(a) && AllDrewLong(a) && id in a.reqs && TogetherMode(a.reqs[id].top) && MissesIn(a, id)
    ensures TwoPeers(a.reqs[id].peers)
  {
    var b :| CanReach(a, b) && id in b.reqs && GaveUpUntried(b.reqs[id]);
    var run :| Leads(a, run, b);
    IdentityKept(a, run, id);
    RunKeepsAll(a, run);
    TriedTheFirst(b.reqs[id]);
  }

  lemma TriedTheFirst(r: Request)
    requires RequestOk(r) && DrewLong(r) && TogetherMode(r.top) && GaveUpUntried(r)
    ensures TwoPeers(r.peers)
  {
    var q :| q in r.peers && !Tried(r, q);
    var k := r.picks[0];
    assert k in r.picks && r.peers[k] in r.peers;
    assert !ShortID(r.peers[k]) && r.peers[k] != q;
  }

  /** The schedule: bystanders draw between the request's own draws so that each of those hits the
      same peer. */
  lemma OnlyEverTries(w: World, id: nat, known: seq<GpuInfo>, top: Topology, j: nat) returns (b: World)
    requires id !in w.reqs && TogetherMode(top)
    requires j < |Candidates(known, w.self)| && !ShortID(Candidates(known, w.self)[j])
    ensures CanReach(Next(w, Arrive(id, known, top)), b) && id in b.reqs
    ensures
      var r := b.reqs[id];
      r.pc == Done(Failed(502)) && r.peers == Candidates(known, w.self) && forall k :: k in r.picks ==> k == j
  {
    var arrived, r := Next(w, Arrive(id, known, top)), Fresh(known, w.self, top).(pc := Pick(1));
    var waiting := ArriveAndWait(w, id, known, top);
    var tried, picks := Rounds(waiting, id, r, known, top, j, PeerAttempts(|r.peers|));
    Then(arrived, waiting, tried);
    b := LastStand(tried, id);
    Then(arrived, tried, b);
  }

  /** Attempt by attempt. */
  lemma {:induction false} Rounds(a: World, id: nat, r: Request, known: seq<GpuInfo>, top: Topology, j: nat, k: nat)
    returns (b: World, picks: seq<nat>)
    requires id in a.reqs && a.reqs[id] == r && r.pc == Pick(1) && r.picks == [] && TogetherMode(top)
    requires r.peers == Candidates(known, a.self) && j < |r.peers| && !ShortID(r.peers[j])
    requires TogetherMode(r.top) && k <= PeerAttempts(|r.peers|)
    ensures CanReach(a, b) && b.self == a.self && id in b.reqs
    ensures b.reqs[id] == r.(pc := Pick(k + 1), picks := picks)
    ensures forall i :: i in picks ==> i == j
  {
    if k == 0 {
      b, picks := a, [];
      Stay(a);
    } else {
      var before;
      before, picks := Rounds(a, id, r, known, top, j, k - 1);
      b := OneRound(before, id, before.reqs[id], known, top, j);
      Then(a, before, b);
      picks := picks + [j];
    }
  }

  lemma OneRound(a: World, id: nat, r: Request, known: seq<GpuInfo>, top: Topology, j: nat) returns (b: World)
    requires id in a.reqs && a.reqs[id] == r && r.pc.Pick? && r.pc.attempt <= PeerAttempts(|r.peers|)
    requires TogetherMode(top) && r.peers == Candidates(known, a.self) && j < |r.peers| && !ShortID(r.peers[j])
    ensures CanReach(a, b) && b.self == a.self && id in b.reqs
    ensures b.reqs[id] == r.(pc := Pick(r.pc.attempt + 1), picks := r.picks + [j])
  {
    var aimed := Aim(a, known, top, j);
    b := HitAndMiss(aimed, id, r, j);
    Then(a, aimed, b);
  }

  lemma HitAndMiss(a: World, id: nat, r: Request, j: nat) returns (b: World)
    requires id in a.reqs && a.reqs[id] == r && r.pc.Pick? && r.pc.attempt <= PeerAttempts(|r.peers|)
    requires j < |r.peers| && !ShortID(r.peers[j]) && (a.shared.index + 1) % |r.peers| == j
    ensures CanReach(a, b) && b.self == a.self && id in b.reqs
    ensures b.reqs[id] == r.(pc := Pick(r.pc.attempt + 1), picks := r.picks + [j])
  {
    var drawn, s := r.(pc := Remote(r.pc.attempt), picks := r.picks + [j]), a.shared.(index := j);
    Move(a, id, Effect(s, drawn, Some(|r.peers|)));
    MoveOn(a, id, drawn, s, Goto(s, drawn, Pick(r.pc.attempt + 1)));
    b :| CanReach(a, b) && Moved(a, b, id, drawn.(pc := Pick(r.pc.attempt + 1)), s);
  }

  /** All attempts made: the local last resort fails as well. */
  lemma LastStand(a: World, id: nat) returns (b: World)
    requires id in a.reqs
    requires var r := a.reqs[id]; r.pc.Pick? && r.pc.attempt == PeerAttempts(|r.peers|) + 1
    ensures CanReach(a, b) && id in b.reqs
    ensures var r := a.reqs[id]; b.reqs[id] == r.(pc := Done(Failed(502)), written := r.written + 1)
  {
    var r, s := a.reqs[id], a.shared;
    Move(a, id, Goto(s, r, FinalLoad));
    FailAtLast(a, id, r.(pc := FinalLoad), s);
    assert GiveUp(s, r.(pc := FinalLoad)).r == GiveUp(s, r).r;
    b :| CanReach(a, b) && Moved(a, b, id, GiveUp(s, r).r, s);
  }

  lemma FailAtLast(a: World, id: nat, r: Request, s: Shared)
    requires CanMove(a, id, r, s) && r.pc.FinalLoad?
    ensures CanMove(a, id, GiveUp(s, r).r, s)
  {
    if s.ready {
      MoveOn(a, id, r, s, Goto(s, r, FinalCheck));
      MoveOn(a, id, r.(pc := FinalCheck), s, Goto(s, r, FinalCall));
      MoveOn(a, id, r.(pc := FinalCall), s, GiveUp(s, r));
    } else {
      MoveOn(a, id, r, s, GiveUp(s, r));
    }
  }
}
