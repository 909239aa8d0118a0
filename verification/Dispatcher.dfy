/** The local-first dispatcher (proxy.go) as a concurrent protocol.  Each request is a program
    counter; every step is one atomic access of the shared fields or one call whose outcome the
    environment picks.  Steps of different requests interleave freely. */
module Dispatcher {
  import opened PeerState
  import opened Ranking
  import Text

  const MAX_RETRIES: nat := 3

  /** The topology snapshot a request reads when it starts. */
  datatype Topology = Topology(together: bool, prefills: seq<string>, decodes: seq<string>)

  /** How an HTTP exchange ends: with a response, without one, or without reaching vLLM at all. */
  datatype Outcome = Good(status: int) | Bad | Unreachable

  datatype Reply =
    | Early(status: int)    // answered before any dispatch
    | Piped(status: int)    // somebody's answer, passed on
    | Failed(status: int)   // the dispatcher's own error

  /** Where a request is.  Slot*, Queue* and Final* are the three local calls of the PD-together
      mode, each a readiness check and then the call. */
  datatype PC =
    | Start | FirstLoad | Swap | SecondLoad
    | SlotCheck | SlotCall | SlotRelease(answered: bool, status: int)
    | QueueCheck | QueueCall
    | Pick(attempt: nat) | Remote(attempt: nat)
    | FinalLoad | FinalCheck | FinalCall
    | SplitPick(attempt: nat)
    | PrefillCheck(attempt: nat, decode: nat) | PrefillCall(attempt: nat, decode: nat)
    | DecodeCheck(attempt: nat, decode: nat) | DecodeCall(attempt: nat, decode: nat)
    | LocalCheck(failure: int) | LocalCall(failure: int)
    | Done(reply: Reply)
    | Panicked

  /** `written` counts responses written to the client and `picks` lists the round-robin indices
      drawn in PD-together mode. */
  datatype Request = Request(pc: PC, peers: seq<string>, top: Topology, written: nat, picks: seq<nat>)

  datatype Draw = Draw(id: nat, n: nat, index: nat)

  /** The dispatcher's shared fields: vllmReady, localBusy and decodeIndex. */
  datatype Shared = Shared(ready: bool, busy: bool, index: nat)

  datatype World = World(self: string, shared: Shared, reqs: map<nat, Request>, draws: seq<Draw>)

  datatype Label =
    | Arrive(id: nat, known: seq<GpuInfo>, top: Topology)
    | Step(id: nat, outcome: Outcome)
    | HealthOk

  /** Peers worth dispatching to: not this node, not relay-only, not GPU-less. */
  predicate Dispatchable(info: GpuInfo, self: string) {
    && info.nodeID != "" && info.nodeID != self
    && info.role != ROLE_RELAY && info.summary != NO_GPU
  }

  function Candidates(known: seq<GpuInfo>, self: string): seq<string> {
    if known == [] then []
    else
      var last := known[|known| - 1];
      Candidates(known[..|known| - 1], self) + if Dispatchable(last, self) then [last.nodeID] else []
  }

  /** At least three remote attempts, and at least one per peer. */
  function PeerAttempts(n: nat): nat {
    if n > MAX_RETRIES then n else MAX_RETRIES
  }

  predicate TogetherMode(top: Topology) {
    top.together || (top.prefills == [] && top.decodes == [])
  }

  /** Log lines slice the first eight bytes of a peer ID; a shorter one panics the handler. */
  predicate ShortID(id: string) {
    Text.Utf8Length(id) < 8
  }

  /** Some ID that the request's mode may have to abbreviate is too short for it. */
  ghost predicate CanPanic(r: Request) {
    if r.top.together || (r.top.prefills == [] && r.top.decodes == []) then
      exists id :: id in r.peers && Text.Utf8Length(id) < 8
    else
      && r.top.prefills != [] && r.top.decodes != []
      && (Text.Utf8Length(r.top.prefills[0]) < 8 || exists id :: id in r.top.decodes && Text.Utf8Length(id) < 8)
  }

  predicate Running(r: Request) {
    !r.pc.Done? && !r.pc.Panicked?
  }

  predicate InSlot(r: Request) {
    r.pc.SlotCheck? || r.pc.SlotCall? || r.pc.SlotRelease?
  }

  /** What one atomic step leaves behind; `drew` is the list length when it drew an index. */
  datatype Effect = Effect(shared: Shared, r: Request, drew: Option<nat>)

  function Goto(s: Shared, r: Request, pc: PC): Effect {
    Effect(s, r.(pc := pc), None)
  }

  /** Write a response to the client and go on to `pc`. */
  function Write(s: Shared, r: Request, pc: PC): Effect {
    Effect(s, r.(pc := pc, written := r.written + 1), None)
  }

  /** The last resort did not answer: the dispatcher's own 502. */
  function GiveUp(s: Shared, r: Request): Effect {
    Write(s, r, Done(Failed(502)))
  }

  /** A vLLM that cannot be reached loses its readiness. */
  function Demote(s: Shared, o: Outcome): Shared {
    if o.Unreachable? then s.(ready := false) else s
  }

  function Draw1(s: Shared, n: nat): Shared
    requires n > 0
  {
    s.(index := (s.index + 1) % n)
  }

  predicate PcOk(r: Request) {
    && (r.pc.PrefillCheck? || r.pc.PrefillCall? || r.pc.DecodeCheck? || r.pc.DecodeCall? ==>
          r.top.prefills != [] && r.pc.decode < |r.top.decodes|)
  }

  function TogetherStep(s: Shared, r: Request, o: Outcome): Effect
    requires TogetherPc(r)
  {
    match r.pc
    case FirstLoad => Goto(s, r, if s.ready then Swap else SecondLoad)
    case Swap => if s.busy then Goto(s, r, SecondLoad) else Goto(s.(busy := true), r, SlotCheck)
    case SlotCheck => Goto(s, r, if s.ready then SlotCall else SlotRelease(false, 0))
    case SlotCall =>
      if o.Good? then Write(s, r, SlotRelease(true, o.status)) else Goto(Demote(s, o), r, SlotRelease(false, 0))
    case SlotRelease(answered, status) =>
      Goto(s.(busy := false), r, if answered then Done(Piped(status)) else Pick(1))
    case SecondLoad => Goto(s, r, if s.ready && r.peers == [] then QueueCheck else Pick(1))
    case QueueCheck => Goto(s, r, if s.ready then QueueCall else Pick(1))
    case QueueCall =>
      if o.Good? then Write(s, r, Done(Piped(o.status))) else Goto(Demote(s, o), r, Pick(1))
    case Pick(attempt) =>
      if attempt > PeerAttempts(|r.peers|) then Goto(s, r, FinalLoad)
      else if r.peers == [] then Goto(s, r, Pick(attempt + 1))
      else
        var s' := Draw1(s, |r.peers|);
        var pc := if ShortID(r.peers[s'.index]) then Panicked else Remote(attempt);
        Effect(s', r.(pc := pc, picks := r.picks + [s'.index]), Some(|r.peers|))
    case Remote(attempt) =>
      if o.Good? && o.status < 500 then Write(s, r, Done(Piped(o.status))) else Goto(s, r, Pick(attempt + 1))
    case FinalLoad => if s.ready then Goto(s, r, FinalCheck) else GiveUp(s, r)
    case FinalCheck => if s.ready then Goto(s, r, FinalCall) else GiveUp(s, r)
    case FinalCall => if o.Good? then Write(s, r, Done(Piped(o.status))) else GiveUp(Demote(s, o), r)
  }

  /** A stage whose backend is this node checks readiness first. */
  function StageCheck(s: Shared, r: Request, local: bool, call: PC, retry: PC): Effect {
    Goto(s, r, if local && !s.ready then retry else call)
  }

  function StageFails(s: Shared, r: Request, local: bool, o: Outcome, retry: PC): Effect {
    Goto(if local then Demote(s, o) else s, r, retry)
  }

  function SplitStep(self: string, s: Shared, r: Request, o: Outcome): Effect
    requires SplitPc(r) && PcOk(r)
  {
    match r.pc
    case SplitPick(attempt) =>
      if attempt > MAX_RETRIES then Goto(s, r, LocalCheck(502))
      else if r.top.prefills == [] || r.top.decodes == [] then Goto(s, r, LocalCheck(503))
      else
        var s' := Draw1(s, |r.top.decodes|);
        var panics := ShortID(r.top.prefills[0]) || ShortID(r.top.decodes[s'.index]);
        Effect(s', r.(pc := if panics then Panicked else PrefillCheck(attempt, s'.index)), Some(|r.top.decodes|))
    case PrefillCheck(attempt, d) =>
      StageCheck(s, r, r.top.prefills[0] == self, PrefillCall(attempt, d), SplitPick(attempt + 1))
    case PrefillCall(attempt, d) =>
      if o.Good? then Goto(s, r, DecodeCheck(attempt, d))
      else StageFails(s, r, r.top.prefills[0] == self, o, SplitPick(attempt + 1))
    case DecodeCheck(attempt, d) =>
      StageCheck(s, r, r.top.decodes[d] == self, DecodeCall(attempt, d), SplitPick(attempt + 1))
    case DecodeCall(attempt, d) =>
      if o.Good? then Write(s, r, Done(Piped(200)))
      else StageFails(s, r, r.top.decodes[d] == self, o, SplitPick(attempt + 1))
    case LocalCheck(failure) =>
      if s.ready then Goto(s, r, LocalCall(failure)) else Write(s, r, Done(Failed(failure)))
    case LocalCall(failure) =>
      if o.Good? then Write(s, r, Done(Piped(200))) else Write(Demote(s, o), r, Done(Failed(failure)))
  }

  /** One step of one request. */
  function StepRequest(self: string, s: Shared, r: Request, o: Outcome): Effect
    requires Running(r) && PcOk(r)
  {
    if r.pc.Start? then
      if o.Good? then Write(s, r, Done(Early(o.status)))
      else Goto(s, r, if TogetherMode(r.top) then FirstLoad else SplitPick(1))
    else if SplitPc(r) then SplitStep(self, s, r, o)
    else TogetherStep(s, r, o)
  }

  predicate Enabled(w: World, l: Label) {
    match l
    case Arrive(id, _, _) => id !in w.reqs
    case Step(id, _) => id in w.reqs && Running(w.reqs[id]) && PcOk(w.reqs[id])
    case HealthOk => true
  }

  function Next(w: World, l: Label): World
    requires Enabled(w, l)
  {
    match l
    case Arrive(id, known, top) =>
      w.(reqs := w.reqs[id := Request(Start, Candidates(known, w.self), top, 0, [])])
    case Step(id, o) =>
      var e := StepRequest(w.self, w.shared, w.reqs[id], o);
      World(w.self, e.shared, w.reqs[id := e.r],
            if e.drew.Some? then w.draws + [Draw(id, e.drew.value, e.shared.index)] else w.draws)
    case HealthOk => w.(shared := w.shared.(ready := true))
  }

  ghost predicate Initial(w: World) {
    !w.shared.busy && w.reqs == map[] && w.draws == []
  }

  predicate Legal(w: World, run: seq<Label>)
    decreases |run|, 0
  {
    run == [] || (Legal(w, run[..|run| - 1]) && Enabled(After(w, run[..|run| - 1]), run[|run| - 1]))
  }

  function After(w: World, run: seq<Label>): World
    requires Legal(w, run)
    decreases |run|, 1
  {
    if run == [] then w else Next(After(w, run[..|run| - 1]), run[|run| - 1])
  }

  // ---------------------------------------------------------------------------------------
  // Invariant: the slot.

  /** The slot is taken exactly when some request is inside, and never by two. */
  ghost predicate SlotHeldOnce(w: World) {
    && (w.shared.busy <==> exists id :: id in w.reqs && InSlot(w.reqs[id]))
    && (forall a, b :: a in w.reqs && b in w.reqs && InSlot(w.reqs[a]) && InSlot(w.reqs[b]) ==> a == b)
  }

  // Invariant: what a single request has written and drawn.

  ghost predicate RequestOk(r: Request) {
    && PcOk(r)
    && r.written == (if r.pc.Done? || (r.pc.SlotRelease? && r.pc.answered) then 1 else 0)
    && (forall i :: 0 <= i < |r.picks| ==> r.picks[i] < |r.peers|)
    && PicksOk(r)
    && (SplitPc(r) ==> !TogetherMode(r.top) && SplitAttemptOk(r))
    && (TogetherPc(r) ==> TogetherMode(r.top))
    && (r.pc.Panicked? ==> CanPanic(r))
    && (r.pc.Done? && r.pc.reply.Failed? && TogetherMode(r.top) ==>
          r.pc.reply.status == 502 && Exhausted(r))
  }

  /** How many indices a PD-together request has drawn, by where it is. */
  predicate PicksOk(r: Request) {
    var a := PeerAttempts(|r.peers|);
    match r.pc
    case Pick(k) => 1 <= k <= a + 1 && (if r.peers == [] then r.picks == [] else |r.picks| == k - 1)
    case Remote(k) => 1 <= k <= a && |r.picks| == k && r.peers != []
    case FinalLoad => Exhausted(r)
    case FinalCheck => Exhausted(r)
    case FinalCall => Exhausted(r)
    case Done(_) => true
    case Panicked => true
    case _ => r.picks == []
  }

  predicate SplitAttemptOk(r: Request) {
    match r.pc
    case SplitPick(k) => 1 <= k <= MAX_RETRIES + 1
    case PrefillCheck(k, _) => 1 <= k <= MAX_RETRIES
    case PrefillCall(k, _) => 1 <= k <= MAX_RETRIES
    case DecodeCheck(k, _) => 1 <= k <= MAX_RETRIES
    case DecodeCall(k, _) => 1 <= k <= MAX_RETRIES
    case _ => true
  }

  /** Every remote attempt was made, or there was nobody to try. */
  predicate Exhausted(r: Request) {
    r.peers == [] || |r.picks| == PeerAttempts(|r.peers|)
  }

  predicate SplitPc(r: Request) {
    r.pc.SplitPick? || r.pc.PrefillCheck? || r.pc.PrefillCall? || r.pc.DecodeCheck? || r.pc.DecodeCall?
    || r.pc.LocalCheck? || r.pc.LocalCall?
  }

  predicate TogetherPc(r: Request) {
    Running(r) && !r.pc.Start? && !SplitPc(r)
  }

  ghost predicate AllOk(w: World) {
    forall id :: id in w.reqs ==> RequestOk(w.reqs[id])
  }

  lemma StartKeepsRequest(self: string, s: Shared, r: Request, o: Outcome)
    requires RequestOk(r) && r.pc.Start?
    ensures RequestOk(StepRequest(self, s, r, o).r)
  {}

  /** The part of the PD-together mode that comes before any draw. */
  lemma LocalKeepsRequest(s: Shared, r: Request, o: Outcome)
    requires RequestOk(r) && TogetherPc(r)
    requires !r.pc.Pick? && !r.pc.Remote? && !r.pc.FinalLoad? && !r.pc.FinalCheck? && !r.pc.FinalCall?
    ensures RequestOk(TogetherStep(s, r, o).r)
  {
    assert r.picks == [] && !r.pc.Panicked? && TogetherMode(r.top);
    if InSlot(r) { SlotKeepsRequest(s, r, o); }
  }

  lemma SlotKeepsRequest(s: Shared, r: Request, o: Outcome)
    requires RequestOk(r) && InSlot(r)
    ensures RequestOk(TogetherStep(s, r, o).r)
  {}

  lemma RemoteKeepsRequest(s: Shared, r: Request, o: Outcome)
    requires RequestOk(r) && (r.pc.Pick? || r.pc.Remote?)
    ensures RequestOk(TogetherStep(s, r, o).r)
  {
    var r' := TogetherStep(s, r, o).r;
    assert TogetherMode(r.top) && r'.top == r.top && r'.peers == r.peers;
    if r'.pc.Panicked? {
      assert r.peers[(s.index + 1) % |r.peers|] in r'.peers;
    }
  }

  lemma FinalKeepsRequest(s: Shared, r: Request, o: Outcome)
    requires RequestOk(r) && (r.pc.FinalLoad? || r.pc.FinalCheck? || r.pc.FinalCall?)
    ensures RequestOk(TogetherStep(s, r, o).r)
  {}

  lemma SplitKeepsRequest(self: string, s: Shared, r: Request, o: Outcome)
    requires RequestOk(r) && SplitPc(r)
    ensures RequestOk(SplitStep(self, s, r, o).r)
  {
    var r' := SplitStep(self, s, r, o).r;
    if r'.pc.Panicked? {
      assert r.top.prefills[0] in r'.top.prefills;
      assert r.top.decodes[(s.index + 1) % |r.top.decodes|] in r'.top.decodes;
    }
  }

  lemma StepKeepsRequest(self: string, s: Shared, r: Request, o: Outcome)
    requires RequestOk(r) && Running(r)
    ensures RequestOk(StepRequest(self, s, r, o).r)
  {
    if r.pc.Start? {
      StartKeepsRequest(self, s, r, o);
    } else if SplitPc(r) {
      SplitKeepsRequest(self, s, r, o);
    } else if r.pc.Pick? || r.pc.Remote? {
      RemoteKeepsRequest(s, r, o);
    } else if r.pc.FinalLoad? || r.pc.FinalCheck? || r.pc.FinalCall? {
      FinalKeepsRequest(s, r, o);
    } else {
      LocalKeepsRequest(s, r, o);
    }
  }

  lemma NextKeepsRequests(w: World, l: Label)
    requires Enabled(w, l) && AllOk(w)
    ensures AllOk(Next(w, l))
  {
    if l.Step? { StepKeepsRequest(w.self, w.shared, w.reqs[l.id], l.outcome); }
  }

  /** The slot changes hands only by a successful swap and the holder's own release. */
  lemma StepSlot(self: string, s: Shared, r: Request, o: Outcome)
    requires Running(r) && PcOk(r)
    ensures
      var e := StepRequest(self, s, r, o);
      && (r.pc.Swap? ==> e.shared.busy && (InSlot(e.r) <==> !s.busy))
      && (r.pc.SlotRelease? ==> !e.shared.busy && !InSlot(e.r))
      && (!r.pc.Swap? && !r.pc.SlotRelease? ==> e.shared.busy == s.busy && (InSlot(e.r) <==> InSlot(r)))
  {
    if SplitPc(r) { SplitKeepsSlot(self, s, r, o); }
  }

  lemma SplitKeepsSlot(self: string, s: Shared, r: Request, o: Outcome)
    requires SplitPc(r) && PcOk(r)
    ensures var e := SplitStep(self, s, r, o); e.shared.busy == s.busy && !InSlot(e.r)
  {}

  lemma NextKeepsSlot(w: World, l: Label)
    requires Enabled(w, l) && SlotHeldOnce(w)
    ensures SlotHeldOnce(Next(w, l))
  {
    var w' := Next(w, l);
    match l
    case HealthOk =>
    case Arrive(id, _, _) =>
      assert forall k :: k in w.reqs ==> w'.reqs[k] == w.reqs[k];
      assert !InSlot(w'.reqs[id]);
    case Step(id, o) =>
      StepSlot(w.self, w.shared, w.reqs[id], o);
      if w.shared.busy && !w.reqs[id].pc.SlotRelease? {
        var holder :| holder in w.reqs && InSlot(w.reqs[holder]);
        assert holder in w'.reqs && InSlot(w'.reqs[holder]);
      } else if w'.shared.busy {
        assert id in w'.reqs && InSlot(w'.reqs[id]);
      }
  }

  /** In every reachable state localBusy is true exactly when one request is inside the slot-held
      local section, and no two ever are. */
  lemma {:induction false} SlotIsExclusive(w: World, run: seq<Label>)
    requires Initial(w) && Legal(w, run)
    ensures SlotHeldOnce(After(w, run))
  {
    if run != [] {
      SlotIsExclusive(w, run[..|run| - 1]);
      NextKeepsSlot(After(w, run[..|run| - 1]), run[|run| - 1]);
    }
  }

  /** Only the request inside the slot can give it back. */
  lemma {:induction false} OnlyHolderReleases(w: World, run: seq<Label>, l: Label)
    requires Initial(w) && Legal(w, run) && Enabled(After(w, run), l)
    requires After(w, run).shared.busy && !Next(After(w, run), l).shared.busy
    ensures l.Step? && After(w, run).reqs[l.id].pc.SlotRelease?
    ensures forall k :: k in After(w, run).reqs && k != l.id ==> !InSlot(After(w, run).reqs[k])
  {
    SlotIsExclusive(w, run);
    if l.Step? { StepSlot(w.self, After(w, run).shared, After(w, run).reqs[l.id], l.outcome); }
  }

  lemma {:induction false} RequestsOk(w: World, run: seq<Label>)
    requires Initial(w) && Legal(w, run)
    ensures AllOk(After(w, run))
  {
    if run != [] {
      RequestsOk(w, run[..|run| - 1]);
      NextKeepsRequests(After(w, run[..|run| - 1]), run[|run| - 1]);
    }
  }

  /** A finished request has written exactly one response; a request that is still going has
      written none, except between the slot-held answer and the release; a handler that panicked
      has written none.  `DispatchSchedules.PanicIff` says which requests can. */
  lemma {:induction false} OneResponse(w: World, run: seq<Label>, id: nat)
    requires Initial(w) && Legal(w, run) && id in After(w, run).reqs
    ensures
      var r := After(w, run).reqs[id];
      && (r.pc.Done? ==> r.written == 1)
      && (!r.pc.Done? && !r.pc.SlotRelease? ==> r.written == 0)
      && (r.pc.Panicked? ==> CanPanic(r))
  {
    RequestsOk(w, run);
  }

  // ---------------------------------------------------------------------------------------
  // Termination.

  /** Steps a request can still take. */
  function Rank(r: Request): nat {
    var a := PeerAttempts(|r.peers|);
    var base := 2 * a + 4;
    match r.pc
    case Start => base + 30
    case FirstLoad => base + 6
    case Swap => base + 5
    case SecondLoad => base + 4
    case SlotCheck => base + 3
    case SlotCall => base + 2
    case SlotRelease(_, _) => base + 1
    case QueueCheck => base + 2
    case QueueCall => base + 1
    case Pick(k) => if k <= a + 1 then 2 * (a + 1 - k) + 4 else 0
    case Remote(k) => if k <= a + 1 then 2 * (a + 1 - k) + 3 else 0
    case FinalLoad => 3
    case FinalCheck => 2
    case FinalCall => 1
    case SplitPick(k) => if k <= 4 then 5 * (4 - k) + 3 else 0
    case PrefillCheck(k, _) => if k <= 3 then 5 * (4 - k) + 2 else 0
    case PrefillCall(k, _) => if k <= 3 then 5 * (4 - k) + 1 else 0
    case DecodeCheck(k, _) => if k <= 3 then 5 * (4 - k) else 0
    case DecodeCall(k, _) => if k <= 3 then 5 * (4 - k) - 1 else 0
    case LocalCheck(_) => 2
    case LocalCall(_) => 1
    case Done(_) => 0
    case Panicked => 0
  }

  lemma StepDescends(self: string, s: Shared, r: Request, o: Outcome)
    requires RequestOk(r) && Running(r)
    ensures Rank(StepRequest(self, s, r, o).r) < Rank(r)
    ensures StepRequest(self, s, r, o).r.peers == r.peers
  {
    if SplitPc(r) {
      SplitDescends(self, s, r, o);
    } else if TogetherPc(r) {
      TogetherDescends(s, r, o);
    }
  }

  lemma SplitDescends(self: string, s: Shared, r: Request, o: Outcome)
    requires SplitPc(r) && PcOk(r) && SplitAttemptOk(r)
    ensures Rank(SplitStep(self, s, r, o).r) < Rank(r) && SplitStep(self, s, r, o).r.peers == r.peers
  {}

  lemma TogetherDescends(s: Shared, r: Request, o: Outcome)
    requires TogetherPc(r) && PicksOk(r)
    ensures Rank(TogetherStep(s, r, o).r) < Rank(r) && TogetherStep(s, r, o).r.peers == r.peers
  {}

  function StepsOf(run: seq<Label>, id: nat): nat {
    if run == [] then 0
    else
      var l := run[|run| - 1];
      StepsOf(run[..|run| - 1], id) + if l.Step? && l.id == id then 1 else 0
  }

  /** Under any interleaving a request takes at most a bounded number of its own steps, the bound
      depending only on how many peers it saw, and until it has finished or panicked its next step
      is always enabled: nothing another request does can block it. */
  lemma {:induction false} RequestTerminates(w: World, run: seq<Label>, id: nat)
    requires Initial(w) && Legal(w, run) && id in After(w, run).reqs
    ensures
      var r := After(w, run).reqs[id];
      && StepsOf(run, id) + Rank(r) <= 2 * PeerAttempts(|r.peers|) + 34
      && (Running(r) ==> forall o :: Enabled(After(w, run), Step(id, o)))
  {
    RequestsOk(w, run);
    if run != [] {
      var init, l := run[..|run| - 1], run[|run| - 1];
      var before := After(w, init);
      RequestsOk(w, init);
      if id in before.reqs {
        RequestTerminates(w, init, id);
        if l.Step? { StepDescends(before.self, before.shared, before.reqs[l.id], l.outcome); }
      } else {
        NoStepsBeforeArrival(w, init, id);
      }
    }
  }

  lemma {:induction false} NoStepsBeforeArrival(w: World, run: seq<Label>, id: nat)
    requires Legal(w, run) && id !in After(w, run).reqs
    ensures StepsOf(run, id) == 0
  {
    if run != [] {
      var init, l := run[..|run| - 1], run[|run| - 1];
      NoStepsBeforeArrival(w, init, id);
    }
  }

  // ---------------------------------------------------------------------------------------
  // Round robin and the last resort.

  /** Each draw steps the shared index by one, modulo the drawer's own list length. */
  ghost predicate Chained(draws: seq<Draw>) {
    |draws| <= 1 ||
    (var last := draws[|draws| - 1];
     && Chained(draws[..|draws| - 1])
     && last.n > 0 && last.index == (draws[|draws| - 2].index + 1) % last.n)
  }

  ghost predicate DrawsStep(w: World) {
    && (w.draws != [] ==> w.shared.index == w.draws[|w.draws| - 1].index)
    && Chained(w.draws)
  }

  /** The indices request `id` drew. */
  function DrawnBy(draws: seq<Draw>, id: nat): seq<nat> {
    if draws == [] then []
    else
      var d := draws[|draws| - 1];
      DrawnBy(draws[..|draws| - 1], id) + if d.id == id then [d.index] else []
  }

  ghost predicate DrawsOwned(w: World, id: nat) {
    && (id !in w.reqs ==> forall j :: 0 <= j < |w.draws| ==> w.draws[j].id != id)
    && (id in w.reqs && TogetherMode(w.reqs[id].top) ==>
          && w.reqs[id].picks == DrawnBy(w.draws, id)
          && forall j :: 0 <= j < |w.draws| && w.draws[j].id == id ==> w.draws[j].n == |w.reqs[id].peers|)
  }

  lemma NoDraws(draws: seq<Draw>, id: nat)
    requires forall j :: 0 <= j < |draws| ==> draws[j].id != id
    ensures DrawnBy(draws, id) == []
  {
    if draws != [] { NoDraws(draws[..|draws| - 1], id); }
  }

  /** Only a draw moves the index, and the drawer notes what it drew. */
  lemma StepDraws(self: string, s: Shared, r: Request, o: Outcome)
    requires RequestOk(r) && Running(r)
    ensures
      var e := StepRequest(self, s, r, o);
      && e.r.top == r.top && e.r.peers == r.peers
      && (e.drew.None? ==> e.shared.index == s.index && e.r.picks == r.picks)
      && (e.drew.Some? ==> e.drew.value > 0 && e.shared.index == (s.index + 1) % e.drew.value)
      && (e.drew.Some? && TogetherMode(r.top) ==>
            e.drew.value == |r.peers| && e.r.picks == r.picks + [e.shared.index])
  {
    if SplitPc(r) { SplitDraws(self, s, r, o); }
  }

  lemma SplitDraws(self: string, s: Shared, r: Request, o: Outcome)
    requires SplitPc(r) && PcOk(r)
    ensures
      var e := SplitStep(self, s, r, o);
      && e.r.top == r.top && e.r.peers == r.peers && e.r.picks == r.picks
      && (e.drew.None? ==> e.shared.index == s.index)
      && (e.drew.Some? ==> e.drew.value > 0 && e.shared.index == (s.index + 1) % e.drew.value)
  {}

  lemma AppendDraw(draws: seq<Draw>, d: Draw, id: nat)
    requires Chained(draws) && d.n > 0
    requires draws != [] ==> d.index == (draws[|draws| - 1].index + 1) % d.n
    ensures Chained(draws + [d])
    ensures DrawnBy(draws + [d], id) == DrawnBy(draws, id) + if d.id == id then [d.index] else []
  {
    assert (draws + [d])[..|draws|] == draws;
  }

  lemma StepKeepsDraws(w: World, k: nat, o: Outcome, id: nat)
    requires Enabled(w, Step(k, o)) && RequestOk(w.reqs[k]) && DrawsStep(w) && DrawsOwned(w, id)
    ensures DrawsStep(Next(w, Step(k, o))) && DrawsOwned(Next(w, Step(k, o)), id)
  {
    StepDraws(w.self, w.shared, w.reqs[k], o);
    var e := StepRequest(w.self, w.shared, w.reqs[k], o);
    var w' := Next(w, Step(k, o));
    assert w'.reqs[k] == e.r && forall j :: j in w.reqs && j != k ==> w'.reqs[j] == w.reqs[j];
    if e.drew.Some? {
      NotedDraw(w, w', Draw(k, e.drew.value, e.shared.index), id);
    }
  }

  lemma NotedDraw(w: World, w': World, d: Draw, id: nat)
    requires DrawsStep(w) && DrawsOwned(w, id)
    requires w'.draws == w.draws + [d] && d.n > 0 && d.index == (w.shared.index + 1) % d.n
    requires w'.shared.index == d.index && d.id in w.reqs && w'.reqs.Keys == w.reqs.Keys
    requires id != d.id && id in w.reqs ==> w'.reqs[id] == w.reqs[id]
    requires id == d.id ==>
      && w'.reqs[id].top == w.reqs[id].top && w'.reqs[id].peers == w.reqs[id].peers
      && (TogetherMode(w.reqs[id].top) ==>
            d.n == |w.reqs[id].peers| && w'.reqs[id].picks == w.reqs[id].picks + [d.index])
    ensures DrawsStep(w') && DrawsOwned(w', id)
  {
    AppendDraw(w.draws, d, id);
  }

  lemma NextKeepsDraws(w: World, l: Label, id: nat)
    requires Enabled(w, l) && AllOk(w) && DrawsStep(w) && DrawsOwned(w, id)
    ensures DrawsStep(Next(w, l)) && DrawsOwned(Next(w, l), id)
  {
    match l
    case HealthOk =>
    case Arrive(k, _, _) => if k == id { NoDraws(w.draws, id); }
    case Step(k, o) => StepKeepsDraws(w, k, o, id);
  }

  lemma {:induction false} DrawsAreTracked(w: World, run: seq<Label>, id: nat)
    requires Initial(w) && Legal(w, run)
    ensures DrawsStep(After(w, run)) && DrawsOwned(After(w, run), id)
  {
    if run != [] {
      var init := run[..|run| - 1];
      DrawsAreTracked(w, init, id);
      RequestsOk(w, init);
      NextKeepsDraws(After(w, init), run[|run| - 1], id);
    }
  }

  /** No other request drew between two draws of `id`. */
  ghost predicate Uninterleaved(draws: seq<Draw>, id: nat) {
    forall i, j, k :: 0 <= i < j < k < |draws| && draws[i].id == id && draws[k].id == id ==> draws[j].id == id
  }

  ghost predicate Consecutive(picks: seq<nat>, n: nat) {
    && n > 0
    && (|picks| <= 1 ||
        (Consecutive(picks[..|picks| - 1], n) && picks[|picks| - 1] == (picks[|picks| - 2] + 1) % n))
  }

  lemma ConsecutiveSnoc(picks: seq<nat>, n: nat, k: nat)
    requires Consecutive(picks, n)
    requires picks != [] ==> k == (picks[|picks| - 1] + 1) % n
    ensures Consecutive(picks + [k], n)
  {
    assert (picks + [k])[..|picks|] == picks;
  }

  lemma {:induction false} LastDrawn(draws: seq<Draw>, id: nat)
    requires draws != [] && draws[|draws| - 1].id == id
    ensures DrawnBy(draws, id) != [] && DrawnBy(draws, id)[|DrawnBy(draws, id)| - 1] == draws[|draws| - 1].index
  {}

  lemma {:induction false} DrawnSomewhere(draws: seq<Draw>, id: nat) returns (j: nat)
    requires DrawnBy(draws, id) != []
    ensures j < |draws| && draws[j].id == id
  {
    if draws[|draws| - 1].id == id {
      j := |draws| - 1;
    } else {
      j := DrawnSomewhere(draws[..|draws| - 1], id);
    }
  }

  lemma UninterleavedInit(draws: seq<Draw>, id: nat)
    requires draws != [] && Uninterleaved(draws, id)
    ensures Uninterleaved(draws[..|draws| - 1], id)
    ensures
      var init := draws[..|draws| - 1];
      draws[|draws| - 1].id == id && DrawnBy(init, id) != [] ==> init != [] && init[|init| - 1].id == id
  {
    var init := draws[..|draws| - 1];
    if draws[|draws| - 1].id == id && DrawnBy(init, id) != [] {
      var j := DrawnSomewhere(init, id);
    }
  }

  lemma {:induction false} UninterleavedIsConsecutive(draws: seq<Draw>, id: nat, n: nat)
    requires n > 0 && Uninterleaved(draws, id) && Chained(draws)
    requires forall j :: 0 <= j < |draws| && draws[j].id == id ==> draws[j].n == n
    ensures Consecutive(DrawnBy(draws, id), n)
  {
    if draws != [] {
      var init, last := draws[..|draws| - 1], draws[|draws| - 1];
      UninterleavedInit(draws, id);
      UninterleavedIsConsecutive(init, id, n);
      var before := DrawnBy(init, id);
      if last.id == id {
        if before != [] { LastDrawn(init, id); }
        assert DrawnBy(draws, id) == before + [last.index];
        ConsecutiveSnoc(before, n, last.index);
      } else {
        assert DrawnBy(draws, id) == before;
      }
    }
  }

  /** Stepping one at a time through `n` indices for at least `n` steps meets every index. */
  lemma {:induction false} StepsCover(picks: seq<nat>, n: nat, b: nat)
    requires Consecutive(picks, n) && |picks| >= n && b < n && picks[0] < n
    ensures b in picks
  {
    var i := if b >= picks[0] then b - picks[0] else b + n - picks[0];
    WalkTo(picks, n, i);
    assert picks[i] == b;
  }

  lemma WrapOne(x: nat, n: nat)
    requires x < n
    ensures (x + 1) % n == if x + 1 < n then x + 1 else 0
  {}

  lemma {:induction false} WalkTo(picks: seq<nat>, n: nat, i: nat)
    requires Consecutive(picks, n) && i < |picks| && i < n && picks[0] < n
    ensures picks[i] == if picks[0] + i < n then picks[0] + i else picks[0] + i - n
  {
    if |picks| > i + 1 {
      WalkTo(picks[..|picks| - 1], n, i);
    } else if i > 0 {
      WalkTo(picks[..i], n, i - 1);
      WrapOne(picks[i - 1], n);
    }
  }

  /** A PD-together request gives up with the dispatcher's own 502 only at the local last resort, and
      only because vLLM was not ready there or did not answer; by then all of its remote attempts
      were made and failed (or it knew of no peer); and if no other request drew an index between
      its own draws, every peer it knew was among those tried. */
  lemma {:induction false} GivesUpOnlyWhenExhausted(w: World, run: seq<Label>, id: nat, o: Outcome)
    requires Initial(w) && Legal(w, run) && Enabled(After(w, run), Step(id, o))
    requires
      var r' := Next(After(w, run), Step(id, o)).reqs[id];
      TogetherMode(r'.top) && r'.pc.Done? && r'.pc.reply.Failed?
    ensures
      var end := After(w, run);
      var r := end.reqs[id];
      && Next(end, Step(id, o)).reqs[id].pc.reply.status == 502
      && (((r.pc.FinalLoad? || r.pc.FinalCheck?) && !end.shared.ready) || (r.pc.FinalCall? && !o.Good?))
      && (r.peers != [] ==> |r.picks| == if |r.peers| > 3 then |r.peers| else 3)
      && (Uninterleaved(end.draws, id) ==> forall k :: 0 <= k < |r.peers| ==> k in r.picks)
  {
    RequestsOk(w, run);
    DrawsAreTracked(w, run, id);
    var end := After(w, run);
    var r := end.reqs[id];
    StepKeepsRequest(end.self, end.shared, r, o);
    StepDraws(end.self, end.shared, r, o);
    AnswersAreFinal(end.self, end.shared, r, o);
    if r.peers != [] && Uninterleaved(end.draws, id) {
      UninterleavedIsConsecutive(end.draws, id, |r.peers|);
      forall k | 0 <= k < |r.peers| ensures k in r.picks {
        StepsCover(r.picks, |r.peers|, k);
      }
    }
  }

  lemma AnswersAreFinal(self: string, s: Shared, r: Request, o: Outcome)
    requires RequestOk(r) && Running(r) && TogetherMode(r.top)
    requires var r' := StepRequest(self, s, r, o).r; r'.pc.Done? && r'.pc.reply.Failed?
    ensures ((r.pc.FinalLoad? || r.pc.FinalCheck?) && !s.ready) || (r.pc.FinalCall? && !o.Good?)
  {}
}
