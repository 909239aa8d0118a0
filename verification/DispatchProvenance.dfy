/** Where a request's answer comes from: what must have happened to it, step by step, before the
    dispatcher passes an answer on or gives up, in both modes and under any interleaving. */
module DispatchProvenance {
  import opened PeerState
  import opened Dispatcher

  /** One step of one request: where it was, what the fields were, and how its exchange ended. */
  datatype Moment = Moment(pc: PC, shared: Shared, outcome: Outcome)

  /** Everything request `id` has done, oldest first. */
  function Trace(w: World, run: seq<Label>, id: nat): seq<Moment>
    requires Legal(w, run)
  {
    if run == [] then []
    else
      var init, l := run[..|run| - 1], run[|run| - 1];
      var before := After(w, init);
      Trace(w, init, id) + MomentsOf(before, l, id)
  }

  /** What a label adds to the history of request `id`. */
  function MomentsOf(w: World, l: Label, id: nat): seq<Moment>
    requires Enabled(w, l)
  {
    if l.Step? && l.id == id then [Moment(w.reqs[id].pc, w.shared, l.outcome)] else []
  }

  /** It was at `pc` once, and the exchange (if any) was answered. */
  ghost predicate Answered(t: seq<Moment>, pc: PC) {
    exists m :: m in t && m.pc == pc && m.outcome.Good?
  }

  /** It was at `pc` once, and the exchange was not answered. */
  ghost predicate Missed(t: seq<Moment>, pc: PC) {
    exists m :: m in t && m.pc == pc && !m.outcome.Good?
  }

  /** It looked at vLLM's readiness at `pc` once and found this. */
  ghost predicate Found(t: seq<Moment>, pc: PC, ready: bool) {
    exists m :: m in t && m.pc == pc && m.shared.ready == ready
  }

  /** It tried to take the slot and found it this way. */
  ghost predicate FoundSlot(t: seq<Moment>, busy: bool) {
    exists m :: m in t && m.pc == Swap && m.shared.busy == busy
  }

  // ---------------------------------------------------------------------------------------
  // The two-stage mode.

  /** Attempt `k` failed: a stage on this node found vLLM not ready, or a stage's exchange failed. */
  ghost predicate StageFailed(self: string, top: Topology, t: seq<Moment>, k: nat) {
    exists d: nat ::
      || (top.prefills != [] && top.prefills[0] == self && Found(t, PrefillCheck(k, d), false))
      || Missed(t, PrefillCall(k, d))
      || (d < |top.decodes| && top.decodes[d] == self && Found(t, DecodeCheck(k, d), false))
      || Missed(t, DecodeCall(k, d))
  }

  /** Why a two-stage request turns to the local vLLM with this failure status in hand. */
  ghost predicate FallsBack(self: string, top: Topology, t: seq<Moment>, failure: int) {
    if top.prefills == [] || top.decodes == [] then failure == 503
    else failure == 502 && forall k :: 1 <= k <= 3 ==> StageFailed(self, top, t, k)
  }

  /** All attempts before `k` failed, and the lists are not empty. */
  ghost predicate OnAttempt(self: string, top: Topology, t: seq<Moment>, k: nat) {
    top.prefills != [] && top.decodes != [] && forall j :: 1 <= j < k ==> StageFailed(self, top, t, j)
  }

  /** The decode index of attempt `k` is the one its draw gave. */
  ghost predicate DrewDecode(top: Topology, t: seq<Moment>, k: nat, d: nat) {
    top.decodes != [] && exists m :: m in t && m.pc == SplitPick(k) && d == (m.shared.index + 1) % |top.decodes|
  }

  /** A two-stage request passes an answer on only after its own prefill and decode stages of one
      attempt were both answered, the decode last, or after the local vLLM answered; and it fails
      with its own 503 or 502 only when the local vLLM was not ready or did not answer, the lists
      being empty or all three attempts having failed.  A stage on this node is only ever sent after
      a look that found vLLM ready. */
  ghost predicate TwoStageHistory(self: string, t: seq<Moment>, r: Request) {
    var top := r.top;
    match r.pc
    case Start => t == []
    case SplitPick(k) => k == 1 || OnAttempt(self, top, t, k)
    case PrefillCheck(k, d) => OnAttempt(self, top, t, k) && DrewDecode(top, t, k, d)
    case PrefillCall(k, d) =>
      && OnAttempt(self, top, t, k) && DrewDecode(top, t, k, d)
      && (top.prefills[0] == self ==> Found(t, PrefillCheck(k, d), true))
    case DecodeCheck(k, d) =>
      OnAttempt(self, top, t, k) && DrewDecode(top, t, k, d) && Answered(t, PrefillCall(k, d))
    case DecodeCall(k, d) =>
      && OnAttempt(self, top, t, k) && DrewDecode(top, t, k, d) && Answered(t, PrefillCall(k, d))
      && (d < |top.decodes| && top.decodes[d] == self ==> Found(t, DecodeCheck(k, d), true))
    case LocalCheck(failure) => FallsBack(self, top, t, failure)
    case LocalCall(failure) => FallsBack(self, top, t, failure) && Found(t, LocalCheck(failure), true)
    case Done(reply) => t != [] && TwoStageReply(self, top, t, reply)
    case _ => true
  }

  ghost predicate TwoStageReply(self: string, top: Topology, t: seq<Moment>, reply: Reply)
    requires t != []
  {
    var last := t[|t| - 1];
    match reply
    case Early(status) => last.pc == Start && last.outcome == Good(status)
    case Piped(status) =>
      && status == 200 && last.outcome.Good?
      && ((last.pc.DecodeCall? && Answered(t, PrefillCall(last.pc.attempt, last.pc.decode)))
          || (last.pc.LocalCall? && FallsBack(self, top, t, last.pc.failure)))
    case Failed(failure) =>
      && FallsBack(self, top, t, failure)
      && ((last.pc == LocalCheck(failure) && !last.shared.ready)
          || (last.pc == LocalCall(failure) && !last.outcome.Good?))
  }

  lemma OnAttemptGrows(self: string, top: Topology, t: seq<Moment>, m: Moment, k: nat)
    requires OnAttempt(self, top, t, k)
    ensures OnAttempt(self, top, t + [m], k)
  {
    forall j | 1 <= j < k ensures StageFailed(self, top, t + [m], j) {
      StageFailedGrows(self, top, t, m, j);
    }
  }

  lemma StageFailedGrows(self: string, top: Topology, t: seq<Moment>, m: Moment, k: nat)
    requires StageFailed(self, top, t, k)
    ensures StageFailed(self, top, t + [m], k)
  {
    var d: nat :|
      || (top.prefills != [] && top.prefills[0] == self && Found(t, PrefillCheck(k, d), false))
      || Missed(t, PrefillCall(k, d))
      || (d < |top.decodes| && top.decodes[d] == self && Found(t, DecodeCheck(k, d), false))
      || Missed(t, DecodeCall(k, d));
    FactsGrow(t, m, PrefillCheck(k, d));
    FactsGrow(t, m, PrefillCall(k, d));
    FactsGrow(t, m, DecodeCheck(k, d));
    FactsGrow(t, m, DecodeCall(k, d));
  }

  lemma FactsGrow(t: seq<Moment>, m: Moment, pc: PC)
    ensures Answered(t, pc) ==> Answered(t + [m], pc)
    ensures Missed(t, pc) ==> Missed(t + [m], pc)
    ensures Found(t, pc, true) ==> Found(t + [m], pc, true)
    ensures Found(t, pc, false) ==> Found(t + [m], pc, false)
    ensures m.pc == pc ==> (if m.outcome.Good? then Answered(t + [m], pc) else Missed(t + [m], pc))
    ensures m.pc == pc ==> Found(t + [m], pc, m.shared.ready)
  {
    assert m in t + [m];
    assert forall x :: x in t ==> x in t + [m];
  }

  lemma FallsBackGrows(self: string, top: Topology, t: seq<Moment>, m: Moment, failure: int)
    requires FallsBack(self, top, t, failure)
    ensures FallsBack(self, top, t + [m], failure)
  {
    if top.prefills != [] && top.decodes != [] {
      forall k | 1 <= k <= 3 ensures StageFailed(self, top, t + [m], k) {
        StageFailedGrows(self, top, t, m, k);
      }
    }
  }

  lemma DrewGrows(top: Topology, t: seq<Moment>, m: Moment, k: nat, d: nat)
    requires DrewDecode(top, t, k, d)
    ensures DrewDecode(top, t + [m], k, d)
  {
    assert forall x :: x in t ==> x in t + [m];
  }

  /** One step of a two-stage request keeps its history. */
  lemma TwoStageStep(self: string, s: Shared, r: Request, o: Outcome, t: seq<Moment>)
    requires RequestOk(r) && Running(r) && (SplitPc(r) || r.pc.Start?) && !TogetherMode(r.top)
    requires TwoStageHistory(self, t, r)
    ensures TwoStageHistory(self, t + [Moment(r.pc, s, o)], StepRequest(self, s, r, o).r)
  {
    match r.pc
    case Start =>
    case SplitPick(k) => PickStep(self, s, r, o, t);
    case PrefillCheck(_, _) => PrefillStep(self, s, r, o, t);
    case PrefillCall(_, _) => PrefillStep(self, s, r, o, t);
    case DecodeCheck(_, _) => DecodeStep(self, s, r, o, t);
    case DecodeCall(_, _) => DecodeCallStep(self, s, r, o, t);
    case LocalCheck(failure) => LocalStep(self, s, r, o, t);
    case LocalCall(failure) => LocalStep(self, s, r, o, t);
  }

  lemma PickStep(self: string, s: Shared, r: Request, o: Outcome, t: seq<Moment>)
    requires RequestOk(r) && r.pc.SplitPick? && TwoStageHistory(self, t, r)
    ensures TwoStageHistory(self, t + [Moment(r.pc, s, o)], StepRequest(self, s, r, o).r)
  {
    var m, k, top := Moment(r.pc, s, o), r.pc.attempt, r.top;
    assert m in t + [m];
    if top.prefills != [] && top.decodes != [] {
      if k > 1 { OnAttemptGrows(self, top, t, m, k); }
      if k > 3 {
        forall j | 1 <= j <= 3 ensures StageFailed(self, top, t + [m], j) {}
      }
    }
  }

  lemma PrefillStep(self: string, s: Shared, r: Request, o: Outcome, t: seq<Moment>)
    requires RequestOk(r) && (r.pc.PrefillCheck? || r.pc.PrefillCall?) && TwoStageHistory(self, t, r)
    ensures TwoStageHistory(self, t + [Moment(r.pc, s, o)], StepRequest(self, s, r, o).r)
  {
    var m, k, d := Moment(r.pc, s, o), r.pc.attempt, r.pc.decode;
    OnAttemptGrows(self, r.top, t, m, k);
    DrewGrows(r.top, t, m, k, d);
    FactsGrow(t, m, r.pc);
    if StepRequest(self, s, r, o).r.pc == SplitPick(k + 1) {
      assert StageFailed(self, r.top, t + [m], k);
      NextAttempt(self, r.top, t + [m], k);
    }
  }

  lemma DecodeStep(self: string, s: Shared, r: Request, o: Outcome, t: seq<Moment>)
    requires RequestOk(r) && r.pc.DecodeCheck? && TwoStageHistory(self, t, r)
    ensures TwoStageHistory(self, t + [Moment(r.pc, s, o)], StepRequest(self, s, r, o).r)
  {
    var m, k, d := Moment(r.pc, s, o), r.pc.attempt, r.pc.decode;
    OnAttemptGrows(self, r.top, t, m, k);
    DrewGrows(r.top, t, m, k, d);
    FactsGrow(t, m, r.pc);
    FactsGrow(t, m, PrefillCall(k, d));
    if r.top.decodes[d] == self && !s.ready {
      assert StageFailed(self, r.top, t + [m], k);
      NextAttempt(self, r.top, t + [m], k);
    }
  }

  lemma DecodeCallStep(self: string, s: Shared, r: Request, o: Outcome, t: seq<Moment>)
    requires RequestOk(r) && r.pc.DecodeCall? && TwoStageHistory(self, t, r)
    ensures TwoStageHistory(self, t + [Moment(r.pc, s, o)], StepRequest(self, s, r, o).r)
  {
    var m, k, d := Moment(r.pc, s, o), r.pc.attempt, r.pc.decode;
    OnAttemptGrows(self, r.top, t, m, k);
    DrewGrows(r.top, t, m, k, d);
    FactsGrow(t, m, r.pc);
    FactsGrow(t, m, PrefillCall(k, d));
    if !o.Good? {
      assert StageFailed(self, r.top, t + [m], k);
      NextAttempt(self, r.top, t + [m], k);
    }
  }

  lemma NextAttempt(self: string, top: Topology, t: seq<Moment>, k: nat)
    requires OnAttempt(self, top, t, k) && StageFailed(self, top, t, k)
    ensures OnAttempt(self, top, t, k + 1)
  {
    forall j | 1 <= j < k + 1 ensures StageFailed(self, top, t, j) {
      if j == k { assert StageFailed(self, top, t, k); }
    }
  }

  lemma LocalStep(self: string, s: Shared, r: Request, o: Outcome, t: seq<Moment>)
    requires RequestOk(r) && (r.pc.LocalCheck? || r.pc.LocalCall?) && TwoStageHistory(self, t, r)
    ensures TwoStageHistory(self, t + [Moment(r.pc, s, o)], StepRequest(self, s, r, o).r)
  {
    var m := Moment(r.pc, s, o);
    FallsBackGrows(self, r.top, t, m, r.pc.failure);
    FactsGrow(t, m, r.pc);
  }

  /** Over every run. */
  lemma {:induction false} TwoStageAnswers(w: World, run: seq<Label>, id: nat)
    requires Initial(w) && Legal(w, run) && id in After(w, run).reqs
    requires !TogetherMode(After(w, run).reqs[id].top)
    ensures TwoStageHistory(w.self, Trace(w, run, id), After(w, run).reqs[id])
  {
    if run != [] {
      var init, l := run[..|run| - 1], run[|run| - 1];
      RequestsOk(w, init);
      SelfKept(w, init);
      if id in After(w, init).reqs {
        ModeKept(After(w, init), l, id);
        TwoStageAnswers(w, init, id);
        TwoStageNext(After(w, init), l, id, Trace(w, init, id));
      } else {
        NoTrace(w, init, id);
      }
    }
  }

  lemma ModeKept(w: World, l: Label, id: nat)
    requires AllOk(w) && Enabled(w, l) && id in w.reqs
    ensures id in Next(w, l).reqs && Next(w, l).reqs[id].top == w.reqs[id].top
  {
    if l.Step? { StepDraws(w.self, w.shared, w.reqs[l.id], l.outcome); }
  }

  lemma TwoStageNext(w: World, l: Label, id: nat, t: seq<Moment>)
    requires AllOk(w) && Enabled(w, l) && id in w.reqs && !TogetherMode(w.reqs[id].top)
    requires TwoStageHistory(w.self, t, w.reqs[id])
    ensures TwoStageHistory(w.self, t + MomentsOf(w, l, id), Next(w, l).reqs[id])
  {
    if l.Step? && l.id == id {
      NotTogether(w.reqs[id]);
      TwoStageStep(w.self, w.shared, w.reqs[id], l.outcome, t);
    } else {
      assert t + [] == t;
    }
  }

  lemma NotTogether(r: Request)
    requires RequestOk(r) && Running(r) && !TogetherMode(r.top)
    ensures SplitPc(r) || r.pc.Start?
  {}

  lemma {:induction false} SelfKept(w: World, run: seq<Label>)
    requires Legal(w, run)
    ensures After(w, run).self == w.self
  {
    if run != [] { SelfKept(w, run[..|run| - 1]); }
  }

  lemma {:induction false} NoTrace(w: World, run: seq<Label>, id: nat)
    requires Legal(w, run) && id !in After(w, run).reqs
    ensures Trace(w, run, id) == []
  {
    if run != [] {
      NoTrace(w, run[..|run| - 1], id);
    }
  }

  // ---------------------------------------------------------------------------------------
  // The PD-together mode.

  /** Remote attempt `k` failed: no answer, or an answer that says the peer cannot serve. */
  ghost predicate RemoteFailed(t: seq<Moment>, k: nat) {
    exists m :: m in t && m.pc == Remote(k) && !(m.outcome.Good? && m.outcome.status < 500)
  }

  /** Why the request left the local vLLM for the other nodes: in the slot it was not ready or did not
      answer; or it was not ready, or there was somebody to go to; or queueing failed as well. */
  ghost predicate LeftLocal(t: seq<Moment>, peers: seq<string>) {
    || Found(t, SlotCheck, false) || Missed(t, SlotCall)
    || Found(t, SecondLoad, false) || (peers != [] && exists m :: m in t && m.pc == SecondLoad)
    || Found(t, QueueCheck, false) || Missed(t, QueueCall)
  }

  /** It could not have the slot. */
  ghost predicate NoSlot(t: seq<Moment>) {
    Found(t, FirstLoad, false) || FoundSlot(t, true)
  }

  /** It has the slot: vLLM was ready and nobody else was in it. */
  ghost predicate TookSlot(t: seq<Moment>) {
    Found(t, FirstLoad, true) && FoundSlot(t, false)
  }

  /** Every attempt before `k` failed (there are none without peers), and the local vLLM first. */
  ghost predicate OnRemote(t: seq<Moment>, peers: seq<string>, k: nat) {
    LeftLocal(t, peers) && (peers != [] ==> forall j :: 1 <= j < k ==> RemoteFailed(t, j))
  }

  /** Everybody failed: the local vLLM, and at least three and as many attempts as there are peers. */
  ghost predicate AllFailed(t: seq<Moment>, peers: seq<string>) {
    && LeftLocal(t, peers)
    && (peers != [] ==> forall k :: 1 <= k && (k <= 3 || k <= |peers|) ==> RemoteFailed(t, k))
  }

  /** The local vLLM comes first, and by the slot whenever it is ready and free; other nodes are tried
      only when that did not work out; a local call is made only after a look that found vLLM ready;
      an answer is passed on with its own status and only from the exchange just made; and the
      dispatcher's own error is a 502 when the last resort failed as well. */
  ghost predicate TogetherHistory(t: seq<Moment>, r: Request) {
    match r.pc
    case Start => t == []
    case FirstLoad => true
    case Swap => Found(t, FirstLoad, true)
    case SecondLoad => NoSlot(t)
    case SlotCheck => TookSlot(t)
    case SlotCall => TookSlot(t) && Found(t, SlotCheck, true)
    case SlotRelease(answered, status) =>
      if answered then exists m :: m in t && m.pc == SlotCall && m.outcome == Good(status)
      else Found(t, SlotCheck, false) || Missed(t, SlotCall)
    case QueueCheck => NoSlot(t) && r.peers == [] && Found(t, SecondLoad, true)
    case QueueCall => NoSlot(t) && r.peers == [] && Found(t, QueueCheck, true)
    case Pick(k) => OnRemote(t, r.peers, k)
    case Remote(k) => OnRemote(t, r.peers, k) && r.peers != []
    case FinalLoad => AllFailed(t, r.peers)
    case FinalCheck => AllFailed(t, r.peers)
    case FinalCall => AllFailed(t, r.peers) && Found(t, FinalCheck, true)
    case Done(reply) => t != [] && TogetherReply(t, r.peers, reply)
    case _ => true
  }

  ghost predicate TogetherReply(t: seq<Moment>, peers: seq<string>, reply: Reply)
    requires t != []
  {
    var last := t[|t| - 1];
    match reply
    case Early(status) => last.pc == Start && last.outcome == Good(status)
    case Piped(status) =>
      || (last.pc == SlotRelease(true, status) && exists m :: m in t && m.pc == SlotCall && m.outcome == Good(status))
      || (last.outcome == Good(status) && last.pc == QueueCall && NoSlot(t) && peers == [])
      || (last.outcome == Good(status) && last.pc.Remote? && status < 500 && LeftLocal(t, peers))
      || (last.outcome == Good(status) && last.pc == FinalCall && AllFailed(t, peers))
    case Failed(status) =>
      && status == 502 && AllFailed(t, peers)
      && (((last.pc == FinalLoad || last.pc == FinalCheck) && !last.shared.ready)
          || (last.pc == FinalCall && !last.outcome.Good?))
  }

  lemma MomentsGrow(t: seq<Moment>, m: Moment)
    ensures m in t + [m] && forall x :: x in t ==> x in t + [m]
  {}

  lemma LeftLocalGrows(t: seq<Moment>, m: Moment, peers: seq<string>)
    ensures LeftLocal(t, peers) ==> LeftLocal(t + [m], peers)
    ensures NoSlot(t) ==> NoSlot(t + [m])
    ensures TookSlot(t) ==> TookSlot(t + [m])
  {
    MomentsGrow(t, m);
  }

  lemma OnRemoteGrows(t: seq<Moment>, m: Moment, peers: seq<string>, k: nat)
    requires OnRemote(t, peers, k)
    ensures OnRemote(t + [m], peers, k)
  {
    LeftLocalGrows(t, m, peers);
    MomentsGrow(t, m);
    if peers != [] {
      forall j | 1 <= j < k ensures RemoteFailed(t + [m], j) {
        assert RemoteFailed(t, j);
      }
    }
  }

  lemma AllFailedGrows(t: seq<Moment>, m: Moment, peers: seq<string>)
    requires AllFailed(t, peers)
    ensures AllFailed(t + [m], peers)
  {
    LeftLocalGrows(t, m, peers);
    MomentsGrow(t, m);
    if peers != [] {
      forall k | 1 <= k && (k <= 3 || k <= |peers|) ensures RemoteFailed(t + [m], k) {
        assert RemoteFailed(t, k);
      }
    }
  }

  lemma FirstSteps(s: Shared, r: Request, o: Outcome, t: seq<Moment>)
    requires TogetherPc(r) && TogetherHistory(t, r)
    requires r.pc.FirstLoad? || r.pc.Swap? || r.pc.SecondLoad? || r.pc.QueueCheck? || r.pc.QueueCall?
    ensures TogetherHistory(t + [Moment(r.pc, s, o)], TogetherStep(s, r, o).r)
  {
    var m := Moment(r.pc, s, o);
    MomentsGrow(t, m);
    LeftLocalGrows(t, m, r.peers);
    FactsGrow(t, m, r.pc);
    FactsGrow(t, m, FirstLoad);
  }

  lemma SlotSteps(s: Shared, r: Request, o: Outcome, t: seq<Moment>)
    requires InSlot(r) && TogetherHistory(t, r)
    ensures TogetherHistory(t + [Moment(r.pc, s, o)], TogetherStep(s, r, o).r)
  {
    var m := Moment(r.pc, s, o);
    MomentsGrow(t, m);
    LeftLocalGrows(t, m, r.peers);
    FactsGrow(t, m, r.pc);
    FactsGrow(t, m, SlotCheck);
    FactsGrow(t, m, SlotCall);
  }

  lemma RemoteSteps(s: Shared, r: Request, o: Outcome, t: seq<Moment>)
    requires RequestOk(r) && (r.pc.Pick? || r.pc.Remote?) && TogetherHistory(t, r)
    ensures TogetherHistory(t + [Moment(r.pc, s, o)], TogetherStep(s, r, o).r)
  {
    var m, k := Moment(r.pc, s, o), r.pc.attempt;
    MomentsGrow(t, m);
    OnRemoteGrows(t, m, r.peers, k);
    if r.pc.Remote? && !(o.Good? && o.status < 500) {
      assert RemoteFailed(t + [m], k);
      forall j | 1 <= j < k + 1 ensures RemoteFailed(t + [m], j) {}
    }
  }

  lemma FinalSteps(s: Shared, r: Request, o: Outcome, t: seq<Moment>)
    requires TogetherHistory(t, r) && (r.pc.FinalLoad? || r.pc.FinalCheck? || r.pc.FinalCall?)
    ensures TogetherHistory(t + [Moment(r.pc, s, o)], TogetherStep(s, r, o).r)
  {
    var m := Moment(r.pc, s, o);
    AllFailedGrows(t, m, r.peers);
    FactsGrow(t, m, r.pc);
  }

  lemma TogetherMove(self: string, s: Shared, r: Request, o: Outcome, t: seq<Moment>)
    requires RequestOk(r) && Running(r) && TogetherMode(r.top) && TogetherHistory(t, r)
    ensures TogetherHistory(t + [Moment(r.pc, s, o)], StepRequest(self, s, r, o).r)
  {
    if r.pc.Start? {
    } else if InSlot(r) {
      SlotSteps(s, r, o, t);
    } else if r.pc.Pick? || r.pc.Remote? {
      RemoteSteps(s, r, o, t);
    } else if r.pc.FinalLoad? || r.pc.FinalCheck? || r.pc.FinalCall? {
      FinalSteps(s, r, o, t);
    } else {
      FirstSteps(s, r, o, t);
    }
  }

  /** Over every run. */
  lemma {:induction false} TogetherAnswers(w: World, run: seq<Label>, id: nat)
    requires Initial(w) && Legal(w, run) && id in After(w, run).reqs
    requires TogetherMode(After(w, run).reqs[id].top)
    ensures TogetherHistory(Trace(w, run, id), After(w, run).reqs[id])
  {
    if run != [] {
      var init, l := run[..|run| - 1], run[|run| - 1];
      RequestsOk(w, init);
      if id in After(w, init).reqs {
        ModeKept(After(w, init), l, id);
        TogetherAnswers(w, init, id);
        TogetherNext(After(w, init), l, id, Trace(w, init, id));
      } else {
        NoTrace(w, init, id);
      }
    }
  }

  lemma TogetherNext(w: World, l: Label, id: nat, t: seq<Moment>)
    requires AllOk(w) && Enabled(w, l) && id in w.reqs && TogetherMode(w.reqs[id].top)
    requires TogetherHistory(t, w.reqs[id])
    ensures TogetherHistory(t + MomentsOf(w, l, id), Next(w, l).reqs[id])
  {
    if l.Step? && l.id == id {
      TogetherMove(w.self, w.shared, w.reqs[id], l.outcome, t);
    } else {
      assert t + [] == t;
    }
  }

  // ---------------------------------------------------------------------------------------
  // Readiness, and who is a peer.

  /** The exchange the request is about to make is with the vLLM of this node. */
  predicate WithLocal(self: string, r: Request) {
    || r.pc.SlotCall? || r.pc.QueueCall? || r.pc.FinalCall? || r.pc.LocalCall?
    || (r.pc.PrefillCall? && r.top.prefills != [] && r.top.prefills[0] == self)
    || (r.pc.DecodeCall? && r.pc.decode < |r.top.decodes| && r.top.decodes[r.pc.decode] == self)
  }

  /** A step takes away vLLM's readiness exactly when it is an exchange with this node's own vLLM that
      could not reach it, and never gives it back. */
  lemma ReadinessFallsIff(self: string, s: Shared, r: Request, o: Outcome)
    requires Running(r) && PcOk(r)
    ensures StepRequest(self, s, r, o).shared.ready == (s.ready && !(WithLocal(self, r) && o == Unreachable))
  {
    if SplitPc(r) { SplitReadiness(self, s, r, o); }
  }

  lemma SplitReadiness(self: string, s: Shared, r: Request, o: Outcome)
    requires SplitPc(r) && PcOk(r)
    ensures SplitStep(self, s, r, o).shared.ready == (s.ready && !(WithLocal(self, r) && o == Unreachable))
  {}

  /** The candidates are the known nodes that have a name, are not this node, do not only relay and do
      not report having no GPU, each as often and in the order they are known. */
  lemma {:induction false} CandidatesAre(known: seq<GpuInfo>, self: string)
    ensures forall id :: id in Candidates(known, self) <==>
      id != "" && id != self &&
      exists info :: info in known && info.nodeID == id && info.role != "relay" && info.summary != "No GPU Detected"
    ensures |Candidates(known, self)| <= |known|
  {
    if known != [] {
      var init, last := known[..|known| - 1], known[|known| - 1];
      CandidatesAre(init, self);
      assert known == init + [last];
    }
  }
}
