/** The dispatcher's handler as it is written (handleProxyRequest in proxy.go), for a request that
    runs without interference.  It is proved to be the program-counter machine of `Dispatcher` run
    on its own, so that machine's steps are the handler's steps. */
module LocalDispatch {
  import opened PeerState
  import opened Dispatcher
  import Text

  type Environment = nat -> Outcome

  /** How far one exchange gets: no target or no request to send; no connection; a connection that
      breaks before the response's head has been read; or a response. */
  datatype Exchange = Malformed | NoConnection | Broken | Answer(status: int, chunks: seq<string>)

  type Network = nat -> Exchange

  /** What the protocol machine sees of an exchange. */
  function OutcomeOf(x: Exchange): Outcome {
    match x
    case Malformed => Bad
    case Answer(status, _) => Good(status)
    case _ => Unreachable
  }

  function Outcomes(net: Network): Environment {
    (t: nat) => OutcomeOf(net(t))
  }

  /** The client's side of the connection: every status line and every piece of body sent. */
  class ResponseWriter {
    var statuses: seq<int>
    var body: seq<string>

    constructor ()
      ensures statuses == [] && body == []
    {
      statuses, body := [], [];
    }

    method WriteHeader(status: int)
      modifies this`statuses
      ensures statuses == old(statuses) + [status]
    {
      statuses := statuses + [status];
    }

    method Write(chunk: string)
      modifies this`body
      ensures body == old(body) + [chunk]
    {
      body := body + [chunk];
    }

    /** Copy a body piece by piece as it arrives. */
    method Pipe(chunks: seq<string>)
      modifies this`body
      ensures body == old(body) + chunks
    {
      for i := 0 to |chunks|
        invariant body == old(body) + chunks[..i]
      {
        Write(chunks[i]);
        assert chunks[..i + 1] == chunks[..i] + [chunks[i]];
      }
      assert chunks[..|chunks|] == chunks;
    }
  }

  /** The message of the dispatcher's own 502 (its JSON envelope is left out). */
  function GaveUpText(n: nat): string {
    "Proxy error: local vLLM unavailable and all " + Text.Itoa(PeerAttempts(n)) + " remote peer attempts failed"
  }

  /** The body that goes with the status: that of the last exchange, when its answer was passed on, or
      the dispatcher's own message. */
  predicate IsBody(body: seq<string>, r: Request, net: Network, calls: nat)
    requires r.pc.Done?
  {
    match r.pc.reply
    case Piped(status) => calls > 0 && net(calls - 1) == Answer(status, body)
    case Failed(_) => body == [GaveUpText(|r.peers|)]
    case Early(_) => body == []
  }

  /** Since the old state the client has received exactly one status line, the request's, and exactly
      the body that goes with it, if the request is done; and nothing otherwise. */
  twostate predicate Delivered(w: ResponseWriter, r: Request, net: Network, calls: nat)
    reads w
  {
    if r.pc.Done? then
      && w.statuses == old(w.statuses) + [r.pc.reply.status]
      && old(w.body) <= w.body && IsBody(w.body[|old(w.body)|..], r, net, calls)
    else
      w.statuses == old(w.statuses) && w.body == old(w.body)
  }

  /** Steps that perform an HTTP exchange and so use up one outcome. */
  predicate Exchanges(pc: PC) {
    pc.SlotCall? || pc.QueueCall? || pc.Remote? || pc.FinalCall?
    || pc.PrefillCall? || pc.DecodeCall? || pc.LocalCall?
  }

  datatype Finished = Finished(shared: Shared, r: Request, calls: nat)

  /** A request stepped to its end with nobody else moving; `t` counts the exchanges so far. */
  ghost function Solo(self: string, s: Shared, r: Request, env: Environment, t: nat): Finished
    requires RequestOk(r)
    decreases Rank(r)
  {
    if !Running(r) then Finished(s, r, t)
    else
      StepKeepsRequest(self, s, r, env(t));
      StepDescends(self, s, r, env(t));
      var e := StepRequest(self, s, r, env(t));
      Solo(self, e.shared, e.r, env, if Exchanges(r.pc) then t + 1 else t)
  }

  class LocalDispatcher {
    const self: string
    var vllmReady: bool
    var localBusy: bool
    var decodeIndex: nat

    ghost function Fields(): Shared
      reads this
    {
      Shared(vllmReady, localBusy, decodeIndex)
    }

    constructor (self: string)
      ensures this.self == self && Fields() == Shared(false, false, 0)
    {
      this.self := self;
      vllmReady, localBusy, decodeIndex := false, false, 0;
    }

    /** Pipe the request to the local vLLM.  A failure has sent nothing to the client, a success
        exactly the status and the body it got, and a vLLM that cannot be reached is no longer
        ready. */
    method ProxyToLocal(w: ResponseWriter, net: Network, t: nat) returns (ok: bool, status: int, calls: nat)
      modifies this`vllmReady, w
      ensures calls == if old(vllmReady) then t + 1 else t
      ensures ok <==> old(vllmReady) && net(t).Answer?
      ensures !ok ==> w.statuses == old(w.statuses) && w.body == old(w.body)
      ensures ok ==> status == net(t).status
      ensures ok ==> w.statuses == old(w.statuses) + [net(t).status] && w.body == old(w.body) + net(t).chunks
      ensures vllmReady == (old(vllmReady) && !net(t).NoConnection? && !net(t).Broken?)
    {
      ok, status, calls := false, 0, t;
      if !vllmReady {
        return;
      }
      calls := t + 1;
      var resp := net(t);
      if resp.Malformed? {
        return;
      }
      if resp.NoConnection? || resp.Broken? {
        vllmReady := false;
        return;
      }
      w.WriteHeader(resp.status);
      w.Pipe(resp.chunks);
      ok, status := true, resp.status;
    }

    /** Pipe the request to a peer.  A failure, a 5xx answer included, has sent nothing to the
        client, so the caller may try somebody else. */
    static method StreamToPeer(w: ResponseWriter, resp: Exchange) returns (ok: bool)
      modifies w
      ensures ok <==> resp.Answer? && resp.status < 500
      ensures !ok ==> w.statuses == old(w.statuses) && w.body == old(w.body)
      ensures ok ==> w.statuses == old(w.statuses) + [resp.status] && w.body == old(w.body) + resp.chunks
    {
      if resp.Malformed? {
        return false;
      }
      if resp.NoConnection? {
        return false;
      }
      if resp.Broken? {
        return false;
      }
      if resp.status >= 500 {
        return false;
      }
      w.WriteHeader(resp.status);
      w.Pipe(resp.chunks);
      return true;
    }

    /** PD-together mode.  The run is the machine's own, the slot is left as it was found, the client
        is sent exactly one status line, the one the machine says, and exactly the body of the
        exchange whose status that is (nothing at all if the handler panics), and since nobody else
        draws an index, giving up means every known peer was tried. */
    method HandleTogether(w: ResponseWriter, peers: seq<string>, top: Topology, net: Network)
      returns (r: Request, calls: nat)
      requires TogetherMode(top)
      modifies this, w
      ensures RequestOk(Arrived(peers, top)) && RequestOk(r) && !Running(r)
      ensures Finished(Fields(), r, calls) == Solo(self, old(Fields()), Arrived(peers, top), Outcomes(net), 0)
      ensures localBusy == old(localBusy)
      ensures Delivered(w, r, net, calls)
      ensures r.written == if r.pc.Done? then 1 else 0
      ensures r.pc == Done(Failed(502)) ==> forall k :: 0 <= k < |peers| ==> k in r.picks
    {
      ghost var goal := Goal(self, Fields(), Arrived(peers, top), Outcomes(net));
      r, calls := LocalFirst(w, peers, top, net, goal);
      if !r.pc.Done? {
        r, calls := Elsewhere(w, r, net, calls, goal);
      }
      Arrives(self, Fields(), r, calls, Outcomes(net), goal);
    }

    /** The remote attempts and, if they all fail, the local last resort. */
    method Elsewhere(w: ResponseWriter, start: Request, net: Network, t: nat, ghost goal: Finished)
      returns (r: Request, calls: nat)
      requires start.pc == Pick(1) && start.picks == []
      requires HeadsFor(self, Fields(), start, t, Outcomes(net), goal)
      modifies this`decodeIndex, this`vllmReady, w
      ensures HeadsFor(self, Fields(), r, calls, Outcomes(net), goal) && !Running(r)
      ensures Delivered(w, r, net, calls)
      ensures r.pc == Done(Failed(502)) ==> forall k :: 0 <= k < |start.peers| ==> k in r.picks
    {
      r, calls := RemoteAttempts(w, start, net, t, goal);
      if r.pc.FinalLoad? {
        r, calls := LastResort(w, r, net, calls, goal);
      }
    }

    /** The local-first part: the slot, or queueing when there is nowhere else to go. */
    method LocalFirst(w: ResponseWriter, peers: seq<string>, top: Topology, net: Network, ghost goal: Finished)
      returns (r: Request, calls: nat)
      requires TogetherMode(top)
      requires HeadsFor(self, Fields(), Arrived(peers, top), 0, Outcomes(net), goal)
      modifies this, w
      ensures localBusy == old(localBusy) && r.peers == peers && r.picks == []
      ensures HeadsFor(self, Fields(), r, calls, Outcomes(net), goal)
      ensures r.pc == Pick(1) || (r.pc.Done? && r.pc.reply.Piped?)
      ensures Delivered(w, r, net, calls)
    {
      ghost var s, env := Fields(), Outcomes(net);
      if vllmReady && !localBusy {
        SlotRun(self, s, peers, top, env, goal);
        localBusy := true;
        r := LocalCall(w, peers, top, net);
        localBusy := false;
        calls := 1;
      } else if vllmReady && |peers| == 0 {
        QueueRun(self, s, peers, top, env, goal);
        r := LocalCall(w, peers, top, net);
        calls := 1;
      } else {
        ElsewhereRun(self, s, peers, top, env, goal);
        r, calls := Request(Pick(1), peers, top, 0, []), 0;
      }
    }

    method LocalCall(w: ResponseWriter, peers: seq<string>, top: Topology, net: Network) returns (r: Request)
      requires vllmReady
      modifies this`vllmReady, w
      ensures Fields() == AfterCall(old(Fields()), Outcomes(net)(0))
      ensures r == AfterLocal(Arrived(peers, top), Outcomes(net)(0))
      ensures Delivered(w, r, net, 1)
    {
      var ok, status, _ := ProxyToLocal(w, net, 0);
      r := Request(if ok then Done(Piped(status)) else Pick(1), peers, top, if ok then 1 else 0, []);
    }

    /** At least three attempts, and at least one per peer. */
    method RemoteAttempts(w: ResponseWriter, start: Request, net: Network, t: nat, ghost goal: Finished)
      returns (r: Request, calls: nat)
      requires start.pc == Pick(1) && start.picks == []
      requires HeadsFor(self, Fields(), start, t, Outcomes(net), goal)
      modifies this`decodeIndex, w
      ensures HeadsFor(self, Fields(), r, calls, Outcomes(net), goal) && r.peers == start.peers
      ensures r.pc == FinalLoad || (r.pc.Done? && r.pc.reply.Piped?) || r.pc.Panicked?
      ensures r.pc == FinalLoad ==> forall k :: 0 <= k < |r.peers| ==> k in r.picks
      ensures Delivered(w, r, net, calls)
    {
      r, calls := Attempts(w, start, net, t, goal);
      if r.pc.Pick? {
        ExhaustedRun(self, Fields(), r, calls, Outcomes(net), goal);
        r := r.(pc := FinalLoad);
      }
    }

    method Attempts(w: ResponseWriter, start: Request, net: Network, t: nat, ghost goal: Finished)
      returns (r: Request, calls: nat)
      requires start.pc == Pick(1) && DrawnAlone(start, decodeIndex)
      requires HeadsFor(self, Fields(), start, t, Outcomes(net), goal)
      modifies this`decodeIndex, w
      ensures HeadsFor(self, Fields(), r, calls, Outcomes(net), goal) && DrawnAlone(r, decodeIndex)
      ensures r.peers == start.peers
      ensures r.pc == Pick(PeerAttempts(|r.peers|) + 1) || (r.pc.Done? && r.pc.reply.Piped?) || r.pc.Panicked?
      ensures Delivered(w, r, net, calls)
    {
      r, calls := start, t;
      var peerAttempts := if |start.peers| > MAX_RETRIES then |start.peers| else MAX_RETRIES;
      var attempt := 1;
      while attempt <= peerAttempts
        invariant 1 <= attempt <= peerAttempts + 1
        invariant HeadsFor(self, Fields(), r, calls, Outcomes(net), goal) && DrawnAlone(r, decodeIndex)
        invariant r.pc == Pick(attempt) && r.peers == start.peers
        invariant w.statuses == old(w.statuses) && w.body == old(w.body)
      {
        r, calls := OneAttempt(w, r, attempt, net, calls, goal);
        if r.pc.Done? || r.pc.Panicked? {
          return;
        }
        attempt := attempt + 1;
      }
    }

    /** Draw the next peer, if there is any, and forward the request to it. */
    method OneAttempt(w: ResponseWriter, r0: Request, attempt: nat, net: Network, t: nat, ghost goal: Finished)
      returns (r: Request, calls: nat)
      requires r0.pc == Pick(attempt) && attempt <= PeerAttempts(|r0.peers|)
      requires HeadsFor(self, Fields(), r0, t, Outcomes(net), goal) && DrawnAlone(r0, decodeIndex)
      modifies this`decodeIndex, w
      ensures HeadsFor(self, Fields(), r, calls, Outcomes(net), goal) && DrawnAlone(r, decodeIndex)
      ensures r.peers == r0.peers
      ensures r.pc == Pick(attempt + 1) || (r.pc.Done? && r.pc.reply.Piped?) || r.pc.Panicked?
      ensures Delivered(w, r, net, calls)
    {
      calls := t;
      if |r0.peers| == 0 {
        NobodyRun(self, Fields(), r0, t, Outcomes(net), goal);
        r := r0.(pc := Pick(attempt + 1));
        return;
      }
      r := DrawOnce(r0, attempt, Outcomes(net), t, goal);
      if r.pc.Remote? {
        r, calls := ForwardOnce(w, r, net, t, Fields(), goal);
      }
    }

    method DrawOnce(r0: Request, attempt: nat, ghost env: Environment, ghost t: nat, ghost goal: Finished)
      returns (r: Request)
      requires r0.pc == Pick(attempt) && attempt <= PeerAttempts(|r0.peers|) && r0.peers != []
      requires HeadsFor(self, Fields(), r0, t, env, goal) && DrawnAlone(r0, decodeIndex)
      modifies this`decodeIndex
      ensures HeadsFor(self, Fields(), r, t, env, goal) && DrawnAlone(r, decodeIndex)
      ensures r.peers == r0.peers && (r.pc == Remote(attempt) || r.pc.Panicked?)
    {
      DrawRun(self, Fields(), r0, t, env, goal);
      ghost var drawn := Draw1(Fields(), |r0.peers|);
      r := DrawPeer(r0, attempt);
      assert Fields() == drawn;
    }

    method ForwardOnce(w: ResponseWriter, r0: Request, net: Network, t: nat, ghost s: Shared, ghost goal: Finished)
      returns (r: Request, calls: nat)
      requires r0.pc.Remote? && HeadsFor(self, s, r0, t, Outcomes(net), goal) && DrawnAlone(r0, s.index)
      modifies w
      ensures HeadsFor(self, s, r, calls, Outcomes(net), goal) && DrawnAlone(r, s.index)
      ensures r.peers == r0.peers
      ensures r.pc == Pick(r0.pc.attempt + 1) || (r.pc.Done? && r.pc.reply.Piped?)
      ensures Delivered(w, r, net, calls)
    {
      RemoteRun(self, s, r0, t, Outcomes(net), goal);
      r := Forward(w, r0, net, t);
      calls := t + 1;
    }

    /** The index moves under the lock; logging the target needs eight bytes of its ID. */
    method DrawPeer(start: Request, attempt: nat) returns (r: Request)
      requires start.pc == Pick(attempt) && start.peers != []
      modifies this`decodeIndex
      ensures decodeIndex == (old(decodeIndex) + 1) % |start.peers| && r == AfterDraw(start, decodeIndex)
    {
      decodeIndex := (decodeIndex + 1) % |start.peers|;
      var pc := if ShortID(start.peers[decodeIndex]) then Panicked else Remote(attempt);
      r := start.(pc := pc, picks := start.picks + [decodeIndex]);
    }

    method Forward(w: ResponseWriter, start: Request, net: Network, t: nat) returns (r: Request)
      requires start.pc.Remote?
      modifies w
      ensures r == AfterRemote(start, OutcomeOf(net(t)))
      ensures Delivered(w, r, net, t + 1)
    {
      var resp := net(t);
      var ok := StreamToPeer(w, resp);
      if ok {
        r := start.(pc := Done(Piped(resp.status)), written := start.written + 1);
      } else {
        r := start.(pc := Pick(start.pc.attempt + 1));
      }
    }

    /** vLLM may still be ready even though nobody else could be reached. */
    method LastResort(w: ResponseWriter, start: Request, net: Network, t: nat, ghost goal: Finished)
      returns (r: Request, calls: nat)
      requires start.pc == FinalLoad && HeadsFor(self, Fields(), start, t, Outcomes(net), goal)
      modifies this`vllmReady, w
      ensures HeadsFor(self, Fields(), r, calls, Outcomes(net), goal)
      ensures r.pc.Done? && r.picks == start.picks && Delivered(w, r, net, calls)
    {
      FinalRun(self, Fields(), start, t, Outcomes(net), goal);
      r, calls := FinalAttempt(w, start, net, t);
    }

    method FinalAttempt(w: ResponseWriter, start: Request, net: Network, t: nat) returns (r: Request, calls: nat)
      modifies this`vllmReady, w
      ensures r == AfterFinal(start, old(Fields()), OutcomeOf(net(t))) && calls == if old(vllmReady) then t + 1 else t
      ensures Fields() == if old(vllmReady) then AfterCall(old(Fields()), OutcomeOf(net(t))) else old(Fields())
      ensures Delivered(w, r, net, calls)
    {
      var ok, status := false, 0;
      calls := t;
      if vllmReady {
        ok, status, calls := ProxyToLocal(w, net, t);
      }
      if !ok {
        w.WriteHeader(502);
        w.Write(GaveUpText(|start.peers|));
      }
      r := start.(pc := Done(if ok then Piped(status) else Failed(502)), written := start.written + 1);
    }
  }

  /** A request about to look at the local vLLM. */
  function Arrived(peers: seq<string>, top: Topology): Request {
    Request(FirstLoad, peers, top, 0, [])
  }

  /** Where a local call leaves the fields and the request. */
  function AfterCall(s: Shared, o: Outcome): Shared {
    s.(ready := !o.Unreachable?)
  }

  function AfterLocal(r: Request, o: Outcome): Request {
    if o.Good? then r.(pc := Done(Piped(o.status)), written := r.written + 1) else r.(pc := Pick(1))
  }

  /** The draws are one step apart and the last one is where the shared index stands. */
  ghost predicate DrawnAlone(r: Request, index: nat) {
    && (r.peers != [] ==> Consecutive(r.picks, |r.peers|))
    && (r.picks != [] ==> r.picks[|r.picks| - 1] == index)
  }

  function AfterDraw(r: Request, index: nat): Request
    requires r.pc.Pick? && index < |r.peers|
  {
    r.(pc := if ShortID(r.peers[index]) then Panicked else Remote(r.pc.attempt), picks := r.picks + [index])
  }

  lemma DrawnNext(r: Request, index: nat)
    requires r.pc.Pick? && r.peers != [] && DrawnAlone(r, index)
    ensures
      var next := (index + 1) % |r.peers|;
      DrawnAlone(AfterDraw(r, next), next)
  {
    ConsecutiveSnoc(r.picks, |r.peers|, (index + 1) % |r.peers|);
  }

  /** Run alone from here, the request ends up at `goal`. */
  ghost predicate HeadsFor(self: string, s: Shared, r: Request, t: nat, env: Environment, goal: Finished) {
    RequestOk(r) && Solo(self, s, r, env, t) == goal
  }

  ghost function Goal(self: string, s: Shared, r: Request, env: Environment): (goal: Finished)
    requires r.pc == FirstLoad && r.written == 0 && r.picks == [] && TogetherMode(r.top)
    ensures HeadsFor(self, s, r, 0, env, goal)
  {
    Solo(self, s, r, env, 0)
  }

  lemma Arrives(self: string, s: Shared, r: Request, t: nat, env: Environment, goal: Finished)
    requires HeadsFor(self, s, r, t, env, goal) && !Running(r)
    ensures goal == Finished(s, r, t) && RequestOk(r)
    ensures r.written == if r.pc.Done? then 1 else 0
  {}

  /** One step. */
  lemma {:induction false} SoloStep(self: string, s: Shared, r: Request, t: nat, env: Environment, goal: Finished,
                                    e: Effect)
    requires HeadsFor(self, s, r, t, env, goal) && Running(r) && e == StepRequest(self, s, r, env(t))
    ensures HeadsFor(self, e.shared, e.r, if Exchanges(r.pc) then t + 1 else t, env, goal)
  {
    StepKeepsRequest(self, s, r, env(t));
  }

  lemma SlotRun(self: string, s: Shared, peers: seq<string>, top: Topology, env: Environment, goal: Finished)
    requires TogetherMode(top) && s.ready && !s.busy && HeadsFor(self, s, Arrived(peers, top), 0, env, goal)
    ensures HeadsFor(self, AfterCall(s, env(0)), AfterLocal(Arrived(peers, top), env(0)), 1, env, goal)
  {
    var r, held := Arrived(peers, top), s.(busy := true);
    SoloStep(self, s, r, 0, env, goal, Goto(s, r, Swap));
    SoloStep(self, s, r.(pc := Swap), 0, env, goal, Goto(held, r, SlotCheck));
    SoloStep(self, held, r.(pc := SlotCheck), 0, env, goal, Goto(held, r, SlotCall));
    SlotCallRun(self, held, r.(pc := SlotCall), env, goal);
  }

  lemma SlotCallRun(self: string, s: Shared, r: Request, env: Environment, goal: Finished)
    requires r.pc == SlotCall && s.ready && s.busy && HeadsFor(self, s, r, 0, env, goal)
    ensures HeadsFor(self, AfterCall(s, env(0)).(busy := false), AfterLocal(r, env(0)), 1, env, goal)
  {
    var o := env(0);
    var r' := if o.Good? then r.(pc := SlotRelease(true, o.status), written := r.written + 1)
              else r.(pc := SlotRelease(false, 0));
    SoloStep(self, s, r, 0, env, goal, Effect(AfterCall(s, o), r', None));
    SoloStep(self, AfterCall(s, o), r', 1, env, goal,
             Effect(AfterCall(s, o).(busy := false), AfterLocal(r, o), None));
  }

  lemma QueueRun(self: string, s: Shared, peers: seq<string>, top: Topology, env: Environment, goal: Finished)
    requires TogetherMode(top) && s.ready && s.busy && peers == []
    requires HeadsFor(self, s, Arrived(peers, top), 0, env, goal)
    ensures HeadsFor(self, AfterCall(s, env(0)), AfterLocal(Arrived(peers, top), env(0)), 1, env, goal)
  {
    var r := Arrived(peers, top);
    SoloStep(self, s, r, 0, env, goal, Goto(s, r, Swap));
    SoloStep(self, s, r.(pc := Swap), 0, env, goal, Goto(s, r, SecondLoad));
    QueueCallRun(self, s, r.(pc := SecondLoad), env, goal);
  }

  lemma QueueCallRun(self: string, s: Shared, r: Request, env: Environment, goal: Finished)
    requires r.pc == SecondLoad && s.ready && r.peers == [] && HeadsFor(self, s, r, 0, env, goal)
    ensures HeadsFor(self, AfterCall(s, env(0)), AfterLocal(r, env(0)), 1, env, goal)
  {
    SoloStep(self, s, r, 0, env, goal, Goto(s, r, QueueCheck));
    SoloStep(self, s, r.(pc := QueueCheck), 0, env, goal, Goto(s, r, QueueCall));
    SoloStep(self, s, r.(pc := QueueCall), 0, env, goal, Effect(AfterCall(s, env(0)), AfterLocal(r, env(0)), None));
  }

  lemma ElsewhereRun(self: string, s: Shared, peers: seq<string>, top: Topology, env: Environment, goal: Finished)
    requires TogetherMode(top) && (!s.ready || (s.busy && peers != []))
    requires HeadsFor(self, s, Arrived(peers, top), 0, env, goal)
    ensures HeadsFor(self, s, Arrived(peers, top).(pc := Pick(1)), 0, env, goal)
  {
    var r := Arrived(peers, top);
    if s.ready {
      SoloStep(self, s, r, 0, env, goal, Goto(s, r, Swap));
      SoloStep(self, s, r.(pc := Swap), 0, env, goal, Goto(s, r, SecondLoad));
    } else {
      SoloStep(self, s, r, 0, env, goal, Goto(s, r, SecondLoad));
    }
    SoloStep(self, s, r.(pc := SecondLoad), 0, env, goal, Goto(s, r, Pick(1)));
  }

  lemma DrawRun(self: string, s: Shared, r: Request, t: nat, env: Environment, goal: Finished)
    requires HeadsFor(self, s, r, t, env, goal) && DrawnAlone(r, s.index)
    requires r.pc.Pick? && r.peers != [] && r.pc.attempt <= PeerAttempts(|r.peers|)
    ensures
      var s' := Draw1(s, |r.peers|);
      HeadsFor(self, s', AfterDraw(r, s'.index), t, env, goal) && DrawnAlone(AfterDraw(r, s'.index), s'.index)
  {
    DrawnNext(r, s.index);
    var s' := Draw1(s, |r.peers|);
    SoloStep(self, s, r, t, env, goal, Effect(s', AfterDraw(r, s'.index), Some(|r.peers|)));
  }

  function AfterRemote(r: Request, o: Outcome): Request
    requires r.pc.Remote?
  {
    if o.Good? && o.status < 500 then r.(pc := Done(Piped(o.status)), written := r.written + 1)
    else r.(pc := Pick(r.pc.attempt + 1))
  }

  lemma RemoteRun(self: string, s: Shared, r: Request, t: nat, env: Environment, goal: Finished)
    requires HeadsFor(self, s, r, t, env, goal) && r.pc.Remote?
    ensures HeadsFor(self, s, AfterRemote(r, env(t)), t + 1, env, goal)
  {
    SoloStep(self, s, r, t, env, goal, StepRequest(self, s, r, env(t)));
  }

  lemma NobodyRun(self: string, s: Shared, r: Request, t: nat, env: Environment, goal: Finished)
    requires HeadsFor(self, s, r, t, env, goal) && r.pc.Pick? && r.peers == [] && r.pc.attempt <= MAX_RETRIES
    ensures HeadsFor(self, s, r.(pc := Pick(r.pc.attempt + 1)), t, env, goal)
  {
    SoloStep(self, s, r, t, env, goal, StepRequest(self, s, r, env(t)));
  }

  /** All attempts made, and since nobody else drew in between, every peer tried. */
  lemma ExhaustedRun(self: string, s: Shared, r: Request, t: nat, env: Environment, goal: Finished)
    requires HeadsFor(self, s, r, t, env, goal) && DrawnAlone(r, s.index)
    requires r.pc == Pick(PeerAttempts(|r.peers|) + 1)
    ensures HeadsFor(self, s, r.(pc := FinalLoad), t, env, goal)
    ensures forall k :: 0 <= k < |r.peers| ==> k in r.picks
  {
    SoloStep(self, s, r, t, env, goal, StepRequest(self, s, r, env(t)));
    forall k | 0 <= k < |r.peers| ensures k in r.picks {
      StepsCover(r.picks, |r.peers|, k);
    }
  }

  function AfterFinal(r: Request, s: Shared, o: Outcome): Request {
    r.(pc := Done(if s.ready && o.Good? then Piped(o.status) else Failed(502)), written := r.written + 1)
  }

  lemma FinalRun(self: string, s: Shared, r: Request, t: nat, env: Environment, goal: Finished)
    requires HeadsFor(self, s, r, t, env, goal) && r.pc == FinalLoad
    ensures HeadsFor(self, if s.ready then AfterCall(s, env(t)) else s, AfterFinal(r, s, env(t)),
                     if s.ready then t + 1 else t, env, goal)
  {
    if s.ready {
      SoloStep(self, s, r, t, env, goal, Goto(s, r, FinalCheck));
      SoloStep(self, s, r.(pc := FinalCheck), t, env, goal, Goto(s, r, FinalCall));
      SoloStep(self, s, r.(pc := FinalCall), t, env, goal,
               Effect(AfterCall(s, env(t)), AfterFinal(r, s, env(t)), None));
    } else {
      SoloStep(self, s, r, t, env, goal, Effect(s, AfterFinal(r, s, env(t)), None));
    }
  }
}
