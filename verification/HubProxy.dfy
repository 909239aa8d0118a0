/** The hub's dispatcher (server_proxy.go): the backend lists, round robin and the contribution
    credits of one client request over all its retries.  Transport, JSON and the clock are the
    environment: a reply is an outcome plus the usage it reports. */
module HubProxy {
  import opened PeerState
  import opened Ranking
  import opened PeerCacheStore

  datatype Backend = Backend(peerID: string, ipAddress: string, bootstrapAddr: string, engineID: string)

  function BackendOf(p: PeerData): Backend {
    Backend(p.peerID, p.ipAddress, p.bootstrapAddr, p.engineID)
  }

  function Backends(ps: seq<PeerData>): seq<Backend> {
    seq(|ps|, i requires 0 <= i < |ps| => BackendOf(ps[i]))
  }

  /** Each backend carries its peer's own identity and endpoints. */
  lemma BackendsCarry(ps: seq<PeerData>, i: nat)
    requires i < |ps|
    ensures |Backends(ps)| == |ps|
    ensures Backends(ps)[i].peerID == ps[i].peerID && Backends(ps)[i].ipAddress == ps[i].ipAddress
    ensures Backends(ps)[i].bootstrapAddr == ps[i].bootstrapAddr && Backends(ps)[i].engineID == ps[i].engineID
  {}

  lemma BackendsAppend(ps: seq<PeerData>, p: PeerData)
    ensures Backends(ps + [p]) == Backends(ps) + [BackendOf(p)]
  {}

  /** What came back from a backend.  `parses` says the body decoded as a usage object; `failed`
      says that object carried an error. */
  datatype Reply =
    | Transport(clientGone: bool)
    | Body(parses: bool, failed: bool, inTokens: int, outTokens: int)

  /** The prefill stage only looks for an error key. */
  datatype PrefillReply = PrefillTransport(clientGone: bool) | PrefillBody(refused: bool)

  type BackendLists = (seq<Backend>, seq<Backend>)

  /** One retry as the environment decides it.  Before its pick the backends may have been reloaded
      and other requests may have moved the shared index, and before its credit (the attempt does
      not look at the cache any earlier) anything may have happened to the cache. */
  datatype Attempt = Attempt(
    reload: Option<BackendLists>, index: nat, others: seq<Op>,
    together: bool, prefill: PrefillReply, reply: Reply)

  function ListsFor(a: Attempt, before: BackendLists): BackendLists {
    if a.reload.Some? then a.reload.value else before
  }

  /** Everything that others did to the cache, in order. */
  function OthersOf(attempts: seq<Attempt>): seq<Op> {
    if attempts == [] then [] else OthersOf(attempts[..|attempts| - 1]) + attempts[|attempts| - 1].others
  }

  /** The mode has nobody to send a request to. */
  predicate NoBackends(together: bool, lists: BackendLists) {
    lists.0 == [] || (!together && lists.1 == [])
  }

  /** The lists after these attempts' reloads. */
  function ListsAfter(attempts: seq<Attempt>, before: BackendLists): BackendLists {
    if attempts == [] then before
    else ListsFor(attempts[|attempts| - 1], ListsAfter(attempts[..|attempts| - 1], before))
  }

  datatype Incoming = Gone | Options | NotPost | Unreadable | BadJson | Post

  datatype Usage = Usage(inTokens: int, outTokens: int)

  /** The usage that is put on record, defaults included. */
  function TogetherUsage(r: Reply): Usage
    requires r.Body?
  {
    if r.parses && r.inTokens == 0 && r.outTokens == 0 then Usage(20, 30)
    else Usage(r.inTokens, r.outTokens)
  }

  function SplitUsage(r: Reply): Usage
    requires r.Body?
  {
    Usage(if r.parses && r.inTokens > 0 then r.inTokens else 20,
          if r.parses && r.outTokens > 0 then r.outTokens else 80)
  }

  /** The credits of a request served by one backend, and of one served by a prefill/decode pair. */
  function TogetherCredits(id: string, r: Reply): seq<Op>
    requires r.Body?
  {
    if r.parses then [CreditDetail(id, 1, TogetherUsage(r).inTokens, TogetherUsage(r).outTokens)]
    else [Credit(id, 1, 50)]
  }

  function SplitCredits(prefillID: string, decodeID: string, r: Reply): seq<Op>
    requires r.Body?
  {
    [CreditDetail(prefillID, 1, SplitUsage(r).inTokens, 0), CreditDetail(decodeID, 1, 0, SplitUsage(r).outTokens)]
  }

  predicate Served(r: Reply) {
    r.Body? && !(r.parses && r.failed)
  }

  predicate AttemptServed(a: Attempt) {
    Served(a.reply) && (a.together || a.prefill == PrefillBody(false))
  }

  /** The client left while an exchange of the attempt was under way. */
  predicate AttemptGone(a: Attempt) {
    var left := a.reply.Transport? && a.reply.clientGone;
    if a.together then left
    else (a.prefill.PrefillTransport? && a.prefill.clientGone) || (a.prefill == PrefillBody(false) && left)
  }

  /** How an attempt with these lists ends: with a response, or by making way for the next one. */
  function Verdict(a: Attempt, lists: BackendLists): Option<int> {
    if NoBackends(a.together, lists) then Some(503)
    else if AttemptGone(a) then Some(499)
    else if AttemptServed(a) then Some(200)
    else None
  }

  /** The credits of a served attempt: to the backends one past the index it found. */
  function CreditsOf(a: Attempt, lists: BackendLists): seq<Op>
    requires !NoBackends(a.together, lists) && AttemptServed(a)
  {
    if a.together then TogetherCredits(lists.0[(a.index + 1) % |lists.0|].peerID, a.reply)
    else SplitCredits(lists.0[0].peerID, lists.1[(a.index + 1) % |lists.1|].peerID, a.reply)
  }

  class ProxyServer {
    var prefillBackends: seq<Backend>
    var decodeBackends: seq<Backend>
    var decodeIndex: nat

    constructor ()
      ensures prefillBackends == decodeBackends == [] && decodeIndex == 0
    {
      prefillBackends, decodeBackends, decodeIndex := [], [], 0;
    }

    /** Recompute both lists from a snapshot.  An empty snapshot, or one with no usable peer, keeps
        the old lists. */
    method ReloadBackends(snapshot: seq<PeerData>, prefillCount: int, decodeCount: int, decodes: PeerData -> bool)
      modifies this`prefillBackends, this`decodeBackends
      ensures Usable(snapshot) == [] ==>
        prefillBackends == old(prefillBackends) && decodeBackends == old(decodeBackends)
      ensures Usable(snapshot) != [] ==>
        && prefillBackends == Backends(PrefillPeers(Usable(snapshot), prefillCount, decodeCount, decodes))
        && decodeBackends == Backends(DecodePeers(Usable(snapshot), prefillCount, decodeCount, decodes))
      ensures prefillCount == 0 && decodeCount != 0 && old(prefillBackends) == [] ==> prefillBackends == []
    {
      if |snapshot| == 0 {
        return;
      }
      var usable: seq<PeerData> := [];
      for i := 0 to |snapshot|
        invariant usable == Usable(snapshot[..i])
      {
        assert snapshot[..i + 1][..i] == snapshot[..i];
        if snapshot[i].role == ROLE_RELAY {
          continue;
        }
        if snapshot[i].gpuInfo.Encoded? && snapshot[i].gpuInfo.info.summary == NO_GPU {
          continue;
        }
        usable := usable + [snapshot[i]];
      }
      assert snapshot[..|snapshot|] == snapshot;
      if |usable| == 0 {
        return;
      }
      var newPrefill, newDecode := SplitLoop(usable, prefillCount, decodeCount, decodes);
      if |newDecode| == 0 && |newPrefill| > 0 {
        newDecode := newPrefill;
      }
      prefillBackends := newPrefill;
      decodeBackends := newDecode;
    }

    /** The index-switch loop over the usable peers equals the closed form. */
    static method SplitLoop(usable: seq<PeerData>, prefillCount: int, decodeCount: int, decodes: PeerData -> bool)
      returns (newPrefill: seq<Backend>, newDecode: seq<Backend>)
      ensures newPrefill == Backends(PrefillPeers(usable, prefillCount, decodeCount, decodes))
      ensures newDecode == Backends(DedicatedDecodePeers(usable, prefillCount, decodeCount, decodes))
    {
      newPrefill, newDecode := [], [];
      var together := prefillCount == 0 && decodeCount == 0;
      for i := 0 to |usable|
        invariant IsSplit(usable[..i], prefillCount, decodeCount, decodes, newPrefill, newDecode)
      {
        var p := usable[i];
        ghost var front, back := newPrefill, newDecode;
        if decodes(p) {
          newPrefill, newDecode := Place(BackendOf(p), i, together, prefillCount, decodeCount, newPrefill, newDecode);
        }
        SplitNext(usable[..i], p, prefillCount, decodeCount, decodes, front, back, newPrefill, newDecode);
        assert usable[..i + 1] == usable[..i] + [p];
      }
      assert usable[..|usable|] == usable;
    }

    /** The switch: where the decodable peer at index `i` goes. */
    static method Place(b: Backend, i: nat, together: bool, prefillCount: int, decodeCount: int,
                        prefills: seq<Backend>, decodes: seq<Backend>)
      returns (newPrefill: seq<Backend>, newDecode: seq<Backend>)
      ensures newPrefill == prefills + (if together || i < prefillCount then [b] else [])
      ensures newDecode == decodes +
        (if !together && i >= prefillCount && !(decodeCount > 0 && |decodes| >= decodeCount) then [b] else [])
    {
      newPrefill, newDecode := prefills, decodes;
      if together {
        newPrefill := newPrefill + [b];
      } else if i < prefillCount {
        newPrefill := newPrefill + [b];
      } else if decodeCount > 0 && |newDecode| >= decodeCount {
      } else {
        newDecode := newDecode + [b];
      }
    }

    /** Round robin under the lock. */
    method Pick(n: nat) returns (k: nat)
      requires n > 0
      modifies this`decodeIndex
      ensures k == decodeIndex == (old(decodeIndex) + 1) % n < n
    {
      decodeIndex := (decodeIndex + 1) % n;
      k := decodeIndex;
    }

    /** One PD-together attempt.  `done` means a response was written with `status`. */
    method DispatchPDTogether(cache: PeerCache, reply: Reply)
      returns (done: bool, status: int, credits: seq<Op>)
      requires cache.Valid()
      modifies this`decodeIndex, cache
      ensures cache.Valid() && cache.Abs() == ApplyAll(old(cache.Abs()), credits)
      ensures decodeIndex ==
        if prefillBackends == [] then old(decodeIndex) else (old(decodeIndex) + 1) % |prefillBackends|
      ensures done ==> status in {200, 499, 503}
      ensures done && status == 503 <==> prefillBackends == []
      ensures done && status == 499 <==> prefillBackends != [] && reply.Transport? && reply.clientGone
      ensures done && status == 200 <==> prefillBackends != [] && reply.Body? && !(reply.parses && reply.failed)
      ensures done && status == 200 ==> credits == TogetherCredits(prefillBackends[decodeIndex].peerID, reply)
      ensures !(done && status == 200) ==> credits == []
    {
      credits := [];
      if |prefillBackends| == 0 {
        return true, 503, [];
      }
      var k := Pick(|prefillBackends|);
      var backend := prefillBackends[k];
      if reply.Transport? {
        if reply.clientGone {
          return true, 499, [];
        }
        return false, 0, [];
      }
      if reply.parses {
        if reply.failed {
          return false, 0, [];
        }
        var pIn, pOut := reply.inTokens, reply.outTokens;
        if pIn == 0 && pOut == 0 {
          pIn, pOut := 20, 30;
        }
        cache.IncrementTokensDetail(backend.peerID, 1, pIn, pOut);
        credits := [CreditDetail(backend.peerID, 1, pIn, pOut)];
      } else {
        cache.IncrementContribution(backend.peerID, 1, 50);
        credits := [Credit(backend.peerID, 1, 50)];
      }
      ApplyTwo(old(cache.Abs()), credits[0], credits[0]);
      return true, 200, credits;
    }

    /** One two-stage attempt. */
    method DispatchPDSplit(cache: PeerCache, prefill: PrefillReply, reply: Reply)
      returns (done: bool, status: int, credits: seq<Op>)
      requires cache.Valid()
      modifies this`decodeIndex, cache
      ensures cache.Valid() && cache.Abs() == ApplyAll(old(cache.Abs()), credits)
      ensures decodeIndex ==
        if prefillBackends == [] || decodeBackends == [] then old(decodeIndex)
        else (old(decodeIndex) + 1) % |decodeBackends|
      ensures done ==> status in {200, 499, 503}
      ensures done && status == 503 <==> prefillBackends == [] || decodeBackends == []
      ensures done && status == 499 <==>
        && prefillBackends != [] && decodeBackends != []
        && ((prefill.PrefillTransport? && prefill.clientGone)
            || (prefill == PrefillBody(false) && reply.Transport? && reply.clientGone))
      ensures done && status == 200 <==>
        && prefillBackends != [] && decodeBackends != []
        && prefill == PrefillBody(false) && reply.Body? && !(reply.parses && reply.failed)
      ensures done && status == 200 ==>
        credits == SplitCredits(prefillBackends[0].peerID, decodeBackends[decodeIndex].peerID, reply)
      ensures !(done && status == 200) ==> credits == []
    {
      if |prefillBackends| == 0 || |decodeBackends| == 0 {
        return true, 503, [];
      }
      var prefillBackend := prefillBackends[0];
      var k := Pick(|decodeBackends|);
      var decodeBackend := decodeBackends[k];
      if prefill.PrefillTransport? {
        if prefill.clientGone {
          return true, 499, [];
        }
        return false, 0, [];
      }
      if prefill.refused {
        return false, 0, [];
      }
      if reply.Transport? {
        if reply.clientGone {
          return true, 499, [];
        }
        return false, 0, [];
      }
      var pIn, pOut := 20, 80;
      if reply.parses {
        if reply.failed {
          return false, 0, [];
        }
        if reply.inTokens > 0 {
          pIn := reply.inTokens;
        }
        if reply.outTokens > 0 {
          pOut := reply.outTokens;
        }
      }
      cache.IncrementTokensDetail(prefillBackend.peerID, 1, pIn, 0);
      cache.IncrementTokensDetail(decodeBackend.peerID, 1, 0, pOut);
      credits := [CreditDetail(prefillBackend.peerID, 1, pIn, 0), CreditDetail(decodeBackend.peerID, 1, 0, pOut)];
      ApplyTwo(old(cache.Abs()), credits[0], credits[1]);
      return true, 200, credits;
    }

    /** The two lists. */
    function Lists(): BackendLists
      reads this
    {
      (prefillBackends, decodeBackends)
    }

    /** One attempt in the mode that is configured at that moment, after whatever others did. */
    method DispatchOnce(cache: PeerCache, a: Attempt) returns (done: bool, status: int, credits: seq<Op>)
      requires cache.Valid()
      modifies this, cache
      ensures cache.Valid() && cache.Abs() == ApplyAll(ApplyAll(old(cache.Abs()), a.others), credits)
      ensures Lists() == ListsFor(a, old(Lists()))
      ensures Verdict(a, Lists()) == if done then Some(status) else None
      ensures credits == if done && status == 200 then CreditsOf(a, Lists()) else []
    {
      if a.reload.Some? {
        prefillBackends, decodeBackends := a.reload.value.0, a.reload.value.1;
      }
      decodeIndex := a.index;
      cache.PerformAll(a.others);
      if a.together {
        done, status, credits := DispatchPDTogether(cache, a.reply);
      } else {
        done, status, credits := DispatchPDSplit(cache, a.prefill, a.reply);
      }
    }

    /** A client request with up to three attempts, of which `tried` are made.  All but the last are
        made in vain, and the last one decides: 503 exactly if it found no backends, 499 exactly if
        the client left, 200 exactly if it was served, and 502 if all three were made in vain.  The
        credits are those of the attempt that ended in 200, to the backends it picked from the lists
        of that moment, and none otherwise, whatever others do to cache, lists and index. */
    method HandleProxyRequest(cache: PeerCache, incoming: Incoming, attempts: seq<Attempt>)
      returns (status: int, credits: seq<Op>, tried: nat)
      requires cache.Valid() && |attempts| == 3
      modifies this, cache
      ensures cache.Valid() && tried <= 3
      ensures cache.Abs() == ApplyAll(ApplyAll(old(cache.Abs()), OthersOf(attempts[..tried])), credits)
      ensures Lists() == ListsAfter(attempts[..tried], old(Lists()))
      ensures !incoming.Post? ==> tried == 0 && credits == []
      ensures (incoming.Gone? ==> status == 499) && (incoming.Options? ==> status == 200)
      ensures (incoming.NotPost? ==> status == 405) && (incoming.Unreadable? || incoming.BadJson? ==> status == 400)
      ensures incoming.Post? ==> tried > 0 && Decides(attempts, tried, old(Lists()), status)
      ensures incoming.Post? ==> forall j :: 0 <= j < tried - 1 ==> !AttemptServed(attempts[j])
      ensures incoming.Post? && status == 502 ==> tried == 3 && forall a :: a in attempts ==> !AttemptServed(a)
      ensures incoming.Post? && NoBackends(attempts[0].together, ListsFor(attempts[0], old(Lists()))) ==>
        status == 503 && tried == 1
      ensures incoming.Post? ==>
        var a := attempts[tried - 1];
        && (status == 503 <==> NoBackends(a.together, Lists()))
        && (status == 499 <==> !NoBackends(a.together, Lists()) && AttemptGone(a))
        && (status == 200 <==> !NoBackends(a.together, Lists()) && AttemptServed(a))
        && credits == (if status == 200 then CreditsOf(a, Lists()) else [])
    {
      match incoming
      case Gone => return 499, [], 0;
      case Options => return 200, [], 0;
      case NotPost => return 405, [], 0;
      case Unreadable => return 400, [], 0;
      case BadJson => return 400, [], 0;
      case Post =>
        status, credits, tried := Retry(cache, attempts);
        DecidesMeans(attempts, tried, old(Lists()), status);
    }

    method Retry(cache: PeerCache, attempts: seq<Attempt>) returns (status: int, credits: seq<Op>, tried: nat)
      requires cache.Valid() && |attempts| == 3
      modifies this, cache
      ensures cache.Valid() && 0 < tried <= 3
      ensures cache.Abs() == ApplyAll(ApplyAll(old(cache.Abs()), OthersOf(attempts[..tried])), credits)
      ensures Lists() == ListsAfter(attempts[..tried], old(Lists()))
      ensures Decides(attempts, tried, old(Lists()), status)
      ensures credits == if status == 200 then CreditsOf(attempts[tried - 1], Lists()) else []
    {
      credits, tried := [], 0;
      ghost var c, first := cache.Abs(), Lists();
      var done := false;
      while tried < 3
        invariant tried <= 3 && cache.Valid()
        invariant StillTrying(attempts, tried, c, first, cache.Abs(), Lists())
        invariant credits == []
      {
        done, status, credits := TryOnce(cache, attempts, tried, c, first);
        tried := tried + 1;
        if done {
          return;
        }
      }
      AllInVain(attempts, first);
      status := 502;
    }

    method TryOnce(cache: PeerCache, attempts: seq<Attempt>, k: nat, ghost c: Cache, ghost first: BackendLists)
      returns (done: bool, status: int, credits: seq<Op>)
      requires cache.Valid() && k < |attempts| && StillTrying(attempts, k, c, first, cache.Abs(), Lists())
      modifies this, cache
      ensures cache.Valid()
      ensures !done ==> StillTrying(attempts, k + 1, c, first, cache.Abs(), Lists()) && credits == []
      ensures done ==>
        && cache.Abs() == ApplyAll(ApplyAll(c, OthersOf(attempts[..k + 1])), credits)
        && Lists() == ListsAfter(attempts[..k + 1], first)
        && Decides(attempts, k + 1, first, status)
        && credits == if status == 200 then CreditsOf(attempts[k], Lists()) else []
    {
      OneMore(attempts, k, first);
      ApplyAppend(c, OthersOf(attempts[..k]), attempts[k].others);
      done, status, credits := DispatchOnce(cache, attempts[k]);
    }

    /** `k` picks from a list of `n`, whoever makes them. */
    method PickMany(n: nat, k: nat) returns (picked: seq<nat>)
      requires n > 0
      modifies this`decodeIndex
      ensures picked == Picks(old(decodeIndex), n, k)
      ensures k > 0 ==> decodeIndex == Last(picked)
    {
      picked := [];
      for i := 0 to k
        invariant picked == Picks(old(decodeIndex), n, i)
        invariant decodeIndex == if i == 0 then old(decodeIndex) else Last(picked)
      {
        var p := Pick(n);
        picked := picked + [p];
      }
    }
  }

  lemma OneMore(attempts: seq<Attempt>, k: nat, first: BackendLists)
    requires k < |attempts|
    ensures OthersOf(attempts[..k + 1]) == OthersOf(attempts[..k]) + attempts[k].others
    ensures ListsAfter(attempts[..k + 1], first) == ListsFor(attempts[k], ListsAfter(attempts[..k], first))
  {
    assert attempts[..k + 1][..k] == attempts[..k];
  }

  /** Each of the first `k` attempts, with the lists it found, made way for the next. */
  ghost predicate InVain(attempts: seq<Attempt>, k: nat, first: BackendLists)
    requires k <= |attempts|
  {
    forall j :: 0 <= j < k ==> Verdict(attempts[j], ListsAfter(attempts[..j + 1], first)) == None
  }

  /** `status` is what the attempt numbered `tried` makes of a request all of whose earlier attempts
      were in vain, or 502 when all were. */
  ghost predicate Decides(attempts: seq<Attempt>, tried: nat, first: BackendLists, status: int)
    requires 0 < tried <= |attempts|
  {
    && InVain(attempts, tried - 1, first)
    && match Verdict(attempts[tried - 1], ListsAfter(attempts[..tried], first))
       case Some(verdict) => status == verdict
       case None => status == 502 && tried == |attempts|
  }

  ghost predicate StillTrying(attempts: seq<Attempt>, k: nat, c: Cache, first: BackendLists,
                              now: Cache, lists: BackendLists)
    requires k <= |attempts|
  {
    && now == ApplyAll(c, OthersOf(attempts[..k]))
    && lists == ListsAfter(attempts[..k], first)
    && InVain(attempts, k, first)
  }

  lemma AllInVain(attempts: seq<Attempt>, first: BackendLists)
    requires attempts != [] && InVain(attempts, |attempts|, first)
    ensures Decides(attempts, |attempts|, first, 502)
  {
    assert Verdict(attempts[|attempts| - 1], ListsAfter(attempts[..|attempts| - 1 + 1], first)) == None;
  }

  /** An attempt in vain was not served, so of all attempts only the last one tried can have been;
      and a request whose first attempt finds no backends is answered 503 there. */
  lemma DecidesMeans(attempts: seq<Attempt>, tried: nat, first: BackendLists, status: int)
    requires 0 < tried <= |attempts| && Decides(attempts, tried, first, status)
    ensures status in {200, 499, 502, 503}
    ensures forall j :: 0 <= j < tried - 1 ==> !AttemptServed(attempts[j]) && !AttemptGone(attempts[j])
    ensures status == 502 ==> forall j :: 0 <= j < |attempts| ==> !AttemptServed(attempts[j])
    ensures NoBackends(attempts[0].together, ListsFor(attempts[0], first)) ==> status == 503 && tried == 1
  {
    OneMore(attempts, 0, first);
    assert attempts[..0] == [];
    forall j | 0 <= j < tried - 1 ensures !AttemptServed(attempts[j]) && !AttemptGone(attempts[j]) {
      assert Verdict(attempts[j], ListsAfter(attempts[..j + 1], first)) == None;
    }
  }

  lemma KeepSnoc(ps: seq<PeerData>, p: PeerData, f: PeerData -> bool)
    ensures Keep(ps + [p], f) == Keep(ps, f) + (if f(p) then [p] else [])
  {
    assert (ps + [p])[..|ps|] == ps;
  }

  lemma CappedSnoc(ps: seq<PeerData>, p: PeerData, cap: int)
    ensures Capped(ps + [p], cap) == Capped(ps, cap) + (if cap > 0 && |Capped(ps, cap)| >= cap then [] else [p])
  {
    if cap > 0 && |ps| >= cap { assert (ps + [p])[..cap] == ps[..cap]; }
  }

  /** One more usable peer in the closed form: where the prefill side's cut falls ... */
  lemma FrontStep(us: seq<PeerData>, p: PeerData, prefill: int, decode: int, decodes: PeerData -> bool)
    ensures PrefillPeers(us + [p], prefill, decode, decodes) ==
      PrefillPeers(us, prefill, decode, decodes) +
      (if decodes(p) && (PDTogether(prefill, decode) || |us| < prefill) then [p] else [])
  {
    var all := us + [p];
    if PDTogether(prefill, decode) || |us| < prefill {
      KeepSnoc(us, p, decodes);
      assert all[..|all|] == all && us[..|us|] == us;
    } else {
      assert all[..Clamp(prefill, |us|)] == us[..Clamp(prefill, |us|)];
    }
  }

  /** ... and what the decode side gains. */
  lemma BackStep(us: seq<PeerData>, p: PeerData, prefill: int, decode: int, decodes: PeerData -> bool)
    requires !PDTogether(prefill, decode)
    ensures
      var back := DedicatedDecodePeers(us, prefill, decode, decodes);
      DedicatedDecodePeers(us + [p], prefill, decode, decodes) ==
        back + (if decodes(p) && |us| >= prefill && !(decode > 0 && |back| >= decode) then [p] else [])
  {
    var all := us + [p];
    if |us| < prefill {
      assert all[|all|..] == [] && us[|us|..] == [];
    } else {
      var k := Clamp(prefill, |us|);
      assert all[k..] == us[k..] + [p];
      KeepSnoc(us[k..], p, decodes);
      CappedSnoc(Keep(us[k..], decodes), p, decode);
    }
  }

  ghost predicate IsSplit(us: seq<PeerData>, prefill: int, decode: int, decodes: PeerData -> bool,
                          front: seq<Backend>, back: seq<Backend>) {
    && front == Backends(PrefillPeers(us, prefill, decode, decodes))
    && back == Backends(DedicatedDecodePeers(us, prefill, decode, decodes))
  }

  lemma SplitNext(us: seq<PeerData>, p: PeerData, prefill: int, decode: int, decodes: PeerData -> bool,
                  front: seq<Backend>, back: seq<Backend>, front': seq<Backend>, back': seq<Backend>)
    requires IsSplit(us, prefill, decode, decodes, front, back)
    requires front' == front +
      (if decodes(p) && (PDTogether(prefill, decode) || |us| < prefill) then [BackendOf(p)] else [])
    requires back' == back + (if decodes(p) && !PDTogether(prefill, decode) && |us| >= prefill
                                 && !(decode > 0 && |back| >= decode) then [BackendOf(p)] else [])
    ensures IsSplit(us + [p], prefill, decode, decodes, front', back')
  {
    FrontStep(us, p, prefill, decode, decodes);
    if !PDTogether(prefill, decode) { BackStep(us, p, prefill, decode, decodes); }
    BackendsAppend(PrefillPeers(us, prefill, decode, decodes), p);
    BackendsAppend(DedicatedDecodePeers(us, prefill, decode, decodes), p);
  }

  // ---------------------------------------------------------------------------------------
  // What the credits do to the cache.

  ghost predicate OthersUnchanged(m: PeerMap, m': PeerMap, ids: set<string>) {
    m'.Keys == m.Keys && forall id :: id in m && id !in ids ==> m'[id] == m[id]
  }

  /** A request served by one backend that is still cached adds exactly one request to it, and the
      counts the reply itself reports: 20 and 30 only if it reports neither, and 50 tokens of unknown
      side if it cannot be parsed.  Nobody else is touched. */
  lemma TogetherCreditsOnce(c: Cache, id: string, r: Reply)
    requires r.Body? && !(r.parses && r.failed) && id in c.peers
    ensures
      var m' := ApplyAll(c, TogetherCredits(id, r)).peers;
      && OthersUnchanged(c.peers, m', {id})
      && (!r.parses ==> Credited(c.peers[id], m'[id], 1, 0, 0, 50))
      && (r.parses && (r.inTokens != 0 || r.outTokens != 0) ==>
            Credited(c.peers[id], m'[id], 1, r.inTokens, r.outTokens, r.inTokens + r.outTokens))
      && (r.parses && r.inTokens == 0 && r.outTokens == 0 ==> Credited(c.peers[id], m'[id], 1, 20, 30, 50))
  {
    var op := TogetherCredits(id, r)[0];
    ApplyTwo(c, op, op);
  }

  /** A request served by a prefill/decode pair adds one request to each side, the prompt tokens to
      the prefill side and the completion tokens to the decode side: the reply's own counts where it
      parses and they are positive, else 20 and 80.  A peer that is both gets both. */
  lemma SplitCreditsBoth(c: Cache, p: string, d: string, r: Reply)
    requires r.Body? && !(r.parses && r.failed) && p in c.peers && d in c.peers
    ensures
      var m' := ApplyAll(c, SplitCredits(p, d, r)).peers;
      var prompt := if r.parses && r.inTokens > 0 then r.inTokens else 20;
      var completion := if r.parses && r.outTokens > 0 then r.outTokens else 80;
      && OthersUnchanged(c.peers, m', {p, d})
      && (p != d ==> Credited(c.peers[p], m'[p], 1, prompt, 0, prompt))
      && (p != d ==> Credited(c.peers[d], m'[d], 1, 0, completion, completion))
      && (p == d ==> Credited(c.peers[p], m'[p], 2, prompt, completion, prompt + completion))
  {
    var ops := SplitCredits(p, d, r);
    ApplyTwo(c, ops[0], ops[1]);
  }

  /** Two-stage dispatch finds no backends exactly when none of the first `prefill` usable peers is
      decodable: in particular always when prefill_nodes is zero and decode_nodes is not. */
  lemma SplitUnavailableIff(us: seq<PeerData>, prefill: int, decode: int, decodes: PeerData -> bool)
    requires !PDTogether(prefill, decode)
    ensures
      (PrefillPeers(us, prefill, decode, decodes) == [] || DecodePeers(us, prefill, decode, decodes) == [])
      <==>
      (forall i :: 0 <= i < |us| && i < prefill ==> !decodes(us[i]))
  {
    var k := Clamp(prefill, |us|);
    KeepMembers(us[..k], decodes);
    var front := Keep(us[..k], decodes);
    if front == [] {
      forall i | 0 <= i < |us| && i < prefill ensures !decodes(us[i]) {
        assert us[i] == us[..k][i];
      }
    } else {
      assert front[0] in us[..k];
      var i :| 0 <= i < k && us[i] == front[0];
    }
  }

  // ---------------------------------------------------------------------------------------
  // Round-robin fairness.

  /** The indices of `k` consecutive picks from a list of `n`, whoever makes them. */
  function Picks(start: nat, n: nat, k: nat): seq<nat>
    requires n > 0
  {
    if k == 0 then []
    else
      var before := Picks(start, n, k - 1);
      before + [((if k == 1 then start else Last(before)) + 1) % n]
  }

  function Last(s: seq<nat>): nat {
    if s == [] then 0 else s[|s| - 1]
  }

  function Count(s: seq<nat>, b: nat): nat {
    if s == [] then 0 else Count(s[..|s| - 1], b) + if s[|s| - 1] == b then 1 else 0
  }

  lemma MulMonotone(a: int, b: int, n: int)
    requires a <= b && n >= 0
    ensures a * n <= b * n
  {}

  lemma QuotientUnique(q: int, r: int, q': int, r': int, n: int)
    requires q * n + r == q' * n + r' && 0 <= r < n && 0 <= r' < n
    ensures q == q' && r == r'
  {
    if q < q' {
      MulMonotone(q + 1, q', n);
    } else if q' < q {
      MulMonotone(q' + 1, q, n);
    }
  }

  lemma DivUnique(x: int, n: int, q: int, r: int)
    requires n > 0 && x == q * n + r && 0 <= r < n
    ensures x / n == q && x % n == r
  {
    QuotientUnique(q, r, x / n, x % n, n);
  }

  /** Moving one up crosses a multiple of `n` above `b` exactly at the numbers congruent to `b`. */
  lemma FloorStep(x: int, n: int, b: int)
    requires 0 <= b < n
    ensures (x - b) / n == (x - 1 - b) / n + if x % n == b then 1 else 0
  {
    var q, r := (x - b) / n, (x - b) % n;
    assert x - b == q * n + r;
    if r == 0 {
      DivUnique(x, n, q, b);
      assert x - 1 - b == (q - 1) * n + (n - 1);
      DivUnique(x - 1 - b, n, q - 1, n - 1);
    } else {
      DivUnique(x - 1 - b, n, q, r - 1);
      if x % n == b {
        assert x - b == (x / n) * n + 0;
        DivUnique(x - b, n, x / n, 0);
      }
    }
  }

  lemma ModStep(x: nat, n: nat)
    requires n > 0
    ensures (x % n + 1) % n == (x + 1) % n
  {
    var q, r := x / n, x % n;
    assert x == q * n + r;
    if r + 1 < n {
      DivUnique(x + 1, n, q, r + 1);
      DivUnique(r + 1, n, 0, r + 1);
    } else {
      assert x + 1 == (q + 1) * n + 0;
      DivUnique(x + 1, n, q + 1, 0);
      DivUnique(n, n, 1, 0);
    }
  }

  lemma {:induction false} PicksClosed(start: nat, n: nat, k: nat, b: nat)
    requires n > 0 && b < n
    ensures |Picks(start, n, k)| == k
    ensures k > 0 ==> Last(Picks(start, n, k)) == (start + k) % n
    ensures Count(Picks(start, n, k), b) == (start + k - b) / n - (start - b) / n
  {
    if k > 0 {
      PicksClosed(start, n, k - 1, b);
      var before := Picks(start, n, k - 1);
      assert Picks(start, n, k)[..k - 1] == before;
      if k > 1 { ModStep(start + k - 1, n); }
      FloorStep(start + k, n, b);
    }
  }

  lemma FloorSpan(a: int, k: nat, n: int)
    requires n > 0
    ensures k / n <= (a + k) / n - a / n <= k / n + 1
  {
    var q, r, q', r' := a / n, a % n, k / n, k % n;
    assert a == q * n + r && k == q' * n + r';
    if r + r' < n {
      assert a + k == (q + q') * n + (r + r');
      DivUnique(a + k, n, q + q', r + r');
    } else {
      assert a + k == (q + q' + 1) * n + (r + r' - n);
      DivUnique(a + k, n, q + q' + 1, r + r' - n);
    }
  }

  /** After any number of picks, from any starting index and however requests interleave, two
      backends of an unchanged list have been picked equally often, give or take one. */
  lemma PicksAreFair(start: nat, n: nat, k: nat, b: nat, c: nat)
    requires b < n && c < n
    ensures k / n <= Count(Picks(start, n, k), b) <= k / n + 1
    ensures Count(Picks(start, n, k), b) - Count(Picks(start, n, k), c) <= 1
  {
    PicksClosed(start, n, k, b);
    PicksClosed(start, n, k, c);
    FloorSpan(start - b, k, n);
    FloorSpan(start - c, k, n);
  }
}
