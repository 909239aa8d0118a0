/** What holds of the contribution columns in every reachable cache state. */
module Contribution {
  import opened PeerState
  import opened BootMerge

  // ---------------------------------------------------------------------------------------
  // The score sandwich.

  /** The score lies between the larger single share and the sum of both shares. */
  ghost predicate Sound(p: PeerData) {
    && 0 <= p.inTokens <= p.totalTokens && 0 <= p.outTokens <= p.totalTokens && 0 <= p.totalRequests
    && p.totalRequests as real * 10.0 <= p.contributionScore
    && p.totalTokens as real / 10.0 <= p.contributionScore
    && p.contributionScore <= ScoreOf(p.totalRequests, p.totalTokens)
  }

  ghost predicate SoundMap(m: PeerMap) {
    Keyed(m) && forall id :: id in m ==> Sound(m[id])
  }

  /** Inputs a well-behaved environment supplies: no negative counts, no unsound seed entries. */
  ghost predicate Nonnegative(op: Op) {
    match op
    case Gossip(info, _) => info.totalTokens >= 0 && info.totalRequests >= 0
    case Credit(_, _, tokens) => tokens >= 0
    case CreditDetail(_, _, inT, outT) => inT >= 0 && outT >= 0
    case Load(peers) => forall p :: p in peers ==> Sound(p)
    case _ => true
  }

  lemma SoundMerge(p: PeerData, q: PeerData)
    requires Sound(p) && Sound(q)
    ensures Sound(MergeStats(p, q))
  {}

  lemma {:induction false} SoundLoad(m: PeerMap, peers: seq<PeerData>)
    requires SoundMap(m) && forall p :: p in peers ==> Sound(p)
    ensures SoundMap(LoadPeers(m, peers))
  {
    if peers != [] {
      var init, last := peers[..|peers| - 1], peers[|peers| - 1];
      SoundLoad(m, init);
      assert last in peers;
      var m' := LoadPeers(m, init);
      if last.peerID in m' { SoundMerge(m'[last.peerID], last); }
    }
  }

  lemma SoundAfter(m: PeerMap, op: Op)
    requires SoundMap(m) && Nonnegative(op)
    ensures SoundMap(PeersAfter(m, op))
  {
    KeyedAfter(m, op);
    if op.Load? { SoundLoad(m, op.peers); }
  }

  /** Gossip keep-max, credits, boot merges and resets all keep the sandwich, for every history. */
  lemma {:induction false} SoundRun(m: PeerMap, ops: seq<Op>)
    requires SoundMap(m) && forall op :: op in ops ==> Nonnegative(op)
    ensures SoundMap(PeersRun(m, ops))
  {
    if ops != [] {
      SoundRun(m, ops[..|ops| - 1]);
      SoundAfter(PeersRun(m, ops[..|ops| - 1]), ops[|ops| - 1]);
    }
  }

  // ---------------------------------------------------------------------------------------
  // The prompt/completion split of the total.

  ghost predicate Splits(p: PeerData) {
    p.inTokens + p.outTokens <= p.totalTokens
  }

  /** Column-wise merging breaks the split, even of two entries that satisfy everything. */
  lemma MergeBreaksSplit() returns (p: PeerData, q: PeerData)
    ensures Sound(p) && Sound(q) && Splits(p) && Splits(q)
    ensures !Splits(MergeStats(p, q))
  {
    p := NewPeer("a").(inTokens := 10, totalTokens := 10, contributionScore := 1.0);
    q := NewPeer("a").(outTokens := 10, totalTokens := 10, contributionScore := 1.0);
  }

  /** Two sound rows keep the split whatever their totals turn out to be exactly when neither
      column crosses: with a crossing, totals that just cover their own rows already break it. */
  lemma MergeKeepsSplitIff(p: PeerData, q: PeerData)
    requires 0 <= p.inTokens && 0 <= p.outTokens && 0 <= q.inTokens && 0 <= q.outTokens
    ensures
      (forall pTotal, qTotal ::
         Splits(p.(totalTokens := pTotal)) && Splits(q.(totalTokens := qTotal)) ==>
         Splits(MergeStats(p.(totalTokens := pTotal), q.(totalTokens := qTotal))))
      <==>
      ((p.inTokens <= q.inTokens && p.outTokens <= q.outTokens) ||
       (q.inTokens <= p.inTokens && q.outTokens <= p.outTokens))
  {
    var pMin, qMin := p.inTokens + p.outTokens, q.inTokens + q.outTokens;
    assert Splits(p.(totalTokens := pMin)) && Splits(q.(totalTokens := qMin));
    if !(p.inTokens <= q.inTokens && p.outTokens <= q.outTokens)
       && !(q.inTokens <= p.inTokens && q.outTokens <= p.outTokens) {
      assert !Splits(MergeStats(p.(totalTokens := pMin), q.(totalTokens := qMin)));
    }
  }

  /** A row or entry with another total. */
  ghost predicate Retotalled(p: PeerData, p': PeerData) {
    p' == p.(totalTokens := p'.totalTokens)
  }

  ghost predicate MapRetotalled(m: PeerMap, m': PeerMap) {
    m.Keys == m'.Keys && forall id :: id in m ==> Retotalled(m[id], m'[id])
  }

  ghost predicate ListRetotalled(ps: seq<PeerData>, ps': seq<PeerData>) {
    |ps| == |ps'| && forall i :: 0 <= i < |ps| ==> Retotalled(ps[i], ps'[i])
  }

  ghost predicate AllSplit(m: PeerMap, ps: seq<PeerData>) {
    (forall id :: id in m ==> Splits(m[id])) && forall i :: 0 <= i < |ps| ==> Splits(ps[i])
  }

  /** Loading keeps peer `id`'s split whatever the totals are, as long as rows and entries have it. */
  ghost predicate LoadKeepsSplit(m: PeerMap, ps: seq<PeerData>, id: string) {
    forall m', ps' :: MapRetotalled(m, m') && ListRetotalled(ps, ps') && AllSplit(m', ps') ==>
      id in LoadPeers(m', ps') && Splits(LoadPeers(m', ps')[id])
  }

  /** The old row or some entry has both the most prompt and the most completion tokens. */
  ghost predicate SomeSourceLeads(m: PeerMap, ps: seq<PeerData>, id: string)
    requires id in LoadPeers(m, ps)
  {
    exists p :: p in Sources(m, ps, id)
      && p.inTokens == LoadPeers(m, ps)[id].inTokens && p.outTokens == LoadPeers(m, ps)[id].outTokens
  }

  /** Loading a whole list keeps a peer's in + out within its total, whatever the totals, if and only
      if among its old row and its entries one has both the most prompt and the most completion
      tokens (which a list without crossings always has). */
  lemma LoadKeepsSplitIff(m: PeerMap, ps: seq<PeerData>, id: string)
    requires id in LoadPeers(m, ps)
    ensures LoadKeepsSplit(m, ps, id) <==> SomeSourceLeads(m, ps, id)
  {
    if SomeSourceLeads(m, ps, id) {
      forall m', ps' | MapRetotalled(m, m') && ListRetotalled(ps, ps') && AllSplit(m', ps')
        ensures id in LoadPeers(m', ps') && Splits(LoadPeers(m', ps')[id])
      {
        LeaderCovers(m, ps, m', ps', id);
      }
    }
    if LoadKeepsSplit(m, ps, id) {
      var m', ps' := LeastMap(m), LeastList(ps);
      LoadRetotalled(m, ps, m', ps', id);
      assert Splits(LoadPeers(m', ps')[id]);
      CoveredHasLeader(m, ps, m', ps', id);
    }
  }

  /** One of the two is at least the other in both columns. */
  predicate NoCrossing(p: PeerData, q: PeerData) {
    (p.inTokens <= q.inTokens && p.outTokens <= q.outTokens) || (q.inTokens <= p.inTokens && q.outTokens <= p.outTokens)
  }

  lemma CrossingFreeKeepsSplit(m: PeerMap, ps: seq<PeerData>, id: string)
    requires id in LoadPeers(m, ps)
    requires forall p, q :: p in Sources(m, ps, id) && q in Sources(m, ps, id) ==> NoCrossing(p, q)
    ensures LoadKeepsSplit(m, ps, id)
  {
    var end := LoadPeers(m, ps)[id];
    var p := Leader(m, ps, id, InTokens);
    var q := Leader(m, ps, id, OutTokens);
    assert NoCrossing(p, q);
    assert SomeSourceLeads(m, ps, id) by {
      assert q.inTokens <= p.inTokens == end.inTokens && p.outTokens <= q.outTokens == end.outTokens;
    }
    LoadKeepsSplitIff(m, ps, id);
  }

  /** A source with the most of one column has no less of it than any other. */
  lemma Leader(m: PeerMap, ps: seq<PeerData>, id: string, c: Column) returns (p: PeerData)
    requires id in LoadPeers(m, ps)
    ensures p in Sources(m, ps, id) && Value(p, c) == Value(LoadPeers(m, ps)[id], c)
    ensures forall q :: q in Sources(m, ps, id) ==> Value(q, c) <= Value(p, c)
  {
    LoadIsMaximum(m, ps, id, c);
    p :| p in Sources(m, ps, id) && Value(p, c) == Value(LoadPeers(m, ps)[id], c);
  }

  /** The least totals that keep the split of every row and entry. */
  function Least(p: PeerData): PeerData {
    p.(totalTokens := p.inTokens + p.outTokens)
  }

  function LeastMap(m: PeerMap): (m': PeerMap)
    ensures MapRetotalled(m, m')
  {
    map id | id in m :: Least(m[id])
  }

  function LeastList(ps: seq<PeerData>): (ps': seq<PeerData>)
    ensures ListRetotalled(ps, ps')
  {
    seq(|ps|, i requires 0 <= i < |ps| => Least(ps[i]))
  }

  /** Totals do not influence what a load does to the other columns. */
  lemma {:induction false} LoadRetotalled(m: PeerMap, ps: seq<PeerData>, m': PeerMap, ps': seq<PeerData>, id: string)
    requires MapRetotalled(m, m') && ListRetotalled(ps, ps')
    ensures id in LoadPeers(m, ps) <==> id in LoadPeers(m', ps')
    ensures id in LoadPeers(m, ps) ==> Retotalled(LoadPeers(m, ps)[id], LoadPeers(m', ps')[id])
  {
    if ps != [] {
      LoadRetotalled(m, ps[..|ps| - 1], m', ps'[..|ps'| - 1], id);
    }
  }

  /** Every source has its counterpart. */
  lemma Counterpart(m: PeerMap, ps: seq<PeerData>, m': PeerMap, ps': seq<PeerData>, id: string, p: PeerData)
    returns (p': PeerData)
    requires MapRetotalled(m, m') && ListRetotalled(ps, ps') && p in Sources(m, ps, id)
    ensures p' in Sources(m', ps', id) && Retotalled(p, p')
    ensures (id in m && p' == m'[id]) || exists i :: 0 <= i < |ps'| && p' == ps'[i]
  {
    if id in m && p == m[id] {
      p' := m'[id];
    } else {
      var i :| 0 <= i < |ps| && ps[i] == p;
      p' := ps'[i];
      assert p' in ps';
    }
  }

  lemma LeaderCovers(m: PeerMap, ps: seq<PeerData>, m': PeerMap, ps': seq<PeerData>, id: string)
    requires id in LoadPeers(m, ps) && SomeSourceLeads(m, ps, id)
    requires MapRetotalled(m, m') && ListRetotalled(ps, ps') && AllSplit(m', ps')
    ensures id in LoadPeers(m', ps') && Splits(LoadPeers(m', ps')[id])
  {
    LoadRetotalled(m, ps, m', ps', id);
    var p :| p in Sources(m, ps, id)
      && p.inTokens == LoadPeers(m, ps)[id].inTokens && p.outTokens == LoadPeers(m, ps)[id].outTokens;
    var p' := Counterpart(m, ps, m', ps', id, p);
    LoadIsMaximum(m', ps', id, Tokens);
    assert Value(p', Tokens) <= Value(LoadPeers(m', ps')[id], Tokens);
  }

  lemma CoveredHasLeader(m: PeerMap, ps: seq<PeerData>, m': PeerMap, ps': seq<PeerData>, id: string)
    requires id in LoadPeers(m, ps) && m' == LeastMap(m) && ps' == LeastList(ps)
    requires id in LoadPeers(m', ps') && Splits(LoadPeers(m', ps')[id])
    ensures SomeSourceLeads(m, ps, id)
  {
    LoadRetotalled(m, ps, m', ps', id);
    LoadIsMaximum(m', ps', id, Tokens);
    var p' :| p' in Sources(m', ps', id) && Value(p', Tokens) == Value(LoadPeers(m', ps')[id], Tokens);
    var p := LeastCounterpart(m, ps, id, p');
    LoadIsMaximum(m, ps, id, InTokens);
    LoadIsMaximum(m, ps, id, OutTokens);
    assert Value(p, InTokens) <= Value(LoadPeers(m, ps)[id], InTokens);
    assert Value(p, OutTokens) <= Value(LoadPeers(m, ps)[id], OutTokens);
  }

  lemma LeastCounterpart(m: PeerMap, ps: seq<PeerData>, id: string, p': PeerData) returns (p: PeerData)
    requires p' in Sources(LeastMap(m), LeastList(ps), id)
    ensures p in Sources(m, ps, id) && p' == Least(p)
  {
    if id in m && p' == Least(m[id]) {
      p := m[id];
    } else {
      var i :| 0 <= i < |ps| && LeastList(ps)[i] == p';
      p := ps[i];
      assert p in ps;
    }
  }

  /** Without boot merges the split survives every history. */
  lemma {:induction false} SplitRun(m: PeerMap, ops: seq<Op>)
    requires forall id :: id in m ==> Splits(m[id])
    requires forall op :: op in ops ==> !op.Load? && Nonnegative(op)
    ensures forall id :: id in PeersRun(m, ops) ==> Splits(PeersRun(m, ops)[id])
  {
    if ops != [] {
      var op := ops[|ops| - 1];
      SplitRun(m, ops[..|ops| - 1]);
      assert !op.Load? && Nonnegative(op);
    }
  }

  // ---------------------------------------------------------------------------------------
  // The credit ledger.

  datatype Ledger = Ledger(requests: int, tokens: int)

  /** What peer `id` has been credited since it was last inserted or reset. */
  function LedgerAfter(l: Ledger, m: PeerMap, op: Op, id: string): Ledger {
    if id !in m || op.Reset? || op == Remove(id) then Ledger(0, 0)
    else match op
      case Credit(k, requests, tokens) =>
        if k == id then Ledger(l.requests + Billed(requests), l.tokens + tokens) else l
      case CreditDetail(k, requests, inT, outT) =>
        if k == id then Ledger(l.requests + Billed(requests), l.tokens + inT + outT) else l
      case _ => l
  }

  function LedgerOf(m: PeerMap, ops: seq<Op>, id: string): Ledger {
    if ops == [] then Ledger(0, 0)
    else
      var init := ops[..|ops| - 1];
      LedgerAfter(LedgerOf(m, init, id), PeersRun(m, init), ops[|ops| - 1], id)
  }

  ghost predicate Covers(m: PeerMap, l: Ledger, id: string) {
    id in m ==> m[id].totalRequests >= l.requests && m[id].totalTokens >= l.tokens
  }

  lemma CoverStep(m: PeerMap, op: Op, l: Ledger, id: string)
    requires SoundMap(PeersAfter(m, op)) && Nonnegative(op) && Covers(m, l, id)
    ensures Covers(PeersAfter(m, op), LedgerAfter(l, m, op, id), id)
  {
    if op.Load? && id in m { LoadNeverLowers(m, op.peers, id); }
  }

  /** A live peer's totals never fall below its ledger. */
  lemma {:induction false} TotalsCoverLedger(m: PeerMap, ops: seq<Op>, id: string)
    requires SoundMap(m) && forall op :: op in ops ==> Nonnegative(op)
    ensures Covers(PeersRun(m, ops), LedgerOf(m, ops, id), id)
  {
    if ops == [] {
      assert SoundMap(m);
    } else {
      var init, op := ops[..|ops| - 1], ops[|ops| - 1];
      TotalsCoverLedger(m, init, id);
      SoundRun(m, ops);
      CoverStep(PeersRun(m, init), op, LedgerOf(m, init, id), id);
    }
  }

  lemma {:induction false} LoadNeverLowers(m: PeerMap, peers: seq<PeerData>, id: string)
    requires id in m
    ensures
      var end := LoadPeers(m, peers);
      id in end && end[id].totalRequests >= m[id].totalRequests && end[id].totalTokens >= m[id].totalTokens
  {
    if peers != [] { LoadNeverLowers(m, peers[..|peers| - 1], id); }
  }

  /** Operations that move a counter only by crediting it. */
  predicate CreditsOnly(op: Op) {
    op.Credit? || op.CreditDetail? || op.Ping? || op.Health? || op.Event? || op.Connect?
  }

  /** `id` has gained exactly the ledger since row `p`. */
  ghost predicate Gained(p: PeerData, l: Ledger, m: PeerMap, id: string) {
    && id in m
    && m[id].totalRequests == p.totalRequests + l.requests
    && m[id].totalTokens == p.totalTokens + l.tokens
    && m[id].contributionScore == p.contributionScore + ScoreOf(l.requests, l.tokens)
  }

  lemma GainStep(p: PeerData, l: Ledger, m: PeerMap, op: Op, id: string)
    requires CreditsOnly(op) && Gained(p, l, m, id)
    ensures Gained(p, LedgerAfter(l, m, op, id), PeersAfter(m, op), id)
  {}

  /** Between broadcasts, merges, resets and removals the totals are exactly what they were plus
      the ledger, and the score moves by exactly the ledger's score. */
  lemma {:induction false} TotalsEqualLedger(m: PeerMap, ops: seq<Op>, id: string)
    requires id in m && forall op :: op in ops ==> CreditsOnly(op)
    ensures Gained(m[id], LedgerOf(m, ops, id), PeersRun(m, ops), id)
  {
    if ops != [] {
      var init, op := ops[..|ops| - 1], ops[|ops| - 1];
      TotalsEqualLedger(m, init, id);
      assert CreditsOnly(op);
      GainStep(m[id], LedgerOf(m, init, id), PeersRun(m, init), op, id);
    }
  }
}
