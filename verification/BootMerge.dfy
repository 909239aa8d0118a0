/** Bulk loading (PeerCache.mergePeer, LoadSnapshot): order, grouping and repetition do not matter
    to the key set or to the cumulative columns. */
module BootMerge {
  import opened PeerState

  /** The five cumulative columns. */
  datatype Column = Requests | Tokens | InTokens | OutTokens | Score

  function Value(p: PeerData, c: Column): real {
    match c
    case Requests => p.totalRequests as real
    case Tokens => p.totalTokens as real
    case InTokens => p.inTokens as real
    case OutTokens => p.outTokens as real
    case Score => p.contributionScore
  }

  /** Every entry the load could have taken peer `id`'s column from. */
  function Sources(m: PeerMap, peers: seq<PeerData>, id: string): set<PeerData> {
    (if id in m then {m[id]} else {}) + set p | p in peers && p.peerID == id
  }

  /** `v` is the largest value of a column over a nonempty set of entries. */
  ghost predicate IsMaximum(v: real, sources: set<PeerData>, c: Column) {
    && (forall p :: p in sources ==> Value(p, c) <= v)
    && (exists p :: p in sources && Value(p, c) == v)
  }

  lemma SourcesSnoc(m: PeerMap, peers: seq<PeerData>, id: string)
    requires peers != []
    ensures
      var init, last := peers[..|peers| - 1], peers[|peers| - 1];
      Sources(m, peers, id) == Sources(m, init, id) + if last.peerID == id then {last} else {}
  {
    assert peers == peers[..|peers| - 1] + [peers[|peers| - 1]];
  }

  lemma MergeIsMaximum(p: PeerData, q: PeerData, sources: set<PeerData>, c: Column)
    requires IsMaximum(Value(p, c), sources, c)
    ensures IsMaximum(Value(MergeStats(p, q), c), sources + {q}, c)
  {
    var best :| best in sources && Value(best, c) == Value(p, c);
    assert best in sources + {q} && q in sources + {q};
  }

  /** A loaded column is the maximum of that column over the old row and every loaded entry. */
  lemma {:induction false} LoadIsMaximum(m: PeerMap, peers: seq<PeerData>, id: string, c: Column)
    requires id in LoadPeers(m, peers)
    ensures IsMaximum(Value(LoadPeers(m, peers)[id], c), Sources(m, peers, id), c)
  {
    if peers == [] {
      assert m[id] in Sources(m, peers, id);
    } else {
      var init, last := peers[..|peers| - 1], peers[|peers| - 1];
      var before := LoadPeers(m, init);
      SourcesSnoc(m, peers, id);
      if id in before {
        LoadIsMaximum(m, init, id, c);
        if last.peerID == id { MergeIsMaximum(before[id], last, Sources(m, init, id), c); }
      } else {
        NoSources(m, init, id);
        assert last in Sources(m, peers, id);
      }
    }
  }

  lemma NoSources(m: PeerMap, peers: seq<PeerData>, id: string)
    ensures id !in LoadPeers(m, peers) <==> Sources(m, peers, id) == {}
  {
    LoadKeys(m, peers);
    if id in IDs(peers) {
      var p :| p in peers && p.peerID == id;
      assert p in Sources(m, peers, id);
    } else if id in m {
      assert m[id] in Sources(m, peers, id);
    }
  }

  lemma {:induction false} LoadKeys(m: PeerMap, peers: seq<PeerData>)
    ensures LoadPeers(m, peers).Keys == m.Keys + IDs(peers)
  {
    if peers != [] {
      LoadKeys(m, peers[..|peers| - 1]);
      IDsSnoc(peers);
    }
  }

  /** Loading the same entries in another order, or more than once, gives the same peers with the
      same five columns. */
  lemma LoadOrderIrrelevant(m: PeerMap, a: seq<PeerData>, b: seq<PeerData>)
    requires Elements(a) == Elements(b)
    ensures LoadPeers(m, a).Keys == LoadPeers(m, b).Keys
    ensures forall id, c :: id in LoadPeers(m, a) && id in LoadPeers(m, b) ==>
      Value(LoadPeers(m, a)[id], c) == Value(LoadPeers(m, b)[id], c)
  {
    LoadKeys(m, a);
    LoadKeys(m, b);
    assert forall p :: p in a <==> p in Elements(a);
    assert forall p :: p in b <==> p in Elements(b);
    forall id, c | id in LoadPeers(m, a) && id in LoadPeers(m, b)
      ensures Value(LoadPeers(m, a)[id], c) == Value(LoadPeers(m, b)[id], c)
    {
      LoadIsMaximum(m, a, id, c);
      LoadIsMaximum(m, b, id, c);
      assert Sources(m, a, id) == Sources(m, b, id);
    }
  }

  /** Loading in two batches is loading their concatenation. */
  lemma {:induction false} LoadGrouping(m: PeerMap, a: seq<PeerData>, b: seq<PeerData>)
    ensures LoadPeers(LoadPeers(m, a), b) == LoadPeers(m, a + b)
  {
    if b == [] {
      assert a + b == a;
    } else {
      LoadGrouping(m, a, b[..|b| - 1]);
      assert (a + b)[..|a + b| - 1] == a + b[..|b| - 1];
    }
  }

  /** A known peer never loses any of a column and keeps every other field. */
  lemma {:induction false} LoadKeepsKnown(m: PeerMap, peers: seq<PeerData>, id: string)
    requires id in m
    ensures id in LoadPeers(m, peers)
    ensures var p := LoadPeers(m, peers)[id];
      && (forall c :: Value(m[id], c) <= Value(p, c))
      && p == m[id].(totalRequests := p.totalRequests, totalTokens := p.totalTokens, inTokens := p.inTokens,
                     outTokens := p.outTokens, contributionScore := p.contributionScore)
  {
    if peers != [] { LoadKeepsKnown(m, peers[..|peers| - 1], id); }
  }
}
