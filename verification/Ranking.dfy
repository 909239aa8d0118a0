/** The deterministic ranking (PeerCache.Snapshot) and the prefill/decode split computed from it
    (ProxyServer.reloadBackendsFromDB). */
module Ranking {
  import opened PeerState
  import opened Text

  const ROLE_RELAY := "relay"
  const NO_GPU := "No GPU Detected"

  /** Higher score first; the peer ID breaks ties. */
  predicate Outranks(p: PeerData, q: PeerData) {
    || p.contributionScore > q.contributionScore
    || (p.contributionScore == q.contributionScore && Before(p.peerID, q.peerID))
  }

  ghost predicate Ranked(ps: seq<PeerData>) {
    forall i, j :: 0 <= i < j < |ps| ==> Outranks(ps[i], ps[j])
  }

  ghost predicate IsRanking(ps: seq<PeerData>, m: PeerMap) {
    IsListing(ps, m) && Ranked(ps)
  }

  /** A ranking goes down in score, and among equal scores up in peer ID. */
  lemma RankedIff(ps: seq<PeerData>)
    ensures Ranked(ps) <==>
      forall i, j :: 0 <= i < j < |ps| ==>
        && ps[i].contributionScore >= ps[j].contributionScore
        && (ps[i].contributionScore == ps[j].contributionScore ==> Before(ps[i].peerID, ps[j].peerID))
  {
    if Ranked(ps) {
      forall i, j | 0 <= i < j < |ps| ensures Outranks(ps[i], ps[j]) {}
    }
  }

  lemma OutranksTransitive(p: PeerData, q: PeerData, r: PeerData)
    requires Outranks(p, q) && Outranks(q, r)
    ensures Outranks(p, r)
  {
    if Before(p.peerID, q.peerID) && Before(q.peerID, r.peerID) {
      BeforeTransitive(p.peerID, q.peerID, r.peerID);
    }
  }

  lemma OutranksTotal(p: PeerData, q: PeerData)
    requires p.peerID != q.peerID
    ensures Outranks(p, q) != Outranks(q, p)
  {
    BeforeTotal(p.peerID, q.peerID);
    if Before(p.peerID, q.peerID) && Before(q.peerID, p.peerID) {
      BeforeTransitive(p.peerID, q.peerID, p.peerID);
      BeforeIrreflexive(p.peerID);
    }
  }

  /** Position by position the two lists name the same peer. */
  ghost predicate SameIDs(ps: seq<PeerData>, qs: seq<PeerData>) {
    |ps| == |qs| && forall i :: 0 <= i < |ps| ==> ps[i].peerID == qs[i].peerID
  }

  /** Peers present in both lists have the same score in both. */
  ghost predicate ScoresAgree(ps: seq<PeerData>, qs: seq<PeerData>) {
    forall p, q :: p in ps && q in qs && p.peerID == q.peerID ==> p.contributionScore == q.contributionScore
  }

  lemma OutranksByIdentity(p: PeerData, q: PeerData, p': PeerData, q': PeerData)
    requires Outranks(p, q)
    requires p.peerID == p'.peerID && p.contributionScore == p'.contributionScore
    requires q.peerID == q'.peerID && q.contributionScore == q'.contributionScore
    ensures Outranks(p', q')
  {}

  lemma SameTop(ps: seq<PeerData>, qs: seq<PeerData>)
    requires ps != [] && Ranked(ps) && Ranked(qs) && Distinct(ps) && Distinct(qs)
    requires IDs(ps) == IDs(qs) && ScoresAgree(ps, qs)
    ensures qs != [] && ps[0].peerID == qs[0].peerID
  {
    assert ps[0].peerID in IDs(ps);
    var q :| q in qs && q.peerID == ps[0].peerID;
    assert qs[0].peerID in IDs(qs);
    var p :| p in ps && p.peerID == qs[0].peerID;
    if q != qs[0] && p != ps[0] {
      assert Outranks(qs[0], q) && Outranks(ps[0], p);
      OutranksByIdentity(qs[0], q, p, ps[0]);
      OutranksTotal(ps[0], p);
    }
  }

  lemma TailIDs(ps: seq<PeerData>)
    requires ps != [] && Distinct(ps)
    ensures Distinct(ps[1..]) && IDs(ps[1..]) == IDs(ps) - {ps[0].peerID}
  {
    forall p | p in ps[1..] ensures p.peerID != ps[0].peerID {
      var i :| 0 < i < |ps| && ps[i] == p;
    }
    assert ps == [ps[0]] + ps[1..];
  }

  /** A ranking is determined by the IDs and their scores alone. */
  lemma {:induction false} RankingDetermined(ps: seq<PeerData>, qs: seq<PeerData>)
    requires Ranked(ps) && Ranked(qs) && Distinct(ps) && Distinct(qs)
    requires IDs(ps) == IDs(qs) && ScoresAgree(ps, qs)
    ensures SameIDs(ps, qs)
  {
    if ps == [] {
      assert |qs| > 0 ==> qs[0].peerID in IDs(qs);
    } else {
      SameTop(ps, qs);
      TailIDs(ps);
      TailIDs(qs);
      RankingDetermined(ps[1..], qs[1..]);
      forall i | 0 <= i < |ps| ensures ps[i].peerID == qs[i].peerID {
        if i > 0 { assert ps[i] == ps[1..][i - 1] && qs[i] == qs[1..][i - 1]; }
      }
    }
  }

  /** Whatever order the map is iterated in, the sorted snapshot is the same list. */
  lemma RankingUnique(ps: seq<PeerData>, qs: seq<PeerData>, m: PeerMap)
    requires IsRanking(ps, m) && IsRanking(qs, m)
    ensures ps == qs
  {
    forall p, q | p in ps && q in qs && p.peerID == q.peerID ensures p == q {
      var i :| 0 <= i < |ps| && ps[i] == p;
      var j :| 0 <= j < |qs| && qs[j] == q;
    }
    RankingDetermined(ps, qs);
  }

  /** Sorting a listing of a map gives a ranking of it (sort.Slice, here by insertion). */
  method SortByRank(ps: seq<PeerData>, ghost m: PeerMap) returns (out: seq<PeerData>)
    requires IsListing(ps, m)
    ensures IsRanking(out, m)
  {
    out := [];
    for i := 0 to |ps|
      invariant forall k :: 0 <= k < |out| ==> out[k].peerID in m && m[out[k].peerID] == out[k]
      invariant Distinct(out) && IDs(out) == IDs(ps[..i]) && Ranked(out)
    {
      PrefixIsNew(ps, i);
      var k := InsertionPoint(out, ps[i]);
      InsertAt(out, ps[i], k);
      out := out[..k] + [ps[i]] + out[k..];
    }
    assert ps[..|ps|] == ps;
  }

  /** Where `p` belongs: after everything that outranks it. */
  method InsertionPoint(out: seq<PeerData>, p: PeerData) returns (k: nat)
    ensures k <= |out|
    ensures forall j :: 0 <= j < k ==> Outranks(out[j], p)
    ensures k < |out| ==> !Outranks(out[k], p)
  {
    k := 0;
    while k < |out| && Outranks(out[k], p)
      invariant k <= |out|
      invariant forall j :: 0 <= j < k ==> Outranks(out[j], p)
    {
      k := k + 1;
    }
  }

  lemma PrefixIsNew(ps: seq<PeerData>, i: nat)
    requires Distinct(ps) && i < |ps|
    ensures ps[i].peerID !in IDs(ps[..i])
    ensures IDs(ps[..i + 1]) == IDs(ps[..i]) + {ps[i].peerID}
  {
    var next := ps[..i + 1];
    assert next[..i] == ps[..i] && next[i] == ps[i];
    LastIsNew(next);
    IDsSnoc(next);
  }

  lemma InsertAt(out: seq<PeerData>, p: PeerData, k: nat)
    requires k <= |out| && Ranked(out) && Distinct(out) && p.peerID !in IDs(out)
    requires forall j :: 0 <= j < k ==> Outranks(out[j], p)
    requires k < |out| ==> !Outranks(out[k], p)
    ensures Ranked(out[..k] + [p] + out[k..]) && Distinct(out[..k] + [p] + out[k..])
    ensures IDs(out[..k] + [p] + out[k..]) == IDs(out) + {p.peerID}
  {
    var r := out[..k] + [p] + out[k..];
    forall j | 0 <= j < |out| ensures out[j].peerID != p.peerID {
      assert out[j] in out;
    }
    forall j | k <= j < |out| ensures Outranks(p, out[j]) {
      OutranksTotal(p, out[k]);
      if j > k { OutranksTransitive(p, out[k], out[j]); }
    }
    forall q | q in r ensures q in out || q == p {}
    forall q | q in out ensures q in r {
      var j :| 0 <= j < |out| && out[j] == q;
      assert r[if j < k then j else j + 1] == q;
    }
    assert r[k] == p;
  }

  // ---------------------------------------------------------------------------------------
  // The split.

  /** The sublist a predicate keeps, in order. */
  function Keep(ps: seq<PeerData>, f: PeerData -> bool): seq<PeerData> {
    if ps == [] then []
    else
      var last := ps[|ps| - 1];
      Keep(ps[..|ps| - 1], f) + (if f(last) then [last] else [])
  }

  /** Relay-only peers, and peers whose stored broadcast says they have no GPU, serve nothing. */
  predicate Serves(p: PeerData) {
    && p.role != ROLE_RELAY
    && !(p.gpuInfo.Encoded? && p.gpuInfo.info.summary == NO_GPU)
  }

  function Usable(ps: seq<PeerData>): seq<PeerData> {
    Keep(ps, (p: PeerData) => Serves(p))
  }

  function Clamp(n: int, length: nat): nat {
    if n < 0 then 0 else if n > length then length else n
  }

  /** At most `cap` of them; a cap of zero (or below) is no cap. */
  function Capped(ps: seq<PeerData>, cap: int): seq<PeerData> {
    if cap > 0 && |ps| > cap then ps[..cap] else ps
  }

  predicate PDTogether(prefill: int, decode: int) {
    prefill == 0 && decode == 0
  }

  /** `decodes` says which peer IDs libp2p can decode.  The first `prefill` usable peers are the
      prefill side (an undecodable one uses up its place); the decodable rest, up to `decode` of
      them, are the decode side. */
  function PrefillPeers(usable: seq<PeerData>, prefill: int, decode: int, decodes: PeerData -> bool): seq<PeerData> {
    if PDTogether(prefill, decode) then Keep(usable, decodes)
    else Keep(usable[..Clamp(prefill, |usable|)], decodes)
  }

  function DedicatedDecodePeers(usable: seq<PeerData>, prefill: int, decode: int, decodes: PeerData -> bool)
    : seq<PeerData>
  {
    if PDTogether(prefill, decode) then []
    else Capped(Keep(usable[Clamp(prefill, |usable|)..], decodes), decode)
  }

  /** An empty decode side falls back to the prefill list. */
  function DecodePeers(usable: seq<PeerData>, prefill: int, decode: int, decodes: PeerData -> bool): seq<PeerData> {
    var dedicated := DedicatedDecodePeers(usable, prefill, decode, decodes);
    if dedicated == [] then PrefillPeers(usable, prefill, decode, decodes) else dedicated
  }

  lemma {:induction false} KeepAppend(a: seq<PeerData>, b: seq<PeerData>, f: PeerData -> bool)
    ensures Keep(a + b, f) == Keep(a, f) + Keep(b, f)
  {
    if b == [] {
      assert a + b == a;
    } else {
      assert (a + b)[..|a + b| - 1] == a + b[..|b| - 1];
      KeepAppend(a, b[..|b| - 1], f);
    }
  }

  lemma {:induction false} KeepMembers(ps: seq<PeerData>, f: PeerData -> bool)
    ensures forall p :: p in Keep(ps, f) <==> p in ps && f(p)
  {
    if ps != [] {
      KeepMembers(ps[..|ps| - 1], f);
      assert ps == ps[..|ps| - 1] + [ps[|ps| - 1]];
    }
  }

  lemma {:induction false} KeepRanked(ps: seq<PeerData>, f: PeerData -> bool)
    requires Ranked(ps)
    ensures Ranked(Keep(ps, f))
  {
    if ps != [] {
      var init, last := ps[..|ps| - 1], ps[|ps| - 1];
      KeepRanked(init, f);
      KeepMembers(init, f);
      forall i | 0 <= i < |Keep(init, f)| ensures Outranks(Keep(init, f)[i], last) {
        assert Keep(init, f)[i] in init;
      }
    }
  }

  lemma {:induction false} KeepDistinct(ps: seq<PeerData>, f: PeerData -> bool)
    requires Distinct(ps)
    ensures Distinct(Keep(ps, f))
  {
    if ps != [] {
      var init, last := ps[..|ps| - 1], ps[|ps| - 1];
      KeepDistinct(init, f);
      KeepMembers(init, f);
      forall i | 0 <= i < |Keep(init, f)| ensures Keep(init, f)[i].peerID != last.peerID {
        assert Keep(init, f)[i] in init;
      }
    }
  }

  /** No relay and no GPU-less peer is ever picked, on either side. */
  lemma SplitServes(ps: seq<PeerData>, prefill: int, decode: int, decodes: PeerData -> bool, p: PeerData)
    requires p in PrefillPeers(Usable(ps), prefill, decode, decodes)
          || p in DecodePeers(Usable(ps), prefill, decode, decodes)
    ensures p in ps && Serves(p) && decodes(p)
  {
    var us := Usable(ps);
    var k := Clamp(prefill, |us|);
    KeepMembers(ps, (p: PeerData) => Serves(p));
    KeepMembers(us, decodes);
    KeepMembers(us[..k], decodes);
    KeepMembers(us[k..], decodes);
  }

  /** Exactly who serves: nodes that do not only relay and whose stored broadcast does not report having
      no GPU. */
  lemma UsableIff(ps: seq<PeerData>, p: PeerData)
    ensures p in Usable(ps) <==>
      p in ps && p.role != "relay" && !(p.gpuInfo.Encoded? && p.gpuInfo.info.summary == "No GPU Detected")
  {
    KeepMembers(ps, (p: PeerData) => Serves(p));
  }

  /** With dedicated roles, exactly the decodable ones of the first `prefill` usable peers prefill, and
      without a cap exactly the decodable others decode; with both counts zero everybody decodable is on
      the prefill side; and an empty decode side is the prefill side again. */
  lemma SplitMembersIff(us: seq<PeerData>, prefill: int, decode: int, decodes: PeerData -> bool, p: PeerData)
    ensures
      var front := PrefillPeers(us, prefill, decode, decodes);
      var back := DedicatedDecodePeers(us, prefill, decode, decodes);
      && (prefill == 0 && decode == 0 ==> (p in front <==> p in us && decodes(p)) && back == [])
      && (prefill != 0 || decode != 0 ==>
            (p in front <==> decodes(p) && exists i :: 0 <= i < |us| && i < prefill && us[i] == p))
      && (decode <= 0 && (prefill != 0 || decode != 0) ==>
            (p in back <==> decodes(p) && exists i :: 0 <= i < |us| && i >= prefill && us[i] == p))
      && DecodePeers(us, prefill, decode, decodes) == if back == [] then front else back
  {
    var k := Clamp(prefill, |us|);
    KeepMembers(us, decodes);
    KeepMembers(us[..k], decodes);
    KeepMembers(us[k..], decodes);
    InFront(us, k, p);
    InBack(us, k, p);
  }

  lemma InFront(us: seq<PeerData>, k: nat, p: PeerData)
    requires k <= |us|
    ensures p in us[..k] <==> exists i :: 0 <= i < k && us[i] == p
  {
    if i :| 0 <= i < k && us[i] == p { assert us[..k][i] == p; }
  }

  lemma InBack(us: seq<PeerData>, k: nat, p: PeerData)
    requires k <= |us|
    ensures p in us[k..] <==> exists i :: k <= i < |us| && us[i] == p
  {
    if i :| k <= i < |us| && us[i] == p { assert us[k..][i - k] == p; }
  }

  /** With dedicated roles and no fallback, the sides are capped and disjoint, every prefill peer
      outranks every decode peer, and unless the decode cap is what stopped it, no decodable
      usable peer is left out. */
  lemma SplitSeparates(ps: seq<PeerData>, m: PeerMap, prefill: int, decode: int, decodes: PeerData -> bool)
    requires IsRanking(ps, m)
    requires !PDTogether(prefill, decode)
    ensures
      var us := Usable(ps);
      var front := PrefillPeers(us, prefill, decode, decodes);
      var back := DedicatedDecodePeers(us, prefill, decode, decodes);
      && |front| <= Clamp(prefill, |us|)
      && (decode > 0 ==> |back| <= decode)
      && (forall i, j :: 0 <= i < |front| && 0 <= j < |back| ==>
            Outranks(front[i], back[j]) && front[i].peerID != back[j].peerID)
      && (decode <= 0 || |back| < decode ==> front + back == Keep(us, decodes))
  {
    KeepRanked(ps, (p: PeerData) => Serves(p));
    KeepDistinct(ps, (p: PeerData) => Serves(p));
    var us := Usable(ps);
    var k := Clamp(prefill, |us|);
    CutInTwo(us, k, decodes);
    AcrossCut(Keep(us[..k], decodes), Keep(us[k..], decodes));
    CappedIsPrefix(Keep(us[k..], decodes), decode);
  }

  lemma CappedIsPrefix(ps: seq<PeerData>, cap: int)
    ensures Capped(ps, cap) <= ps
    ensures cap > 0 ==> |Capped(ps, cap)| <= cap
    ensures cap <= 0 || |Capped(ps, cap)| < cap ==> Capped(ps, cap) == ps
  {}

  /** Filtering the two halves of a ranking filters the whole, in rank order. */
  lemma CutInTwo(us: seq<PeerData>, k: nat, f: PeerData -> bool)
    requires k <= |us| && Ranked(us) && Distinct(us)
    ensures Keep(us[..k], f) + Keep(us[k..], f) == Keep(us, f)
    ensures Ranked(Keep(us, f)) && Distinct(Keep(us, f))
    ensures |Keep(us[..k], f)| <= k
  {
    assert us == us[..k] + us[k..];
    KeepAppend(us[..k], us[k..], f);
    KeepLength(us[..k], f);
    KeepRanked(us, f);
    KeepDistinct(us, f);
  }

  lemma AcrossCut(front: seq<PeerData>, rest: seq<PeerData>)
    requires Ranked(front + rest) && Distinct(front + rest)
    ensures forall i, j :: 0 <= i < |front| && 0 <= j < |rest| ==>
      Outranks(front[i], rest[j]) && front[i].peerID != rest[j].peerID
  {
    var all := front + rest;
    forall i, j | 0 <= i < |front| && 0 <= j < |rest|
      ensures Outranks(front[i], rest[j]) && front[i].peerID != rest[j].peerID
    {
      assert all[i] == front[i] && all[|front| + j] == rest[j];
    }
  }

  lemma {:induction false} KeepLength(ps: seq<PeerData>, f: PeerData -> bool)
    ensures |Keep(ps, f)| <= |ps|
  {
    if ps != [] { KeepLength(ps[..|ps| - 1], f); }
  }

  /** Lists that agree position by position on ID and on what `f` looks at keep the same IDs. */
  lemma {:induction false} KeepSameIDs(ps: seq<PeerData>, qs: seq<PeerData>, f: PeerData -> bool)
    requires SameIDs(ps, qs)
    requires forall i :: 0 <= i < |ps| ==> f(ps[i]) == f(qs[i])
    ensures SameIDs(Keep(ps, f), Keep(qs, f))
  {
    if ps != [] { KeepSameIDs(ps[..|ps| - 1], qs[..|qs| - 1], f); }
  }
}
