/** From a node's cards to the hub's score: printing the per-model counts in any order and parsing
    the summary back gives exactly those counts, and the score is 300 per GB of total memory. */
module GpuRoundTrip {
  import opened PeerState
  import opened Text
  import opened Ranking
  import opened GpuSummary
  import opened HubEvents

  /** A trimmed, nonempty model name without the summary's own punctuation. */
  predicate CleanName(name: string) {
    name != "" && Trimmed(name) && forall i :: 0 <= i < |name| ==> NameChar(name[i])
  }

  predicate CleanCard(c: Card) {
    CleanName(c.name) && c.mb >= 0
  }

  /** Above this size the hub reads the bracketed number as megabytes. */
  predicate AboveOneGB(c: Card) {
    c.mb > 1024
  }

  function CardID(c: Card): string {
    c.name + "(" + Decimal(c.mb) + ")"
  }

  // ---------------------------------------------------------------------------------------
  // One part matches.

  /** A stretch of name that ends in a printing character does not let the scanner reach a bracket. */
  lemma {:induction false} NameBlocksTail(u: string, t: string)
    requires u != "" && !IsSpace(u[|u| - 1]) && forall i :: 0 <= i < |u| ==> NameChar(u[i])
    ensures MatchTail(u + t) == None
  {
    assert (u + t)[0] == u[0];
    if IsRegexSpace(u[0]) {
      assert |u| > 1;
      assert (u + t)[1..] == u[1..] + t;
      NameBlocksTail(u[1..], t);
      assert SkipSpaces(u + t) == SkipSpaces(u[1..] + t);
    }
  }

  lemma SizeMatches(d: string, mb: string, t: string)
    requires d != "" && Digits(d) && (mb == "MB" || mb == "")
    ensures MatchSize("(" + d + mb + ")" + t) == Some((d, t))
  {
    var s := "(" + d + mb + ")" + t;
    assert s[1..] == d + (mb + ")" + t);
    assert SkipSpaces(s[1..]) == s[1..] by { assert IsDigit(s[1..][0]); }
    TakeDigitsOf(d, mb + ")" + t);
    var rest := mb + ")" + t;
    assert SkipSpaces(rest) == rest;
    if mb == "MB" {
      assert rest[2..] == ")" + t;
    } else {
      assert rest == ")" + t;
    }
    assert SkipSpaces(")" + t) == ")" + t;
    assert (")" + t)[1..] == t;
  }

  lemma CountMatches(n: string, t: string)
    requires n != "" && Digits(n) && (t == "" || !IsDigit(t[0]))
    ensures MatchCount("x" + n + t) == Some((n, t))
  {
    var s := "x" + n + t;
    assert s[1..] == n + t;
    assert SkipSpaces(n + t) == n + t by { assert IsDigit((n + t)[0]); }
    TakeDigitsOf(n, t);
  }

  lemma TailMatches(d: string, n: string, t: string)
    requires d != "" && Digits(d) && n != "" && Digits(n) && (t == "" || !IsDigit(t[0]))
    ensures MatchTail("(" + d + "MB) x" + n + t) == Some((d, n, t))
  {
    var after := " x" + n + t;
    var s := "(" + d + "MB) x" + n + t;
    assert s == "(" + d + "MB" + ")" + after;
    assert SkipSpaces(s) == s;
    SizeMatches(d, "MB", after);
    assert after[1..] == "x" + n + t;
    assert SkipSpaces(after) == "x" + n + t by { assert SkipSpaces(after[1..]) == after[1..]; }
    CountMatches(n, t);
  }

  lemma {:induction false} NameMatches(name: string, k: nat, d: string, n: string, t: string)
    requires name != "" && !IsSpace(name[|name| - 1]) && forall i :: 0 <= i < |name| ==> NameChar(name[i])
    requires 1 <= k <= |name|
    requires d != "" && Digits(d) && n != "" && Digits(n) && (t == "" || !IsDigit(t[0]))
    ensures TryName(name + ("(" + d + "MB) x" + n + t), k) == Some((Match(name, d, n), t))
    decreases |name| - k
  {
    var z := "(" + d + "MB) x" + n + t;
    var s := name + z;
    if k == |name| {
      assert s[k..] == z && s[..k] == name;
      TailMatches(d, n, t);
    } else {
      assert s[k..] == name[k..] + z;
      NameBlocksTail(name[k..], z);
      NameMatches(name, k + 1, d, n, t);
    }
  }

  // ---------------------------------------------------------------------------------------
  // The whole summary matches.

  function Texts(models: seq<Card>, nums: seq<nat>): seq<string>
    requires |models| == |nums|
  {
    seq(|models|, i requires 0 <= i < |models| => PartText(Key(models[i]), nums[i]))
  }

  /** What the scanner finds; every part but the first keeps the blank after its comma. */
  function Found(models: seq<Card>, nums: seq<nat>, lead: string): seq<Match>
    requires |models| == |nums| && forall c :: c in models ==> CleanCard(c)
  {
    if models == [] then []
    else
      assert models[0] in models && CleanCard(models[0]);
      [Match(lead + models[0].name, Itoa(models[0].mb), Itoa(nums[0]))] + Found(models[1..], nums[1..], " ")
  }

  lemma PartShape(lead: string, name: string, d: string, n: string, t: string)
    ensures lead + (name + "(" + d + "MB)" + " x" + n) + t == (lead + name) + ("(" + d + "MB) x" + n + t)
  {
    var a, b, c := name + "(", d + "MB)", " x" + n;
    assert name + "(" + d + "MB)" + " x" + n == a + b + c;
    assert lead + (a + b + c) + t == (lead + a) + (b + c + t);
    assert b + c == d + "MB) x" + n;
    assert (lead + a) + (b + c + t) == (lead + name) + ("(" + (b + c) + t);
  }

  lemma PartMatches(lead: string, c: Card, num: nat, t: string)
    requires CleanCard(c) && (lead == "" || lead == " ") && (t == "" || t[0] == ',')
    ensures
      var s := lead + PartText(Key(c), num) + t;
      s != "" && MatchAt(s) == Some((Match(lead + c.name, Itoa(c.mb), Itoa(num)), t))
  {
    ItoaRoundTrip(c.mb);
    ItoaRoundTrip(num);
    PartTextShape(lead, c, num, t);
    LeadKeepsName(lead, c.name);
    NamedMatch(lead + c.name, Itoa(c.mb), Itoa(num), t);
  }

  lemma PartTextShape(lead: string, c: Card, num: nat, t: string)
    requires CleanCard(c)
    ensures lead + PartText(Key(c), num) + t == (lead + c.name) + ("(" + Itoa(c.mb) + "MB) x" + Itoa(num) + t)
  {
    PartShape(lead, c.name, Itoa(c.mb), Itoa(num), t);
  }

  lemma LeadKeepsName(lead: string, name: string)
    requires CleanName(name) && (lead == "" || lead == " ")
    ensures
      var s := lead + name;
      s != "" && !IsSpace(s[|s| - 1]) && forall i :: 0 <= i < |s| ==> NameChar(s[i])
  {}

  lemma NamedMatch(name: string, d: string, n: string, t: string)
    requires name != "" && !IsSpace(name[|name| - 1]) && forall i :: 0 <= i < |name| ==> NameChar(name[i])
    requires d != "" && Digits(d) && n != "" && Digits(n) && (t == "" || !IsDigit(t[0]))
    ensures MatchAt(name + ("(" + d + "MB) x" + n + t)) == Some((Match(name, d, n), t))
  {
    NameMatches(name, 1, d, n, t);
    assert (name + ("(" + d + "MB) x" + n + t))[0] == name[0];
  }

  lemma {:induction false} SummaryMatches(models: seq<Card>, nums: seq<nat>, lead: string)
    requires |models| == |nums| && (forall c :: c in models ==> CleanCard(c))
    requires lead == "" || (lead == " " && models != [])
    ensures FindAll(lead + Join(Texts(models, nums), ", ")) == Found(models, nums, lead)
  {
    if models != [] {
      var rest := Texts(models[1..], nums[1..]);
      assert Texts(models, nums) == [PartText(Key(models[0]), nums[0])] + rest;
      assert models[0] in models;
      if |models| == 1 {
        PartMatches(lead, models[0], nums[0], "");
        assert lead + PartText(Key(models[0]), nums[0]) + "" == lead + PartText(Key(models[0]), nums[0]);
      } else {
        var t := ", " + Join(rest, ", ");
        PartMatches(lead, models[0], nums[0], t);
        JoinMore(lead, PartText(Key(models[0]), nums[0]), rest);
        SummaryMatches(models[1..], nums[1..], " ");
        AfterComma(Join(rest, ", "));
      }
    }
  }

  lemma JoinMore(lead: string, first: string, rest: seq<string>)
    requires rest != []
    ensures lead + Join([first] + rest, ", ") == lead + first + (", " + Join(rest, ", "))
  {
    assert ([first] + rest)[1..] == rest;
  }

  lemma AfterComma(s: string)
    ensures FindAll(", " + s) == FindAll(" " + s)
  {
    assert (", " + s)[1..] == " " + s;
  }

  // ---------------------------------------------------------------------------------------
  // The matches tally to the counts.

  lemma {:induction false} FoundAt(models: seq<Card>, nums: seq<nat>, lead: string, i: nat)
    requires |models| == |nums| && (forall c :: c in models ==> CleanCard(c)) && i < |models|
    requires lead == "" || lead == " "
    requires nums[i] <= MAX_INT64
    ensures |Found(models, nums, lead)| == |models|
    ensures EntryID(Found(models, nums, lead)[i]) == CardID(models[i])
    ensures EntryNum(Found(models, nums, lead)[i]) == nums[i]
  {
    FoundLength(models, nums, lead);
    if i == 0 {
      assert models[0] in models;
      assert lead + models[0].name + "" == lead + models[0].name;
      TrimAround(lead, models[0].name, "");
      AtoiOfItoa(nums[0]);
    } else {
      FoundAt(models[1..], nums[1..], " ", i - 1);
    }
  }

  lemma FoundLength(models: seq<Card>, nums: seq<nat>, lead: string)
    requires |models| == |nums| && forall c :: c in models ==> CleanCard(c)
    ensures |Found(models, nums, lead)| == |models|
  {}

  ghost predicate DistinctIDs(items: seq<GpuEntry>) {
    forall i, j :: 0 <= i < j < |items| ==> items[i].id != items[j].id
  }

  /** One entry per item, in order, with that item's own number. */
  ghost predicate OneEach(items: seq<GpuEntry>, order: seq<string>, counts: map<string, int>) {
    && |order| == |items| && counts.Keys == Elements(order)
    && forall i :: 0 <= i < |items| ==>
         order[i] == items[i].id && order[i] in counts && counts[order[i]] == items[i].num
  }

  lemma {:induction false} TallyDistinct(items: seq<GpuEntry>)
    requires DistinctIDs(items)
    ensures OneEach(items, Tally(items).0, Tally(items).1)
  {
    if items != [] {
      var init, last := items[..|items| - 1], items[|items| - 1];
      TallyDistinct(init);
      assert items == init + [last];
      TallyNew(init, Tally(init).0, Tally(init).1, last);
    }
  }

  lemma TallyNew(items: seq<GpuEntry>, order: seq<string>, counts: map<string, int>, e: GpuEntry)
    requires OneEach(items, order, counts) && DistinctIDs(items + [e])
    ensures e.id !in counts
    ensures OneEach(items + [e], order + [e.id], counts[e.id := e.num])
  {
    var all := items + [e];
    forall i | 0 <= i < |order| ensures order[i] != e.id {
      assert all[i] == items[i] && all[|items|] == e;
    }
    assert e.id !in Elements(order);
    assert Elements(order + [e.id]) == Elements(order) + {e.id};
  }

  lemma TalliedDistinct(items: seq<GpuEntry>)
    requires DistinctIDs(items)
    ensures Tallied(items) == items
  {
    TallyDistinct(items);
    TallyKeys(items);
  }

  // ---------------------------------------------------------------------------------------
  // Different models print and parse differently.

  lemma BracketSplits(a: string, x: string, b: string, y: string)
    requires (forall i :: 0 <= i < |a| ==> a[i] != '(') && (forall i :: 0 <= i < |b| ==> b[i] != '(')
    requires a + "(" + x == b + "(" + y
    ensures a == b && x == y
  {
    var s := a + "(" + x;
    assert s[|a|] == '(' && s[|b|] == '(';
    assert (forall i :: 0 <= i < |a| ==> s[i] == a[i]) && (forall i :: 0 <= i < |b| ==> s[i] == b[i]);
    assert |a| == |b|;
    assert a == s[..|a|] && b == s[..|b|];
    assert x == s[|a| + 1..] && y == s[|b| + 1..];
  }

  lemma ParenInjective(a: Card, b: Card, close: string)
    requires CleanCard(a) && CleanCard(b)
    requires a.name + "(" + (Itoa(a.mb) + close) == b.name + "(" + (Itoa(b.mb) + close)
    ensures a == b
  {
    var da, db := Itoa(a.mb), Itoa(b.mb);
    BracketSplits(a.name, da + close, b.name, db + close);
    assert |da| == |db|;
    assert da == (da + close)[..|da|] && db == (db + close)[..|db|];
    ItoaInjective(a.mb, b.mb);
  }

  lemma CardIDInjective(a: Card, b: Card)
    requires CleanCard(a) && CleanCard(b)
    ensures CardID(a) == CardID(b) <==> a == b
    ensures Key(a) == Key(b) <==> a == b
  {
    assert forall c: Card :: c.mb >= 0 ==> CardID(c) == c.name + "(" + (Itoa(c.mb) + ")");
    assert forall c: Card :: c.mb >= 0 ==> Key(c) == c.name + "(" + (Itoa(c.mb) + "MB)");
    if CardID(a) == CardID(b) { ParenInjective(a, b, ")"); }
    if Key(a) == Key(b) { ParenInjective(a, b, "MB)"); }
  }

  // ---------------------------------------------------------------------------------------
  // Counting.

  ghost predicate CleanCards(cards: seq<Card>) {
    forall c :: c in cards ==> CleanCard(c)
  }

  ghost predicate Sized(cards: seq<Card>) {
    forall c :: c in cards ==> AboveOneGB(c)
  }

  lemma {:induction false} CountsAreBounded(cards: seq<Card>)
    ensures forall key :: key in CountKeys(cards) ==> 1 <= CountKeys(cards)[key] <= |cards|
    ensures forall key :: key in CountKeys(cards) <==> exists c :: c in cards && Key(c) == key
  {
    if cards != [] {
      var init, last := cards[..|cards| - 1], cards[|cards| - 1];
      CountsAreBounded(init);
      assert cards == init + [last];
    }
  }

  /** The models a summary order stands for. */
  ghost function ModelsOf(cards: seq<Card>, order: seq<string>): (models: seq<Card>)
    requires forall key :: key in order ==> exists c :: c in cards && Key(c) == key
    ensures |models| == |order|
    ensures forall i :: 0 <= i < |order| ==> models[i] in cards && Key(models[i]) == order[i]
  {
    if order == [] then []
    else
      assert order[0] in order && forall key :: key in order[1..] ==> key in order;
      var c :| c in cards && Key(c) == order[0];
      [c] + ModelsOf(cards, order[1..])
  }

  function NumsOf(order: seq<string>, counts: map<string, nat>): seq<nat>
    requires Elements(order) <= counts.Keys
  {
    seq(|order|, i requires 0 <= i < |order| => assert order[i] in Elements(order); counts[order[i]])
  }

  lemma PrintIsTexts(order: seq<string>, counts: map<string, nat>, models: seq<Card>)
    requires Elements(order) <= counts.Keys
    requires |models| == |order| && forall i :: 0 <= i < |order| ==> Key(models[i]) == order[i]
    ensures PartTexts(order, counts) == Texts(models, NumsOf(order, counts))
  {}

  // ---------------------------------------------------------------------------------------
  // Weighing.

  function CountIn(counts: map<string, nat>, key: string): nat {
    if key in counts then counts[key] else 0
  }

  /** Memory of all cards, model by model. */
  function Weight(models: seq<Card>, counts: map<string, nat>): int {
    if models == [] then 0
    else
      var m := models[|models| - 1];
      Weight(models[..|models| - 1], counts) + CountIn(counts, Key(m)) * m.mb
  }

  lemma {:induction false} WeightIncrement(models: seq<Card>, counts: map<string, nat>, c: Card)
    requires forall m :: m in models ==> (Key(m) == Key(c) <==> m == c)
    requires forall i, j :: 0 <= i < j < |models| ==> models[i] != models[j]
    ensures Weight(models, Increment(counts, Key(c))) == Weight(models, counts) + if c in models then c.mb else 0
  {
    if models != [] {
      var init, m := models[..|models| - 1], models[|models| - 1];
      assert models == init + [m] && m in models;
      WeightIncrement(init, counts, c);
      OneMore(counts, m, c);
    }
  }

  lemma OneMore(counts: map<string, nat>, m: Card, c: Card)
    requires Key(m) == Key(c) <==> m == c
    ensures CountIn(Increment(counts, Key(c)), Key(m)) * m.mb
         == CountIn(counts, Key(m)) * m.mb + if m == c then m.mb else 0
  {
    var k := CountIn(counts, Key(m));
    assert (k + 1) * m.mb == k * m.mb + m.mb;
  }

  lemma {:induction false} WeightEmpty(models: seq<Card>)
    ensures Weight(models, map[]) == 0
  {
    if models != [] { WeightEmpty(models[..|models| - 1]); }
  }

  lemma {:induction false} WeightIsTotal(models: seq<Card>, cards: seq<Card>)
    requires CleanCards(models) && CleanCards(cards) && forall c :: c in cards ==> c in models
    requires forall i, j :: 0 <= i < j < |models| ==> models[i] != models[j]
    ensures Weight(models, CountKeys(cards)) == TotalMB(cards)
  {
    if cards == [] {
      WeightEmpty(models);
    } else {
      var init, last := cards[..|cards| - 1], cards[|cards| - 1];
      assert cards == init + [last];
      WeightIsTotal(models, init);
      forall m | m in models ensures Key(m) == Key(last) <==> m == last {
        CardIDInjective(m, last);
      }
      WeightIncrement(models, CountKeys(init), last);
    }
  }

  // ---------------------------------------------------------------------------------------
  // Scoring.

  lemma {:induction false} SizeFound(name: string, d: string)
    requires d != "" && Digits(d) && forall i :: 0 <= i < |name| ==> name[i] != '('
    ensures FindSize(name + ("(" + d + ")")) == Some(d)
  {
    var s := name + ("(" + d + ")");
    if name == "" {
      assert s == "(" + d + "" + ")" + "";
      SizeMatches(d, "", "");
    } else {
      assert s[0] == name[0];
      assert s[1..] == name[1..] + ("(" + d + ")");
      SizeFound(name[1..], d);
    }
  }

  lemma CardGB(c: Card)
    requires CleanCard(c) && AboveOneGB(c)
    ensures ExtractVRAM(CardID(c)) == Some(c.mb as real / 1024.0)
  {
    ItoaRoundTrip(c.mb);
    assert CardID(c) == c.name + ("(" + Itoa(c.mb) + ")");
    SizeFound(c.name, Itoa(c.mb));
  }

  /** Entries that list models with their counts. */
  ghost predicate Lists(entries: seq<GpuEntry>, models: seq<Card>, counts: map<string, nat>) {
    && |entries| == |models|
    && forall i :: 0 <= i < |models| ==>
         && models[i].mb >= 0 && entries[i].id == CardID(models[i])
         && Key(models[i]) in counts && entries[i].num == counts[Key(models[i])]
  }

  lemma {:induction false} ScoreOfListed(entries: seq<GpuEntry>, models: seq<Card>, counts: map<string, nat>,
                                         gb: string -> real)
    requires Lists(entries, models, counts)
    requires forall i :: 0 <= i < |entries| ==>
      entries[i].num >= 1 && gb(entries[i].id) == models[i].mb as real / 1024.0
    ensures EntriesScore(entries, gb) * 1024.0 == MULTIPLIER * Weight(models, counts) as real
  {
    if models != [] {
      var n := |models| - 1;
      ScoreOfListed(entries[..n], models[..n], counts, gb);
      EntryScore(entries[n], gb, models[n].mb);
    }
  }

  lemma EntryScore(e: GpuEntry, gb: string -> real, mb: nat)
    requires e.num >= 1 && gb(e.id) == mb as real / 1024.0
    ensures OneEntry(e, gb) * 1024.0 == MULTIPLIER * (e.num * mb) as real
  {
    var x, y := mb as real, e.num as real;
    assert (e.num * mb) as real == y * x;
    assert (x / 1024.0 * MULTIPLIER * y) * 1024.0 == MULTIPLIER * (y * x);
  }

  // ---------------------------------------------------------------------------------------
  // End to end.

  /** The entries list every model among the cards once, with exactly its count. */
  ghost predicate Faithful(cards: seq<Card>, models: seq<Card>, entries: seq<GpuEntry>) {
    && CleanCards(models) && (forall c :: c in cards <==> c in models)
    && (forall i, j :: 0 <= i < j < |models| ==> models[i] != models[j])
    && Lists(entries, models, CountKeys(cards))
  }

  /** Whatever order the counts are printed in, parsing gives one entry per model with exactly that
      model's count. */
  lemma SummaryRoundTrip(cards: seq<Card>, order: seq<string>) returns (models: seq<Card>)
    requires CleanCards(cards) && |cards| <= MAX_INT64
    requires IsOrder(order, CountKeys(cards).Keys)
    ensures Faithful(cards, models, ParseSummary(PrintSummary(order, CountKeys(cards))))
  {
    models := ModelsListed(cards, order);
    var counts := CountKeys(cards);
    SameModels(cards, order, models);
    NoCountTooLarge(cards);
    NumsBounded(counts, order, models);
    EntriesListed(models, NumsOf(order, counts), counts);
    ParsePrinted(order, counts, models);
  }

  lemma ModelsListed(cards: seq<Card>, order: seq<string>) returns (models: seq<Card>)
    requires IsOrder(order, CountKeys(cards).Keys)
    ensures |models| == |order| && forall i :: 0 <= i < |order| ==> models[i] in cards && Key(models[i]) == order[i]
  {
    CountsAreBounded(cards);
    forall key | key in order ensures exists c :: c in cards && Key(c) == key {
      assert key in Elements(order);
    }
    models := ModelsOf(cards, order);
  }

  lemma NoCountTooLarge(cards: seq<Card>)
    requires |cards| <= MAX_INT64
    ensures forall key :: key in CountKeys(cards) ==> CountKeys(cards)[key] <= MAX_INT64
  {
    CountsAreBounded(cards);
  }

  lemma NumsBounded(counts: map<string, nat>, order: seq<string>, models: seq<Card>)
    requires Elements(order) <= counts.Keys && forall key :: key in counts ==> counts[key] <= MAX_INT64
    requires |models| == |order| && forall i :: 0 <= i < |order| ==> Key(models[i]) == order[i]
    ensures forall i :: 0 <= i < |models| ==>
      && Key(models[i]) in counts && NumsOf(order, counts)[i] == counts[Key(models[i])]
      && NumsOf(order, counts)[i] <= MAX_INT64
  {
    forall i | 0 <= i < |models| ensures Key(models[i]) in counts {
      assert order[i] in Elements(order);
    }
  }

  lemma ParsePrinted(order: seq<string>, counts: map<string, nat>, models: seq<Card>)
    requires Elements(order) <= counts.Keys && CleanCards(models)
    requires |models| == |order| && forall i :: 0 <= i < |order| ==> Key(models[i]) == order[i]
    ensures ParseSummary(PrintSummary(order, counts)) == Tallied(Items(Found(models, NumsOf(order, counts), "")))
  {
    var nums := NumsOf(order, counts);
    PrintIsTexts(order, counts, models);
    SummaryMatches(models, nums, "");
    assert "" + Join(Texts(models, nums), ", ") == Join(Texts(models, nums), ", ");
  }

  lemma SameModels(cards: seq<Card>, order: seq<string>, models: seq<Card>)
    requires CleanCards(cards) && IsOrder(order, CountKeys(cards).Keys) && |models| == |order|
    requires forall i :: 0 <= i < |order| ==> models[i] in cards && Key(models[i]) == order[i]
    ensures forall c :: c in cards <==> c in models
    ensures forall i, j :: 0 <= i < j < |models| ==> models[i] != models[j]
  {
    CountsAreBounded(cards);
    forall c | c in cards ensures c in models {
      assert Key(c) in Elements(order);
      var i :| 0 <= i < |order| && order[i] == Key(c);
      CardIDInjective(models[i], c);
    }
  }

  lemma EntriesListed(models: seq<Card>, nums: seq<nat>, counts: map<string, nat>)
    requires CleanCards(models) && |models| == |nums|
    requires forall i, j :: 0 <= i < j < |models| ==> models[i] != models[j]
    requires forall i :: 0 <= i < |models| ==>
      Key(models[i]) in counts && nums[i] == counts[Key(models[i])] && nums[i] <= MAX_INT64
    ensures Lists(Tallied(Items(Found(models, nums, ""))), models, counts)
  {
    var ms := Found(models, nums, "");
    var items := Items(ms);
    FoundLength(models, nums, "");
    forall i | 0 <= i < |models| ensures models[i].mb >= 0 && items[i] == GpuEntry(CardID(models[i]), nums[i]) {
      assert models[i] in models;
      FoundAt(models, nums, "", i);
    }
    forall i, j | 0 <= i < j < |items| ensures items[i].id != items[j].id {
      assert models[i] in models && models[j] in models;
      CardIDInjective(models[i], models[j]);
    }
    TalliedDistinct(items);
  }

  /** The hub scores a node's printed summary at exactly 300 points per GB of all its cards, whether it
      scores the broadcast as it was sent or as it is stored, with the GPU list filled in. */
  lemma ScoreIsTotalMemory(cards: seq<Card>, order: seq<string>, info: GpuInfo, spec: string -> Option<real>)
    requires CleanCards(cards) && Sized(cards) && cards != [] && |cards| <= MAX_INT64
    requires IsOrder(order, CountKeys(cards).Keys)
    requires info.summary == PrintSummary(order, CountKeys(cards))
    requires info.gpus == [] && info.role != "relay"
    ensures InfoScore(info, spec) == 300.0 * TotalMB(cards) as real / 1024.0
    ensures InfoScore(WithEntries(info), spec) == InfoScore(info, spec)
  {
    StoredAlike(info, spec);
    var models := SummaryRoundTrip(cards, order);
    FaithfulScore(cards, models, info, spec);
  }

  /** From what nvidia-smi prints to the hub's score: if the rows are clean and sized, a broadcast
      with the telemetry's summary scores 300 points per GB of the telemetry's own total. */
  method ScoreTelemetry(output: string, float: string -> real, info: GpuInfo, spec: string -> Option<real>)
    returns (t: Telemetry, score: real)
    requires
      var cards := CardsOf(Split(TrimSpace(output), '\n'));
      CleanCards(cards) && Sized(cards) && cards != [] && |cards| <= MAX_INT64
    requires info.gpus == [] && info.role != ROLE_RELAY
    ensures t.vramTotal == TotalMB(CardsOf(Split(TrimSpace(output), '\n'))) > 0
    ensures score == 300.0 * t.vramTotal as real / 1024.0
    ensures score == InfoScore(WithEntries(info.(summary := t.summary)), spec)
  {
    ghost var cards := CardsOf(Split(TrimSpace(output), '\n'));
    FirstLineNotEmpty(output);
    ghost var order;
    t, order := GetGPUTelemetry(false, Some(output), float);
    var sent := info.(summary := t.summary);
    score := CalculateScore(Some(sent), "", spec);
    ScoreIsTotalMemory(cards, order, sent, spec);
    TotalIsPositive(cards);
  }

  /** Text with a card in it is not blank, and trimmed text that is not empty has a first line. */
  lemma FirstLineNotEmpty(output: string)
    requires CardsOf(Split(TrimSpace(output), '\n')) != []
    ensures TrimSpace(output) != "" && Split(TrimSpace(output), '\n')[0] != ""
  {
    if TrimSpace(output) == "" { BlankHasNoCard(); } else { TrimmedStart(output); }
  }

  lemma BlankHasNoCard()
    ensures CardsOf(Split("", '\n')) == []
  {
    assert Split("", '\n') == [""] && Split("", ',') == [""];
    assert RowsOf([""]) == [None] && RowsOf([""])[..0] == [];
  }

  lemma StoredAlike(info: GpuInfo, spec: string -> Option<real>)
    ensures InfoScore(WithEntries(info), spec) == InfoScore(info, spec)
  {}

  lemma FaithfulScore(cards: seq<Card>, models: seq<Card>, info: GpuInfo, spec: string -> Option<real>)
    requires CleanCards(cards) && Sized(cards) && cards != [] && info.gpus == [] && info.role != ROLE_RELAY
    requires Faithful(cards, models, ParseSummary(info.summary))
    ensures InfoScore(info, spec) == MULTIPLIER * TotalMB(cards) as real / 1024.0
  {
    ListedScore(cards, models, ParseSummary(info.summary), spec);
    NotTheMarker(info.summary);
    ScoredByEntries(info, ParseSummary(info.summary), spec);
  }

  lemma ScoredByEntries(info: GpuInfo, entries: seq<GpuEntry>, spec: string -> Option<real>)
    requires info.gpus == [] && info.role != ROLE_RELAY && '(' in info.summary
    requires entries == ParseSummary(info.summary) && EntriesScore(entries, Capacity(spec)) > 0.0
    ensures InfoScore(info, spec) == EntriesScore(entries, Capacity(spec))
  {
    assert '(' !in NO_GPU;
  }

  lemma ListedScore(cards: seq<Card>, models: seq<Card>, entries: seq<GpuEntry>, spec: string -> Option<real>)
    requires CleanCards(cards) && Sized(cards) && cards != [] && Faithful(cards, models, entries)
    ensures
      var score := EntriesScore(entries, Capacity(spec));
      entries != [] && score == MULTIPLIER * TotalMB(cards) as real / 1024.0 && score > 0.0
  {
    var gb := Capacity(spec);
    CountsAreBounded(cards);
    assert cards[0] in models;
    forall i | 0 <= i < |entries| ensures entries[i].num >= 1 && gb(entries[i].id) == models[i].mb as real / 1024.0 {
      assert models[i] in models && models[i] in cards;
      CardGB(models[i]);
    }
    ScoreOfListed(entries, models, CountKeys(cards), gb);
    WeightIsTotal(models, cards);
    TotalIsPositive(cards);
    PerGB(EntriesScore(entries, gb), TotalMB(cards));
  }

  lemma PerGB(score: real, mb: int)
    requires score * 1024.0 == MULTIPLIER * mb as real && mb > 0
    ensures score == MULTIPLIER * mb as real / 1024.0 && score > 0.0
  {}

  lemma {:induction false} TotalIsPositive(cards: seq<Card>)
    requires Sized(cards)
    ensures TotalMB(cards) >= |cards|
  {
    if cards != [] {
      assert cards[|cards| - 1] in cards;
      TotalIsPositive(cards[..|cards| - 1]);
    }
  }

  /** A summary with entries is neither empty nor the "no GPU" marker. */
  lemma NotTheMarker(summary: string)
    requires ParseSummary(summary) != []
    ensures '(' in summary
  {
    if '(' !in summary { NoBracketNoMatch(summary); }
  }

  lemma {:induction false} NoBracketNoMatch(s: string)
    requires forall i :: 0 <= i < |s| ==> s[i] != '('
    ensures FindAll(s) == []
  {
    if s != "" {
      if NameChar(s[0]) { NoBracketNoName(s, 1); }
      NoBracketNoMatch(s[1..]);
    }
  }

  lemma {:induction false} NoBracketNoName(s: string, k: nat)
    requires 1 <= k <= |s| && forall i :: 0 <= i < |s| ==> s[i] != '('
    ensures TryName(s, k) == None
    decreases |s| - k
  {
    NoBracketNoSize(s[k..]);
    if k < |s| { NoBracketNoName(s, k + 1); }
  }

  lemma {:induction false} NoBracketNoSize(s: string)
    requires forall i :: 0 <= i < |s| ==> s[i] != '('
    ensures MatchSize(SkipSpaces(s)) == None
  {
    if s != "" && IsRegexSpace(s[0]) { NoBracketNoSize(s[1..]); }
  }
}
