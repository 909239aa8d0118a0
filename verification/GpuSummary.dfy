/** The GPU summary string: printed by a node from nvidia-smi output (sys.go), parsed by the hub
    (server_p2p.go) and scored (server_rank.go).  The regular expressions are written as scanners;
    each of them is deterministic apart from the lazy name group, which is tried shortest first. */
module GpuSummary {
  import opened PeerState
  import opened Text
  import opened Ranking

  // ---------------------------------------------------------------------------------------
  // Printing.

  /** One row of the CSV report: model name and total memory in MB. */
  datatype Card = Card(name: string, mb: int)

  function Decimal(n: int): string {
    if n < 0 then "-" + Itoa(-n) else Itoa(n)
  }

  function CardOf(line: string): Option<Card> {
    var parts := Split(line, ',');
    if |parts| < 10 then None else Some(Card(TrimSpace(parts[0]), Atoi(TrimSpace(parts[1])).0))
  }

  function RowsOf(lines: seq<string>): seq<Option<Card>> {
    seq(|lines|, i requires 0 <= i < |lines| => CardOf(lines[i]))
  }

  /** The rows that have all ten columns. */
  function CardsIn(rows: seq<Option<Card>>): seq<Card> {
    if rows == [] then []
    else
      var last := rows[|rows| - 1];
      CardsIn(rows[..|rows| - 1]) + if last.Some? then [last.value] else []
  }

  function CardsOf(lines: seq<string>): seq<Card> {
    CardsIn(RowsOf(lines))
  }

  function TotalMB(cards: seq<Card>): int {
    if cards == [] then 0 else TotalMB(cards[..|cards| - 1]) + cards[|cards| - 1].mb
  }

  function Key(c: Card): string {
    c.name + "(" + Decimal(c.mb) + "MB)"
  }

  /** How many cards print as each model. */
  function CountKeys(cards: seq<Card>): map<string, nat> {
    if cards == [] then map[]
    else
      var counts := CountKeys(cards[..|cards| - 1]);
      var key := Key(cards[|cards| - 1]);
      Increment(counts, key)
  }

  function Increment(counts: map<string, nat>, key: string): map<string, nat> {
    counts[key := (if key in counts then counts[key] else 0) + 1]
  }

  function PartText(key: string, count: nat): string {
    key + " x" + Itoa(count)
  }

  function PartTexts(order: seq<string>, counts: map<string, nat>): seq<string>
    requires Elements(order) <= counts.Keys
  {
    seq(|order|, i requires 0 <= i < |order| =>
      assert order[i] in Elements(order);
      PartText(order[i], counts[order[i]]))
  }

  function PrintSummary(order: seq<string>, counts: map<string, nat>): string
    requires Elements(order) <= counts.Keys
  {
    Join(PartTexts(order, counts), ", ")
  }

  /** `order` lists every key once. */
  ghost predicate IsOrder(order: seq<string>, keys: set<string>) {
    && Elements(order) == keys
    && forall i, j :: 0 <= i < j < |order| ==> order[i] != order[j]
  }

  /** The columns that do not make the summary: memory in use, utilisation, temperature, fan, power
      draw and limit, and the driver version. */
  datatype Reading = Reading(
    used: int, gpuUtil: int, memUtil: int, temp: int, fan: int, power: real, powerLimit: real, driver: string)

  const NO_READING := Reading(0, 0, 0, 0, 0, 0.0, 0.0, "")

  /** `float` is strconv.ParseFloat's value. */
  function ReadingOf(line: string, float: string -> real): Option<Reading> {
    var parts := Split(line, ',');
    if |parts| < 10 then None
    else
      Some(Reading(Atoi(TrimSpace(parts[2])).0, Atoi(TrimSpace(parts[3])).0, Atoi(TrimSpace(parts[4])).0,
                   Atoi(TrimSpace(parts[5])).0, Atoi(TrimSpace(parts[8])).0,
                   float(TrimSpace(parts[6])), float(TrimSpace(parts[7])), TrimSpace(parts[9])))
  }

  function ReadingsOf(lines: seq<string>, float: string -> real): seq<Reading> {
    if lines == [] then []
    else
      var last := ReadingOf(lines[|lines| - 1], float);
      ReadingsOf(lines[..|lines| - 1], float) + if last.Some? then [last.value] else []
  }

  /** Memory adds up, gauges keep their peak, and the last driver version stands. */
  function Combine(t: Reading, r: Reading): Reading {
    Reading(t.used + r.used, Max(t.gpuUtil, r.gpuUtil), Max(t.memUtil, r.memUtil), Max(t.temp, r.temp),
            Max(t.fan, r.fan), MaxScore(t.power, r.power), MaxScore(t.powerLimit, r.powerLimit), r.driver)
  }

  function Combined(rs: seq<Reading>): Reading {
    if rs == [] then NO_READING else Combine(Combined(rs[..|rs| - 1]), rs[|rs| - 1])
  }

  datatype Gauge = GpuUtil | MemUtil | Temperature | Fan | Power | PowerLimit

  function Level(r: Reading, g: Gauge): real {
    match g
    case GpuUtil => r.gpuUtil as real
    case MemUtil => r.memUtil as real
    case Temperature => r.temp as real
    case Fan => r.fan as real
    case Power => r.power
    case PowerLimit => r.powerLimit
  }

  function SumUsed(rs: seq<Reading>): int {
    if rs == [] then 0 else rs[0].used + SumUsed(rs[1..])
  }

  /** `v` is the largest level of a gauge, floored at zero. */
  ghost predicate IsPeak(v: real, rs: seq<Reading>, g: Gauge) {
    && 0.0 <= v && (forall r :: r in rs ==> Level(r, g) <= v)
    && (v == 0.0 || exists r :: r in rs && Level(r, g) == v)
  }

  /** What a node reports about its cards together: each gauge at its peak, ... */
  lemma {:induction false} GaugesArePeaks(rs: seq<Reading>, g: Gauge)
    ensures IsPeak(Level(Combined(rs), g), rs, g)
  {
    if rs != [] {
      var init, last := rs[..|rs| - 1], rs[|rs| - 1];
      GaugesArePeaks(init, g);
      var v, v' := Level(Combined(init), g), Level(Combined(rs), g);
      assert rs == init + [last] && v <= v' && Level(last, g) <= v' && (v' == v || v' == Level(last, g));
      if v' == v && v != 0.0 {
        var r :| r in init && Level(r, g) == v;
        assert r in rs;
      } else if v' != v {
        assert last in rs;
      }
    }
  }

  /** ... the memory in use added up, and the driver of the last row. */
  lemma {:induction false} UsedIsSum(rs: seq<Reading>)
    ensures Combined(rs).used == SumUsed(rs)
    ensures rs != [] ==> Combined(rs).driver == rs[|rs| - 1].driver
  {
    if rs != [] {
      UsedIsSum(rs[..|rs| - 1]);
      SumUsedSnoc(rs);
    }
  }

  lemma {:induction false} SumUsedSnoc(rs: seq<Reading>)
    requires rs != []
    ensures SumUsed(rs) == SumUsed(rs[..|rs| - 1]) + rs[|rs| - 1].used
  {
    if |rs| > 1 {
      SumUsedSnoc(rs[1..]);
      assert rs[..|rs| - 1][1..] == rs[1..][..|rs| - 2];
    }
  }

  datatype Telemetry = Telemetry(summary: string, vramTotal: int, reading: Reading)

  const NO_TELEMETRY := Telemetry(NO_GPU, 0, NO_READING)

  /** `output` is what nvidia-smi printed, or None when it could not be run.  The map of counts is
      walked in an arbitrary order. */
  method GetGPUTelemetry(relayOnly: bool, output: Option<string>, float: string -> real)
    returns (t: Telemetry, ghost order: seq<string>)
    ensures relayOnly || output.None? || TrimSpace(output.value) == "" ==>
      t == NO_TELEMETRY && t.summary == "No GPU Detected" && t.vramTotal == 0
    ensures (!relayOnly && output.Some? && TrimSpace(output.value) != ""
             && Split(TrimSpace(output.value), '\n')[0] != "") ==>
      var lines := Split(TrimSpace(output.value), '\n');
      var cards := CardsOf(lines);
      && IsOrder(order, CountKeys(cards).Keys)
      && t == Telemetry(PrintSummary(order, CountKeys(cards)), TotalMB(cards), Combined(ReadingsOf(lines, float)))
  {
    order := [];
    if relayOnly || output.None? {
      return NO_TELEMETRY, [];
    }
    var lines := Split(TrimSpace(output.value), '\n');
    if lines[0] == "" {
      return NO_TELEMETRY, [];
    }
    var statsMap, totalVRAM, reading := CountRows(lines, float);
    var summaryParts;
    summaryParts, order := WalkCounts(statsMap);
    t := Telemetry(Join(summaryParts, ", "), totalVRAM, reading);
  }

  /** The CSV loop. */
  method CountRows(lines: seq<string>, float: string -> real)
    returns (statsMap: map<string, nat>, totalVRAM: int, reading: Reading)
    ensures statsMap == CountKeys(CardsOf(lines)) && totalVRAM == TotalMB(CardsOf(lines))
    ensures reading == Combined(ReadingsOf(lines, float))
  {
    statsMap, totalVRAM, reading := map[], 0, NO_READING;
    for i := 0 to |lines|
      invariant statsMap == CountKeys(CardsOf(lines[..i])) && totalVRAM == TotalMB(CardsOf(lines[..i]))
      invariant reading == Combined(ReadingsOf(lines[..i], float))
    {
      CountLine(lines, i);
      ReadLine(lines, i, float);
      var card, gauges := CardOf(lines[i]), ReadingOf(lines[i], float);
      if card.Some? {
        totalVRAM := totalVRAM + card.value.mb;
        statsMap := Increment(statsMap, Key(card.value));
        reading := Combine(reading, gauges.value);
      }
    }
    assert lines[..|lines|] == lines;
  }

  lemma ReadLine(lines: seq<string>, i: nat, float: string -> real)
    requires i < |lines|
    ensures
      var before, r := ReadingsOf(lines[..i], float), ReadingOf(lines[i], float);
      && r.Some? == CardOf(lines[i]).Some?
      && Combined(ReadingsOf(lines[..i + 1], float)) ==
           if r.Some? then Combine(Combined(before), r.value) else Combined(before)
  {
    assert lines[..i + 1][..i] == lines[..i];
    var before, r := ReadingsOf(lines[..i], float), ReadingOf(lines[i], float);
    if r.Some? {
      assert (before + [r.value])[..|before|] == before;
    } else {
      assert before + [] == before;
    }
  }

  lemma CountLine(lines: seq<string>, i: nat)
    requires i < |lines|
    ensures
      var cards, cards', row := CardsOf(lines[..i]), CardsOf(lines[..i + 1]), CardOf(lines[i]);
      && CountKeys(cards') == (if row.Some? then Increment(CountKeys(cards), Key(row.value)) else CountKeys(cards))
      && TotalMB(cards') == TotalMB(cards) + if row.Some? then row.value.mb else 0
  {
    CardsSnoc(lines, i);
    var cards := CardsOf(lines[..i]);
    if CardOf(lines[i]).Some? {
      CountCard(cards, CardOf(lines[i]).value);
    } else {
      assert cards + [] == cards;
    }
  }

  lemma CardsSnoc(lines: seq<string>, i: nat)
    requires i < |lines|
    ensures CardsOf(lines[..i + 1]) ==
      CardsOf(lines[..i]) + (if CardOf(lines[i]).Some? then [CardOf(lines[i]).value] else [])
  {
    assert RowsOf(lines[..i + 1])[..i] == RowsOf(lines[..i]);
  }

  lemma CountCard(cards: seq<Card>, c: Card)
    ensures CountKeys(cards + [c]) == Increment(CountKeys(cards), Key(c))
    ensures TotalMB(cards + [c]) == TotalMB(cards) + c.mb
  {
    assert (cards + [c])[..|cards|] == cards;
  }

  method WalkCounts(counts: map<string, nat>) returns (parts: seq<string>, ghost order: seq<string>)
    ensures IsOrder(order, counts.Keys) && parts == PartTexts(order, counts)
  {
    parts, order := [], [];
    var todo := counts.Keys;
    while todo != {}
      invariant todo <= counts.Keys
      invariant IsOrder(order, counts.Keys - todo)
      invariant parts == PartTexts(order, counts)
      decreases |todo|
    {
      var key :| key in todo;
      PartTextsSnoc(order, key, counts);
      assert key !in Elements(order);
      forall i | 0 <= i < |order| ensures order[i] != key {
        assert order[i] in Elements(order);
      }
      assert Elements(order + [key]) == Elements(order) + {key};
      parts := parts + [PartText(key, counts[key])];
      order := order + [key];
      todo := todo - {key};
    }
  }

  lemma PartTextsSnoc(order: seq<string>, key: string, counts: map<string, nat>)
    requires key in counts && Elements(order) <= counts.Keys
    ensures Elements(order + [key]) <= counts.Keys
    ensures PartTexts(order + [key], counts) == PartTexts(order, counts) + [PartText(key, counts[key])]
  {
    assert Elements(order + [key]) == Elements(order) + {key};
  }

  // ---------------------------------------------------------------------------------------
  // Parsing: ([^,;()\n]+?)\s*\(\s*(\d+)\s*(?:MB)?\s*\)\s*(?:x\s*(\d+)|\s*(\d+)\s*[counter])

  datatype Match = Match(name: string, vram: string, num: string)

  predicate NameChar(c: char) {
    c != ',' && c != ';' && c != '(' && c != ')' && c != '\n'
  }

  function SkipMB(s: string): (r: string)
    ensures |r| <= |s|
  {
    if |s| >= 2 && (s[0] == 'M' || s[0] == 'm') && (s[1] == 'B' || s[1] == 'b') then s[2..] else s
  }

  /** \(\s*(\d+)\s*(?:MB)?\s*\) : the digits and what follows. */
  function MatchSize(s: string): (r: Option<(string, string)>)
    ensures r.Some? ==> |r.value.1| < |s|
  {
    if s == "" || s[0] != '(' then None
    else
      var (d, rest) := TakeDigits(SkipSpaces(s[1..]));
      var close := SkipSpaces(SkipMB(SkipSpaces(rest)));
      if d == "" || close == "" || close[0] != ')' then None else Some((d, close[1..]))
  }

  /** (?:x\s*(\d+)|\s*(\d+)\s*[counter]) */
  function MatchCount(s: string): (r: Option<(string, string)>)
    ensures r.Some? ==> |r.value.1| <= |s|
  {
    if s != "" && (s[0] == 'x' || s[0] == 'X') then
      var (d, rest) := TakeDigits(SkipSpaces(s[1..]));
      if d == "" then None else Some((d, rest))
    else
      var (d, rest) := TakeDigits(SkipSpaces(s));
      var unit := SkipSpaces(rest);
      if d == "" || unit == "" || (unit[0] != '\U{5F35}' && unit[0] != '\U{500B}') then None
      else Some((d, unit[1..]))
  }

  /** Everything after the name group. */
  function MatchTail(s: string): (r: Option<(string, string, string)>)
    ensures r.Some? ==> |r.value.2| <= |s|
  {
    var size := MatchSize(SkipSpaces(s));
    if size.None? then None
    else
      var count := MatchCount(SkipSpaces(size.value.1));
      if count.None? then None else Some((size.value.0, count.value.0, count.value.1))
  }

  /** A name of `k` characters, or the next longer one. */
  function TryName(s: string, k: nat): (r: Option<(Match, string)>)
    requires 1 <= k <= |s|
    ensures r.Some? ==> |r.value.1| < |s|
    decreases |s| - k
  {
    var tail := MatchTail(s[k..]);
    if tail.Some? then Some((Match(s[..k], tail.value.0, tail.value.1), tail.value.2))
    else if k < |s| && NameChar(s[k]) then TryName(s, k + 1)
    else None
  }

  function MatchAt(s: string): (r: Option<(Match, string)>)
    ensures r.Some? ==> |r.value.1| < |s|
  {
    if s != "" && NameChar(s[0]) then TryName(s, 1) else None
  }

  /** Leftmost matches, one after the other. */
  function FindAll(s: string): seq<Match>
    decreases |s|
  {
    if s == "" then []
    else
      var m := MatchAt(s);
      if m.Some? then [m.value.0] + FindAll(m.value.1) else FindAll(s[1..])
  }

  function EntryID(m: Match): string {
    TrimSpace(m.name) + "(" + m.vram + ")"
  }

  function EntryNum(m: Match): int {
    var (n, ok) := Atoi(m.num);
    if ok then n else 1
  }

  function Items(ms: seq<Match>): seq<GpuEntry> {
    seq(|ms|, i requires 0 <= i < |ms| => GpuEntry(EntryID(ms[i]), EntryNum(ms[i])))
  }

  /** First-seen order and accumulated counts. */
  function Tally(items: seq<GpuEntry>): (seq<string>, map<string, int>) {
    if items == [] then ([], map[])
    else
      var (order, counts) := Tally(items[..|items| - 1]);
      var e := items[|items| - 1];
      (if e.id in counts then order else order + [e.id],
       counts[e.id := (if e.id in counts then counts[e.id] else 0) + e.num])
  }

  lemma TallyKeys(items: seq<GpuEntry>)
    ensures Elements(Tally(items).0) == Tally(items).1.Keys
  {
    if items != [] {
      TallyKeys(items[..|items| - 1]);
      var order, id := Tally(items[..|items| - 1]).0, items[|items| - 1].id;
      assert Elements(order + [id]) == Elements(order) + {id};
    }
  }

  function EntriesOf(order: seq<string>, counts: map<string, int>): seq<GpuEntry>
    requires Elements(order) <= counts.Keys
  {
    seq(|order|, i requires 0 <= i < |order| =>
      assert order[i] in Elements(order);
      GpuEntry(order[i], counts[order[i]]))
  }

  function Tallied(items: seq<GpuEntry>): seq<GpuEntry> {
    TallyKeys(items);
    EntriesOf(Tally(items).0, Tally(items).1)
  }

  function ParseSummary(summary: string): seq<GpuEntry> {
    Tallied(Items(FindAll(summary)))
  }

  method ParseSummaryGPUs(summary: string) returns (entries: seq<GpuEntry>)
    ensures entries == ParseSummary(summary)
  {
    var matches := FindAll(summary);
    if |matches| == 0 {
      return [];
    }
    var items := Items(matches);
    var order, counts := TallyItems(items);
    TallyKeys(items);
    entries := [];
    for i := 0 to |order|
      invariant entries == EntriesOf(order, counts)[..i]
    {
      assert order[i] in Elements(order);
      entries := entries + [GpuEntry(order[i], counts[order[i]])];
    }
  }

  method TallyItems(items: seq<GpuEntry>) returns (order: seq<string>, counts: map<string, int>)
    ensures (order, counts) == Tally(items)
  {
    counts, order := map[], [];
    for i := 0 to |items|
      invariant (order, counts) == Tally(items[..i])
    {
      assert items[..i + 1][..i] == items[..i] && items[..i + 1][i] == items[i];
      var id, num := items[i].id, items[i].num;
      if id !in counts {
        order := order + [id];
      }
      counts := counts[id := (if id in counts then counts[id] else 0) + num];
    }
    assert items[..|items|] == items;
  }

  // ---------------------------------------------------------------------------------------
  // Scoring.

  const MULTIPLIER := 300.0
  const DEFAULT_GB := 16.0

  /** Leftmost parenthesised size anywhere in the string. */
  function FindSize(s: string): Option<string> {
    if s == "" then None
    else if MatchSize(s).Some? then Some(MatchSize(s).value.0)
    else FindSize(s[1..])
  }

  /** Leftmost (\d+)\s*GB, ignoring case. */
  function FindGB(s: string): Option<string> {
    if s == "" then None
    else
      var (d, rest) := TakeDigits(s);
      var unit := SkipSpaces(rest);
      if d != "" && |unit| >= 2 && (unit[0] == 'G' || unit[0] == 'g') && (unit[1] == 'B' || unit[1] == 'b') then Some(d)
      else FindGB(s[1..])
  }

  function Upper(s: string): string {
    seq(|s|, i requires 0 <= i < |s| => if 'a' <= s[i] <= 'z' then s[i] - 32 as char else s[i])
  }

  predicate Contains(s: string, token: string) {
    |token| <= |s| && (s[..|token|] == token || (s != "" && Contains(s[1..], token)))
  }

  const KNOWN_MODELS: seq<(string, real)> := [
    ("4090", 24.0), ("3090", 24.0), ("4080", 16.0), ("3080", 10.0), ("4070", 12.0),
    ("3070", 8.0), ("2080", 8.0), ("A100", 80.0), ("H100", 80.0), ("L40", 48.0),
    ("A10", 24.0), ("T4", 24.0)]

  function KnownModel(upper: string, table: seq<(string, real)>): Option<real> {
    if table == [] then None
    else if Contains(upper, table[0].0) then Some(table[0].1)
    else KnownModel(upper, table[1..])
  }

  /** Digits matched by a scanner, as a number. */
  function Value(d: string): real {
    if Digits(d) then NatOf(d) as real else 0.0
  }

  /** Capacity in GB: an explicit size (in MB above 1024), an explicit GB figure, a known model. */
  function ExtractVRAM(id: string): Option<real> {
    var size := FindSize(id);
    if size.Some? && Value(size.value) > 0.0 then
      Some(if Value(size.value) > 1024.0 then Value(size.value) / 1024.0 else Value(size.value))
    else
      var gb := FindGB(id);
      if gb.Some? && Value(gb.value) > 0.0 then Some(Value(gb.value))
      else KnownModel(Upper(id), KNOWN_MODELS)
  }

  /** `spec` is the specification database's answer for an ID, if it has one. */
  function EntryGB(id: string, spec: string -> Option<real>): real {
    var extracted := ExtractVRAM(id);
    var gb := if extracted.Some? then extracted.value else if spec(id).Some? then spec(id).value else 0.0;
    if gb <= 0.0 then DEFAULT_GB else gb
  }

  /** 300 points per GB, card by card; `gb` gives an entry ID's capacity. */
  function EntriesScore(gpus: seq<GpuEntry>, gb: string -> real): real {
    if gpus == [] then 0.0
    else
      var e := gpus[|gpus| - 1];
      EntriesScore(gpus[..|gpus| - 1], gb) + OneEntry(e, gb)
  }

  function OneEntry(e: GpuEntry, gb: string -> real): real {
    gb(e.id) * MULTIPLIER * (if e.num <= 0 then 1 else e.num) as real
  }

  function Capacity(spec: string -> Option<real>): string -> real {
    (id: string) => EntryGB(id, spec)
  }

  function InfoScore(info: GpuInfo, spec: string -> Option<real>): real {
    if info.role == ROLE_RELAY || info.summary == NO_GPU then 0.0
    else
      var gpus := if info.gpus == [] && info.summary != "" then ParseSummary(info.summary) else info.gpus;
      var total := EntriesScore(gpus, Capacity(spec));
      if total <= 0.0 then DEFAULT_GB * MULTIPLIER else total
  }

  /** `decoded` is the stored column if it is a broadcast; otherwise only its raw text is known. */
  method CalculateScore(decoded: Option<GpuInfo>, raw: string, spec: string -> Option<real>) returns (score: real)
    ensures decoded.Some? ==> score == InfoScore(decoded.value, spec)
    ensures decoded.None? ==>
      score == MULTIPLIER * (if raw != "" && ExtractVRAM(raw).Some? && ExtractVRAM(raw).value > 0.0
                             then ExtractVRAM(raw).value else DEFAULT_GB)
  {
    var fallback := DEFAULT_GB * MULTIPLIER;
    if decoded.None? {
      if raw != "" {
        var vram := ExtractVRAM(raw);
        if vram.Some? && vram.value > 0.0 {
          return vram.value * MULTIPLIER;
        }
      }
      return fallback;
    }
    var info := decoded.value;
    if info.role == ROLE_RELAY || info.summary == NO_GPU {
      return 0.0;
    }
    var gpus := info.gpus;
    if |gpus| == 0 && info.summary != "" {
      gpus := ParseSummaryGPUs(info.summary);
    }
    var totalScore := SumEntries(gpus, Capacity(spec));
    if totalScore <= 0.0 {
      return fallback;
    }
    return totalScore;
  }

  method SumEntries(gpus: seq<GpuEntry>, gb: string -> real) returns (totalScore: real)
    ensures totalScore == EntriesScore(gpus, gb)
  {
    totalScore := 0.0;
    for i := 0 to |gpus|
      invariant totalScore == EntriesScore(gpus[..i], gb)
    {
      assert gpus[..i + 1][..i] == gpus[..i] && gpus[..i + 1][i] == gpus[i];
      var num := gpus[i].num;
      if num <= 0 {
        num := 1;
      }
      totalScore := totalScore + gb(gpus[i].id) * MULTIPLIER * num as real;
    }
    assert gpus[..|gpus|] == gpus;
  }
}
