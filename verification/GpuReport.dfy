/** The node's side of the hardware score, from the report's own columns: which column is what, that a
    report of any cards reads back as those cards, and what the hub then makes of them, in numbers. */
module GpuReport {
  import opened PeerState
  import opened Text
  import opened Ranking
  import opened GpuSummary
  import opened GpuRoundTrip
  import opened HubEvents
  import opened ChatScanners
  import opened ChatShapes

  // ---------------------------------------------------------------------------------------
  // Splitting undoes joining.

  predicate Free(pieces: seq<string>, sep: char) {
    forall i :: 0 <= i < |pieces| ==> sep !in pieces[i]
  }

  lemma {:induction false} SplitJoin(pieces: seq<string>, sep: char)
    requires pieces != [] && Free(pieces, sep)
    ensures Split(Join(pieces, [sep]), sep) == pieces
  {
    if |pieces| == 1 {
      SplitWhole(pieces[0], sep);
    } else {
      SplitJoin(pieces[1..], sep);
      SplitPiece(pieces[0], sep, Join(pieces[1..], [sep]));
      assert pieces == [pieces[0]] + pieces[1..];
    }
  }

  lemma {:induction false} JoinLacks(pieces: seq<string>, sep: string, c: char)
    requires Free(pieces, c) && c !in sep
    ensures c !in Join(pieces, sep)
  {
    if |pieces| > 1 { JoinLacks(pieces[1..], sep, c); }
  }

  // ---------------------------------------------------------------------------------------
  // One row.

  /** name, memory.total, memory.used, utilization.gpu, utilization.memory, temperature.gpu,
      power.draw, power.limit, fan.speed, driver_version */
  datatype Columns = Columns(
    name: string, memoryTotal: string, memoryUsed: string, utilizationGpu: string, utilizationMemory: string,
    temperature: string, powerDraw: string, powerLimit: string, fanSpeed: string, driverVersion: string)

  function Fields(c: Columns): seq<string> {
    [c.name, c.memoryTotal, c.memoryUsed, c.utilizationGpu, c.utilizationMemory,
     c.temperature, c.powerDraw, c.powerLimit, c.fanSpeed, c.driverVersion]
  }

  function PrintRow(c: Columns): string {
    Join(Fields(c), ",")
  }

  function Number(s: string): int {
    Atoi(TrimSpace(s)).0
  }

  /** A row of ten comma-free fields reads field by field: the name and the memory total make the card,
      the other eight the reading; blanks around a field do not matter. */
  lemma RowReads(c: Columns, float: string -> real)
    requires Free(Fields(c), ',')
    ensures CardOf(PrintRow(c)) == Some(Card(TrimSpace(c.name), Number(c.memoryTotal)))
    ensures
      var r := ReadingOf(PrintRow(c), float);
      && r.Some?
      && r.value.used == Number(c.memoryUsed)
      && r.value.gpuUtil == Number(c.utilizationGpu) && r.value.memUtil == Number(c.utilizationMemory)
      && r.value.temp == Number(c.temperature) && r.value.fan == Number(c.fanSpeed)
      && r.value.power == float(TrimSpace(c.powerDraw)) && r.value.powerLimit == float(TrimSpace(c.powerLimit))
      && r.value.driver == TrimSpace(c.driverVersion)
  {
    SplitJoin(Fields(c), ',');
    assert [','] == ",";
  }

  /** A row with fewer columns is passed over. */
  lemma ShortRowReads(fields: seq<string>, float: string -> real)
    requires fields != [] && |fields| < 10 && Free(fields, ',')
    ensures CardOf(Join(fields, ",")) == None && ReadingOf(Join(fields, ","), float) == None
  {
    SplitJoin(fields, ',');
    assert [','] == ",";
  }

  // ---------------------------------------------------------------------------------------
  // A whole report.

  /** A card with the rest of its row. */
  datatype Device = Device(name: string, mb: nat, rest: Columns)

  /** As nvidia-smi prints it: a blank after every comma. */
  function ColumnsOf(d: Device): Columns {
    d.rest.(name := d.name, memoryTotal := " " + Itoa(d.mb))
  }

  predicate GoodDevice(d: Device) {
    && d.name != "" && Trimmed(d.name) && d.mb <= MAX_INT64
    && TrimSpace(d.rest.driverVersion) != "" && !IsSpace(d.rest.driverVersion[|d.rest.driverVersion| - 1])
    && Free(Fields(ColumnsOf(d)), ',') && Free(Fields(ColumnsOf(d)), '\n')
  }

  function Rows(ds: seq<Device>): seq<string> {
    seq(|ds|, i requires 0 <= i < |ds| => PrintRow(ColumnsOf(ds[i])))
  }

  function Report(ds: seq<Device>): string {
    Join(Rows(ds), "\n") + "\n"
  }

  function SumMB(ds: seq<Device>): nat {
    if ds == [] then 0 else ds[0].mb + SumMB(ds[1..])
  }

  function CardsFrom(ds: seq<Device>): seq<Card> {
    seq(|ds|, i requires 0 <= i < |ds| => Card(ds[i].name, ds[i].mb))
  }

  lemma RowIsOneLine(d: Device)
    requires GoodDevice(d)
    ensures '\n' !in PrintRow(ColumnsOf(d)) && PrintRow(ColumnsOf(d)) != ""
    ensures CardOf(PrintRow(ColumnsOf(d))) == Some(Card(d.name, d.mb))
    ensures !IsSpace(PrintRow(ColumnsOf(d))[0])
  {
    var c := ColumnsOf(d);
    JoinLacks(Fields(c), ",", '\n');
    RowReads(c, (s: string) => 0.0);
    NumberOfBlank(d.mb);
    TrimOfTrimmed(d.name);
    StartsWithFirst(Fields(c));
  }

  lemma NumberOfBlank(n: nat)
    requires n <= MAX_INT64
    ensures Number(" " + Itoa(n)) == n
  {
    ItoaRoundTrip(n);
    assert " " + Itoa(n) == " " + Itoa(n) + "";
    assert Trimmed(Itoa(n)) by { assert IsDigit(Itoa(n)[0]) && IsDigit(Itoa(n)[|Itoa(n)| - 1]); }
    TrimAround(" ", Itoa(n), "");
    AtoiOfItoa(n);
  }

  lemma StartsWithFirst(pieces: seq<string>)
    requires pieces != [] && pieces[0] != ""
    ensures Join(pieces, ",") != "" && Join(pieces, ",")[0] == pieces[0][0]
  {}

  lemma {:induction false} EndsWithLast(pieces: seq<string>, sep: string)
    requires pieces != [] && pieces[|pieces| - 1] != ""
    ensures
      var s, last := Join(pieces, sep), pieces[|pieces| - 1];
      s != "" && s[|s| - 1] == last[|last| - 1]
  {
    if |pieces| > 1 { EndsWithLast(pieces[1..], sep); }
  }

  lemma RowEnd(d: Device)
    requires GoodDevice(d)
    ensures PrintRow(ColumnsOf(d)) != "" && !IsSpace(PrintRow(ColumnsOf(d))[|PrintRow(ColumnsOf(d))| - 1])
  {
    assert d.rest.driverVersion != "" by { assert TrimSpace("") == ""; }
    EndsWithLast(Fields(ColumnsOf(d)), ",");
  }

  /** Trimming a report takes off the last line break and nothing else. */
  lemma ReportLines(ds: seq<Device>)
    requires ds != [] && forall d :: d in ds ==> GoodDevice(d)
    ensures TrimSpace(Report(ds)) != "" && Split(TrimSpace(Report(ds)), '\n') == Rows(ds)
  {
    var s := Join(Rows(ds), "\n");
    forall i | 0 <= i < |ds| ensures '\n' !in Rows(ds)[i] && Rows(ds)[i] != "" {
      assert ds[i] in ds;
      RowIsOneLine(ds[i]);
    }
    ReportIsTrimmed(ds);
    assert "" + s + "\n" == Report(ds);
    TrimAround("", s, "\n");
    SplitJoin(Rows(ds), '\n');
    assert ['\n'] == "\n";
  }

  lemma ReportIsTrimmed(ds: seq<Device>)
    requires ds != [] && forall d :: d in ds ==> GoodDevice(d)
    ensures Join(Rows(ds), "\n") != "" && Trimmed(Join(Rows(ds), "\n"))
  {
    var s := Join(Rows(ds), "\n");
    assert ds[0] in ds && ds[|ds| - 1] in ds;
    RowIsOneLine(ds[0]);
    RowEnd(ds[|ds| - 1]);
    EndsWithLast(Rows(ds), "\n");
    assert s[0] == Rows(ds)[0][0];
  }

  /** A report of any cards reads back as exactly those cards, in order. */
  lemma ReportReads(ds: seq<Device>)
    requires ds != [] && forall d :: d in ds ==> GoodDevice(d)
    ensures CardsOf(Split(TrimSpace(Report(ds)), '\n')) == CardsFrom(ds)
    ensures TotalMB(CardsFrom(ds)) == SumMB(ds)
  {
    ReportLines(ds);
    CardsOfRows(ds);
    TotalIsSum(ds);
  }

  lemma {:induction false} CardsOfRows(ds: seq<Device>)
    requires forall d :: d in ds ==> GoodDevice(d)
    ensures CardsOf(Rows(ds)) == CardsFrom(ds)
  {
    if ds != [] {
      var n := |ds| - 1;
      assert ds[n] in ds;
      CardsOfRows(ds[..n]);
      RowIsOneLine(ds[n]);
      assert Rows(ds)[..n] == Rows(ds[..n]) && Rows(ds)[..n + 1] == Rows(ds);
      CardsSnoc(Rows(ds), n);
      assert CardsFrom(ds) == CardsFrom(ds[..n]) + [Card(ds[n].name, ds[n].mb)];
    }
  }

  lemma {:induction false} TotalIsSum(ds: seq<Device>)
    ensures TotalMB(CardsFrom(ds)) == SumMB(ds)
  {
    if ds != [] {
      var n := |ds| - 1;
      TotalIsSum(ds[..n]);
      SumMBSnoc(ds);
      assert CardsFrom(ds)[..n] == CardsFrom(ds[..n]);
    }
  }

  lemma {:induction false} SumMBSnoc(ds: seq<Device>)
    requires ds != []
    ensures SumMB(ds) == SumMB(ds[..|ds| - 1]) + ds[|ds| - 1].mb
  {
    if |ds| > 1 {
      SumMBSnoc(ds[1..]);
      assert ds[..|ds| - 1][1..] == ds[1..][..|ds| - 2];
    }
  }

  /** From cards to score, in numbers: the node reports the sum of its cards' memory, and the hub scores
      the broadcast at 300 points per 1024 MB of that sum. */
  method ScoreReport(ds: seq<Device>, float: string -> real, info: GpuInfo, spec: string -> Option<real>)
    returns (t: Telemetry, score: real)
    requires ds != [] && |ds| <= MAX_INT64 && forall d :: d in ds ==> GoodDevice(d)
    requires forall d :: d in ds ==> d.mb > 1024 && forall c :: c in d.name ==> c as int !in {44, 59, 40, 41, 10}
    requires info.gpus == [] && info.role != "relay"
    ensures t.vramTotal == SumMB(ds)
    ensures score == 300.0 * SumMB(ds) as real / 1024.0
  {
    ReportReads(ds);
    CardsAreClean(ds);
    t, score := ScoreTelemetry(Report(ds), float, info, spec);
  }

  lemma CardsAreClean(ds: seq<Device>)
    requires forall d :: d in ds ==> GoodDevice(d)
    requires forall d :: d in ds ==> d.mb > 1024 && forall c :: c in d.name ==> c as int !in {44, 59, 40, 41, 10}
    ensures CleanCards(CardsFrom(ds)) && Sized(CardsFrom(ds))
  {
    forall c | c in CardsFrom(ds) ensures CleanCard(c) && AboveOneGB(c) {
      var i :| 0 <= i < |ds| && CardsFrom(ds)[i] == c;
      assert ds[i] in ds;
      PlainName(ds[i].name);
    }
  }

  lemma PlainName(name: string)
    requires forall c :: c in name ==> c as int !in {44, 59, 40, 41, 10}
    ensures forall i :: 0 <= i < |name| ==> NameChar(name[i])
  {
    forall i | 0 <= i < |name| ensures NameChar(name[i]) {
      assert name[i] in name;
    }
  }

  // ---------------------------------------------------------------------------------------
  // The score's other cases, in numbers.

  /** Relay-only and GPU-less nodes score nothing; a broadcast without any entry scores as one card of
      16 GB. */
  lemma ScoreFloors(info: GpuInfo, spec: string -> Option<real>)
    ensures info.role == "relay" || info.summary == "No GPU Detected" ==> InfoScore(info, spec) == 0.0
    ensures info.role != "relay" && info.summary == "" && info.gpus == [] ==> InfoScore(info, spec) == 16.0 * 300.0
    ensures info.role != "relay" && info.summary != "No GPU Detected" ==> InfoScore(info, spec) > 0.0
  {}

  /** One listed entry: its capacity (16 GB when nothing is known), its count (at least one), 300 each. */
  lemma EntryScores(info: GpuInfo, e: GpuEntry, spec: string -> Option<real>)
    requires info.role != "relay" && info.summary != "No GPU Detected" && info.gpus == [e]
    ensures
      var known := if ExtractVRAM(e.id).Some? then ExtractVRAM(e.id) else spec(e.id);
      var gb := if known.Some? && known.value > 0.0 then known.value else 16.0;
      InfoScore(info, spec) == gb * 300.0 * (if e.num <= 0 then 1 else e.num) as real
  {
    SingleEntry(e, Capacity(spec));
    assert Capacity(spec)(e.id) > 0.0;
    OneEntryIs(e, Capacity(spec));
  }

  lemma SingleEntry(e: GpuEntry, gb: string -> real)
    ensures EntriesScore([e], gb) == OneEntry(e, gb)
  {
    assert [e][..0] == [];
  }

  lemma OneEntryIs(e: GpuEntry, gb: string -> real)
    requires gb(e.id) > 0.0
    ensures OneEntry(e, gb) == gb(e.id) * 300.0 * (if e.num <= 0 then 1 else e.num) as real > 0.0
  {}

  /** Which characters a model name may have: all but comma, semicolon, brackets and line break. */
  lemma NameByCode(c: char)
    ensures NameChar(c) <==> c as int !in {44, 59, 40, 41, 10}
  {}

  /** A bracketed size reads as MB above 1024 and as GB up to there. */
  lemma SizeReads(c: Card)
    requires CleanName(c.name) && c.mb > 0
    ensures
      var gb := if c.mb > 1024 then c.mb as real / 1024.0 else c.mb as real;
      && ExtractVRAM(c.name + "(" + Itoa(c.mb) + ")") == Some(gb)
      && ExtractVRAM(c.name + "(" + Itoa(c.mb) + "MB)") == Some(gb)
  {
    ItoaRoundTrip(c.mb);
    var d := Itoa(c.mb);
    SizeOf(c.name, d, "");
    SizeOf(c.name, d, "MB");
    assert c.name + "(" + d + "" + ")" == c.name + "(" + d + ")";
    assert c.name + "(" + d + "MB" + ")" == c.name + "(" + d + "MB)";
  }

  lemma SizeOf(name: string, d: string, mb: string)
    requires CleanName(name) && d != "" && Digits(d) && (mb == "" || mb == "MB")
    ensures FindSize(name + "(" + d + mb + ")") == Some(d)
  {
    SizeMatches(d, mb, "");
    var z := "(" + d + mb + ")" + "";
    assert name + "(" + d + mb + ")" == name + z;
    SizeAfter(name, z, d);
  }

  lemma {:induction false} SizeAfter(u: string, z: string, d: string)
    requires (forall i :: 0 <= i < |u| ==> NameChar(u[i])) && z != "" && MatchSize(z).Some? && MatchSize(z).value.0 == d
    ensures FindSize(u + z) == Some(d)
  {
    if u == "" {
      assert u + z == z;
    } else {
      assert (u + z)[0] == u[0] && (u + z)[1..] == u[1..] + z;
      SizeAfter(u[1..], z, d);
    }
  }

  // ---------------------------------------------------------------------------------------
  // What the summary pattern accepts.

  /** name ( digits [MB] ) then x digits, or digits and a counter, with white space where the pattern
      allows it. */
  ghost predicate IsPart(s: string, m: Match, t: string) {
    && m.name != "" && (forall i :: 0 <= i < |m.name| ==> NameChar(m.name[i]))
    && m.vram != "" && Digits(m.vram) && m.num != "" && Digits(m.num)
    && exists a, b, c, u, e, g, z ::
         && SizePieces(a, b, c, u, e, g) && IsCount(z, m.num, t)
         && s == m.name + (a + ("(" + (b + (m.vram + (c + (u + (e + (")" + (g + z)))))))))
  }

  /** Blanks, and "MB" in either case or nothing. */
  predicate SizePieces(a: string, b: string, c: string, u: string, e: string, g: string) {
    && AllSpace(a) && AllSpace(b) && AllSpace(c) && AllSpace(e) && AllSpace(g)
    && (u == "" || u == "MB" || u == "mb" || u == "Mb" || u == "mB")
  }

  ghost predicate IsCount(z: string, num: string, t: string) {
    exists f :: AllSpace(f) &&
      (z == "x" + (f + (num + t)) || z == "X" + (f + (num + t))
       || z == num + (f + ("\U{5F35}" + t)) || z == num + (f + ("\U{500B}" + t)))
  }

  lemma SizeIs(s: string) returns (b: string, c: string, u: string, e: string)
    requires MatchSize(s).Some?
    ensures SizePieces("", b, c, u, e, "")
    ensures
      var (d, t) := MatchSize(s).value;
      d != "" && Digits(d) && s == "(" + (b + (d + (c + (u + (e + (")" + t))))))
  {
    var d, t := MatchSize(s).value.0, MatchSize(s).value.1;
    b := SkipIs(s[1..]);
    var rest := TakeDigits(SkipSpaces(s[1..])).1;
    c := SkipIs(rest);
    var s2 := SkipSpaces(rest);
    var s3 := SkipMB(s2);
    u := s2[..|s2| - |s3|];
    assert s2 == u + s3;
    e := SkipIs(s3);
    assert SkipSpaces(s3) == ")" + t;
    assert s == "(" + s[1..];
  }

  lemma CountIs(s: string) returns (g: string)
    requires MatchCount(SkipSpaces(s)).Some?
    ensures
      var (n, t) := MatchCount(SkipSpaces(s)).value;
      AllSpace(g) && n != "" && Digits(n) && exists z :: s == g + z && IsCount(z, n, t)
  {
    g := SkipIs(s);
    var z := SkipSpaces(s);
    var n, t := MatchCount(z).value.0, MatchCount(z).value.1;
    if z[0] == 'x' || z[0] == 'X' {
      var f := SkipIs(z[1..]);
      assert z == [z[0]] + z[1..] && z[1..] == f + (n + t);
    } else {
      SkipTwice(s);
      var rest := TakeDigits(z).1;
      var f := SkipIs(rest);
      var unit := SkipSpaces(rest);
      assert unit == [unit[0]] + t;
      assert z == n + (f + ([unit[0]] + t));
    }
    assert IsCount(z, n, t);
  }

  lemma {:induction false} SkipTwice(s: string)
    ensures SkipSpaces(SkipSpaces(s)) == SkipSpaces(s)
  {
    if s != "" && IsRegexSpace(s[0]) { SkipTwice(s[1..]); }
  }

  /** Whatever the scanner finds has that shape: nothing else is ever read as a card. */
  lemma MatchIs(s: string)
    requires MatchAt(s).Some?
    ensures IsPart(s, MatchAt(s).value.0, MatchAt(s).value.1)
  {
    NameIs(s, 1);
  }

  lemma {:induction false} NameIs(s: string, k: nat)
    requires 1 <= k <= |s| && (forall i :: 0 <= i < k ==> NameChar(s[i])) && TryName(s, k).Some?
    ensures IsPart(s, TryName(s, k).value.0, TryName(s, k).value.1)
    decreases |s| - k
  {
    if MatchTail(s[k..]).Some? {
      TailIs(s, k);
    } else {
      NameIs(s, k + 1);
    }
  }

  lemma TailIs(s: string, k: nat)
    requires 1 <= k <= |s| && (forall i :: 0 <= i < k ==> NameChar(s[i])) && MatchTail(s[k..]).Some?
    ensures
      var (d, n, t) := MatchTail(s[k..]).value;
      IsPart(s, Match(s[..k], d, n), t)
  {
    var d, n, t := MatchTail(s[k..]).value.0, MatchTail(s[k..]).value.1, MatchTail(s[k..]).value.2;
    var a := SkipIs(s[k..]);
    var s1 := SkipSpaces(s[k..]);
    var b, c, u, e := SizeIs(s1);
    var close := MatchSize(s1).value.1;
    var g := CountIs(close);
    var z :| close == g + z && IsCount(z, n, t);
    assert s == s[..k] + s[k..];
    assert SizePieces(a, b, c, u, e, g);
  }

  /** A count as the pattern spells it, up to where it ends. */
  predicate CountPieces(z: string, f: string, num: string, t: string) {
    && AllSpace(f)
    && (((z == "x" + (f + (num + t)) || z == "X" + (f + (num + t))) && (t == "" || !IsDigit(t[0])))
        || z == num + (f + ("\U{5F35}" + t)) || z == num + (f + ("\U{500B}" + t)))
  }

  lemma CountReadsPieces(z: string, f: string, num: string, t: string)
    requires CountPieces(z, f, num, t) && num != "" && Digits(num)
    ensures z != "" && !IsRegexSpace(z[0]) && MatchCount(z) == Some((num, t))
  {
    if z[0] == 'x' || z[0] == 'X' {
      assert !IsDigit(z[0]) && IsDigit(num[0]) && z[1..] == f + (num + t);
      SkipTo(f, num + t);
      TakeDigitsOf(num, t);
    } else {
      var unit := if z == num + (f + ("\U{5F35}" + t)) then "\U{5F35}" + t else "\U{500B}" + t;
      assert z == num + (f + unit) && z[0] == num[0] && IsDigit(z[0]);
      assert (f + unit)[0] == if f == "" then unit[0] else f[0];
      TakeDigitsOf(num, f + unit);
      SkipTo(f, unit);
    }
  }

  lemma SizeReadsPieces(b: string, d: string, c: string, u: string, e: string, t: string)
    requires SizePieces("", b, c, u, e, "") && d != "" && Digits(d)
    ensures MatchSize("(" + (b + (d + (c + (u + (e + (")" + t))))))) == Some((d, t))
  {
    var close := e + (")" + t);
    var rest := c + (u + close);
    var s := "(" + (b + (d + rest));
    assert s[1..] == b + (d + rest) && IsDigit((d + rest)[0]);
    SkipTo(b, d + rest);
    assert rest[0] == if c != "" then c[0] else if u != "" then u[0] else if e != "" then e[0] else ')';
    TakeDigitsOf(d, rest);
    SkipTo(e, ")" + t);
    if u == "" {
      assert u + close == close;
      SkipAcross(c, close);
    } else {
      assert (u + close)[0] == u[0] && (u + close)[2..] == close;
      SkipTo(c, u + close);
    }
    assert (")" + t)[1..] == t;
  }

  /** And everything of that shape behind a name is read: blanks wherever the pattern allows them, "MB" in
      either case or left out, and all three ways of writing the count. */
  lemma TailReads(a: string, b: string, d: string, c: string, u: string, e: string, g: string,
                  z: string, f: string, num: string, t: string)
    requires SizePieces(a, b, c, u, e, g) && d != "" && Digits(d)
    requires CountPieces(z, f, num, t) && num != "" && Digits(num)
    ensures MatchTail(a + ("(" + (b + (d + (c + (u + (e + (")" + (g + z))))))))) == Some((d, num, t))
  {
    var open := "(" + (b + (d + (c + (u + (e + (")" + (g + z)))))));
    assert open[0] == '(';
    SkipTo(a, open);
    SizeReadsPieces(b, d, c, u, e, g + z);
    CountReadsPieces(z, f, num, t);
    SkipTo(g, z);
  }

  // ---------------------------------------------------------------------------------------
  // Counting, and what else an ID can say.

  function SumFor(items: seq<GpuEntry>, id: string): int {
    if items == [] then 0 else (if items[0].id == id then items[0].num else 0) + SumFor(items[1..], id)
  }

  lemma {:induction false} SumForSnoc(items: seq<GpuEntry>, id: string)
    requires items != []
    ensures
      var e := items[|items| - 1];
      SumFor(items, id) == SumFor(items[..|items| - 1], id) + if e.id == id then e.num else 0
  {
    if |items| > 1 {
      SumForSnoc(items[1..], id);
      assert items[..|items| - 1][1..] == items[1..][..|items| - 2];
    }
  }

  /** Every ID among the parts gets one entry, and its number is the sum over the parts that name it. */
  lemma TalliedIff(items: seq<GpuEntry>)
    ensures forall i, j :: 0 <= i < j < |Tallied(items)| ==> Tallied(items)[i].id != Tallied(items)[j].id
    ensures forall id, num :: GpuEntry(id, num) in Tallied(items) <==>
      (exists e :: e in items && e.id == id) && num == SumFor(items, id)
  {
    TallyKeys(items);
    TallyIs(items);
    var order, counts := Tally(items).0, Tally(items).1;
    forall id, num ensures GpuEntry(id, num) in Tallied(items) <==> id in counts && counts[id] == num {
      if id in counts {
        assert id in Elements(order);
        var i :| 0 <= i < |order| && order[i] == id;
        assert Tallied(items)[i] == GpuEntry(id, counts[id]);
      }
    }
  }

  lemma {:induction false} TallyIs(items: seq<GpuEntry>)
    ensures
      var (order, counts) := Tally(items);
      && (forall i, j :: 0 <= i < j < |order| ==> order[i] != order[j])
      && (forall id :: id in counts <==> exists e :: e in items && e.id == id)
      && forall id :: id in counts ==> counts[id] == SumFor(items, id)
  {
    if items != [] {
      var init, e := items[..|items| - 1], items[|items| - 1];
      TallyIs(init);
      TallyKeys(init);
      assert items == init + [e];
      forall id ensures SumFor(items, id) == SumFor(init, id) + if e.id == id then e.num else 0 {
        SumForSnoc(items, id);
      }
      var order := Tally(init).0;
      assert e.id !in Tally(init).1 ==> e.id !in order by { assert forall x :: x in order ==> x in Elements(order); }
      if e.id !in Tally(init).1 { NotNamed(init, e.id); }
    }
  }

  lemma {:induction false} NotNamed(items: seq<GpuEntry>, id: string)
    requires forall e :: e in items ==> e.id != id
    ensures SumFor(items, id) == 0
  {
    if items != [] {
      assert items[0] in items;
      NotNamed(items[1..], id);
    }
  }

  /** A count too large for 64 bits counts as one. */
  lemma CountReads(m: Match)
    requires m.num != "" && Digits(m.num)
    ensures EntryNum(m) == if NatOf(m.num) <= 0x7FFF_FFFF_FFFF_FFFF then NatOf(m.num) else 1
    ensures EntryID(m) == TrimSpace(m.name) + "(" + m.vram + ")"
  {
    AtoiReads(m.num);
  }

  /** A figure in GB behind a name without digits or brackets is the capacity. */
  lemma GigabytesRead(name: string, d: string)
    requires forall i :: 0 <= i < |name| ==> !IsDigit(name[i]) && name[i] != '('
    requires d != "" && Digits(d) && NatOf(d) > 0
    ensures ExtractVRAM(name + (d + "GB")) == Some(NatOf(d) as real)
  {
    var s := name + (d + "GB");
    NoSize(s);
    FindGBAfter(name, d);
  }

  lemma {:induction false} NoSize(s: string)
    requires forall i :: 0 <= i < |s| ==> s[i] != '('
    ensures FindSize(s) == None
  {
    if s != "" { NoSize(s[1..]); }
  }

  lemma {:induction false} FindGBAfter(name: string, d: string)
    requires forall i :: 0 <= i < |name| ==> !IsDigit(name[i])
    requires d != "" && Digits(d)
    ensures FindGB(name + (d + "GB")) == Some(d)
  {
    if name == "" {
      assert "" + (d + "GB") == d + "GB";
      TakeDigitsOf(d, "GB");
    } else {
      var s := name + (d + "GB");
      assert s[0] == name[0] && s[1..] == name[1..] + (d + "GB");
      FindGBAfter(name[1..], d);
    }
  }

  /** Without a size and without a figure in GB the upper-cased name is looked up. */
  lemma NameLookedUp(id: string)
    requires FindSize(id) == None && FindGB(id) == None
    ensures ExtractVRAM(id) == KnownModel(Upper(id), KNOWN_MODELS)
  {}

  lemma UpperIs(s: string, i: nat)
    requires i < |s|
    ensures |Upper(s)| == |s|
    ensures Upper(s)[i] as int == if 97 <= s[i] as int <= 122 then s[i] as int - 32 else s[i] as int
  {}

  /** `token` occurs in `s`. */
  predicate OccursAt(s: string, token: string, i: nat) {
    i + |token| <= |s| && s[i..i + |token|] == token
  }

  lemma {:induction false} ContainsIff(s: string, token: string)
    ensures Contains(s, token) <==> exists i: nat :: OccursAt(s, token, i)
  {
    if |token| <= |s| && s[..|token|] == token {
      assert OccursAt(s, token, 0);
    } else if s != "" {
      ContainsIff(s[1..], token);
      forall i: nat | OccursAt(s[1..], token, i) ensures OccursAt(s, token, i + 1) {
        assert s[1..][i..i + |token|] == s[i + 1..i + 1 + |token|];
      }
      forall i: nat | OccursAt(s, token, i) ensures i > 0 && OccursAt(s[1..], token, i - 1) {
        if i > 0 { assert s[1..][i - 1..i - 1 + |token|] == s[i..i + |token|]; }
      }
    }
  }

  /** The first model of the list that occurs in the name decides. */
  lemma KnownModelIs(upper: string)
    ensures KnownModel(upper, KNOWN_MODELS) ==
      if Contains(upper, "4090") || Contains(upper, "3090") then Some(24.0)
      else if Contains(upper, "4080") then Some(16.0)
      else if Contains(upper, "3080") then Some(10.0)
      else if Contains(upper, "4070") then Some(12.0)
      else if Contains(upper, "3070") || Contains(upper, "2080") then Some(8.0)
      else if Contains(upper, "A100") || Contains(upper, "H100") then Some(80.0)
      else if Contains(upper, "L40") then Some(48.0)
      else if Contains(upper, "A10") || Contains(upper, "T4") then Some(24.0)
      else None
  {
    LastModels(upper);
    KnownStep(upper, 0);
    KnownStep(upper, 1);
    KnownStep(upper, 2);
    KnownStep(upper, 3);
    KnownStep(upper, 4);
    KnownStep(upper, 5);
    assert KNOWN_MODELS[0..] == KNOWN_MODELS;
  }

  lemma LastModels(upper: string)
    ensures KnownModel(upper, KNOWN_MODELS[6..]) ==
      if Contains(upper, "2080") then Some(8.0)
      else if Contains(upper, "A100") || Contains(upper, "H100") then Some(80.0)
      else if Contains(upper, "L40") then Some(48.0)
      else if Contains(upper, "A10") || Contains(upper, "T4") then Some(24.0)
      else None
  {
    KnownStep(upper, 6);
    KnownStep(upper, 7);
    KnownStep(upper, 8);
    KnownStep(upper, 9);
    KnownStep(upper, 10);
    KnownStep(upper, 11);
    assert KNOWN_MODELS[12..] == [];
  }

  lemma KnownStep(upper: string, i: nat)
    requires i < |KNOWN_MODELS|
    ensures KnownModel(upper, KNOWN_MODELS[i..]) ==
      if Contains(upper, KNOWN_MODELS[i].0) then Some(KNOWN_MODELS[i].1) else KnownModel(upper, KNOWN_MODELS[i + 1..])
  {
    assert KNOWN_MODELS[i..][1..] == KNOWN_MODELS[i + 1..];
  }

  /** How a summary is spelled. */
  lemma SummaryText(c: Card, d: Card, counts: map<string, nat>)
    requires c.mb >= 0 && d.mb >= 0 && Key(c) in counts && Key(d) in counts
    ensures Key(c) == c.name + "(" + Itoa(c.mb) + "MB)"
    ensures
      var one := c.name + "(" + Itoa(c.mb) + "MB)" + " x" + Itoa(counts[Key(c)]);
      var two := d.name + "(" + Itoa(d.mb) + "MB)" + " x" + Itoa(counts[Key(d)]);
      && PrintSummary([c.name + "(" + Itoa(c.mb) + "MB)"], counts) == one
      && PrintSummary([Key(c), Key(d)], counts) == one + ", " + two
  {
    assert Elements([Key(c)]) <= counts.Keys && Elements([Key(c), Key(d)]) <= counts.Keys;
    var x, y := PartText(Key(c), counts[Key(c)]), PartText(Key(d), counts[Key(d)]);
    assert PartTexts([Key(c), Key(d)], counts) == [x, y];
    JoinTwo(x, y, ", ");
  }

  lemma JoinTwo(x: string, y: string, sep: string)
    ensures Join([x, y], sep) == x + sep + y
  {
    assert [x, y][1..] == [y] && Join([y], sep) == y;
  }
}
