/** What the chat reader's patterns accept, said by the shape of the text instead of by the scanners:
    exactly which references are trusted, which lines are images, which URLs are base64 images and
    where a message begins. */
module ChatShapes {
  import opened PeerState
  import opened Text
  import opened ChatMarkdown
  import opened ChatScanners

  // ---------------------------------------------------------------------------------------
  // Characters, by code point.

  /** The classes [0-9A-Za-z_-], [A-Za-z0-9], [a-zA-Z0-9.+-], \d and \s. */
  lemma ClassesByCode(c: char)
    ensures IsDigit(c) <==> 48 <= c as int <= 57
    ensures Alphanumeric(c) <==> 48 <= c as int <= 57 || 65 <= c as int <= 90 || 97 <= c as int <= 122
    ensures IDChar(c) <==> Alphanumeric(c) || c as int == 95 || c as int == 45
    ensures MimeChar(c) <==> Alphanumeric(c) || c as int == 46 || c as int == 43 || c as int == 45
    ensures IsRegexSpace(c) <==> c as int in {9, 10, 12, 13, 32}
  {}

  /** unicode.IsSpace, which is what trimming strips. */
  lemma SpaceByCode(c: char)
    ensures IsSpace(c) <==>
      || 9 <= c as int <= 13 || c as int in {0x20, 0x85, 0xA0, 0x1680} || 0x2000 <= c as int <= 0x200A
      || c as int in {0x2028, 0x2029, 0x202F, 0x205F, 0x3000}
  {}

  // ---------------------------------------------------------------------------------------
  // Image references.

  predicate IsLink(ref: string) {
    "http://" <= ref || "https://" <= ref || "data:" <= ref
  }

  /** <id>/img-<digits>.<ext>, exactly what the writer makes up. */
  predicate IsRefShape(ref: string, id: string, digits: string, ext: string) {
    && ref == id + "/img-" + digits + "." + ext
    && ValidID(id) && digits != "" && Digits(digits)
    && ext != "" && forall i :: 0 <= i < |ext| ==> Alphanumeric(ext[i])
  }

  lemma {:induction false} IDRunOf(id: string, t: string)
    requires (forall i :: 0 <= i < |id| ==> IDChar(id[i])) && t != "" && !IDChar(t[0])
    ensures IDRun(id + t) == |id|
  {
    if id == "" {
      assert id + t == t;
    } else {
      assert (id + t)[1..] == id[1..] + t;
      IDRunOf(id[1..], t);
    }
  }

  lemma RefFileOf(digits: string, ext: string)
    requires digits != "" && Digits(digits) && ext != ""
    ensures RefFile(digits + ("." + ext))
         == if forall i :: 0 <= i < |ext| ==> Alphanumeric(ext[i]) then Some(ext) else None
  {
    var tail := "." + ext;
    TakeDigitsOf(digits, tail);
    assert tail[1..] == ext;
    assert forall i :: 1 <= i < |tail| ==> tail[i] == ext[i - 1];
    assert forall i :: 0 <= i < |ext| ==> ext[i] == tail[i + 1];
  }

  lemma RefFileIs(s: string, ext: string) returns (digits: string)
    requires RefFile(s) == Some(ext)
    ensures s == digits + "." + ext && digits != "" && Digits(digits)
    ensures ext != "" && forall i :: 0 <= i < |ext| ==> Alphanumeric(ext[i])
  {
    digits := TakeDigits(s).0;
    var tail := TakeDigits(s).1;
    assert tail == "." + ext;
    assert forall i :: 0 <= i < |ext| ==> ext[i] == tail[i + 1];
  }

  lemma RefReads(ref: string, id: string, digits: string, ext: string)
    requires IsRefShape(ref, id, digits, ext)
    ensures RefExtension(ref) == Some(ext)
  {
    var file := digits + ("." + ext);
    var dir := "/img-" + file;
    assert ref == id + dir;
    IDRunOf(id, dir);
    assert (id + dir)[|id|..] == dir && dir[5..] == file;
    RefFileOf(digits, ext);
  }

  lemma RefIs(ref: string, ext: string) returns (id: string, digits: string)
    requires RefExtension(ref) == Some(ext)
    ensures IsRefShape(ref, id, digits, ext)
  {
    var k := IDRun(ref);
    id := ref[..k];
    digits := RefFileIs(ref[k..][5..], ext);
    assert ref == id + ref[k..] && ref[k..] == "/img-" + ref[k..][5..];
    RefParts(id, digits, ext);
  }

  lemma RefParts(id: string, digits: string, ext: string)
    ensures id + ("/img-" + (digits + "." + ext)) == id + "/img-" + digits + "." + ext
  {}

  /** What the reader trusts: a link, or a reference of that shape to a file that is there. */
  ghost predicate Trusted(files: Files, ref: string) {
    IsLink(ref) || (ref in files && exists id, digits, ext :: IsRefShape(ref, id, digits, ext))
  }

  /** A trusted reference stands for itself, or for the file's bytes as a data URL of its extension; a
      reference that is not trusted stands for nothing. */
  lemma ResolvesIff(codec: Codec, files: Files, ref: string)
    requires ref != ""
    ensures Resolve(codec, files, ref) != "" <==> Trusted(files, ref)
    ensures IsLink(ref) ==> Resolve(codec, files, ref) == ref
    ensures forall id, digits, ext :: !IsLink(ref) && ref in files && IsRefShape(ref, id, digits, ext) ==>
      Resolve(codec, files, ref) == "data:image/" + FileSubtype(ext) + ";base64," + codec.enc(files[ref])
  {
    forall id, digits, ext | IsRefShape(ref, id, digits, ext) ensures RefExtension(ref) == Some(ext) {
      RefReads(ref, id, digits, ext);
    }
    if RefExtension(ref).Some? { var id, digits := RefIs(ref, RefExtension(ref).value); }
  }

  /** The extension is taken in lower case, and "jpg" is the subtype "jpeg". */
  lemma SubtypeIs(ext: string)
    ensures |FileSubtype(ext)| == |ext| || FileSubtype(ext) == "jpeg"
    ensures ext == "jpg" || ext == "JPG" ==> FileSubtype(ext) == "jpeg"
    ensures (forall i :: 0 <= i < |ext| ==> !('A' <= ext[i] <= 'Z')) && ext != "jpg" ==> FileSubtype(ext) == ext
  {
    if ext == "JPG" { assert Lower(ext) == "jpg"; }
    if forall i :: 0 <= i < |ext| ==> !('A' <= ext[i] <= 'Z') { assert Lower(ext) == ext; }
  }

  /** ![image](ref) and nothing else on the line. */
  predicate IsImageLine(line: string, ref: string) {
    TrimSpace(line) == "![image](" + ref + ")" && ref != "" && ')' !in ref
  }

  lemma ImageLineIff(line: string, ref: string)
    ensures ImageLineRef(TrimSpace(line)) == Some(ref) <==> IsImageLine(line, ref)
  {
    var l := TrimSpace(line);
    var open := "![image](";
    if IsImageLine(line, ref) {
      assert l[|open|..|l| - 1] == ref;
    }
    if ImageLineRef(l) == Some(ref) {
      assert l == l[..|open|] + l[|open|..|l| - 1] + l[|l| - 1..];
    }
  }

  /** The line stands for an image on disk or a link. */
  ghost predicate StandsForImage(files: Files, line: string) {
    exists ref :: IsImageLine(line, ref) && Trusted(files, ref)
  }

  /** A line is taken for an image exactly when it is an image line with a trusted reference; any
      other line stays text. */
  lemma LineImageIff(codec: Codec, files: Files, line: string)
    ensures LineImage(codec, files, line).Some? <==> StandsForImage(files, line)
    ensures forall ref :: IsImageLine(line, ref) && Trusted(files, ref) ==>
      LineImage(codec, files, line) == Some(Resolve(codec, files, ref))
  {
    forall ref | IsImageLine(line, ref)
      ensures ImageLineRef(TrimSpace(line)) == Some(ref)
      ensures Resolve(codec, files, ref) != "" <==> Trusted(files, ref)
    {
      ImageLineIff(line, ref);
      ResolvesIff(codec, files, ref);
    }
    if ImageLineRef(TrimSpace(line)).Some? {
      ImageLineIff(line, ImageLineRef(TrimSpace(line)).value);
    }
  }

  lemma RefStart(ref: string, id: string, digits: string, ext: string)
    requires IsRefShape(ref, id, digits, ext)
    ensures ref != "" && IDChar(ref[0])
  {
    assert ref[0] == id[0];
  }

  /** A path that climbs or starts with a dot is never trusted, whatever files there are. */
  lemma PathsAreNotTrusted(files: Files, ref: string)
    requires "." <= ref || "/" <= ref
    ensures !Trusted(files, ref)
  {
    assert ref[0] == '.' || ref[0] == '/';
    forall id, digits, ext ensures !IsRefShape(ref, id, digits, ext) {
      if IsRefShape(ref, id, digits, ext) { RefStart(ref, id, digits, ext); }
    }
  }

  // ---------------------------------------------------------------------------------------
  // Base64 image URLs.

  lemma {:induction false} MimeRunOf(ext: string, t: string)
    requires (forall i :: 0 <= i < |ext| ==> MimeChar(ext[i])) && t != "" && !MimeChar(t[0])
    ensures MimeRun(ext + t) == |ext|
  {
    if ext == "" {
      assert ext + t == t;
    } else {
      assert (ext + t)[1..] == ext[1..] + t;
      MimeRunOf(ext[1..], t);
    }
  }

  predicate IsDataShape(url: string, ext: string, payload: string) {
    && url == "data:image/" + ext + ";base64," + payload
    && ext != "" && (forall i :: 0 <= i < |ext| ==> MimeChar(ext[i]))
    && payload != "" && '\n' !in payload
  }

  lemma DataURLIff(url: string, ext: string, payload: string)
    ensures DataURL(url) == Some((ext, payload)) <==> IsDataShape(url, ext, payload)
  {
    if IsDataShape(url, ext, payload) { DataReads(url, ext, payload); }
    if DataURL(url) == Some((ext, payload)) { DataIs(url); }
  }

  lemma DataReads(url: string, ext: string, payload: string)
    requires IsDataShape(url, ext, payload)
    ensures DataURL(url) == Some((ext, payload))
  {
    var after := BASE64 + payload;
    DataParts(ext, payload);
    assert url[|DATA_IMAGE|..] == ext + after;
    MimeRunOf(ext, after);
    TailOf(ext, after);
    TailOf(BASE64, payload);
    assert '\n' !in after;
  }

  lemma DataParts(ext: string, payload: string)
    ensures DATA_IMAGE + ext + BASE64 + payload == DATA_IMAGE + (ext + (BASE64 + payload))
  {}

  lemma TailOf(a: string, b: string)
    ensures (a + b)[|a|..] == b && (a + b)[..|a|] == a
  {}

  lemma DataIs(url: string)
    requires DataURL(url).Some?
    ensures IsDataShape(url, DataURL(url).value.0, DataURL(url).value.1)
  {
    var rest := url[|DATA_IMAGE|..];
    var k := MimeRun(rest);
    assert rest[k..][|BASE64|..] == DataURL(url).value.1;
  }

  // ---------------------------------------------------------------------------------------
  // Message markers.

  /** <!-- msg role=... --> with any white space in between, up to the end of a line. */
  ghost predicate IsMarker(s: string, role: string, rest: string) {
    && (role == "user" || role == "assistant") && (rest == "" || rest[0] == '\n')
    && exists a, b, c, d :: MarkerPieces(s, role, rest, a, b, c, d)
  }

  predicate MarkerPieces(s: string, role: string, rest: string, a: string, b: string, c: string, d: string) {
    && AllSpace(a) && AllSpace(b) && b != "" && AllSpace(c) && AllSpace(d)
    && s == "<!--" + (a + ("msg" + (b + ("role=" + (role + (c + ("-->" + (d + rest))))))))
  }

  lemma {:induction false} SkipIs(s: string) returns (a: string)
    ensures AllSpace(a) && s == a + SkipSpaces(s)
    ensures s != "" && IsRegexSpace(s[0]) ==> a != ""
  {
    if s != "" && IsRegexSpace(s[0]) {
      var t := SkipIs(s[1..]);
      a := [s[0]] + t;
      assert s == [s[0]] + s[1..];
    } else {
      a := "";
    }
  }

  lemma SkipTo(a: string, t: string)
    requires AllSpace(a) && t != "" && !IsRegexSpace(t[0])
    ensures SkipSpaces(a + t) == t
  {
    SkipAcross(a, t);
  }

  lemma IntroReads(a: string, b: string, tail: string)
    requires AllSpace(a) && AllSpace(b) && b != "" && tail != "" && !IsRegexSpace(tail[0])
    ensures Match(MARKER_INTRO, "<!--" + (a + ("msg" + (b + ("role=" + tail))))) == Some(tail)
  {
    var p2 := Lit("role=", End);
    var p1 := Lit("msg", SomeSpaces(p2));
    var s2 := "role=" + tail;
    var s1 := "msg" + (b + s2);
    LitStep("<!--", Spaces(p1), a + s1);
    assert s1[0] == 'm' && s2[0] == 'r' && (b + s2)[0] == b[0];
    SkipTo(a, s1);
    LitStep("msg", SomeSpaces(p2), b + s2);
    SkipTo(b, s2);
    LitStep("role=", End, tail);
  }

  lemma LineEndReads(d: string, rest: string)
    requires AllSpace(d) && (rest == "" || rest[0] == '\n')
    ensures TryLineEnd(d + rest, |d + rest| - |SkipSpaces(d + rest)|).Some?
  {
    var s := d + rest;
    SkipAcross(d, rest);
    assert rest != "" ==> s[|d|] == rest[0];
    LineEndFound(s, |s| - |SkipSpaces(s)|, |d|);
  }

  lemma CloseReads(c: string, d: string, rest: string)
    requires AllSpace(c) && AllSpace(d) && (rest == "" || rest[0] == '\n')
    ensures MarkerClose(c + ("-->" + (d + rest))).Some?
  {
    var s := d + rest;
    ClosePatternReads(c, s);
    LineEndReads(d, rest);
  }

  lemma ClosePatternReads(c: string, s: string)
    requires AllSpace(c)
    ensures Match(MARKER_CLOSE, c + ("-->" + s)) == Some(s)
  {
    assert ("-->" + s)[0] == '-';
    SkipTo(c, "-->" + s);
    LitStep("-->", End, s);
  }

  lemma MarkerReads(s: string, role: string, rest: string)
    requires IsMarker(s, role, rest)
    ensures Marker(s).Some? && Marker(s).value.0 == role
  {
    var a, b, c, d :| MarkerPieces(s, role, rest, a, b, c, d);
    var close := c + ("-->" + (d + rest));
    var tail := role + close;
    assert tail[0] == role[0];
    IntroReads(a, b, tail);
    assert Match(MARKER_INTRO, s) == Some(tail);
    assert "user" <= tail <==> role == "user" by { assert tail[0] == role[0]; }
    assert tail[|role|..] == close;
    CloseReads(c, d, rest);
  }

  lemma IntroIs(s: string, tail: string) returns (a: string, b: string)
    requires Match(MARKER_INTRO, s) == Some(tail)
    ensures AllSpace(a) && AllSpace(b) && b != "" && s == "<!--" + (a + ("msg" + (b + ("role=" + tail))))
  {
    var s1 := s[4..];
    assert "<!--" <= s && s == "<!--" + s1;
    a := SkipIs(s1);
    var s2 := SkipSpaces(s1);
    var s3 := s2[3..];
    assert "msg" <= s2 && s2 == "msg" + s3;
    b := SkipIs(s3);
    var s4 := SkipSpaces(s3);
    assert "role=" <= s4 && s4 == "role=" + s4[5..];
    assert tail == s4[5..];
  }

  lemma CloseIs(s: string, rest: string) returns (c: string, d: string)
    requires MarkerClose(s) == Some(rest)
    ensures AllSpace(c) && AllSpace(d) && s == c + ("-->" + (d + rest)) && (rest == "" || rest[0] == '\n')
  {
    var end: string;
    c, end := ClosePatternIs(s);
    ClosePatternReads(c, end);
    d := LineEndIs(end);
  }

  lemma LineEndIs(end: string) returns (d: string)
    requires TryLineEnd(end, |end| - |SkipSpaces(end)|).Some?
    ensures
      var rest := end[TryLineEnd(end, |end| - |SkipSpaces(end)|).value..];
      AllSpace(d) && end == d + rest && (rest == "" || rest[0] == '\n')
  {
    var sp := SkipIs(end);
    var k := TryLineEnd(end, |end| - |SkipSpaces(end)|).value;
    StopsAtLineEnd(end, |end| - |SkipSpaces(end)|);
    d := end[..k];
    assert forall i :: 0 <= i < |d| ==> d[i] == sp[i];
  }

  lemma {:induction false} StopsAtLineEnd(s: string, k: nat)
    requires k <= |s| && TryLineEnd(s, k).Some?
    ensures LineEndAt(s, TryLineEnd(s, k).value)
  {
    if !LineEndAt(s, k) { StopsAtLineEnd(s, k - 1); }
  }

  /** A marker is found exactly where text of that shape begins. */
  lemma MarkerIff(s: string)
    ensures Marker(s).Some? <==> exists role, rest :: IsMarker(s, role, rest)
    ensures Marker(s).Some? ==> IsMarker(s, Marker(s).value.0, Marker(s).value.1)
  {
    if Marker(s).Some? { MarkerIs(s); }
    forall role, rest | IsMarker(s, role, rest) ensures Marker(s).Some? {
      MarkerReads(s, role, rest);
    }
  }

  lemma MarkerIs(s: string)
    requires Marker(s).Some?
    ensures IsMarker(s, Marker(s).value.0, Marker(s).value.1)
  {
    var (role, rest) := Marker(s).value;
    var tail := Match(MARKER_INTRO, s).value;
    var a, b := IntroIs(s, tail);
    var close := tail[|role|..];
    assert role <= tail && tail == role + close;
    var c, d := CloseIs(close, rest);
    assert MarkerPieces(s, role, rest, a, b, c, d);
  }

  /** Position `i` is the start of a line; `bol` says whether the text itself starts one. */
  predicate LineStart(s: string, i: nat, bol: bool)
    requires i <= |s|
  {
    if i == 0 then bol else s[i - 1] == '\n'
  }

  /** Some line of the text begins with a marker. */
  ghost predicate HasMarker(s: string, bol: bool) {
    exists i :: 0 <= i < |s| && LineStart(s, i, bol) && exists role, rest :: IsMarker(s[i..], role, rest)
  }

  /** A text is cut at nothing exactly when it has no marker. */
  lemma {:induction false} UncutIff(s: string, bol: bool)
    ensures CutAtMarkers(s, bol).segments == [] <==> !HasMarker(s, bol)
  {
    if s != "" {
      MarkerIff(s);
      assert s[0..] == s;
      if !(bol && Marker(s).Some?) {
        UncutIff(s[1..], s[0] == '\n');
        MarkerLater(s, bol);
      }
    }
  }

  lemma MarkerLater(s: string, bol: bool)
    requires s != "" && !(bol && exists role, rest :: IsMarker(s, role, rest))
    ensures HasMarker(s, bol) <==> HasMarker(s[1..], s[0] == '\n')
  {
    var t := s[1..];
    assert s[0..] == s;
    if HasMarker(s, bol) {
      var i :| 0 <= i < |s| && LineStart(s, i, bol) && exists role, rest :: IsMarker(s[i..], role, rest);
      assert i > 0 && t[i - 1..] == s[i..] && LineStart(t, i - 1, s[0] == '\n');
    }
    if HasMarker(t, s[0] == '\n') {
      var i :| 0 <= i < |t| && LineStart(t, i, s[0] == '\n') && exists role, rest :: IsMarker(t[i..], role, rest);
      assert s[i + 1..] == t[i..] && LineStart(s, i + 1, bol);
    }
  }

  // ---------------------------------------------------------------------------------------
  // The front matter.

  /** <!-- yuanyi-chat id=... model=... --> with any white space in between and anything behind. */
  ghost predicate IsFrontMatter(line: string, model: string) {
    exists a, b, id, c, d, rest :: FrontPieces(line, model, a, b, id, c, d, rest)
  }

  predicate FrontPieces(line: string, model: string, a: string, b: string, id: string, c: string, d: string,
                        rest: string) {
    && AllSpace(a) && AllSpace(b) && b != "" && Dark(id) && id != "" && AllSpace(c) && c != ""
    && Dark(model) && AllSpace(d)
    && line == "<!--" + (a + ("yuanyi-chat" + (b + ("id=" + (id + (c + ("model=" + (model + (d + ("-->" + rest))))))))))
  }

  lemma {:induction false} WordIs(s: string) returns (w: string)
    ensures Dark(w) && s == w + SkipWord(s) && (SkipWord(s) == "" || IsRegexSpace(SkipWord(s)[0]))
    ensures s != "" && !IsRegexSpace(s[0]) ==> w != ""
  {
    if s != "" && !IsRegexSpace(s[0]) {
      var t := WordIs(s[1..]);
      w := [s[0]] + t;
      assert s == [s[0]] + s[1..];
    } else {
      w := "";
    }
  }

  lemma FrontReads(line: string, model: string)
    requires IsFrontMatter(line, model)
    ensures FrontMatterModel(line).Some?
  {
    var a, b, id, c, d, rest :| FrontPieces(line, model, a, b, id, c, d, rest);
    var close := d + ("-->" + rest);
    FrontHead(a, b, id, c, model + close);
    ClosePatternReads(d, rest);
    assert (model + close)[|model|..] == close;
    WordCovers(model, close);
    ModelFound(model + close, |model + close| - |SkipWord(model + close)|, |model|);
  }

  lemma FrontHead(a: string, b: string, id: string, c: string, tail: string)
    requires AllSpace(a) && AllSpace(b) && b != "" && Dark(id) && id != "" && AllSpace(c) && c != ""
    ensures Match(FRONT_MATTER, "<!--" + (a + ("yuanyi-chat" + (b + ("id=" + (id + (c + ("model=" + tail))))))))
         == Some(tail)
  {
    var p5 := Lit("model=", End);
    var p4 := Word(SomeSpaces(p5));
    var p3 := Lit("id=", p4);
    var p2 := Lit("yuanyi-chat", SomeSpaces(p3));
    var s5 := "model=" + tail;
    var s4 := id + (c + s5);
    var s3 := "id=" + s4;
    var s2 := "yuanyi-chat" + (b + s3);
    assert s2[0] == 'y' && s3[0] == 'i' && s5[0] == 'm' && (b + s3)[0] == b[0] && (c + s5)[0] == c[0];
    LitStep("<!--", Spaces(p2), a + s2);
    SkipTo(a, s2);
    LitStep("yuanyi-chat", SomeSpaces(p3), b + s3);
    SkipTo(b, s3);
    LitStep("id=", p4, s4);
    WordStep(SomeSpaces(p5), id, c + s5);
    SkipTo(c, s5);
    LitStep("model=", End, tail);
  }

  lemma {:induction false} WordCovers(w: string, t: string)
    requires Dark(w)
    ensures |SkipWord(w + t)| <= |t|
  {
    if w == "" {
      assert w + t == t;
    } else {
      assert (w + t)[1..] == w[1..] + t;
      WordCovers(w[1..], t);
    }
  }

  lemma {:induction false} ModelFound(s: string, k: nat, j: nat)
    requires j <= k <= |s| && Match(Spaces(Lit("-->", End)), s[j..]).Some?
    ensures TryModel(s, k).Some?
  {
    if k > j { ModelFound(s, k - 1, j); }
  }

  lemma {:induction false} ModelIs(s: string, k: nat) returns (j: nat)
    requires k <= |s| && TryModel(s, k).Some?
    ensures j <= k && TryModel(s, k) == Some(s[..j]) && Match(Spaces(Lit("-->", End)), s[j..]).Some?
  {
    if Match(Spaces(Lit("-->", End)), s[k..]).Some? {
      j := k;
    } else {
      j := ModelIs(s, k - 1);
    }
  }

  lemma FrontIs(line: string)
    requires FrontMatterModel(line).Some?
    ensures IsFrontMatter(line, FrontMatterModel(line).value)
  {
    var tail := Match(FRONT_MATTER, line).value;
    var a, b, id, c := FrontHeadIs(line, tail);
    var d, rest := FrontTailIs(tail);
    assert FrontPieces(line, FrontMatterModel(line).value, a, b, id, c, d, rest);
  }

  lemma FrontTailIs(tail: string) returns (d: string, rest: string)
    requires TryModel(tail, |tail| - |SkipWord(tail)|).Some?
    ensures
      var model := TryModel(tail, |tail| - |SkipWord(tail)|).value;
      Dark(model) && AllSpace(d) && tail == model + (d + ("-->" + rest))
  {
    var w := WordIs(tail);
    var j := ModelIs(tail, |tail| - |SkipWord(tail)|);
    DarkPrefix(tail, w, j);
    d, rest := ClosePatternIs(tail[j..]);
    assert tail == tail[..j] + tail[j..];
  }

  lemma DarkPrefix(s: string, w: string, j: nat)
    requires w <= s && Dark(w) && j <= |w|
    ensures Dark(s[..j])
  {
    assert forall i :: 0 <= i < j ==> s[..j][i] == w[i];
  }

  lemma ClosePatternIs(s: string) returns (d: string, rest: string)
    requires Match(Spaces(Lit("-->", End)), s).Some?
    ensures AllSpace(d) && s == d + ("-->" + rest)
  {
    d := SkipIs(s);
    rest := SkipSpaces(s)[3..];
    assert "-->" <= SkipSpaces(s) && SkipSpaces(s) == "-->" + rest;
  }

  lemma FrontHeadIs(line: string, tail: string) returns (a: string, b: string, id: string, c: string)
    requires Match(FRONT_MATTER, line) == Some(tail)
    ensures AllSpace(a) && AllSpace(b) && b != "" && Dark(id) && id != "" && AllSpace(c) && c != ""
    ensures line == "<!--" + (a + ("yuanyi-chat" + (b + ("id=" + (id + (c + ("model=" + tail)))))))
  {
    var s1 := line[4..];
    assert "<!--" <= line && line == "<!--" + s1;
    a := SkipIs(s1);
    var s2 := SkipSpaces(s1);
    var s3 := s2[11..];
    assert "yuanyi-chat" <= s2 && s2 == "yuanyi-chat" + s3;
    b := SkipIs(s3);
    var s4 := SkipSpaces(s3);
    var s5 := s4[3..];
    assert "id=" <= s4 && s4 == "id=" + s5;
    id := WordIs(s5);
    var s6 := SkipWord(s5);
    c := SkipIs(s6);
    var s7 := SkipSpaces(s6);
    assert "model=" <= s7 && s7 == "model=" + s7[6..] && tail == s7[6..];
  }

  /** The model is read exactly from lines of that shape, and it is one the shape allows. */
  lemma FrontMatterIff(line: string)
    ensures FrontMatterModel(line).Some? <==> exists model :: IsFrontMatter(line, model)
    ensures FrontMatterModel(line).Some? ==> IsFrontMatter(line, FrontMatterModel(line).value)
  {
    if FrontMatterModel(line).Some? { FrontIs(line); }
    forall model | IsFrontMatter(line, model) ensures FrontMatterModel(line).Some? {
      FrontReads(line, model);
    }
  }

  // ---------------------------------------------------------------------------------------
  // The title of any file.

  /** A line without the carriage returns at its end. */
  lemma {:induction false} TrimCRIs(line: string)
    ensures TrimCR(line) <= line && (TrimCR(line) == "" || TrimCR(line)[|TrimCR(line)| - 1] != '\r')
    ensures forall i :: |TrimCR(line)| <= i < |line| ==> line[i] == '\r'
  {
    if line != "" && line[|line| - 1] == '\r' { TrimCRIs(line[..|line| - 1]); }
  }

  /** Neither a level-one heading nor a bare "#". */
  predicate NoTitle(line: string) {
    !("# " <= TrimCR(line)) && TrimSpace(TrimCR(line)) != "#"
  }

  /** The title is the first level-one heading, trimmed, and empty if a bare "#" comes first or there is
      none. */
  lemma {:induction false} TitleIs(lines: seq<string>, i: nat)
    requires i <= |lines| && forall j :: 0 <= j < i ==> NoTitle(lines[j])
    ensures i == |lines| ==> FindTitle(lines) == ""
    ensures i < |lines| && "# " <= TrimCR(lines[i]) ==> FindTitle(lines) == TrimSpace(TrimCR(lines[i])[2..])
    ensures i < |lines| && !("# " <= TrimCR(lines[i])) && TrimSpace(TrimCR(lines[i])) == "#" ==> FindTitle(lines) == ""
  {
    if i > 0 {
      assert NoTitle(lines[0]);
      TitleIs(lines[1..], i - 1);
    }
  }

  // ---------------------------------------------------------------------------------------
  // What a file looks like.

  /** The pieces, character by character. */
  lemma PiecesOfFile(id: string, title: string, model: string, ref: string)
    ensures FrontMatterLine(id, model) == "<!-- yuanyi-chat id=" + id + " model=" + model + " -->"
    ensures TitleBlock(title) == "# " + title + "\n\n"
    ensures MarkerLine("user") == "<!-- msg role=user -->" && MarkerLine("assistant") == "<!-- msg role=assistant -->"
    ensures HeaderText("user") == "\n### \U{1F464} User\n\n"
    ensures HeaderText("assistant") == "\n### \U{1F916} Assistant\n\n"
    ensures ImageLine(ref) == "![image](" + ref + ")"
  {}

  /** A session of one text message: the front matter, the title, the message's marker, its heading and
      its text. */
  lemma FileOfText(codec: Codec, id: string, title: string, model: string, text: string, files: Files)
    requires text != ""
    ensures
      var r := RenderSession(codec, Session(id, title, model, [Message("user", Plain(text))]), files);
      && r.files == files
      && r.text == FrontMatterLine(id, model) + "\n" + TitleBlock(title)
                 + (MarkerLine("user") + (HeaderText("user") + (text + "\n\n")))
  {
    var m := Message("user", Plain(text));
    assert "" + (text + "\n\n") == text + "\n\n";
    var r := RenderMessage(codec, id, m, 0, files);
    assert r == Rendered(MarkerLine("user") + (HeaderText("user") + (text + "\n\n")), 0, files);
    OneMessage(codec, id, m, files);
  }

  lemma OneMessage(codec: Codec, id: string, m: Message, files: Files)
    ensures RenderMessages(codec, id, [m], 0, files) == RenderMessage(codec, id, m, 0, files)
  {
    var r := RenderMessage(codec, id, m, 0, files);
    assert [m][1..] == [] && r.text + "" == r.text;
    assert RenderMessages(codec, id, [], r.imgN, r.files) == Rendered("", r.imgN, r.files);
  }

  /** An answer with one attached image: the image comes before the text, as a numbered file. */
  lemma FileOfImage(codec: Codec, id: string, text: string, ext: string, payload: string, files: Files)
    requires text != "" && IsDataShape(DATA_IMAGE + ext + BASE64 + payload, ext, payload)
    requires codec.dec(payload).Some? && codec.saves(1)
    ensures
      var url := DATA_IMAGE + ext + BASE64 + payload;
      var r := RenderMessage(codec, id, Message("assistant", Parts([TextPart(text), ImagePart(Some(url))])), 0, files);
      var ref := id + "/img-" + "1" + "." + ext;
      && r.files == files[ref := codec.dec(payload).value]
      && r.text == MarkerLine("assistant") + (HeaderText("assistant") + ((ImageLine(ref) + "\n\n") + (text + "\n\n")))
  {
    var url := DATA_IMAGE + ext + BASE64 + payload;
    DataURLIff(url, ext, payload);
    OneOfEach(text, url);
    assert Itoa(1) == "1";
    var ref := ImageRef(id, 1, ext);
    OneImage(codec, id, url, files);
    assert RenderImage(codec, id, url, 0, files).text == ImageLine(ref) + "\n\n";
  }

  lemma OneImage(codec: Codec, id: string, url: string, files: Files)
    ensures RenderImages(codec, id, [url], 0, files) == RenderImage(codec, id, url, 0, files)
  {
    var r := RenderImage(codec, id, url, 0, files);
    assert [url][1..] == [] && r.text + "" == r.text;
  }

  lemma {:induction false} TextSnoc(a: seq<Part>, p: Part)
    ensures TextOf(a + [p]) == TextOf(a) + if p.TextPart? then p.text else ""
  {
    if a == [] {
      assert [] + [p] == [p] && [p][1..] == [] && TextOf([]) == "";
    } else {
      assert (a + [p])[0] == a[0] && (a + [p])[1..] == a[1..] + [p];
      TextSnoc(a[1..], p);
      Regroup(if a[0].TextPart? then a[0].text else "", TextOf(a[1..]), if p.TextPart? then p.text else "");
    }
  }

  lemma {:induction false} ImagesSnoc(a: seq<Part>, p: Part)
    ensures ImagesOf(a + [p]) == ImagesOf(a) + if p.ImagePart? && p.url.Some? then [p.url.value] else []
  {
    if a == [] {
      assert [] + [p] == [p] && [p][1..] == [] && ImagesOf([]) == [];
    } else {
      assert (a + [p])[0] == a[0] && (a + [p])[1..] == a[1..] + [p];
      ImagesSnoc(a[1..], p);
    }
  }

  /** A body of parts: the texts run together and the image URLs in order; anything else is ignored. */
  lemma DecodedParts(a: seq<Part>, p: Part)
    ensures Decoded(Parts([])) == ("", [])
    ensures
      var (text, images) := Decoded(Parts(a));
      Decoded(Parts(a + [p])) ==
        match p
        case TextPart(t) => (text + t, images)
        case ImagePart(Some(url)) => (text, images + [url])
        case _ => (text, images)
  {
    TextSnoc(a, p);
    ImagesSnoc(a, p);
    assert TextOf(a) + "" == TextOf(a) && ImagesOf(a) + [] == ImagesOf(a);
  }

  /** One attached image, whatever it is: a link is written as it stands; a data URL that does not decode
      leaves nothing; one that does becomes the next numbered file, or only uses up the number when the
      file cannot be written. */
  lemma ImageCases(codec: Codec, id: string, url: string, n: nat, files: Files)
    ensures (forall ext, payload :: !IsDataShape(url, ext, payload)) ==>
      RenderImage(codec, id, url, n, files) == Rendered("![image](" + url + ")" + "\n\n", n, files)
    ensures forall ext, payload :: IsDataShape(url, ext, payload) && codec.dec(payload).None? ==>
      RenderImage(codec, id, url, n, files) == Rendered("", n, files)
    ensures forall ext, payload :: IsDataShape(url, ext, payload) && codec.dec(payload).Some? && !codec.saves(n + 1) ==>
      RenderImage(codec, id, url, n, files) == Rendered("", n + 1, files)
    ensures forall ext, payload :: IsDataShape(url, ext, payload) && codec.dec(payload).Some? && codec.saves(n + 1) ==>
      var ref := id + "/img-" + Itoa(n + 1) + "." + ext;
      RenderImage(codec, id, url, n, files)
      == Rendered("![image](" + ref + ")" + "\n\n", n + 1, files[ref := codec.dec(payload).value])
  {
    forall ext, payload | IsDataShape(url, ext, payload) ensures DataURL(url) == Some((ext, payload)) {
      DataURLIff(url, ext, payload);
    }
    if DataURL(url).Some? { DataIs(url); }
  }

  lemma OneOfEach(text: string, url: string)
    ensures
      var parts := [TextPart(text), ImagePart(Some(url))];
      TextOf(parts) == text && ImagesOf(parts) == [url]
  {
    var parts := [TextPart(text), ImagePart(Some(url))];
    assert parts[1..] == [ImagePart(Some(url))] && parts[1..][1..] == [];
    assert TextOf(parts[1..]) == "" && ImagesOf(parts[1..]) == [url] + [];
  }
}
