/** Writing a chat session and reading it back gives the same session. */
module ChatRoundTrip {
  import opened PeerState
  import opened Text
  import opened ChatMarkdown
  import opened ChatScanners
  import opened ChatShapes

  // ---------------------------------------------------------------------------------------
  // What round-trips.

  predicate GoodRole(role: string) {
    role == "user" || role == "assistant"
  }

  /** A link the reader passes through (http, https, or a data URL that is not a base64 image),
      without a closing bracket or a line break. */
  predicate GoodLink(url: string) {
    && ("http://" <= url || "https://" <= url || "data:" <= url)
    && DataURL(url) == None && ')' !in url && '\n' !in url
  }

  /** A base64 image whose payload is the canonical encoding of its bytes and whose subtype survives
      as a file extension: lower-case letters and digits, but not "jpg". */
  predicate GoodData(codec: Codec, url: string) {
    match DataURL(url)
    case None => false
    case Some((ext, payload)) =>
      && (forall i :: 0 <= i < |ext| ==> IsDigit(ext[i]) || 'a' <= ext[i] <= 'z')
      && ext != "jpg"
      && codec.dec(payload).Some? && codec.enc(codec.dec(payload).value) == payload
  }

  predicate GoodImage(codec: Codec, url: string) {
    GoodLink(url) || GoodData(codec, url)
  }

  /** Trimmed, without a message marker at the start of a line, and without a line that stands for an
      image on disk or a link. */
  ghost predicate GoodText(files: Files, text: string) {
    && Trimmed(text)
    && !HasMarker(text + "\n", true)
    && forall line :: line in Split(text, '\n') ==> !StandsForImage(files, line)
  }

  /** A string, or an optional nonempty text followed by at least one image. */
  predicate GoodShape(c: Content) {
    match c
    case Plain(_) => true
    case Undecodable => false
    case Parts(ps) =>
      var k := if ps != [] && ps[0].TextPart? then 1 else 0;
      && |ps| > k
      && (k == 1 ==> ps[0].text != "")
      && forall i :: k <= i < |ps| ==> ps[i].ImagePart? && ps[i].url.Some?
  }

  ghost predicate GoodMessage(codec: Codec, files: Files, m: Message) {
    var (text, images) := Decoded(m.content);
    && GoodRole(m.role) && GoodShape(m.content) && GoodText(files, text)
    && forall url :: url in images ==> GoodImage(codec, url)
  }

  /** `files` are the image files as they are when the session has been written. */
  ghost predicate GoodSession(codec: Codec, files: Files, s: Session) {
    && AllSaved(codec) && ValidID(s.id) && Trimmed(s.title) && '\n' !in s.title && Dark(s.model)
    && forall m :: m in s.messages ==> GoodMessage(codec, files, m)
  }

  /** Every image file can be written. */
  ghost predicate AllSaved(codec: Codec) {
    forall n: nat :: codec.saves(n)
  }

  // ---------------------------------------------------------------------------------------
  // Image references.

  predicate FileExt(ext: string) {
    ext != "" && forall i :: 0 <= i < |ext| ==> IsDigit(ext[i]) || 'a' <= ext[i] <= 'z'
  }

  predicate AllAlphanumeric(s: string) {
    forall i :: 0 <= i < |s| ==> Alphanumeric(s[i])
  }

  lemma RefIsNoLink(id: string, n: nat, ext: string)
    requires ValidID(id)
    ensures
      var ref := ImageRef(id, n, ext);
      !("http://" <= ref) && !("https://" <= ref) && !("data:" <= ref)
  {
    var ref := ImageRef(id, n, ext);
    assert ref == id + ("/img-" + Itoa(n) + "." + ext);
    NoColonPrefix("http://", 4, id, "/img-" + Itoa(n) + "." + ext);
    NoColonPrefix("https://", 5, id, "/img-" + Itoa(n) + "." + ext);
    NoColonPrefix("data:", 4, id, "/img-" + Itoa(n) + "." + ext);
  }

  lemma NoColonPrefix(p: string, k: nat, id: string, t: string)
    requires k < |p| && p[k] == ':' && (forall i :: 0 <= i < k ==> IDChar(p[i]))
    requires (forall i :: 0 <= i < |id| ==> IDChar(id[i])) && t != "" && t[0] == '/'
    ensures !(p <= id + t)
  {
    var s := id + t;
    assert s[|id|] == '/';
    assert forall i :: 0 <= i < |id| ==> s[i] == id[i];
  }

  lemma ImageLineReads(ref: string)
    requires ref != "" && ')' !in ref
    ensures ImageLineRef(TrimSpace(ImageLine(ref))) == Some(ref)
  {
    var line := ImageLine(ref);
    assert line == "![image](" + ref + ")";
    TrimOfTrimmed(line);
    assert line[9..|line| - 1] == ref;
  }

  lemma LinkReads(codec: Codec, files: Files, url: string)
    requires GoodLink(url)
    ensures LineImage(codec, files, ImageLine(url)) == Some(url)
  {
    ImageLineReads(url);
  }

  lemma EncodedSubtype(a: string, b: string, payload: string)
    ensures DATA_IMAGE + a + BASE64 + payload == DATA_IMAGE + b + BASE64 + payload <==> a == b
  {
    var x, y := DATA_IMAGE + a + BASE64 + payload, DATA_IMAGE + b + BASE64 + payload;
    if x == y {
      assert |a| == |b|;
      assert a == x[|DATA_IMAGE|..|DATA_IMAGE| + |a|] && b == y[|DATA_IMAGE|..|DATA_IMAGE| + |b|];
    }
  }

  lemma RefExtensionIff(id: string, n: nat, ext: string)
    requires ValidID(id) && ext != ""
    ensures RefExtension(ImageRef(id, n, ext))
         == if AllAlphanumeric(ext) then Some(ext) else None
  {
    var file := Itoa(n) + ("." + ext);
    var dir := "/img-" + file;
    assert ImageRef(id, n, ext) == id + dir;
    IDRunOf(id, dir);
    assert (id + dir)[|id|..] == dir && dir[5..] == file;
    ItoaRoundTrip(n);
    RefFileOf(Itoa(n), ext);
  }

  /** What the reader makes of a file reference the writer made up. */
  lemma ResolveFile(codec: Codec, files: Files, id: string, n: nat, ext: string)
    requires ValidID(id) && ext != "" && ImageRef(id, n, ext) in files
    ensures Resolve(codec, files, ImageRef(id, n, ext)) ==
      if AllAlphanumeric(ext) then DATA_IMAGE + FileSubtype(ext) + BASE64 + codec.enc(files[ImageRef(id, n, ext)])
      else ""
  {
    RefIsNoLink(id, n, ext);
    RefExtensionIff(id, n, ext);
  }

  /** Exactly the lower-case alphanumeric subtypes other than "jpg" survive as a file extension. */
  lemma SubtypeSurvivesIff(ext: string)
    requires ext != ""
    ensures AllAlphanumeric(ext) && FileSubtype(ext) == ext <==> FileExt(ext) && ext != "jpg"
  {
    var lower := Lower(ext);
    if AllAlphanumeric(ext) && FileSubtype(ext) == ext {
      assert |lower| == |ext|;
      forall i | 0 <= i < |ext| ensures !('A' <= ext[i] <= 'Z') {
        assert lower[i] == ext[i];
      }
    }
    if FileExt(ext) { assert lower == ext; }
  }

  /** An attached base64 image with a canonical payload comes back as itself exactly when its subtype
      is made of lower-case letters and digits and is not "jpg": "jpg" comes back as "jpeg", capitals
      come back in lower case, and a subtype with punctuation is not read back at all. */
  lemma AttachedImageIff(codec: Codec, id: string, n: nat, url: string, files: Files)
    requires ValidID(id) && DataURL(url).Some?
    requires
      var (ext, payload) := DataURL(url).value;
      && codec.dec(payload).Some? && codec.enc(codec.dec(payload).value) == payload
      && ImageRef(id, n, ext) in files && files[ImageRef(id, n, ext)] == codec.dec(payload).value
    ensures
      LineImage(codec, files, ImageLine(ImageRef(id, n, DataURL(url).value.0))) == Some(url) <==> GoodData(codec, url)
  {
    var (ext, payload) := DataURL(url).value;
    SubtypeChars(url);
    RefChars(id, n, ext);
    ImageLineReads(ImageRef(id, n, ext));
    ResolveFile(codec, files, id, n, ext);
    EncodedSubtype(FileSubtype(ext), ext, payload);
    SubtypeSurvivesIff(ext);
  }

  lemma SubtypeChars(url: string)
    requires DataURL(url).Some?
    ensures forall i :: 0 <= i < |DataURL(url).value.0| ==> MimeChar(DataURL(url).value.0[i])
  {}

  /** Characters a reference is made of. */
  lemma RefChars(id: string, n: nat, ext: string)
    requires ValidID(id) && forall i :: 0 <= i < |ext| ==> MimeChar(ext[i])
    ensures ')' !in ImageRef(id, n, ext) && '\n' !in ImageRef(id, n, ext) && ImageRef(id, n, ext) != ""
  {
    ItoaRoundTrip(n);
    var d := Itoa(n);
    assert ')' !in id && '\n' !in id && ')' !in ext && '\n' !in ext && ')' !in d && '\n' !in d;
  }

  // ---------------------------------------------------------------------------------------
  // Image files are never overwritten by later images of the same session.

  lemma {:induction false} RefNumber(id: string, m: nat, e: string, n: nat, f: string)
    requires ImageRef(id, m, e) == ImageRef(id, n, f)
    ensures m == n
  {
    var p := id + "/img-";
    var a, b := Itoa(m) + ("." + e), Itoa(n) + ("." + f);
    assert ImageRef(id, m, e) == p + a && ImageRef(id, n, f) == p + b;
    assert a == (p + a)[|p|..] && b == (p + b)[|p|..];
    ItoaRoundTrip(m);
    ItoaRoundTrip(n);
    TakeDigitsOf(Itoa(m), "." + e);
    TakeDigitsOf(Itoa(n), "." + f);
    ItoaInjective(m, n);
  }

  /** `later` still has every image numbered up to `n` as `earlier` has it. */
  ghost predicate Keeps(id: string, n: nat, earlier: Files, later: Files) {
    forall k: nat, ext :: k <= n && ImageRef(id, k, ext) in earlier ==>
      ImageRef(id, k, ext) in later && later[ImageRef(id, k, ext)] == earlier[ImageRef(id, k, ext)]
  }

  lemma KeepsTransitive(id: string, n: nat, n': nat, a: Files, b: Files, c: Files)
    requires n <= n' && Keeps(id, n, a, b) && Keeps(id, n', b, c)
    ensures Keeps(id, n, a, c)
  {}

  lemma ImageKeeps(codec: Codec, id: string, url: string, n: nat, files: Files)
    ensures var r := RenderImage(codec, id, url, n, files); r.imgN >= n && Keeps(id, n, files, r.files)
  {
    var r := RenderImage(codec, id, url, n, files);
    if r.imgN == n + 1 {
      var ext := DataURL(url).value.0;
      forall k: nat, e | k <= n && ImageRef(id, k, e) in files
        ensures ImageRef(id, k, e) in r.files && r.files[ImageRef(id, k, e)] == files[ImageRef(id, k, e)]
      {
        if ImageRef(id, k, e) == ImageRef(id, n + 1, ext) {
          RefNumber(id, k, e, n + 1, ext);
          assert false;
        }
      }
    }
  }

  lemma {:induction false} ImagesKeep(codec: Codec, id: string, images: seq<string>, n: nat, files: Files)
    ensures var r := RenderImages(codec, id, images, n, files); r.imgN >= n && Keeps(id, n, files, r.files)
  {
    if images != [] {
      var r := RenderImage(codec, id, images[0], n, files);
      ImageKeeps(codec, id, images[0], n, files);
      ImagesKeep(codec, id, images[1..], r.imgN, r.files);
      KeepsTransitive(id, n, r.imgN, files, r.files, RenderImages(codec, id, images[1..], r.imgN, r.files).files);
    }
  }

  lemma {:induction false} MessagesKeep(codec: Codec, id: string, ms: seq<Message>, n: nat, files: Files)
    ensures var r := RenderMessages(codec, id, ms, n, files); r.imgN >= n && Keeps(id, n, files, r.files)
  {
    if ms != [] {
      var r := RenderMessage(codec, id, ms[0], n, files);
      ImagesKeep(codec, id, Decoded(ms[0].content).1, n, files);
      MessagesKeep(codec, id, ms[1..], r.imgN, r.files);
      KeepsTransitive(id, n, r.imgN, files, r.files, RenderMessages(codec, id, ms[1..], r.imgN, r.files).files);
    }
  }

  // ---------------------------------------------------------------------------------------
  // Rendered images, as the reader sees them.

  ghost predicate GoodImages(codec: Codec, images: seq<string>) {
    forall url :: url in images ==> GoodImage(codec, url)
  }

  /** A good image is written as one line without a line break. */
  lemma ImageIsOneLine(codec: Codec, id: string, url: string, n: nat, files: Files) returns (ref: string)
    requires AllSaved(codec) && ValidID(id) && GoodImage(codec, url)
    ensures RenderImage(codec, id, url, n, files).text == ImageLine(ref) + "\n\n"
    ensures '\n' !in ImageLine(ref)
    ensures ref == (if GoodLink(url) then url else ImageRef(id, n + 1, DataURL(url).value.0))
  {
    if GoodLink(url) {
      ref := url;
    } else {
      ref := ImageRef(id, n + 1, DataURL(url).value.0);
      SubtypeChars(url);
      RefChars(id, n + 1, DataURL(url).value.0);
    }
    assert ImageLine(ref) == "![image](" + ref + ")";
  }

  /** ... and read back as the same image, from any later state of the files. */
  lemma ImageReads(codec: Codec, id: string, url: string, n: nat, files: Files, later: Files, ref: string)
    requires AllSaved(codec) && ValidID(id) && GoodImage(codec, url)
    requires ref == (if GoodLink(url) then url else ImageRef(id, n + 1, DataURL(url).value.0))
    requires var r := RenderImage(codec, id, url, n, files); Keeps(id, r.imgN, r.files, later)
    ensures LineImage(codec, later, ImageLine(ref)) == Some(url)
  {
    if GoodLink(url) {
      LinkReads(codec, later, url);
    } else {
      AttachedImageIff(codec, id, n + 1, url, later);
    }
  }

  lemma QuietImageLine(line: string)
    requires '\n' !in line && line != "" && line[0] != '<'
    ensures Quiet(line + "\n\n", true) && EndsLine(line + "\n\n", true)
  {
    QuietLine(line, true);
    QuietLine("", true);
    QuietAppend(line + "\n", "" + "\n", true);
    assert (line + "\n") + ("" + "\n") == line + "\n\n";
  }

  lemma {:induction false} ImagesQuiet(codec: Codec, id: string, images: seq<string>, n: nat, files: Files)
    requires AllSaved(codec) && ValidID(id) && GoodImages(codec, images)
    ensures var x := RenderImages(codec, id, images, n, files).text; Quiet(x, true) && EndsLine(x, true)
  {
    if images != [] {
      var r := RenderImage(codec, id, images[0], n, files);
      var ref := ImageIsOneLine(codec, id, images[0], n, files);
      QuietImageLine(ImageLine(ref));
      ImagesQuiet(codec, id, images[1..], r.imgN, r.files);
      QuietAppend(r.text, RenderImages(codec, id, images[1..], r.imgN, r.files).text, true);
    }
  }

  function Newlines(k: nat): string {
    if k == 0 then "" else "\n" + Newlines(k - 1)
  }

  lemma {:induction false} NewlinesBlank(k: nat)
    ensures Blank(Newlines(k))
  {
    if k > 0 { NewlinesBlank(k - 1); }
  }

  /** One image line and the blank line after it: the image is taken, the blank is kept. */
  lemma ScanImage(image: string -> Option<string>, line: string, url: string, z: string)
    requires '\n' !in line && image(line) == Some(url) && image("") == None
    ensures
      var rest := ScanLines(image, Split(z, '\n'), true);
      ScanLines(image, Split(line + "\n\n" + z, '\n'), true) == ([""] + rest.0, [url] + rest.1)
  {
    assert line + "\n\n" + z == line + ['\n'] + ("\n" + z);
    SplitPiece(line, '\n', "\n" + z);
    assert "\n" + z == "" + ['\n'] + z;
    SplitPiece("", '\n', z);
    var lines := [line] + ([""] + Split(z, '\n'));
    assert lines[1..] == [""] + Split(z, '\n') && lines[1..][1..] == Split(z, '\n');
  }

  /** Scanning `x` and then a text without images takes exactly `urls`, and of `x` leaves one line
      break for each. */
  ghost predicate Scans(image: string -> Option<string>, x: string, z: string, urls: seq<string>) {
    ScanLines(image, Split(x + z, '\n'), true) == (Split(Newlines(|urls|) + z, '\n'), urls)
  }

  /** The first of several images is one line that reads back as itself. */
  lemma FirstImageReads(codec: Codec, id: string, images: seq<string>, n: nat, files: Files, later: Files)
    returns (ref: string)
    requires AllSaved(codec) && ValidID(id) && GoodImages(codec, images) && images != []
    requires var r := RenderImages(codec, id, images, n, files); Keeps(id, r.imgN, r.files, later)
    ensures RenderImage(codec, id, images[0], n, files).text == ImageLine(ref) + "\n\n"
    ensures '\n' !in ImageLine(ref) && LineImage(codec, later, ImageLine(ref)) == Some(images[0])
  {
    var r := RenderImage(codec, id, images[0], n, files);
    var rest := RenderImages(codec, id, images[1..], r.imgN, r.files);
    ImagesKeep(codec, id, images[1..], r.imgN, r.files);
    KeepsTransitive(id, r.imgN, rest.imgN, r.files, rest.files, later);
    ref := ImageIsOneLine(codec, id, images[0], n, files);
    ImageReads(codec, id, images[0], n, files, later, ref);
  }

  /** Reading the image lines of a message gives its images. */
  lemma {:induction false} ImagesRead(codec: Codec, id: string, images: seq<string>, n: nat,
                                      files: Files, later: Files, z: string)
    requires AllSaved(codec) && ValidID(id) && GoodImages(codec, images)
    requires var r := RenderImages(codec, id, images, n, files); Keeps(id, r.imgN, r.files, later)
    requires ScanLines(LineImages(codec, later), Split(z, '\n'), true) == (Split(z, '\n'), [])
    ensures Scans(LineImages(codec, later), RenderImages(codec, id, images, n, files).text, z, images)
  {
    if images == [] {
      assert "" + z == z;
    } else {
      var r := RenderImage(codec, id, images[0], n, files);
      ImagesRead(codec, id, images[1..], r.imgN, r.files, later, z);
      var ref := FirstImageReads(codec, id, images, n, files, later);
      EmptyLineIsText(codec, later);
      var rest := RenderImages(codec, id, images[1..], r.imgN, r.files).text;
      ScanStep(LineImages(codec, later), ImageLine(ref), rest, z, images);
    }
  }

  lemma ScanStep(image: string -> Option<string>, line: string, x: string, z: string, urls: seq<string>)
    requires urls != [] && '\n' !in line && image(line) == Some(urls[0]) && image("") == None
    requires Scans(image, x, z, urls[1..])
    ensures Scans(image, (line + "\n\n") + x, z, urls)
  {
    ScanImage(image, line, urls[0], x + z);
    assert (line + "\n\n") + x + z == line + "\n\n" + (x + z);
    var t := Newlines(|urls| - 1) + z;
    assert Newlines(|urls|) + z == "" + ['\n'] + t;
    SplitPiece("", '\n', t);
    assert [urls[0]] + urls[1..] == urls;
  }

  lemma EmptyLineIsText(codec: Codec, files: Files)
    ensures LineImages(codec, files)("") == None
  {
    assert TrimSpace("") == "";
  }

  // ---------------------------------------------------------------------------------------
  // The text and the heading.

  lemma {:induction false} ScanPlain(image: string -> Option<string>, lines: seq<string>)
    requires forall line :: line in lines ==> image(line) == None
    ensures ScanLines(image, lines, true) == (lines, [])
  {
    if lines != [] {
      assert lines[0] in lines;
      ScanPlain(image, lines[1..]);
      assert [lines[0]] + lines[1..] == lines;
    }
  }

  /** Splitting one more character in front of a string. */
  function PutFirst(c: char, sep: char, pieces: seq<string>): seq<string>
    requires pieces != []
  {
    if c == sep then [""] + pieces else [[c] + pieces[0]] + pieces[1..]
  }

  lemma SplitCons(c: char, s: string, sep: char)
    ensures Split([c] + s, sep) == PutFirst(c, sep, Split(s, sep))
  {
    assert ([c] + s)[1..] == s;
  }

  lemma PutFirstAppend(c: char, sep: char, a: seq<string>, b: seq<string>)
    requires a != []
    ensures PutFirst(c, sep, a) + b == PutFirst(c, sep, a + b)
  {
    assert (a + b)[1..] == a[1..] + b;
  }

  lemma {:induction false} SplitAppend(x: string, y: string, sep: char)
    ensures Split(x + [sep] + y, sep) == Split(x, sep) + Split(y, sep)
  {
    if x == "" {
      SplitPiece("", sep, y);
    } else {
      var c, t := x[0], x[1..];
      SplitAppend(t, y, sep);
      SplitCons(c, t, sep);
      SplitCons(c, t + [sep] + y, sep);
      PutFirstAppend(c, sep, Split(t, sep), Split(y, sep));
      assert x == [c] + t && x + [sep] + y == [c] + (t + [sep] + y);
    }
  }

  lemma TextReads(codec: Codec, files: Files, text: string)
    requires GoodText(files, text)
    ensures
      var z := TextBlock(text);
      ScanLines(LineImages(codec, files), Split(z, '\n'), true) == (Split(z, '\n'), [])
  {
    var image := LineImages(codec, files);
    EmptyLineIsText(codec, files);
    if text == "" {
      assert Split("", '\n') == [""];
      ScanPlain(image, [""]);
    } else {
      var z := text + "\n\n";
      assert z == text + ['\n'] + "\n";
      SplitAppend(text, "\n", '\n');
      assert "\n" == "" + ['\n'] + "";
      SplitPiece("", '\n', "");
      assert Split(z, '\n') == Split(text, '\n') + ([""] + [""]);
      forall line | line in Split(z, '\n') ensures image(line) == None {
        assert line in Split(text, '\n') || line == "";
        LineImageIff(codec, files, line);
      }
      ScanPlain(image, Split(z, '\n'));
    }
  }

  /** The heading is skipped; the blank line after it is kept. */
  lemma HeaderReads(image: string -> Option<string>, role: string, z: string)
    requires image("") == None
    ensures
      var rest := ScanLines(image, Split(z, '\n'), true);
      ScanLines(image, Split(HeaderText(role) + z, '\n'), false) == ([""] + rest.0, rest.1)
  {
    var heading := "### " + RoleLabel(role);
    var s1 := "\n" + z;
    var s2 := heading + ['\n'] + s1;
    assert HeaderText(role) + z == "" + ['\n'] + s2;
    SplitPiece("", '\n', s2);
    SplitPiece(heading, '\n', s1);
    assert s1 == "" + ['\n'] + z;
    SplitPiece("", '\n', z);
    HeadingIsTrimmed(role);
    var lines := [""] + ([heading] + ([""] + Split(z, '\n')));
    assert lines[1..] == [heading] + ([""] + Split(z, '\n'));
    assert lines[1..][1..] == [""] + Split(z, '\n');
    assert lines[1..][1..][1..] == Split(z, '\n');
    assert TrimSpace("") == "";
    var rest := ScanLines(image, Split(z, '\n'), true);
    assert ScanLines(image, lines[1..][1..], true) == ([""] + rest.0, rest.1);
    assert ScanLines(image, lines[1..], false) == ([""] + rest.0, rest.1);
  }

  lemma HeadingIsTrimmed(role: string)
    ensures var heading := "### " + RoleLabel(role);
      TrimSpace(heading) == heading && "###" <= heading && '\n' !in heading
  {
    var heading := "### " + RoleLabel(role);
    TrimOfTrimmed(heading);
  }

  lemma HeaderQuiet(role: string)
    ensures Quiet(HeaderText(role), false) && EndsLine(HeaderText(role), false)
  {
    var heading := "### " + RoleLabel(role);
    HeadingIsTrimmed(role);
    QuietLine("", false);
    QuietImageLine(heading);
    QuietAppend("" + "\n", heading + "\n\n", false);
    assert HeaderText(role) == ("" + "\n") + (heading + "\n\n");
  }

  // ---------------------------------------------------------------------------------------
  // One message.

  function SegmentText(codec: Codec, id: string, m: Message, n: nat, files: Files): string {
    var (text, images) := Decoded(m.content);
    HeaderText(m.role) + (RenderImages(codec, id, images, n, files).text + TextBlock(text))
  }

  lemma {:induction false} TextOfImages(ps: seq<Part>)
    requires forall i :: 0 <= i < |ps| ==> ps[i].ImagePart? && ps[i].url.Some?
    ensures TextOf(ps) == "" && ImageParts(ImagesOf(ps)) == ps && |ImagesOf(ps)| == |ps|
  {
    if ps != [] {
      TextOfImages(ps[1..]);
      var images := ImagesOf(ps[1..]);
      assert ImagesOf(ps) == [ps[0].url.value] + images;
      assert ImageParts(ImagesOf(ps)) == [ps[0]] + ImageParts(images);
      assert ps == [ps[0]] + ps[1..];
    }
  }

  /** A good body is what the reader would build from its own text and images. */
  lemma ShapeIsAssembled(c: Content)
    requires GoodShape(c)
    ensures Assemble(Decoded(c).0, Decoded(c).1) == c
  {
    match c
    case Plain(_) =>
    case Parts(ps) =>
      if ps[0].TextPart? {
        TextOfImages(ps[1..]);
        assert ps[0].text + "" == ps[0].text;
        assert [] + ImagesOf(ps[1..]) == ImagesOf(ps[1..]);
        assert ps == [ps[0]] + ps[1..];
      } else {
        TextOfImages(ps);
        assert [] + ImageParts(ImagesOf(ps)) == ps;
      }
  }

  /** Reading a segment: heading, images, text. */
  lemma SegmentScanned(image: string -> Option<string>, role: string, x: string, z: string, urls: seq<string>)
    requires image("") == None && Scans(image, x, z, urls)
    ensures ScanLines(image, Split(HeaderText(role) + (x + z), '\n'), false)
         == (Split(Newlines(|urls| + 1) + z, '\n'), urls)
  {
    HeaderReads(image, role, x + z);
    var t := Newlines(|urls|) + z;
    assert Newlines(|urls| + 1) + z == "" + ['\n'] + t;
    SplitPiece("", '\n', t);
  }

  /** The line breaks left over from the images are trimmed off again. */
  lemma TextRecovered(k: nat, text: string)
    requires Trimmed(text)
    ensures TrimSpace(Join(Split(Newlines(k) + TextBlock(text), '\n'), "\n")) == text
  {
    JoinSplit(Newlines(k) + TextBlock(text), '\n');
    NewlinesBlank(k);
    SurroundedText(Newlines(k), text);
  }

  /** Parsing the segment of a good message gives the message back. */
  lemma MessageReads(codec: Codec, id: string, m: Message, n: nat, files: Files, later: Files)
    requires AllSaved(codec) && ValidID(id) && GoodMessage(codec, later, m)
    requires var r := RenderMessage(codec, id, m, n, files); Keeps(id, r.imgN, r.files, later)
    ensures ParseSegment(codec, later, m.role, SegmentText(codec, id, m, n, files)) == m
  {
    var (text, images) := Decoded(m.content);
    TextReads(codec, later, text);
    ImagesRead(codec, id, images, n, files, later, TextBlock(text));
    EmptyLineIsText(codec, later);
    var pictures := RenderImages(codec, id, images, n, files).text;
    SegmentScanned(LineImages(codec, later), m.role, pictures, TextBlock(text), images);
    TextRecovered(|images| + 1, text);
    ShapeIsAssembled(m.content);
  }

  lemma SurroundedText(left: string, text: string)
    requires Blank(left) && Trimmed(text)
    ensures TrimSpace(left + TextBlock(text)) == text
  {
    if text == "" {
      assert left + "" == left + "" + "";
      TrimAround(left, "", "");
    } else {
      assert left + (text + "\n\n") == left + text + "\n\n";
      TrimAround(left, text, "\n\n");
    }
  }

  // ---------------------------------------------------------------------------------------
  // All messages.

  function SegmentsOf(codec: Codec, id: string, ms: seq<Message>, n: nat, files: Files): seq<(string, string)> {
    if ms == [] then []
    else
      var r := RenderMessage(codec, id, ms[0], n, files);
      [(ms[0].role, SegmentText(codec, id, ms[0], n, files))] + SegmentsOf(codec, id, ms[1..], r.imgN, r.files)
  }

  /** The body is cut exactly where the messages begin. */
  lemma {:induction false} MessagesCut(codec: Codec, id: string, ms: seq<Message>, n: nat, files: Files, later: Files)
    requires AllSaved(codec) && ValidID(id) && forall m :: m in ms ==> GoodMessage(codec, later, m)
    ensures
      var s := RenderMessages(codec, id, ms, n, files).text;
      && (s == "" || s[0] == '<')
      && CutAtMarkers(s, true) == Pieces("", SegmentsOf(codec, id, ms, n, files))
  {
    if ms != [] {
      var m := ms[0];
      assert m in ms;
      var r := RenderMessage(codec, id, m, n, files);
      var y := RenderMessages(codec, id, ms[1..], r.imgN, r.files).text;
      MessagesCut(codec, id, ms[1..], r.imgN, r.files, later);
      SegmentCut(codec, id, m, n, files, later, y);
      var segment := SegmentText(codec, id, m, n, files);
      Regroup(MarkerLine(m.role), segment, y);
      MarkerCut(m.role, segment + y);
      assert segment + "" == segment;
    }
  }

  /** Everything after the marker, up to the next one, is this message's segment. */
  lemma SegmentCut(codec: Codec, id: string, m: Message, n: nat, files: Files, later: Files, y: string)
    requires AllSaved(codec) && ValidID(id) && GoodMessage(codec, later, m)
    requires y == "" || y[0] == '<'
    ensures
      var segment := SegmentText(codec, id, m, n, files);
      && |segment| >= 2 && segment[0] == '\n' && segment[1] == '#'
      && CutAtMarkers(segment + y, false) == Lead(segment, CutAtMarkers(y, true))
  {
    var (text, images) := Decoded(m.content);
    var head, pictures := HeaderText(m.role), RenderImages(codec, id, images, n, files).text;
    HeaderQuiet(m.role);
    ImagesQuiet(codec, id, images, n, files);
    UncutIff(text + "\n", true);
    CutBlocks(head, pictures, text, y);
    assert head[0] == '\n' && head[1] == '#';
  }

  lemma CutBlocks(head: string, pictures: string, text: string, y: string)
    requires Quiet(head, false) && EndsLine(head, false) && Quiet(pictures, true) && EndsLine(pictures, true)
    requires CutAtMarkers(text + "\n", true).segments == []
    requires y == "" || y[0] == '<'
    ensures
      var segment := head + (pictures + TextBlock(text));
      CutAtMarkers(segment + y, false) == Lead(segment, CutAtMarkers(y, true))
  {
    var x := head + pictures;
    var segment := head + (pictures + TextBlock(text));
    var p := CutAtMarkers(y, true);
    QuietAppend(head, pictures, false);
    Regroup(head, pictures, TextBlock(text));
    if text == "" {
      assert segment == x;
      CutQuiet(x, y, false);
    } else {
      assert segment + y == x + (text + ("\n\n" + y));
      CutQuiet(x, text + ("\n\n" + y), false);
      CutText(text, y, true);
      Regroup(x, text + "\n\n", p.lead);
    }
  }

  lemma MarkerCut(role: string, rest: string)
    requires GoodRole(role) && |rest| >= 2 && rest[0] == '\n' && rest[1] == '#'
    ensures
      var p := CutAtMarkers(rest, false);
      CutAtMarkers(MarkerLine(role) + rest, true) == Pieces("", [(role, p.lead)] + p.segments)
    ensures (MarkerLine(role) + rest)[0] == '<'
  {
    var s := MarkerLine(role) + rest;
    MarkerMatches(role, rest);
    assert s[|s| - |rest| - 1] == MarkerLine(role)[|MarkerLine(role)| - 1] == '>';
  }

  /** All messages are good, one by one. */
  ghost predicate AllGood(codec: Codec, files: Files, ms: seq<Message>) {
    ms == [] || (GoodMessage(codec, files, ms[0]) && AllGood(codec, files, ms[1..]))
  }

  lemma {:induction false} AllGoodFrom(codec: Codec, files: Files, ms: seq<Message>)
    requires forall m :: m in ms ==> GoodMessage(codec, files, m)
    ensures AllGood(codec, files, ms)
  {
    if ms != [] {
      assert ms[0] in ms;
      AllGoodFrom(codec, files, ms[1..]);
    }
  }

  lemma {:induction false} MessagesRead(codec: Codec, id: string, ms: seq<Message>, n: nat, files: Files, later: Files)
    requires AllSaved(codec) && ValidID(id) && AllGood(codec, later, ms)
    requires var r := RenderMessages(codec, id, ms, n, files); Keeps(id, r.imgN, r.files, later)
    ensures ParseSegments(codec, later, SegmentsOf(codec, id, ms, n, files)) == ms
  {
    if ms != [] {
      var m, r := ms[0], RenderMessage(codec, id, ms[0], n, files);
      RestKeeps(codec, id, ms, n, files, later);
      MessageReads(codec, id, m, n, files, later);
      MessagesRead(codec, id, ms[1..], r.imgN, r.files, later);
      ParseFirst(codec, id, ms, n, files, later);
      assert ms == [m] + ms[1..];
    }
  }

  lemma ParseFirst(codec: Codec, id: string, ms: seq<Message>, n: nat, files: Files, later: Files)
    requires ms != []
    ensures
      var r := RenderMessage(codec, id, ms[0], n, files);
      ParseSegments(codec, later, SegmentsOf(codec, id, ms, n, files))
      == [ParseSegment(codec, later, ms[0].role, SegmentText(codec, id, ms[0], n, files))]
         + ParseSegments(codec, later, SegmentsOf(codec, id, ms[1..], r.imgN, r.files))
  {
    var r := RenderMessage(codec, id, ms[0], n, files);
    ParseCons(codec, later, (ms[0].role, SegmentText(codec, id, ms[0], n, files)),
              SegmentsOf(codec, id, ms[1..], r.imgN, r.files));
  }

  lemma RestKeeps(codec: Codec, id: string, ms: seq<Message>, n: nat, files: Files, later: Files)
    requires ms != []
    requires var r := RenderMessages(codec, id, ms, n, files); Keeps(id, r.imgN, r.files, later)
    ensures var r := RenderMessage(codec, id, ms[0], n, files); Keeps(id, r.imgN, r.files, later)
  {
    var r := RenderMessage(codec, id, ms[0], n, files);
    var rest := RenderMessages(codec, id, ms[1..], r.imgN, r.files);
    MessagesKeep(codec, id, ms[1..], r.imgN, r.files);
    KeepsTransitive(id, r.imgN, rest.imgN, r.files, rest.files, later);
  }

  lemma ParseCons(codec: Codec, files: Files, s: (string, string), rest: seq<(string, string)>)
    ensures ParseSegments(codec, files, [s] + rest)
         == [ParseSegment(codec, files, s.0, s.1)] + ParseSegments(codec, files, rest)
  {}

  // ---------------------------------------------------------------------------------------
  // The session.

  /** Reading back what was written returns the same id, title, model and messages, whatever image
      files were there before. */
  lemma {:induction false} SessionRoundTrip(codec: Codec, s: Session, files: Files)
    requires GoodSession(codec, RenderSession(codec, s, files).files, s)
    ensures
      var r := RenderSession(codec, s, files);
      ParseSession(codec, r.files, s.id, r.text) == s
  {
    var r := RenderSession(codec, s, files);
    var body := RenderMessages(codec, s.id, s.messages, 0, files);
    var first := FrontMatterLine(s.id, s.model);
    var rest := TitleBlock(s.title) + body.text;
    FrontMatterIsOneLine(s.id, s.model);
    assert r.text == first + "\n" + rest;
    FirstLineOf(first, rest);
    ModelIsRead(s.id, s.model);
    TitleIsRead(s.title, body.text);
    MessagesCut(codec, s.id, s.messages, 0, files, body.files);
    TitleQuiet(s.title);
    CutQuiet(TitleBlock(s.title), body.text, true);
    AllGoodFrom(codec, body.files, s.messages);
    MessagesRead(codec, s.id, s.messages, 0, files, body.files);
  }

  lemma FrontMatterIsOneLine(id: string, model: string)
    requires ValidID(id) && Dark(model)
    ensures '\n' !in FrontMatterLine(id, model)
  {
    assert '\n' !in id && '\n' !in model;
  }

  lemma TitleQuiet(title: string)
    requires '\n' !in title
    ensures Quiet(TitleBlock(title), true) && EndsLine(TitleBlock(title), true)
  {
    QuietImageLine("# " + title);
    assert TitleBlock(title) == ("# " + title) + "\n\n";
  }
}
