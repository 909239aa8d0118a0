/** Chat sessions as Markdown files (chat_history.go): the writer, the reader, and the regular
    expressions of the reader as scanners.  JSON message bodies are already decoded values; the
    base64 codec is a pair of functions; image files are a map from reference to bytes. */
module ChatMarkdown {
  import opened PeerState
  import opened Text

  type Bytes = seq<bv8>
  type Files = map<string, Bytes>

  /** Base64 as a pair of functions, and whether the n-th image file of a session can be written. */
  datatype Codec = Codec(enc: Bytes -> string, dec: string -> Option<Bytes>, saves: nat -> bool)

  datatype Part = TextPart(text: string) | ImagePart(url: Option<string>) | OtherPart

  /** A message body: a JSON string, an array of parts, or neither. */
  datatype Content = Plain(text: string) | Parts(parts: seq<Part>) | Undecodable

  datatype Message = Message(role: string, content: Content)

  datatype Session = Session(id: string, title: string, model: string, messages: seq<Message>)

  predicate IDChar(c: char) {
    IsDigit(c) || 'A' <= c <= 'Z' || 'a' <= c <= 'z' || c == '_' || c == '-'
  }

  predicate ValidID(id: string) {
    id != "" && forall i :: 0 <= i < |id| ==> IDChar(id[i])
  }

  predicate Alphanumeric(c: char) {
    IsDigit(c) || 'A' <= c <= 'Z' || 'a' <= c <= 'z'
  }

  predicate MimeChar(c: char) {
    Alphanumeric(c) || c == '.' || c == '+' || c == '-'
  }

  // ---------------------------------------------------------------------------------------
  // Writing.

  function TextOf(parts: seq<Part>): string {
    if parts == [] then ""
    else (if parts[0].TextPart? then parts[0].text else "") + TextOf(parts[1..])
  }

  function ImagesOf(parts: seq<Part>): seq<string> {
    if parts == [] then []
    else (if parts[0].ImagePart? && parts[0].url.Some? then [parts[0].url.value] else []) + ImagesOf(parts[1..])
  }

  function Decoded(c: Content): (string, seq<string>) {
    match c
    case Plain(text) => (text, [])
    case Parts(parts) => (TextOf(parts), ImagesOf(parts))
    case Undecodable => ("", [])
  }

  /** The longest prefix of characters from the MIME subtype class. */
  function MimeRun(s: string): (r: nat)
    ensures r <= |s| && (forall i :: 0 <= i < r ==> MimeChar(s[i])) && (r < |s| ==> !MimeChar(s[r]))
  {
    if s != "" && MimeChar(s[0]) then 1 + MimeRun(s[1..]) else 0
  }

  const DATA_IMAGE := "data:image/"
  const BASE64 := ";base64,"

  /** ^data:image/([a-zA-Z0-9.+-]+);base64,(.+)$ : subtype and payload. */
  function DataURL(url: string): (r: Option<(string, string)>)
    ensures r.Some? ==> url == DATA_IMAGE + r.value.0 + BASE64 + r.value.1 && r.value.0 != ""
    ensures r.Some? ==> DATA_IMAGE <= url
  {
    if !(DATA_IMAGE <= url) then None
    else
      var rest := url[|DATA_IMAGE|..];
      var k := MimeRun(rest);
      var after := rest[k..];
      if k > 0 && BASE64 <= after && after != BASE64 && '\n' !in after then
        assert rest == rest[..k] + after;
        Some((rest[..k], after[|BASE64|..]))
      else None
  }

  function ImageRef(id: string, n: nat, ext: string): string {
    id + "/img-" + Itoa(n) + "." + ext
  }

  function ImageLine(ref: string): string {
    "![image](" + ref + ")"
  }

  /** Text produced so far, images numbered so far, and the image files. */
  datatype Rendered = Rendered(text: string, imgN: nat, files: Files)

  function After(prefix: string, r: Rendered): Rendered {
    r.(text := prefix + r.text)
  }

  /** One image: a link is referenced directly, a decodable data URL becomes a numbered file, an
      undecodable one is dropped, and one whose file cannot be written is dropped with its number. */
  function RenderImage(codec: Codec, id: string, url: string, n: nat, files: Files): Rendered {
    match DataURL(url)
    case None => Rendered(ImageLine(url) + "\n\n", n, files)
    case Some((ext, payload)) =>
      match codec.dec(payload)
      case None => Rendered("", n, files)
      case Some(raw) =>
        var ref := ImageRef(id, n + 1, ext);
        if codec.saves(n + 1) then Rendered(ImageLine(ref) + "\n\n", n + 1, files[ref := raw])
        else Rendered("", n + 1, files)
  }

  function RenderImages(codec: Codec, id: string, images: seq<string>, n: nat, files: Files): Rendered {
    if images == [] then Rendered("", n, files)
    else
      var r := RenderImage(codec, id, images[0], n, files);
      After(r.text, RenderImages(codec, id, images[1..], r.imgN, r.files))
  }

  function RoleLabel(role: string): string {
    if role == "user" then "\U{1F464} User" else "\U{1F916} Assistant"
  }

  function MarkerLine(role: string): string {
    "<!-- msg role=" + role + " -->"
  }

  function HeaderText(role: string): string {
    "\n### " + RoleLabel(role) + "\n\n"
  }

  function TextBlock(text: string): string {
    if text == "" then "" else text + "\n\n"
  }

  function RenderMessage(codec: Codec, id: string, m: Message, n: nat, files: Files): Rendered {
    var (text, images) := Decoded(m.content);
    var r := RenderImages(codec, id, images, n, files);
    r.(text := MarkerLine(m.role) + (HeaderText(m.role) + (r.text + TextBlock(text))))
  }

  function RenderMessages(codec: Codec, id: string, ms: seq<Message>, n: nat, files: Files): Rendered {
    if ms == [] then Rendered("", n, files)
    else
      var r := RenderMessage(codec, id, ms[0], n, files);
      After(r.text, RenderMessages(codec, id, ms[1..], r.imgN, r.files))
  }

  function FrontMatterLine(id: string, model: string): string {
    "<!-- yuanyi-chat id=" + id + " model=" + model + " -->"
  }

  function TitleBlock(title: string): string {
    "# " + title + "\n\n"
  }

  /** The whole file, and the image files beside it. */
  function RenderSession(codec: Codec, s: Session, files: Files): Rendered {
    After(FrontMatterLine(s.id, s.model) + "\n" + TitleBlock(s.title),
          RenderMessages(codec, s.id, s.messages, 0, files))
  }

  // ---------------------------------------------------------------------------------------
  // Reading: scanners.

  /** A regular expression whose pieces leave no choice: literals, white space, and a run of other
      characters up to white space. */
  datatype Pattern =
    | End
    | Lit(text: string, rest: Pattern)
    | Spaces(rest: Pattern)          // \s*
    | SomeSpaces(rest: Pattern)      // \s+
    | Word(rest: Pattern)            // \S+ before \s

  function SkipWord(s: string): (r: string)
    ensures |r| <= |s|
  {
    if s != "" && !IsRegexSpace(s[0]) then SkipWord(s[1..]) else s
  }

  /** What is left after the pattern, anchored at the start. */
  function Match(p: Pattern, s: string): (r: Option<string>)
    ensures r.Some? ==> |r.value| <= |s|
    decreases p
  {
    match p
    case End => Some(s)
    case Lit(text, rest) => if text <= s then Match(rest, s[|text|..]) else None
    case Spaces(rest) => Match(rest, SkipSpaces(s))
    case SomeSpaces(rest) => if s != "" && IsRegexSpace(s[0]) then Match(rest, SkipSpaces(s)) else None
    case Word(rest) => if s != "" && !IsRegexSpace(s[0]) then Match(rest, SkipWord(s)) else None
  }

  const FRONT_MATTER: Pattern :=
    Lit("<!--", Spaces(Lit("yuanyi-chat", SomeSpaces(Lit("id=", Word(SomeSpaces(Lit("model=", End))))))))

  /** (\S*)\s*--> : the longest model first. */
  function TryModel(s: string, k: nat): Option<string>
    requires k <= |s|
  {
    if Match(Spaces(Lit("-->", End)), s[k..]).Some? then Some(s[..k])
    else if k == 0 then None
    else TryModel(s, k - 1)
  }

  function FrontMatterModel(line: string): Option<string> {
    match Match(FRONT_MATTER, line)
    case None => None
    case Some(rest) => TryModel(rest, |rest| - |SkipWord(rest)|)
  }

  function TrimCR(s: string): string {
    if s != "" && s[|s| - 1] == '\r' then TrimCR(s[..|s| - 1]) else s
  }

  /** The first "# " heading, unless a bare "#" comes before it. */
  function FindTitle(lines: seq<string>): string {
    if lines == [] then ""
    else
      var l := TrimCR(lines[0]);
      if "# " <= l then TrimSpace(l[2..])
      else if TrimSpace(l) == "#" then ""
      else FindTitle(lines[1..])
  }

  const MARKER_INTRO: Pattern := Lit("<!--", Spaces(Lit("msg", SomeSpaces(Lit("role=", End)))))
  const MARKER_CLOSE: Pattern := Spaces(Lit("-->", End))

  /** \s*$ in multi-line mode: the longest stretch of white space that stops at a line end. */
  function TryLineEnd(s: string, k: nat): (r: Option<nat>)
    requires k <= |s|
    ensures r.Some? ==> r.value <= k
  {
    if k == |s| || s[k] == '\n' then Some(k)
    else if k == 0 then None
    else TryLineEnd(s, k - 1)
  }

  /** \s*-->\s*$ : what follows the match. */
  function MarkerClose(s: string): (r: Option<string>)
    ensures r.Some? ==> |r.value| <= |s|
  {
    match Match(MARKER_CLOSE, s)
    case None => None
    case Some(rest) =>
      match TryLineEnd(rest, |rest| - |SkipSpaces(rest)|)
      case None => None
      case Some(k) => Some(rest[k..])
  }

  function RoleOf(s: string): string {
    if "user" <= s then "user" else "assistant"
  }

  /** (user|assistant) and the rest of the marker. */
  function MarkerTail(s: string): (r: Option<(string, string)>)
    ensures r.Some? ==> |r.value.1| <= |s|
  {
    var role := RoleOf(s);
    if !(role <= s) then None
    else
      match MarkerClose(s[|role|..])
      case None => None
      case Some(rest) => Some((role, rest))
  }

  /** A message marker at the start of `s`. */
  function Marker(s: string): (r: Option<(string, string)>)
    ensures r.Some? ==> |r.value.1| < |s|
  {
    match Match(MARKER_INTRO, s)
    case None => None
    case Some(tail) => if |tail| < |s| then MarkerTail(tail) else None
  }

  /** The text before the first marker, and each marker's role with the text up to the next. */
  datatype Pieces = Pieces(lead: string, segments: seq<(string, string)>)

  /** Leftmost matches one after the other; `bol` says whether `s` starts a line. */
  function CutAtMarkers(s: string, bol: bool): Pieces
    decreases |s|
  {
    if s == "" then Pieces("", [])
    else if bol && Marker(s).Some? then
      var (role, rest) := Marker(s).value;
      var p := CutAtMarkers(rest, s[|s| - |rest| - 1] == '\n');
      Pieces("", [(role, p.lead)] + p.segments)
    else
      var p := CutAtMarkers(s[1..], s[0] == '\n');
      Pieces([s[0]] + p.lead, p.segments)
  }

  /** ^!\[image\]\(([^)]+)\)$ */
  function ImageLineRef(line: string): Option<string> {
    var open := "![image](";
    if open <= line && |line| > |open| + 1 && line[|line| - 1] == ')' && ')' !in line[|open|..|line| - 1]
    then Some(line[|open|..|line| - 1])
    else None
  }

  function IDRun(s: string): (r: nat)
    ensures r <= |s| && (forall i :: 0 <= i < r ==> IDChar(s[i])) && (r < |s| ==> !IDChar(s[r]))
  {
    if s != "" && IDChar(s[0]) then 1 + IDRun(s[1..]) else 0
  }

  /** \d+\.[A-Za-z0-9]+$ : the extension. */
  function RefFile(s: string): Option<string> {
    var (digits, tail) := TakeDigits(s);
    if digits == "" || |tail| < 2 || tail[0] != '.' || !(forall i :: 1 <= i < |tail| ==> Alphanumeric(tail[i]))
    then None
    else Some(tail[1..])
  }

  /** ^[0-9A-Za-z_-]+/img-\d+\.[A-Za-z0-9]+$ : the extension. */
  function RefExtension(ref: string): Option<string> {
    var k := IDRun(ref);
    if k == 0 || !("/img-" <= ref[k..]) then None else RefFile(ref[k..][5..])
  }

  function Lower(s: string): string {
    seq(|s|, i requires 0 <= i < |s| => if 'A' <= s[i] <= 'Z' then s[i] + 32 as char else s[i])
  }

  /** The image subtype a file extension stands for. */
  function FileSubtype(ext: string): string {
    var lower := Lower(ext);
    if lower == "jpg" then "jpeg" else lower
  }

  /** A URL for an image reference, or "" when it is not to be trusted. */
  function Resolve(codec: Codec, files: Files, ref: string): string {
    if "http://" <= ref || "https://" <= ref || "data:" <= ref then ref
    else
      match RefExtension(ref)
      case None => ""
      case Some(ext) =>
        if ref !in files then ""
        else
          DATA_IMAGE + FileSubtype(ext) + BASE64 + codec.enc(files[ref])
  }

  /** The URL a line stands for, if it is a resolvable image line. */
  function LineImage(codec: Codec, files: Files, line: string): Option<string> {
    match ImageLineRef(TrimSpace(line))
    case None => None
    case Some(ref) =>
      var url := Resolve(codec, files, ref);
      if url == "" then None else Some(url)
  }

  function LineImages(codec: Codec, files: Files): string -> Option<string> {
    (line: string) => LineImage(codec, files, line)
  }

  /** Text lines and images of a segment; `skipped` says the role heading has gone by. */
  function ScanLines(image: string -> Option<string>, lines: seq<string>, skipped: bool): (seq<string>, seq<string>) {
    if lines == [] then ([], [])
    else
      var trimmed := TrimSpace(lines[0]);
      if !skipped && "###" <= trimmed then ScanLines(image, lines[1..], true)
      else if !skipped && trimmed == "" then ScanLines(image, lines[1..], false)
      else
        var (texts, images) := ScanLines(image, lines[1..], skipped);
        match image(lines[0])
        case Some(url) => (texts, [url] + images)
        case None => ([lines[0]] + texts, images)
  }

  function ImageParts(images: seq<string>): seq<Part> {
    seq(|images|, i requires 0 <= i < |images| => ImagePart(Some(images[i])))
  }

  function Assemble(text: string, images: seq<string>): Content {
    if images == [] then Plain(text)
    else Parts((if text != "" then [TextPart(text)] else []) + ImageParts(images))
  }

  function ParseSegment(codec: Codec, files: Files, role: string, segment: string): Message {
    var (texts, images) := ScanLines(LineImages(codec, files), Split(segment, '\n'), false);
    Message(role, Assemble(TrimSpace(Join(texts, "\n")), images))
  }

  function ParseSegments(codec: Codec, files: Files, segments: seq<(string, string)>): seq<Message> {
    seq(|segments|, i requires 0 <= i < |segments| => ParseSegment(codec, files, segments[i].0, segments[i].1))
  }

  /** The text up to the first newline, and the text after it. */
  function FirstLine(content: string): (string, string) {
    if content == "" then ("", "")
    else if content[0] == '\n' then ("", content[1..])
    else
      var (line, rest) := FirstLine(content[1..]);
      ([content[0]] + line, rest)
  }

  function ParseSession(codec: Codec, files: Files, id: string, content: string): Session {
    var (first, rest) := FirstLine(content);
    var model := FrontMatterModel(first);
    Session(id, FindTitle(Split(rest, '\n')), if model.Some? then model.value else "",
            ParseSegments(codec, files, CutAtMarkers(rest, true).segments))
  }

  // ---------------------------------------------------------------------------------------
  // The store: chat_sessions/<id>.md and the image files.

  class ChatStore {
    var docs: map<string, string>
    var files: Files

    constructor ()
      ensures docs == map[] && files == map[]
    {
      docs, files := map[], map[];
    }

    static method DecodeMessageContent(raw: Content) returns (text: string, images: seq<string>)
      ensures (text, images) == Decoded(raw)
    {
      text, images := "", [];
      match raw
      case Plain(s) => text := s;
      case Undecodable =>
      case Parts(parts) =>
        for i := 0 to |parts|
          invariant text + TextOf(parts[i..]) == TextOf(parts)
          invariant images + ImagesOf(parts[i..]) == ImagesOf(parts)
        {
          TextNext(parts, i, text);
          ImagesNext(parts, i, images);
          match parts[i]
          case TextPart(t) => text := text + t;
          case ImagePart(url) => if url.Some? { images := images + [url.value]; }
          case OtherPart =>
        }
        assert parts[|parts|..] == [] && text + "" == text && images + [] == images;
    }

    static method WriteImages(codec: Codec, id: string, images: seq<string>, n: nat, before: Files)
      returns (b: string, imgN: nat, after: Files)
      ensures Rendered(b, imgN, after) == RenderImages(codec, id, images, n, before)
    {
      b, imgN, after := "", n, before;
      for i := 0 to |images|
        invariant After(b, RenderImages(codec, id, images[i..], imgN, after))
               == RenderImages(codec, id, images, n, before)
      {
        assert images[i..][1..] == images[i + 1..];
        ghost var rest := RenderImages(codec, id, images[i..], imgN, after);
        ghost var r := RenderImage(codec, id, images[i], imgN, after);
        ghost var b0 := b;
        var m := DataURL(images[i]);
        if m.None? {
          b := b + ("![image](" + images[i] + ")" + "\n\n");
        } else {
          var raw := codec.dec(m.value.1);
          if raw.Some? {
            imgN := imgN + 1;
            if codec.saves(imgN) {
              var ref := id + "/img-" + Itoa(imgN) + "." + m.value.0;
              after := after[ref := raw.value];
              b := b + ("![image](" + ref + ")" + "\n\n");
            } else {
              b := b + "";
            }
          } else {
            b := b + "";
          }
        }
        assert b == b0 + r.text && imgN == r.imgN && after == r.files;
        Regroup(b0, r.text, RenderImages(codec, id, images[i + 1..], imgN, after).text);
      }
    }

    /** Persist a session.  `folder` and `written` say whether the directory could be made and the
        document be written.  An invalid id and a missing directory change nothing; a document that
        cannot be written leaves the old one, next to the new image files. */
    method WriteChatSessionMarkdown(codec: Codec, sess: Session, folder: bool, written: bool) returns (ok: bool)
      modifies this
      ensures ok == (ValidID(sess.id) && folder && written)
      ensures
        var r := RenderSession(codec, sess, old(files));
        && docs == (if ok then old(docs)[sess.id := r.text] else old(docs))
        && files == (if ValidID(sess.id) && folder then r.files else old(files))
    {
      if !ValidID(sess.id) {
        return false;
      }
      if !folder {
        return false;
      }
      var b := "<!-- yuanyi-chat id=" + sess.id + " model=" + sess.model + " -->" + "\n" + ("# " + sess.title + "\n\n");
      var body, _, fs := WriteMessages(codec, sess.id, sess.messages, files);
      files := fs;
      if !written {
        return false;
      }
      docs := docs[sess.id := b + body];
      return true;
    }

    static method WriteMessages(codec: Codec, id: string, messages: seq<Message>, before: Files)
      returns (b: string, imgN: nat, after: Files)
      ensures Rendered(b, imgN, after) == RenderMessages(codec, id, messages, 0, before)
    {
      b, imgN, after := "", 0, before;
      for i := 0 to |messages|
        invariant After(b, RenderMessages(codec, id, messages[i..], imgN, after))
               == RenderMessages(codec, id, messages, 0, before)
      {
        assert messages[i..][1..] == messages[i + 1..];
        ghost var b0 := b;
        var piece;
        piece, imgN, after := WriteMessage(codec, id, messages[i], imgN, after);
        b := b + piece;
        Regroup(b0, piece, RenderMessages(codec, id, messages[i + 1..], imgN, after).text);
      }
    }

    static method WriteMessage(codec: Codec, id: string, msg: Message, n: nat, before: Files)
      returns (b: string, imgN: nat, after: Files)
      ensures Rendered(b, imgN, after) == RenderMessage(codec, id, msg, n, before)
    {
      var roleLabel := "\U{1F916} Assistant";
      if msg.role == "user" {
        roleLabel := "\U{1F464} User";
      }
      var text, images := DecodeMessageContent(msg.content);
      var pictures;
      pictures, imgN, after := WriteImages(codec, id, images, n, before);
      var body := pictures;
      if text != "" {
        body := body + (text + "\n\n");
      } else {
        body := body + "";
      }
      b := "<!-- msg role=" + msg.role + " -->" + ("\n### " + roleLabel + "\n\n" + body);
    }

    static method ParseChatMessageSegment(codec: Codec, fs: Files, role: string, segment: string) returns (m: Message)
      ensures m == ParseSegment(codec, fs, role, segment)
    {
      var textLines, images := ScanSegment(LineImages(codec, fs), Split(segment, '\n'));
      var content := AssembleContent(TrimSpace(Join(textLines, "\n")), images);
      m := Message(role, content);
    }

    static method AssembleContent(text: string, images: seq<string>) returns (content: Content)
      ensures content == Assemble(text, images)
    {
      if |images| == 0 {
        return Plain(text);
      }
      var parts: seq<Part> := [];
      if text != "" {
        parts := [TextPart(text)];
      }
      ghost var head := parts;
      for i := 0 to |images|
        invariant parts == head + ImageParts(images[..i])
      {
        assert ImageParts(images[..i + 1]) == ImageParts(images[..i]) + [ImagePart(Some(images[i]))];
        parts := parts + [ImagePart(Some(images[i]))];
      }
      assert images[..|images|] == images;
      content := Parts(parts);
    }

    static method ScanSegment(image: string -> Option<string>, lines: seq<string>)
      returns (textLines: seq<string>, images: seq<string>)
      ensures (textLines, images) == ScanLines(image, lines, false)
    {
      textLines, images := [], [];
      var skippedHeader := false;
      ghost var whole := ScanLines(image, lines, false);
      assert lines[0..] == lines && [] + whole.0 == whole.0 && [] + whole.1 == whole.1;
      for i := 0 to |lines|
        invariant Onto(textLines, images, ScanLines(image, lines[i..], skippedHeader)) == whole
      {
        ScanNext(image, lines, i, skippedHeader, textLines, images);
        var trimmed := TrimSpace(lines[i]);
        if !skippedHeader {
          if "###" <= trimmed {
            skippedHeader := true;
            continue;
          }
          if trimmed == "" {
            continue;
          }
        }
        var url := image(lines[i]);
        if url.Some? {
          images := images + [url.value];
          continue;
        }
        textLines := textLines + [lines[i]];
      }
      assert lines[|lines|..] == [] && textLines + [] == textLines && images + [] == images;
    }

    static method ParseAll(codec: Codec, fs: Files, segments: seq<(string, string)>) returns (messages: seq<Message>)
      ensures messages == ParseSegments(codec, fs, segments)
    {
      messages := [];
      for i := 0 to |segments|
        invariant |messages| == i
        invariant forall j :: 0 <= j < i ==> messages[j] == ParseSegment(codec, fs, segments[j].0, segments[j].1)
      {
        var m := ParseChatMessageSegment(codec, fs, segments[i].0, segments[i].1);
        messages := messages + [m];
      }
    }

    method ReadChatSessionMarkdown(codec: Codec, id: string) returns (sess: Option<Session>)
      ensures sess == if ValidID(id) && id in docs then Some(ParseSession(codec, files, id, docs[id])) else None
    {
      if !ValidID(id) || id !in docs {
        return None;
      }
      var (firstLine, rest) := FirstLine(docs[id]);
      var model := FrontMatterModel(firstLine);
      var title := FindTitle(Split(rest, '\n'));
      var messages := ParseAll(codec, files, CutAtMarkers(rest, true).segments);
      return Some(Session(id, title, if model.Some? then model.value else "", messages));
    }
  }

  /** Lines and images already collected, put before those still to come. */
  function Onto(texts: seq<string>, images: seq<string>, rest: (seq<string>, seq<string>)): (seq<string>, seq<string>) {
    (texts + rest.0, images + rest.1)
  }

  /** The line a segment's scan looks at next, and where it goes. */
  lemma ScanNext(image: string -> Option<string>, lines: seq<string>, i: nat, skipped: bool,
                 texts: seq<string>, images: seq<string>)
    requires i < |lines|
    ensures
      var now := Onto(texts, images, ScanLines(image, lines[i..], skipped));
      var after := lines[i + 1..];
      if !skipped && "###" <= TrimSpace(lines[i]) then now == Onto(texts, images, ScanLines(image, after, true))
      else if !skipped && TrimSpace(lines[i]) == "" then now == Onto(texts, images, ScanLines(image, after, false))
      else if image(lines[i]).Some? then
        now == Onto(texts, images + [image(lines[i]).value], ScanLines(image, after, skipped))
      else now == Onto(texts + [lines[i]], images, ScanLines(image, after, skipped))
  {
    var after, rest := lines[i + 1..], ScanLines(image, lines[i + 1..], skipped);
    assert lines[i..][0] == lines[i] && lines[i..][1..] == after;
    assert texts + ([lines[i]] + rest.0) == (texts + [lines[i]]) + rest.0;
    if image(lines[i]).Some? {
      var url := image(lines[i]).value;
      assert images + ([url] + rest.1) == (images + [url]) + rest.1;
    }
  }

  lemma TextNext(parts: seq<Part>, i: nat, text: string)
    requires i < |parts|
    ensures text + TextOf(parts[i..]) ==
      (if parts[i].TextPart? then text + parts[i].text else text) + TextOf(parts[i + 1..])
  {
    assert parts[i..][0] == parts[i] && parts[i..][1..] == parts[i + 1..];
    if parts[i].TextPart? { Regroup(text, parts[i].text, TextOf(parts[i + 1..])); }
    else { assert "" + TextOf(parts[i + 1..]) == TextOf(parts[i + 1..]); }
  }

  lemma ImagesNext(parts: seq<Part>, i: nat, images: seq<string>)
    requires i < |parts|
    ensures images + ImagesOf(parts[i..]) ==
      (if parts[i].ImagePart? && parts[i].url.Some? then images + [parts[i].url.value] else images)
      + ImagesOf(parts[i + 1..])
  {
    assert parts[i..][0] == parts[i] && parts[i..][1..] == parts[i + 1..];
  }

  lemma Regroup(a: string, b: string, c: string)
    ensures a + (b + c) == (a + b) + c
  {}
}
