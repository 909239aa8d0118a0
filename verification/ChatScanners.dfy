/** How the chat reader's scanners behave on what the writer writes. */
module ChatScanners {
  import opened PeerState
  import opened Text
  import opened ChatMarkdown

  predicate StartsDark(s: string) {
    s == "" || !IsRegexSpace(s[0])
  }

  predicate Dark(s: string) {
    forall i :: 0 <= i < |s| ==> !IsRegexSpace(s[i])
  }

  // ---------------------------------------------------------------------------------------
  // Patterns, one piece at a time.

  lemma LitStep(t: string, rest: Pattern, u: string)
    ensures Match(Lit(t, rest), t + u) == Match(rest, u)
  {
    assert (t + u)[|t|..] == u;
  }

  lemma BlankStep(rest: Pattern, u: string)
    requires StartsDark(u)
    ensures Match(Spaces(rest), " " + u) == Match(rest, u)
    ensures Match(SomeSpaces(rest), " " + u) == Match(rest, u)
  {
    assert (" " + u)[1..] == u;
    assert SkipSpaces(" " + u) == SkipSpaces(u) == u;
  }

  lemma {:induction false} SkipWordOf(w: string, u: string)
    requires Dark(w) && (u == "" || IsRegexSpace(u[0]))
    ensures SkipWord(w + u) == u
  {
    if w == "" {
      assert w + u == u;
    } else {
      assert (w + u)[1..] == w[1..] + u;
      SkipWordOf(w[1..], u);
    }
  }

  lemma WordStep(rest: Pattern, w: string, u: string)
    requires w != "" && Dark(w) && (u == "" || IsRegexSpace(u[0]))
    ensures Match(Word(rest), w + u) == Match(rest, u)
  {
    assert (w + u)[0] == w[0];
    SkipWordOf(w, u);
  }

  // ---------------------------------------------------------------------------------------
  // The front matter and the title.

  lemma FrontMatterMatches(id: string, model: string)
    requires ValidID(id) && Dark(model)
    ensures Match(FRONT_MATTER, FrontMatterLine(id, model)) == Some(model + " -->")
  {
    var tail := model + " -->";
    var p5 := Lit("model=", End);
    var p4 := Word(SomeSpaces(p5));
    var p3 := Lit("id=", p4);
    var p2 := Lit("yuanyi-chat", SomeSpaces(p3));
    var s4 := id + (" " + ("model=" + tail));
    var s2 := "yuanyi-chat" + (" " + ("id=" + s4));
    assert FrontMatterLine(id, model) == "<!--" + (" " + s2) by { FrontMatterShape(id, model); }
    LitStep("<!--", Spaces(p2), " " + s2);
    assert s2[0] == 'y';
    BlankStep(p2, s2);
    LitStep("yuanyi-chat", SomeSpaces(p3), " " + ("id=" + s4));
    assert ("id=" + s4)[0] == 'i';
    BlankStep(p3, "id=" + s4);
    LitStep("id=", p4, s4);
    assert Dark(id);
    WordStep(SomeSpaces(p5), id, " " + ("model=" + tail));
    assert ("model=" + tail)[0] == 'm';
    BlankStep(p5, "model=" + tail);
    LitStep("model=", End, tail);
  }

  lemma FrontMatterShape(id: string, model: string)
    ensures FrontMatterLine(id, model)
         == "<!--" + (" " + ("yuanyi-chat" + (" " + ("id=" + (id + (" " + ("model=" + (model + " -->"))))))))
  {
    var a, b, c := "<!-- yuanyi-chat id=", " model=", " -->";
    assert FrontMatterLine(id, model) == a + (id + (b + (model + c)));
    assert b + (model + c) == " " + ("model=" + (model + c));
    var rest := id + (b + (model + c));
    assert a + rest == "<!--" + (" " + ("yuanyi-chat" + (" " + ("id=" + rest))));
  }

  lemma ModelIsRead(id: string, model: string)
    requires ValidID(id) && Dark(model)
    ensures FrontMatterModel(FrontMatterLine(id, model)) == Some(model)
  {
    var rest := model + " -->";
    FrontMatterMatches(id, model);
    SkipWordOf(model, " -->");
    assert rest[|model|..] == " " + "-->" && rest[..|model|] == model;
    BlankStep(Lit("-->", End), "-->");
    assert "-->" + "" == "-->";
    LitStep("-->", End, "");
  }

  lemma {:induction false} FirstLineOf(line: string, rest: string)
    requires '\n' !in line
    ensures FirstLine(line + "\n" + rest) == (line, rest)
  {
    var s := line + "\n" + rest;
    if line == "" {
      assert s == "\n" + rest && s[1..] == rest;
    } else {
      assert s[0] == line[0] && s[1..] == line[1..] + "\n" + rest;
      FirstLineOf(line[1..], rest);
      assert [line[0]] + line[1..] == line;
    }
  }

  lemma TitleIsRead(title: string, body: string)
    requires Trimmed(title) && '\n' !in title
    ensures FindTitle(Split(TitleBlock(title) + body, '\n')) == title
  {
    var line := "# " + title;
    assert TitleBlock(title) + body == line + ['\n'] + ("\n" + body);
    SplitPiece(line, '\n', "\n" + body);
    assert line[|line| - 1] != '\r';
    assert line[2..] == title;
    TrimOfTrimmed(title);
  }

  // ---------------------------------------------------------------------------------------
  // Markers.

  lemma IntroMatches(tail: string)
    requires StartsDark(tail)
    ensures Match(MARKER_INTRO, "<!--" + (" " + ("msg" + (" " + ("role=" + tail))))) == Some(tail)
  {
    var p2 := Lit("role=", End);
    var p1 := Lit("msg", SomeSpaces(p2));
    var s1 := "msg" + (" " + ("role=" + tail));
    LitStep("<!--", Spaces(p1), " " + s1);
    assert s1[0] == 'm';
    BlankStep(p1, s1);
    LitStep("msg", SomeSpaces(p2), " " + ("role=" + tail));
    assert ("role=" + tail)[0] == 'r';
    BlankStep(p2, "role=" + tail);
    LitStep("role=", End, tail);
  }

  lemma CloseMatches(rest: string)
    requires |rest| >= 2 && rest[0] == '\n' && !IsRegexSpace(rest[1])
    ensures MarkerClose(" " + ("-->" + rest)) == Some(rest)
  {
    assert ("-->" + rest)[0] == '-';
    BlankStep(Lit("-->", End), "-->" + rest);
    LitStep("-->", End, rest);
    LineEndAtOnce(rest);
  }

  lemma MarkerMatches(role: string, rest: string)
    requires role == "user" || role == "assistant"
    requires |rest| >= 2 && rest[0] == '\n' && !IsRegexSpace(rest[1])
    ensures Marker(MarkerLine(role) + rest) == Some((role, rest))
  {
    var close := " " + ("-->" + rest);
    var tail := role + close;
    MarkerShape(role, rest);
    assert tail[0] == role[0];
    IntroMatches(tail);
    CloseMatches(rest);
    assert tail[|role|..] == close;
    assert "user" <= tail <==> role == "user" by { assert tail[0] == role[0]; }
    assert MarkerTail(tail) == Some((role, rest));
  }

  lemma MarkerShape(role: string, rest: string)
    ensures MarkerLine(role) + rest
         == "<!--" + (" " + ("msg" + (" " + ("role=" + (role + (" " + ("-->" + rest)))))))
  {
    var tail := " -->" + rest;
    assert MarkerLine(role) + rest == "<!-- msg role=" + (role + tail);
    assert tail == " " + ("-->" + rest);
    assert "<!-- msg role=" + (role + tail) == "<!--" + (" " + ("msg" + (" " + ("role=" + (role + tail)))));
  }

  lemma LineEndAtOnce(rest: string)
    requires |rest| >= 2 && rest[0] == '\n' && !IsRegexSpace(rest[1])
    ensures TryLineEnd(rest, |rest| - |SkipSpaces(rest)|) == Some(0) && rest[0..] == rest
  {
    assert SkipSpaces(rest[1..]) == rest[1..];
    assert SkipSpaces(rest) == rest[1..];
    assert TryLineEnd(rest, 0) == Some(0);
  }

  lemma MarkerNeedsAngle(s: string)
    requires s == "" || s[0] != '<'
    ensures Marker(s) == None
  {
    assert !("<!--" <= s);
  }

  // ---------------------------------------------------------------------------------------
  // Markers do not reach across the end of a text.

  /** Literals without white space, and no white space before an opening angle. */
  predicate Compact(p: Pattern) {
    match p
    case End => true
    case Lit(t, rest) => t != "" && Dark(t) && Compact(rest)
    case Spaces(rest) => rest.Lit? && rest.text != "" && rest.text[0] != '<' && Compact(rest)
    case SomeSpaces(rest) => rest.Lit? && rest.text != "" && rest.text[0] != '<' && Compact(rest)
    case Word(_) => false
  }

  /** What can follow a text in a file: a line end, then nothing or an opening angle. */
  predicate Border(w: string) {
    w != "" && w[0] == '\n' && (SkipSpaces(w) == "" || SkipSpaces(w)[0] == '<')
  }

  predicate AllSpace(s: string) {
    forall i :: 0 <= i < |s| ==> IsRegexSpace(s[i])
  }

  lemma {:induction false} SkipAcross(v: string, w: string)
    ensures AllSpace(v) ==> SkipSpaces(v + w) == SkipSpaces(w)
    ensures !AllSpace(v) ==> SkipSpaces(v + w) == SkipSpaces(v) + w && SkipSpaces(v) != ""
  {
    if v == "" {
      assert v + w == w;
    } else if IsRegexSpace(v[0]) {
      assert (v + w)[1..] == v[1..] + w;
      SkipAcross(v[1..], w);
      if !AllSpace(v) {
        var i :| 0 <= i < |v| && !IsRegexSpace(v[i]);
        assert v[1..][i - 1] == v[i];
      }
    }
  }

  lemma PrefixStops(t: string, s: string, k: nat)
    requires t <= s && Dark(t) && k < |s| && IsRegexSpace(s[k])
    ensures |t| <= k
  {}

  lemma LitInside(t: string, v: string, w: string)
    requires t != "" && Dark(t) && w != "" && IsRegexSpace(w[0])
    ensures t <= v + w <==> t <= v
    ensures t <= v ==> (v + w)[|t|..] == v[|t|..] + w
  {
    if t <= v + w {
      assert (v + w)[|v|] == w[0];
      PrefixStops(t, v + w, |v|);
      assert t == (v + w)[..|t|] == v[..|t|];
    }
    if t <= v {
      assert (v + w)[..|t|] == v[..|t|] == t;
    }
  }

  /** A compact pattern that matches with the border behind it matches inside the text, and does so
      whatever the border is. */
  lemma {:induction false} MatchesInside(p: Pattern, v: string, w: string, w': string) returns (v': string)
    requires Compact(p) && Border(w) && Border(w') && Match(p, v + w).Some?
    ensures Match(p, v + w) == Some(v' + w) && Match(p, v + w') == Some(v' + w')
    decreases p, 0
  {
    match p
    case End =>
      v' := v;
    case Lit(t, rest) =>
      LitInside(t, v, w);
      LitInside(t, v, w');
      v' := MatchesInside(rest, v[|t|..], w, w');
    case Spaces(rest) =>
      v' := SpacesInside(rest, v, w, w');
    case SomeSpaces(rest) =>
      assert v == "" ==> v + w == w;
      v' := SpacesInside(rest, v, w, w');
      assert v == "" ==> SkipSpaces(v + w) == SkipSpaces(w);
      assert (v + w')[0] == (v + w)[0];
  }

  lemma AngleBlocks(p: Pattern, s: string)
    requires p.Lit? && p.text != "" && p.text[0] != '<' && (s == "" || s[0] == '<')
    ensures Match(p, s) == None
  {}

  lemma {:induction false} SpacesInside(rest: Pattern, v: string, w: string, w': string) returns (v': string)
    requires rest.Lit? && rest.text != "" && rest.text[0] != '<' && Compact(rest)
    requires Border(w) && Border(w') && Match(rest, SkipSpaces(v + w)).Some?
    ensures Match(rest, SkipSpaces(v + w)) == Some(v' + w) && Match(rest, SkipSpaces(v + w')) == Some(v' + w')
    decreases rest, 1
  {
    SkipAcross(v, w);
    SkipAcross(v, w');
    if AllSpace(v) {
      AngleBlocks(rest, SkipSpaces(w));
      assert false;
    }
    v' := MatchesInside(rest, SkipSpaces(v), w, w');
  }

  predicate LineEndAt(s: string, k: nat)
    requires k <= |s|
  {
    k == |s| || s[k] == '\n'
  }

  lemma {:induction false} LineEndFound(s: string, k: nat, j: nat)
    requires j <= k <= |s| && LineEndAt(s, j)
    ensures TryLineEnd(s, k).Some?
  {
    if !LineEndAt(s, k) { LineEndFound(s, k - 1, j); }
  }

  lemma {:induction false} LineEndWitness(s: string, k: nat) returns (j: nat)
    requires k <= |s| && TryLineEnd(s, k).Some?
    ensures j <= k && LineEndAt(s, j)
  {
    if LineEndAt(s, k) {
      j := k;
    } else {
      j := LineEndWitness(s, k - 1);
    }
  }

  lemma LineEndInside(v: string, w: string, w': string)
    requires Border(w) && Border(w')
    requires TryLineEnd(v + w, |v + w| - |SkipSpaces(v + w)|).Some?
    ensures TryLineEnd(v + w', |v + w'| - |SkipSpaces(v + w')|).Some?
  {
    var s, s' := v + w, v + w';
    var k, k' := |s| - |SkipSpaces(s)|, |s'| - |SkipSpaces(s')|;
    SkipAcross(v, w);
    SkipAcross(v, w');
    if AllSpace(v) {
      assert s'[|v|] == w'[0];
      assert SkipSpaces(w') == SkipSpaces(w'[1..]);
      LineEndFound(s', k', |v|);
    } else {
      var j := LineEndWitness(s, k);
      assert s[j] == v[j] == s'[j];
      LineEndFound(s', k', j);
    }
  }

  lemma CloseInside(v: string, w: string, w': string)
    requires Border(w) && Border(w') && MarkerClose(v + w).Some?
    ensures MarkerClose(v + w').Some?
  {
    assert Compact(Lit("-->", End));
    var rest := MatchesInside(MARKER_CLOSE, v, w, w');
    LineEndInside(rest, w, w');
  }

  /** The role a text starts with is inside the text. */
  lemma RoleInside(v: string, w: string)
    requires w != "" && IsRegexSpace(w[0])
    ensures
      var role := RoleOf(v);
      && RoleOf(v + w) == role && (role <= v + w <==> role <= v)
      && (role <= v ==> (v + w)[|role|..] == v[|role|..] + w)
  {
    LitInside("user", v, w);
    LitInside("assistant", v, w);
  }

  lemma MarkerTailInside(v: string, w: string, w': string)
    requires Border(w) && Border(w') && MarkerTail(v + w).Some?
    ensures MarkerTail(v + w').Some?
  {
    RoleInside(v, w);
    RoleInside(v, w');
    CloseInside(v[|RoleOf(v)|..], w, w');
  }

  lemma IntroIsCompact()
    ensures Compact(MARKER_INTRO)
  {
    var p2 := Lit("role=", End);
    var p1 := Lit("msg", SomeSpaces(p2));
    assert Compact(p2);
    assert Compact(SomeSpaces(p2));
    assert Compact(p1);
    assert Compact(Spaces(p1));
  }

  /** Whether a marker starts here does not depend on what border follows the text. */
  lemma MarkerInside(v: string, w: string, w': string)
    requires Border(w) && Border(w') && Marker(v + w).Some?
    ensures Marker(v + w').Some?
  {
    IntroIsCompact();
    IntroShortens(v + w');
    var tail := MatchesInside(MARKER_INTRO, v, w, w');
    MarkerTailInside(tail, w, w');
  }

  lemma IntroShortens(s: string)
    ensures Match(MARKER_INTRO, s).Some? ==> |Match(MARKER_INTRO, s).value| < |s|
  {}

  // ---------------------------------------------------------------------------------------
  // Cutting the file at its markers.

  function Lead(x: string, p: Pieces): Pieces {
    p.(lead := x + p.lead)
  }

  predicate EndsLine(x: string, bol: bool) {
    if x == "" then bol else x[|x| - 1] == '\n'
  }

  /** No line of the block starts with an angle. */
  predicate Quiet(x: string, bol: bool) {
    forall i :: 0 <= i < |x| && EndsLine(x[..i], bol) ==> x[i] != '<'
  }

  lemma QuietTail(x: string, bol: bool)
    requires x != "" && Quiet(x, bol)
    ensures Quiet(x[1..], x[0] == '\n') && EndsLine(x[1..], x[0] == '\n') == EndsLine(x, bol)
    ensures bol ==> x[0] != '<'
  {
    var t := x[1..];
    assert x[..0] == "";
    forall i | 0 <= i < |t| && EndsLine(t[..i], x[0] == '\n') ensures t[i] != '<' {
      assert x[..i + 1] == [x[0]] + t[..i];
      assert EndsLine(x[..i + 1], bol);
    }
  }

  lemma QuietAppend(x: string, y: string, bol: bool)
    requires Quiet(x, bol) && Quiet(y, EndsLine(x, bol))
    ensures Quiet(x + y, bol) && EndsLine(x + y, bol) == EndsLine(y, EndsLine(x, bol))
  {
    var s := x + y;
    forall i | 0 <= i < |s| && EndsLine(s[..i], bol) ensures s[i] != '<' {
      if i < |x| {
        assert s[..i] == x[..i];
      } else {
        assert s[..i] == x + y[..i - |x|];
        assert EndsLine(y[..i - |x|], EndsLine(x, bol));
      }
    }
  }

  /** A line that does not start with an angle, ended. */
  lemma QuietLine(line: string, bol: bool)
    requires '\n' !in line && (line == "" || line[0] != '<' || !bol)
    ensures Quiet(line + "\n", bol) && EndsLine(line + "\n", bol)
  {
    var s := line + "\n";
    forall i | 0 < i < |s| ensures !EndsLine(s[..i], bol) {
      assert s[..i][i - 1] == line[i - 1];
    }
    assert s[..0] == "";
  }

  lemma {:induction false} CutQuiet(x: string, y: string, bol: bool)
    requires Quiet(x, bol)
    ensures CutAtMarkers(x + y, bol) == Lead(x, CutAtMarkers(y, EndsLine(x, bol)))
  {
    if x == "" {
      assert x + y == y;
    } else {
      QuietTail(x, bol);
      assert (x + y)[0] == x[0] && (x + y)[1..] == x[1..] + y;
      if bol { MarkerNeedsAngle(x + y); }
      CutQuiet(x[1..], y, x[0] == '\n');
      assert [x[0]] + (x[1..] + CutAtMarkers(y, EndsLine(x, bol)).lead) == x + CutAtMarkers(y, EndsLine(x, bol)).lead;
    }
  }

  /** The scan moves over a character where no marker starts. */
  lemma CutPast(s: string, bol: bool)
    requires s != "" && !(bol && Marker(s).Some?)
    ensures CutAtMarkers(s, bol) == Lead([s[0]], CutAtMarkers(s[1..], s[0] == '\n'))
  {}

  /** What follows the text cannot complete a marker. */
  lemma NoMarkerInside(u: string, y: string, bol: bool)
    requires u != "" && CutAtMarkers(u + "\n", bol).segments == []
    requires y == "" || y[0] == '<'
    ensures !(bol && Marker(u + ("\n\n" + y)).Some?)
    ensures CutAtMarkers(u[1..] + "\n", u[0] == '\n').segments == []
  {
    var s := u + "\n";
    BorderOf(y);
    if bol && Marker(u + ("\n\n" + y)).Some? { MarkerInside(u, "\n\n" + y, "\n"); }
    assert s[0] == u[0] && s[1..] == u[1..] + "\n";
    CutPast(s, bol);
  }

  lemma CutBlankLine(y: string, bol: bool)
    ensures CutAtMarkers("\n\n" + y, bol) == Lead("\n\n", CutAtMarkers(y, true))
  {
    QuietLine("", bol);
    QuietLine("", true);
    QuietAppend("" + "\n", "" + "\n", bol);
    assert ("" + "\n") + ("" + "\n") == "\n\n";
    CutQuiet("\n\n", y, bol);
  }

  /** A text with no marker of its own, followed by a blank line, is passed over whole. */
  lemma {:induction false} CutText(u: string, y: string, bol: bool)
    requires CutAtMarkers(u + "\n", bol).segments == []
    requires y == "" || y[0] == '<'
    ensures CutAtMarkers(u + ("\n\n" + y), bol) == Lead(u + "\n\n", CutAtMarkers(y, true))
  {
    var w, lead := "\n\n" + y, CutAtMarkers(y, true).lead;
    if u == "" {
      CutBlankLine(y, bol);
      assert u + w == w && u + "\n\n" == "\n\n";
    } else {
      assert (u + w)[0] == u[0] && (u + w)[1..] == u[1..] + w;
      NoMarkerInside(u, y, bol);
      CutPast(u + w, bol);
      CutText(u[1..], y, u[0] == '\n');
      assert [u[0]] + ((u[1..] + "\n\n") + lead) == (u + "\n\n") + lead;
    }
  }

  lemma BorderOf(y: string)
    requires y == "" || y[0] == '<'
    ensures Border("\n\n" + y) && Border("\n")
  {
    var w := "\n\n" + y;
    assert w[1..] == "\n" + y && ("\n" + y)[1..] == y;
    assert SkipSpaces(y) == y && SkipSpaces("\n" + y) == y && SkipSpaces(w) == y;
    assert "\n"[1..] == "";
    assert SkipSpaces("\n") == "";
  }
}
