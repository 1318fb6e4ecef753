/** More of what the sanitizer does with control functions, and all of what it does with text that has none. */
module SanitizerLaws {
  import opened Wrappers
  import opened Text
  import opened Sanitizer

  // ---- text without control sequences ----

  /** The characters that are no control characters, and newlines where they are kept. */
  function Kept(s: string, keep: bool): string {
    if s == "" then "" else
    (if IsControl(s[0]) && !(keep && s[0] == '\n') then "" else [s[0]]) + Kept(s[1..], keep)
  }

  predicate Plain(s: string) { ESC !in s && C1_CSI !in s }

  lemma {:induction false} KeptConcat(a: string, b: string, keep: bool)
    ensures Kept(a + b, keep) == Kept(a, keep) + Kept(b, keep)
  {
    if a == "" {
      assert a + b == b;
    } else {
      assert (a + b)[1..] == a[1..] + b;
      KeptConcat(a[1..], b, keep);
      Regroup(if IsControl(a[0]) && !(keep && a[0] == '\n') then "" else [a[0]], Kept(a[1..], keep), Kept(b, keep));
    }
  }

  lemma ReplaceChar(s: string, p: char, rep: string)
    requires s != ""
    ensures Replace(s, [p], rep) == (if s[0] == p then rep else [s[0]]) + Replace(s[1..], [p], rep)
  {
    assert s[0..1] == [s[0]];
  }

  lemma ReplaceSpace(s: string, p: char)
    requires s != ""
    ensures Replace(s, [p], " ") != "" && Replace(s, [p], " ")[0] == (if s[0] == p then ' ' else s[0])
    ensures Replace(s, [p], " ")[1..] == Replace(s[1..], [p], " ")
  {
    ReplaceChar(s, p, " ");
  }

  /** On one line every newline, carriage return and tab is one space, and other control characters are left out. */
  function OnOneLine(s: string): string {
    Kept(Replace(Replace(Replace(s, "\n", " "), "\r", " "), "\t", " "), false)
  }

  lemma OnOneLineNext(s: string)
    requires s != ""
    ensures OnOneLine(s) == Kept([if s[0] in {'\n', '\r', '\t'} then ' ' else s[0]], false) + OnOneLine(s[1..])
  {
    var a, b := Replace(s, "\n", " "), Replace(Replace(s, "\n", " "), "\r", " ");
    var c := Replace(b, "\t", " ");
    hide Replace;
    ReplaceSpace(s, '\n');
    ReplaceSpace(a, '\r');
    ReplaceSpace(b, '\t');
    assert c == [c[0]] + c[1..];
    KeptConcat([c[0]], c[1..], false);
  }

  lemma OneKept(c: char, keep: bool)
    ensures Kept([c], keep) == if IsControl(c) && !(keep && c == '\n') then "" else [c]
  {
    assert [c][1..] == "";
  }

  /** What becomes of text in which no control sequence starts. */
  lemma {:induction false} PlainOnOneLine(s: string)
    requires Plain(s)
    ensures Sanitize(s, false) == OnOneLine(s)
  {
    if s != "" {
      assert s == [s[0]] + s[1..];
      PlainOnOneLine(s[1..]);
      OnOneLineNext(s);
      OneKept(s[0], false);
      OneKept(' ', false);
    }
  }

  /** Where newlines are kept a tab is four spaces, and every other control character is left out. */
  lemma {:induction false} PlainOnLines(s: string)
    requires Plain(s)
    ensures Sanitize(s, true) == Kept(Replace(s, "\t", "    "), true)
  {
    hide Replace;
    if s == "" {
      assert Replace("", "\t", "    ") == "" by { NothingReplaced(); }
    } else {
      assert s == [s[0]] + s[1..];
      PlainOnLines(s[1..]);
      ReplaceChar(s, '\t', "    ");
      KeptConcat(if s[0] == '\t' then "    " else [s[0]], Replace(s[1..], "\t", "    "), true);
      OneKept(s[0], true);
      FourSpaces();
    }
  }

  lemma NothingReplaced()
    ensures Replace("", "\t", "    ") == ""
  {
  }

  lemma FourSpaces()
    ensures Kept("    ", true) == "    "
  {
    assert "    "[1..] == "   " && "   "[1..] == "  " && "  "[1..] == " " && " "[1..] == "";
  }

  // ---- other escape sequences ----

  /** ESC and a character that opens nothing: both are left out. */
  lemma TwoCharacterEscape(a: string, c: char, b: string, keep: bool)
    requires Feed(Ground, a) == Ground && c !in {'[', ']', 'P', '_', '^'}
    ensures Sanitize(a + [ESC, c] + b, keep) == Sanitize(a, keep) + Sanitize(b, keep)
  {
    FeedShort(Ground, ESC, c, keep);
    SilentVanishes(a, [ESC, c], b, keep);
  }

  /** A control sequence that is cut off by the end of the text takes all of it. */
  lemma UnfinishedSequence(a: string, intro: string, body: string, keep: bool)
    requires Feed(Ground, a) == Ground && intro in {[ESC, '['], [C1_CSI]} && SequenceBody(body)
    ensures Sanitize(a + (intro + body), keep) == Sanitize(a, keep)
  {
    FeedShort(Ground, ESC, '[', keep);
    FeedShort(Ground, C1_CSI, ESC, keep);
    FeedConcat(Ground, intro, body, keep);
    BodyIsSilent(body, keep);
    MachineAgrees(Ground, intro + body, keep);
    CompleteSplits(a, intro + body, keep);
  }

  lemma {:induction false} BodyIsSilent(body: string, keep: bool)
    requires SequenceBody(body)
    ensures Emit(Csi, body, keep) == ""
  {
    if body != "" { BodyIsSilent(body[1..], keep); }
  }

  // ---- BEL as a terminator ----

  lemma {:induction false} BellBody(s: string, keep: bool)
    requires StringContent(s)
    ensures Feed(Osc(false), s + [BEL]) == Ground && Emit(Osc(false), s + [BEL], keep) == ""
    decreases |s|
  {
    if s == "" {
      assert s + [BEL] == [BEL];
      FeedShort(Osc(false), BEL, BEL, keep);
    } else {
      assert (s + [BEL])[1..] == s[1..] + [BEL];
      BellBody(s[1..], keep);
    }
  }

  lemma {:induction false} StringSwallows(s: string, keep: bool)
    requires ESC !in s
    ensures Emit(Str(false), s, keep) == ""
  {
    if s != "" { StringSwallows(s[1..], keep); }
  }

  /**
   BEL ends an operating system command (ESC ]) and no other string: the other recognised ones go on and swallow the
   clean text behind it, and those that are not recognised are shown like any other text.
   */
  lemma BellTerminator(a: string, o: Opener, content: string, b: string, keep: bool)
    requires Feed(Ground, a) == Ground && o.second in STRING_OPENERS && StringContent(content) && Clean(b, keep)
    ensures Sanitize(a + (OpenerText(o) + (content + [BEL])) + b, keep) ==
              Sanitize(a, keep) + if !Recognised(o) then Sanitize(content, keep) + Sanitize(b, keep)
                                  else if o.second == ']' then Sanitize(b, keep) else ""
  {
    var open, rest := OpenerText(o), content + [BEL] + b;
    assert a + (open + (content + [BEL])) + b == a + (open + rest);
    AfterBell(o, content, b, keep);
    hide Sanitize, Recognised, OpenerText, Feed, Emit;
    CompleteSplits(a, open + rest, keep);
  }

  lemma AfterBell(o: Opener, content: string, b: string, keep: bool)
    requires o.second in STRING_OPENERS && StringContent(content) && Clean(b, keep)
    ensures Sanitize(OpenerText(o) + (content + [BEL] + b), keep) ==
              if !Recognised(o) then Sanitize(content, keep) + Sanitize(b, keep)
              else if o.second == ']' then Sanitize(b, keep) else ""
  {
    hide Sanitize, OpenerText, Feed, Emit, StringContent;
    var rest := content + [BEL] + b;
    OpenerModes(o, keep);
    StringModes(o);
    FeedConcat(Ground, OpenerText(o), rest, keep);
    MachineAgrees(Ground, OpenerText(o) + rest, keep);
    if !Recognised(o) {
      MachineAgrees(Ground, rest, keep);
      ContentStaysGround(content);
      BellShowsNothing(keep);
      FeedConcat(Ground, content, [BEL], keep);
      CompleteSplits(content + [BEL], b, keep);
      CompleteSplits(content, [BEL], keep);
    } else if o.second == ']' {
      BellBody(content, keep);
      FeedConcat(Osc(false), content + [BEL], b, keep);
      MachineAgrees(Ground, b, keep);
    } else {
      NoEscape(content, b, keep);
      StringSwallows(rest, keep);
    }
  }

  lemma StringModes(o: Opener)
    requires o.second in STRING_OPENERS
    ensures Recognised(o) ==> Feed(Ground, OpenerText(o)) == if o.second == ']' then Osc(false) else Str(false)
  {
    FeedShort(Ground, ESC, o.second, false);
  }

  lemma NoEscape(content: string, b: string, keep: bool)
    requires StringContent(content) && Clean(b, keep)
    ensures ESC !in content + [BEL] + b
  {
  }

  lemma BellShowsNothing(keep: bool)
    ensures Feed(Ground, [BEL]) == Ground && Sanitize([BEL], keep) == ""
  {
    FeedShort(Ground, BEL, BEL, keep);
    assert [BEL][1..] == "";
  }
}
