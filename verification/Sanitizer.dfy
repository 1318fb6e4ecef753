/** The display text sanitizer (cc-tui-core/src/tool_display.rs), which strips terminal control sequences. */
module Sanitizer {
  import opened Wrappers

  const ESC: char := 0x1B as char
  const BEL: char := 0x07 as char
  const C1_CSI: char := 0x9B as char
  const C1_ST: char := 0x9C as char

  /** The Unicode category Cc. */
  predicate IsControl(c: char) { c as int < 0x20 || 0x7F <= c as int <= 0x9F }

  predicate IsFinal(c: char) { 0x40 <= c as int <= 0x7E }

  // ---- what is left of the input after a sequence ----

  function SkipCsi(s: string): (r: string)
    ensures |r| <= |s|
  {
    if s == "" then "" else if IsFinal(s[0]) then s[1..] else SkipCsi(s[1..])
  }

  function SkipOsc(s: string, sawEsc: bool): (r: string)
    ensures |r| <= |s|
  {
    if s == "" then ""
    else if s[0] == BEL || (sawEsc && s[0] == '\\') then s[1..]
    else SkipOsc(s[1..], s[0] == ESC)
  }

  function SkipString(s: string, sawEsc: bool): (r: string)
    ensures |r| <= |s|
  {
    if s == "" then "" else if sawEsc && s[0] == '\\' then s[1..] else SkipString(s[1..], s[0] == ESC)
  }

  /** After an ESC. */
  function SkipEscape(s: string): (r: string)
    ensures |r| <= |s|
  {
    if s == "" then ""
    else if s[0] == '[' then SkipCsi(s[1..])
    else if s[0] == ']' then SkipOsc(s[1..], false)
    else if s[0] in {'P', '_', '^'} then SkipString(s[1..], false)
    else s[1..]
  }

  /** What one character outside of any sequence becomes. */
  function Shown(c: char, preserveNewlines: bool): string {
    if preserveNewlines && c == '\n' then "\n"
    else if preserveNewlines && c == '\r' then ""
    else if preserveNewlines && c == '\t' then "    "
    else if c in {'\n', '\r', '\t'} then " "
    else if IsControl(c) then ""
    else [c]
  }

  function Sanitize(s: string, preserveNewlines: bool): string
    decreases |s|
  {
    if s == "" then ""
    else if s[0] == ESC then Sanitize(SkipEscape(s[1..]), preserveNewlines)
    else if s[0] == C1_CSI then Sanitize(SkipCsi(s[1..]), preserveNewlines)
    else Shown(s[0], preserveNewlines) + Sanitize(s[1..], preserveNewlines)
  }

  // ---- the scanners, over a position in the text ----

  method SkipCsiSequence(s: string, i: nat) returns (j: nat)
    requires i <= |s|
    ensures i <= j <= |s| && s[j..] == SkipCsi(s[i..])
  {
    j := i;
    while j < |s|
      invariant i <= j <= |s| && SkipCsi(s[j..]) == SkipCsi(s[i..])
    {
      var ch := s[j];
      assert s[j..][1..] == s[j + 1..];
      j := j + 1;
      if IsFinal(ch) {
        return;
      }
    }
  }

  method SkipOscSequence(s: string, i: nat) returns (j: nat)
    requires i <= |s|
    ensures i <= j <= |s| && s[j..] == SkipOsc(s[i..], false)
  {
    j := i;
    var sawEsc := false;
    while j < |s|
      invariant i <= j <= |s| && SkipOsc(s[j..], sawEsc) == SkipOsc(s[i..], false)
    {
      var ch := s[j];
      assert s[j..][1..] == s[j + 1..];
      j := j + 1;
      if ch == BEL {
        return;
      }
      if sawEsc && ch == '\\' {
        return;
      }
      sawEsc := ch == ESC;
    }
  }

  method SkipStringControlSequence(s: string, i: nat) returns (j: nat)
    requires i <= |s|
    ensures i <= j <= |s| && s[j..] == SkipString(s[i..], false)
  {
    j := i;
    var sawEsc := false;
    while j < |s|
      invariant i <= j <= |s| && SkipString(s[j..], sawEsc) == SkipString(s[i..], false)
    {
      var ch := s[j];
      assert s[j..][1..] == s[j + 1..];
      j := j + 1;
      if sawEsc && ch == '\\' {
        return;
      }
      sawEsc := ch == ESC;
    }
  }

  method SkipEscapeSequence(s: string, i: nat) returns (j: nat)
    requires i <= |s|
    ensures i <= j <= |s| && s[j..] == SkipEscape(s[i..])
  {
    if i == |s| {
      return i;
    }
    assert s[i..][1..] == s[i + 1..];
    if s[i] == '[' {
      j := SkipCsiSequence(s, i + 1);
    } else if s[i] == ']' {
      j := SkipOscSequence(s, i + 1);
    } else if s[i] == 'P' || s[i] == '_' || s[i] == '^' {
      j := SkipStringControlSequence(s, i + 1);
    } else {
      j := i + 1;
    }
  }

  lemma NextChar(s: string, i: nat, keep: bool)
    requires i < |s|
    ensures Sanitize(s[i..], keep) ==
              if s[i] == ESC then Sanitize(SkipEscape(s[i + 1..]), keep)
              else if s[i] == C1_CSI then Sanitize(SkipCsi(s[i + 1..]), keep)
              else Shown(s[i], keep) + Sanitize(s[i + 1..], keep)
  {
    assert s[i..][1..] == s[i + 1..];
  }

  method SanitizeDisplayText(s: string, preserveNewlines: bool) returns (out: string)
    ensures out == Sanitize(s, preserveNewlines)
  {
    hide SkipEscape, SkipCsi, Shown;
    out := "";
    var i := 0;
    while i < |s|
      invariant 0 <= i <= |s|
      invariant out + Sanitize(s[i..], preserveNewlines) == Sanitize(s, preserveNewlines)
      decreases |s| - i
    {
      var ch := s[i];
      NextChar(s, i, preserveNewlines);
      i := i + 1;
      if ch == ESC {
        i := SkipEscapeSequence(s, i);
      } else if ch == C1_CSI {
        i := SkipCsiSequence(s, i);
      } else {
        Regroup(out, Shown(ch, preserveNewlines), Sanitize(s[i..], preserveNewlines));
        out := out + Shown(ch, preserveNewlines);
      }
    }
  }

  // ---- the same as a machine that reads one character at a time ----

  datatype Mode = Ground | Escape | Csi | Osc(sawEsc: bool) | Str(sawEsc: bool)

  function Next(m: Mode, c: char): Mode {
    match m
    case Ground => if c == ESC then Escape else if c == C1_CSI then Csi else Ground
    case Escape =>
      if c == '[' then Csi else if c == ']' then Osc(false) else if c in {'P', '_', '^'} then Str(false) else Ground
    case Csi => if IsFinal(c) then Ground else Csi
    case Osc(e) => if c == BEL || (e && c == '\\') then Ground else Osc(c == ESC)
    case Str(e) => if e && c == '\\' then Ground else Str(c == ESC)
  }

  function Output(m: Mode, c: char, keep: bool): string {
    if m.Ground? && c != ESC && c != C1_CSI then Shown(c, keep) else ""
  }

  function Feed(m: Mode, s: string): Mode
    decreases |s|
  {
    if s == "" then m else Feed(Next(m, s[0]), s[1..])
  }

  function Emit(m: Mode, s: string, keep: bool): string
    decreases |s|
  {
    if s == "" then "" else Output(m, s[0], keep) + Emit(Next(m, s[0]), s[1..], keep)
  }

  /** From each mode the machine emits what the scanners leave to be sanitized. */
  lemma {:induction false} MachineAgrees(m: Mode, s: string, keep: bool)
    ensures Emit(m, s, keep) ==
              match m
              case Ground => Sanitize(s, keep)
              case Escape => Sanitize(SkipEscape(s), keep)
              case Csi => Sanitize(SkipCsi(s), keep)
              case Osc(e) => Sanitize(SkipOsc(s, e), keep)
              case Str(e) => Sanitize(SkipString(s, e), keep)
    decreases |s|
  {
    if s != "" { MachineAgrees(Next(m, s[0]), s[1..], keep); }
  }

  lemma {:induction false} FeedConcat(m: Mode, a: string, b: string, keep: bool)
    ensures Feed(m, a + b) == Feed(Feed(m, a), b)
    ensures Emit(m, a + b, keep) == Emit(m, a, keep) + Emit(Feed(m, a), b, keep)
    decreases |a|
  {
    if a == "" {
      assert a + b == b;
    } else {
      hide Next, Output;
      assert (a + b)[1..] == a[1..] + b;
      var m1 := Next(m, a[0]);
      FeedConcat(m1, a[1..], b, keep);
      Regroup(Output(m, a[0], keep), Emit(m1, a[1..], keep), Emit(Feed(m1, a[1..]), b, keep));
    }
  }

  lemma FeedShort(m: Mode, x: char, y: char, keep: bool)
    ensures Feed(m, [x]) == Next(m, x) && Emit(m, [x], keep) == Output(m, x, keep)
    ensures Feed(m, [x, y]) == Next(Next(m, x), y)
    ensures Emit(m, [x, y], keep) == Output(m, x, keep) + Output(Next(m, x), y, keep)
  {
    FeedConcat(m, [x], [y], keep);
    assert [x, y] == [x] + [y] && [x][1..] == "" && [y][1..] == "";
  }

  // ---- main results ----

  /** No character is of the Unicode category Cc, that is of C0, DEL and C1, but for newlines where they are kept. */
  predicate Clean(s: string, keep: bool) {
    forall i :: 0 <= i < |s| ==> 0x20 <= s[i] as int <= 0x7E || s[i] as int >= 0xA0 || (keep && s[i] == '\n')
  }

  /** No control character comes out, but for newlines where they are preserved. */
  lemma {:induction false} SanitizedIsClean(s: string, keep: bool)
    ensures Clean(Sanitize(s, keep), keep)
    decreases |s|
  {
    if s != "" {
      SanitizedIsClean(SkipEscape(s[1..]), keep);
      SanitizedIsClean(SkipCsi(s[1..]), keep);
      SanitizedIsClean(s[1..], keep);
    }
  }

  /** Clean text comes out as it is. */
  lemma {:induction false} CleanUnchanged(s: string, keep: bool)
    requires Clean(s, keep)
    ensures Sanitize(s, keep) == s && Feed(Ground, s) == Ground
  {
    if s != "" {
      assert Clean(s[1..], keep);
      CleanUnchanged(s[1..], keep);
    }
  }

  lemma SanitizeIdempotent(s: string, keep: bool)
    ensures Sanitize(Sanitize(s, keep), keep) == Sanitize(s, keep)
  {
    SanitizedIsClean(s, keep);
    CleanUnchanged(Sanitize(s, keep), keep);
  }

  /** Text that is complete, clean text for one, can be sanitized on its own. */
  lemma CompleteSplits(a: string, b: string, keep: bool)
    requires Feed(Ground, a) == Ground
    ensures Sanitize(a + b, keep) == Sanitize(a, keep) + Sanitize(b, keep)
  {
    FeedConcat(Ground, a, b, keep);
    MachineAgrees(Ground, a + b, keep);
    MachineAgrees(Ground, a, keep);
    MachineAgrees(Ground, b, keep);
  }

  /** A stretch of text that starts and ends outside of any sequence and shows nothing. */
  predicate Silent(q: string, keep: bool) { Feed(Ground, q) == Ground && Emit(Ground, q, keep) == "" }

  lemma SilentVanishes(a: string, q: string, b: string, keep: bool)
    requires Feed(Ground, a) == Ground && Silent(q, keep)
    ensures Sanitize(a + q + b, keep) == Sanitize(a, keep) + Sanitize(b, keep)
  {
    FeedConcat(Ground, a, q, keep);
    CompleteSplits(a + q, b, keep);
    CompleteSplits(a, q, keep);
    MachineAgrees(Ground, q, keep);
  }

  /** The parameter and intermediate bytes of a control sequence as in section 5.4 of ECMA-48, in any order. */
  predicate SequenceBody(s: string) { forall i :: 0 <= i < |s| ==> 0x20 <= s[i] as int <= 0x3F }

  lemma {:induction false} CsiBody(s: string, final: char, keep: bool)
    requires SequenceBody(s) && IsFinal(final)
    ensures Feed(Csi, s + [final]) == Ground && Emit(Csi, s + [final], keep) == ""
    decreases |s|
  {
    if s == "" {
      assert s + [final] == [final];
      FeedShort(Csi, final, final, keep);
    } else {
      assert (s + [final])[1..] == s[1..] + [final];
      CsiBody(s[1..], final, keep);
    }
  }

  /** A complete control sequence after complete text contributes nothing, in its 7-bit and its 8-bit form. */
  lemma ControlSequenceVanishes(a: string, intro: string, body: string, final: char, b: string, keep: bool)
    requires Feed(Ground, a) == Ground && intro in {[ESC, '['], [C1_CSI]} && SequenceBody(body)
    requires 0x40 <= final as int <= 0x7E
    ensures Sanitize(a + (intro + (body + [final])) + b, keep) == Sanitize(a, keep) + Sanitize(b, keep)
  {
    CsiBody(body, final, keep);
    FeedConcat(Ground, intro, body + [final], keep);
    FeedShort(Ground, ESC, '[', keep);
    FeedShort(Ground, C1_CSI, ESC, keep);
    SilentVanishes(a, intro + (body + [final]), b, keep);
  }

  /** The openers of the control strings of section 5.6 of ECMA-48, in their 7-bit and their 8-bit form. */
  datatype Opener = Opener(second: char, eightBit: bool)

  const STRING_OPENERS: set<char> := {'P', 'X', ']', '^', '_'}

  function OpenerText(o: Opener): string
    requires o.second in STRING_OPENERS
  {
    if o.eightBit then [(o.second as int + 0x40) as char] else [ESC, o.second]
  }

  /** The content of a command string. */
  predicate StringContent(s: string) {
    forall i :: 0 <= i < |s| ==> 0x08 <= s[i] as int <= 0x0D || 0x20 <= s[i] as int <= 0x7E
  }

  predicate Recognised(o: Opener) { !o.eightBit && o.second != 'X' }

  lemma {:induction false} StringBody(m: Mode, s: string, keep: bool)
    requires StringContent(s) && m in {Osc(false), Str(false)}
    ensures Feed(m, s + [ESC, '\\']) == Ground && Emit(m, s + [ESC, '\\'], keep) == ""
  {
    var q := s + [ESC, '\\'];
    if s == "" {
      assert q == [ESC, '\\'];
      FeedShort(m, ESC, '\\', keep);
    } else {
      assert q[1..] == s[1..] + [ESC, '\\'];
      StringBody(m, s[1..], keep);
    }
  }

  lemma {:induction false} ContentStaysGround(s: string)
    requires StringContent(s)
    ensures Feed(Ground, s) == Ground
  {
    if s != "" { ContentStaysGround(s[1..]); }
  }

  lemma OpenerModes(o: Opener, keep: bool)
    requires o.second in STRING_OPENERS
    ensures Emit(Ground, OpenerText(o), keep) == ""
    ensures Recognised(o) ==> Feed(Ground, OpenerText(o)) in {Osc(false), Str(false)}
    ensures !Recognised(o) ==> Feed(Ground, OpenerText(o)) == Ground
  {
    FeedShort(Ground, ESC, o.second, keep);
    FeedShort(Ground, (o.second as int + 0x40) as char, ESC, keep);
  }

  /**
   A control string ended by ESC \ after complete text contributes nothing if its opener is ESC followed by P, ],
   ^ or _. ESC X (SOS) and all 8-bit openers are not recognised: the content is then shown like any other text.
   */
  lemma ControlStringShows(a: string, o: Opener, content: string, b: string, keep: bool)
    requires Feed(Ground, a) == Ground && o.second in STRING_OPENERS && StringContent(content)
    ensures Sanitize(a + (OpenerText(o) + (content + [ESC, '\\'])) + b, keep) ==
              Sanitize(a, keep) + (if Recognised(o) then "" else Sanitize(content, keep)) + Sanitize(b, keep)
  {
    hide Feed, Emit, Sanitize, Recognised, OpenerText;
    var q := OpenerText(o) + (content + [ESC, '\\']);
    ControlStringModes(o, content, keep);
    FeedConcat(Ground, a, q, keep);
    CompleteSplits(a + q, b, keep);
    CompleteSplits(a, q, keep);
  }

  lemma ControlStringModes(o: Opener, content: string, keep: bool)
    requires o.second in STRING_OPENERS && StringContent(content)
    ensures var q := OpenerText(o) + (content + [ESC, '\\']);
            Feed(Ground, q) == Ground && Sanitize(q, keep) == if Recognised(o) then "" else Sanitize(content, keep)
  {
    hide Sanitize, Recognised, OpenerText;
    var open, st := OpenerText(o), [ESC, '\\'];
    OpenerModes(o, keep);
    FeedConcat(Ground, open, content + st, keep);
    MachineAgrees(Ground, open + (content + st), keep);
    if Recognised(o) {
      StringBody(Feed(Ground, open), content, keep);
    } else {
      ContentStaysGround(content);
      FeedShort(Ground, ESC, '\\', keep);
      FeedConcat(Ground, content, st, keep);
      MachineAgrees(Ground, content, keep);
    }
  }

  // ---- when a control string vanishes ----

  /** The terminator in its 7-bit and its 8-bit form. */
  datatype Terminator = EscBackslash | C1St

  function TerminatorText(t: Terminator): string { if t.EscBackslash? then [ESC, '\\'] else [C1_ST] }

  /** The characters of a command string that are dropped outside of one: BS, VT, FF, and CR where newlines are kept. */
  predicate Unseen(c: char, keep: bool) { c as int in {0x08, 0x0B, 0x0C} || (keep && c == '\r') }

  lemma {:induction false} ContentVanishesIff(content: string, keep: bool)
    requires StringContent(content)
    ensures Sanitize(content, keep) == "" <==> forall i :: 0 <= i < |content| ==> Unseen(content[i], keep)
  {
    if content != "" {
      ContentVanishesIff(content[1..], keep);
      assert Shown(content[0], keep) == "" <==> Unseen(content[0], keep);
      assert forall i :: 0 < i < |content| ==> content[i] == content[1..][i - 1];
    }
  }

  /**
   The 8-bit terminator is not recognised: a string that was recognised goes on and swallows the clean text after it,
   and one that was not is shown like any other text.
   */
  lemma EightBitTerminatorShows(a: string, o: Opener, content: string, b: string, keep: bool)
    requires Feed(Ground, a) == Ground && o.second in STRING_OPENERS && StringContent(content) && Clean(b, keep)
    ensures Sanitize(a + (OpenerText(o) + (content + [C1_ST])) + b, keep) ==
              Sanitize(a, keep) + if Recognised(o) then "" else Sanitize(content, keep) + Sanitize(b, keep)
  {
    var open, rest := OpenerText(o), content + [C1_ST] + b;
    assert a + (open + (content + [C1_ST])) + b == a + (open + rest);
    RestAfterOpener(o, content, b, keep);
    hide Sanitize, Recognised, OpenerText, Feed, Emit;
    CompleteSplits(a, open + rest, keep);
  }

  lemma RestAfterOpener(o: Opener, content: string, b: string, keep: bool)
    requires o.second in STRING_OPENERS && StringContent(content) && Clean(b, keep)
    ensures Sanitize(OpenerText(o) + (content + [C1_ST] + b), keep) ==
              if Recognised(o) then "" else Sanitize(content, keep) + Sanitize(b, keep)
  {
    hide Sanitize, Recognised, OpenerText, Feed, Emit, StringContent;
    var rest := content + [C1_ST] + b;
    OpenerModes(o, keep);
    FeedConcat(Ground, OpenerText(o), rest, keep);
    MachineAgrees(Ground, OpenerText(o) + rest, keep);
    if Recognised(o) {
      NothingEndsIt(content, b, keep);
      Swallows(Feed(Ground, OpenerText(o)), rest, keep);
    } else {
      MachineAgrees(Ground, rest, keep);
      ContentStaysGround(content);
      StShowsNothing(keep);
      FeedConcat(Ground, content, [C1_ST], keep);
      CompleteSplits(content + [C1_ST], b, keep);
      CompleteSplits(content, [C1_ST], keep);
    }
  }

  lemma NothingEndsIt(content: string, b: string, keep: bool)
    requires StringContent(content) && Clean(b, keep)
    ensures var s := content + [C1_ST] + b; forall i :: 0 <= i < |s| ==> s[i] != ESC && s[i] != BEL
  {
  }

  lemma StShowsNothing(keep: bool)
    ensures Feed(Ground, [C1_ST]) == Ground && Sanitize([C1_ST], keep) == ""
  {
    FeedShort(Ground, C1_ST, C1_ST, keep);
    assert [C1_ST][1..] == "";
  }

  lemma {:induction false} Swallows(m: Mode, s: string, keep: bool)
    requires m in {Osc(false), Str(false)} && forall i :: 0 <= i < |s| ==> s[i] != ESC && s[i] != BEL
    ensures Emit(m, s, keep) == ""
    decreases |s|
  {
    if s != "" { Swallows(m, s[1..], keep); }
  }

  /**
   Exactly when a control string contributes nothing, for every opener and both terminators: a recognised opener needs
   ESC \ as the terminator or nothing behind it, and any other opener a content of dropped characters only.
   */
  lemma ControlStringVanishesIff(a: string, o: Opener, content: string, t: Terminator, b: string, keep: bool)
    requires Feed(Ground, a) == Ground && o.second in STRING_OPENERS && StringContent(content)
    requires t.C1St? ==> Clean(b, keep)
    ensures Sanitize(a + (OpenerText(o) + (content + TerminatorText(t))) + b, keep)
              == Sanitize(a, keep) + Sanitize(b, keep)
            <==> if Recognised(o) then t.EscBackslash? || b == ""
                 else forall i :: 0 <= i < |content| ==> Unseen(content[i], keep)
  {
    hide Sanitize, Recognised, Feed, StringContent, OpenerText, Unseen;
    ContentVanishesIff(content, keep);
    var x, y, z := Sanitize(a, keep), Sanitize(content, keep), Sanitize(b, keep);
    OneLeftOut(x, y, z);
    if t.EscBackslash? {
      ControlStringShows(a, o, content, b, keep);
    } else {
      EightBitTerminatorShows(a, o, content, b, keep);
      CleanUnchanged(b, keep);
    }
  }

  lemma OneLeftOut(x: string, y: string, z: string)
    ensures x + y + z == x + z <==> y == ""
    ensures x + (y + z) == x + z <==> y == ""
    ensures x + "" + z == x + z && (x + "" == x + z <==> z == "")
  {
    assert |x + y + z| == |x| + |y| + |z| && |x + z| == |x| + |z| && x + (y + z) == x + y + z;
  }
}
