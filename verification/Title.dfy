/** Cleaning a terminal title (cc-terminal/src/terminal_title.rs). */
module Title {
  import opened Wrappers
  import Sanitizer

  const MAX_CHARS: nat := 240

  /** The characters with Unicode's White_Space property. */
  predicate IsWhitespace(c: char) {
    var n := c as int;
    || 0x09 <= n <= 0x0D || n == 0x20 || n == 0x85 || n == 0xA0 || n == 0x1680
    || 0x2000 <= n <= 0x200A || n == 0x2028 || n == 0x2029 || n == 0x202F || n == 0x205F || n == 0x3000
  }

  /** Control characters, and invisible characters that could disguise a title. */
  predicate IsDisallowed(c: char) {
    var n := c as int;
    || Sanitizer.IsControl(c)
    || n == 0xAD || n == 0x34F || n == 0x61C || n == 0x180E
    || 0x200B <= n <= 0x200F || 0x202A <= n <= 0x202E || 0x2060 <= n <= 0x206F
    || 0xFE00 <= n <= 0xFE0F || n == 0xFEFF || 0xFFF9 <= n <= 0xFFFB
    || 0x1BCA0 <= n <= 0x1BCA3 || 0xE0100 <= n <= 0xE01EF
  }

  // ---- what a title should be: the words of the text, one space apart, cut at the limit ----

  /** The text without what may not be shown; white space is dealt with later, even where it is a control character. */
  function Kept(s: string): string {
    if s == "" then "" else
    var c := s[|s| - 1];
    Kept(s[..|s| - 1]) + (if IsDisallowed(c) && !IsWhitespace(c) then "" else [c])
  }

  /** The maximal runs without white space. */
  function Words(s: string): (r: seq<string>)
    ensures s != "" && !IsWhitespace(s[0]) ==> r != []
    ensures forall i :: 0 <= i < |r| ==> r[i] != ""
  {
    if s == "" then []
    else if IsWhitespace(s[0]) then Words(s[1..])
    else if |s| == 1 || IsWhitespace(s[1]) then [[s[0]]] + Words(s[1..])
    else [[s[0]] + Words(s[1..])[0]] + Words(s[1..])[1..]
  }

  function Joined(words: seq<string>): string {
    if words == [] then "" else if |words| == 1 then words[0] else words[0] + " " + Joined(words[1..])
  }

  function Collapsed(s: string): string { Joined(Words(Kept(s))) }

  /** A space that would be the last character is left out, and the next character takes its place. */
  function Cap(s: string): string {
    if |s| <= MAX_CHARS then s
    else if s[MAX_CHARS - 1] == ' ' then s[..MAX_CHARS - 1] + [s[MAX_CHARS]]
    else s[..MAX_CHARS]
  }

  function Title(s: string): string { Cap(Collapsed(s)) }

  // ---- one more character ----

  lemma {:induction false} WordsSpace(s: string, c: char)
    requires IsWhitespace(c)
    ensures Words(s + [c]) == Words(s)
  {
    if s == "" {
      assert Words([c][1..]) == [];
    } else {
      assert (s + [c])[1..] == s[1..] + [c];
      WordsSpace(s[1..], c);
    }
  }

  lemma {:induction false} WordsStart(s: string, c: char)
    requires !IsWhitespace(c) && (s == "" || IsWhitespace(Last(s)))
    ensures Words(s + [c]) == Words(s) + [[c]]
  {
    if s != "" {
      assert (s + [c])[1..] == s[1..] + [c];
      WordsStart(s[1..], c);
    }
  }

  lemma {:induction false} WordsGrow(s: string, c: char)
    requires !IsWhitespace(c) && s != "" && !IsWhitespace(Last(s))
    ensures Words(s) != []
    ensures Words(s + [c]) == Words(s)[..|Words(s)| - 1] + [Last(Words(s)) + [c]]
  {
    assert (s + [c])[1..] == s[1..] + [c];
    if |s| == 1 {
      WordsStart("", c);
    } else {
      WordsGrow(s[1..], c);
      var words := Words(s[1..]);
      assert [s[0]] + (words[0] + [c]) == [s[0]] + words[0] + [c];
    }
  }

  lemma {:induction false} JoinedStart(words: seq<string>, w: string)
    ensures Joined(words + [w]) == if words == [] then w else Joined(words) + " " + w
  {
    if |words| > 1 {
      assert (words + [w])[1..] == words[1..] + [w];
      JoinedStart(words[1..], w);
    }
  }

  lemma JoinedGrow(init: seq<string>, w: string, c: char)
    ensures Joined(init + [w + [c]]) == Joined(init + [w]) + [c]
  {
    JoinedStart(init, w + [c]);
    JoinedStart(init, w);
  }

  lemma {:induction false} JoinedEmpty(words: seq<string>)
    requires forall i :: 0 <= i < |words| ==> words[i] != ""
    ensures Joined(words) == "" <==> words == []
  {
    assert words != [] ==> words[0] != "";
  }

  /** A space is due before the next character. */
  predicate Pending(s: string) {
    var k := Kept(s);
    k != "" && IsWhitespace(Last(k)) && Collapsed(s) != ""
  }

  lemma NextSkipped(s: string, c: char)
    requires IsDisallowed(c) && !IsWhitespace(c)
    ensures Collapsed(s + [c]) == Collapsed(s) && Pending(s + [c]) == Pending(s)
  {
    assert (s + [c])[..|s|] == s;
    assert Kept(s + [c]) == Kept(s);
  }

  lemma NextSpace(s: string, c: char)
    requires IsWhitespace(c)
    ensures Collapsed(s + [c]) == Collapsed(s) && Pending(s + [c]) == (Collapsed(s) != "")
  {
    assert (s + [c])[..|s|] == s;
    WordsSpace(Kept(s), c);
  }

  lemma NextShown(s: string, c: char)
    requires !IsWhitespace(c) && !IsDisallowed(c)
    ensures Collapsed(s + [c]) == Collapsed(s) + (if Pending(s) then " " else "") + [c] && !Pending(s + [c])
  {
    assert (s + [c])[..|s|] == s;
    var k := Kept(s);
    if k == "" || IsWhitespace(Last(k)) {
      WordsStart(k, c);
      JoinedStart(Words(k), [c]);
      JoinedEmpty(Words(k));
    } else {
      WordsGrow(k, c);
      JoinedGrow(Words(k)[..|Words(k)| - 1], Last(Words(k)), c);
      assert Words(k) == Words(k)[..|Words(k)| - 1] + [Last(Words(k))];
    }
  }

  lemma Next(s: string, c: char)
    ensures Collapsed(s) <= Collapsed(s + [c])
  {
    if IsWhitespace(c) {
      NextSpace(s, c);
    } else if IsDisallowed(c) {
      NextSkipped(s, c);
    } else {
      NextShown(s, c);
    }
  }

  lemma {:induction false} CollapsedGrows(s: string, t: string)
    ensures Collapsed(s) <= Collapsed(s + t)
  {
    hide Collapsed;
    if t == "" {
      assert s + t == s;
    } else {
      CollapsedGrows(s, t[..|t| - 1]);
      Next(s + t[..|t| - 1], Last(t));
      assert s + t == s + t[..|t| - 1] + [Last(t)];
    }
  }

  // ---- a clean title ----

  /** Nothing but visible characters and single spaces between them. */
  ghost predicate Neat(s: string) {
    && (forall i :: 0 <= i < |s| ==> !IsDisallowed(s[i]) && (IsWhitespace(s[i]) ==> s[i] == ' '))
    && (forall i :: 0 <= i < |s| && s[i] == ' ' ==> 0 < i < |s| - 1 && s[i + 1] != ' ')
  }

  lemma {:induction false} CollapsedIsNeat(s: string)
    ensures Neat(Collapsed(s))
  {
    hide Collapsed, Pending;
    if s == "" {
      assert Collapsed("") == "" by { NothingCollapsed(); }
    } else {
      var init, c := s[..|s| - 1], Last(s);
      assert s == init + [c];
      CollapsedIsNeat(init);
      if IsWhitespace(c) {
        NextSpace(init, c);
      } else if IsDisallowed(c) {
        NextSkipped(init, c);
      } else {
        NextShown(init, c);
        PendingAfterText(init);
      }
    }
  }

  lemma NothingCollapsed()
    ensures Collapsed("") == "" && !Pending("")
  {
  }

  lemma PendingAfterText(s: string)
    ensures Pending(s) ==> Collapsed(s) != ""
  {
  }

  lemma CapIsNeat(s: string)
    requires Neat(s)
    ensures Neat(Cap(s)) && |Cap(s)| <= MAX_CHARS
  {
  }

  /** A title has at most 240 characters, none of them disallowed, and only single spaces inside it. */
  lemma TitleIsNeat(s: string)
    ensures Neat(Title(s)) && |Title(s)| <= MAX_CHARS
  {
    CollapsedIsNeat(s);
    CapIsNeat(Collapsed(s));
  }

  /** A prefix of a clean title is what is collapsed so far, and the space that is due. */
  lemma {:induction false} NeatPrefix(s: string, n: nat)
    requires Neat(s) && n <= |s|
    ensures Collapsed(s[..n]) + (if Pending(s[..n]) then " " else "") == s[..n]
    ensures Pending(s[..n]) <==> n > 0 && s[n - 1] == ' '
  {
    hide Collapsed, Pending;
    if n == 0 {
      NothingCollapsed();
    } else {
      var c := s[n - 1];
      assert s[..n] == s[..n - 1] + [c];
      NeatPrefix(s, n - 1);
      if IsWhitespace(c) {
        NextSpace(s[..n - 1], c);
      } else {
        NextShown(s[..n - 1], c);
      }
    }
  }

  /** Exactly the clean titles are left as they are. */
  lemma TitleUnchangedIff(s: string)
    ensures Title(s) == s <==> Neat(s) && |s| <= MAX_CHARS
  {
    TitleIsNeat(s);
    if Neat(s) {
      NeatPrefix(s, |s|);
      assert s[..|s|] == s;
    }
  }

  lemma TitleIdempotent(s: string)
    ensures Title(Title(s)) == Title(s)
  {
    TitleIsNeat(s);
    TitleUnchangedIff(Title(s));
  }

  /**
   A title is as long as its text allows, up to 240 characters. Cutting keeps a prefix, unless a space falls on the last
   place: then the next character takes it, and two words run together.
   */
  lemma CutsAPrefixIff(s: string)
    ensures var full, r := Collapsed(s), Title(s);
            && |r| == (if |full| < MAX_CHARS then |full| else MAX_CHARS)
            && (|full| <= MAX_CHARS ==> r == full)
            && (|full| > MAX_CHARS ==>
                  r[..MAX_CHARS - 1] == full[..MAX_CHARS - 1]
                  && r[MAX_CHARS - 1] == if full[MAX_CHARS - 1] != ' ' then full[MAX_CHARS - 1] else full[MAX_CHARS])
    ensures var full := Collapsed(s);
            Title(s) <= full <==> (|full| > MAX_CHARS ==> full[MAX_CHARS - 1] != ' ')
  {
    var full := Collapsed(s);
    CollapsedIsNeat(s);
    if |full| > MAX_CHARS && full[MAX_CHARS - 1] == ' ' {
      assert Title(s)[MAX_CHARS - 1] == full[MAX_CHARS] != ' ';
    }
  }

  /** Two words of 239 characters and one: the cut makes them one word. */
  lemma WordsRunTogether()
    ensures var long := seq(239, _ => 'a');
            Title(long + " b") == long + "b" && !(Title(long + " b") <= Collapsed(long + " b"))
  {
    var long := seq(239, _ => 'a');
    var s := long + " b";
    assert s[..|s|] == s && s[239] == ' ' && s[240] == 'b' && Neat(s);
    NeatPrefix(s, |s|);
    assert Cap(s) == long + "b";
    CutsAPrefixIff(s);
  }

  // ---- the loop ----

  method SanitizeTitle(title: string) returns (sanitized: string)
    ensures sanitized == Title(title)
  {
    hide Collapsed, Pending;
    sanitized := "";
    var written, pendingSpace := 0, false;
    NothingCollapsed();
    for i := 0 to |title|
      invariant written == |sanitized| && sanitized == Cap(Collapsed(title[..i]))
      invariant |Collapsed(title[..i])| <= MAX_CHARS ==> pendingSpace == Pending(title[..i])
    {
      var c := title[i];
      ghost var done := title[..i];
      assert title[..i + 1] == done + [c];
      CollapsedIsNeat(done);
      if IsWhitespace(c) {
        NextSpace(done, c);
        pendingSpace := sanitized != "";
        continue;
      }
      if IsDisallowed(c) {
        NextSkipped(done, c);
        continue;
      }
      NextShown(done, c);
      if pendingSpace {
        if MAX_CHARS - written > 1 {
          sanitized := sanitized + " ";
          written := written + 1;
          pendingSpace := false;
        }
      }
      if written >= MAX_CHARS {
        CollapsedGrows(done + [c], title[i + 1..]);
        assert done + [c] + title[i + 1..] == title;
        return;
      }
      sanitized := sanitized + [c];
      written := written + 1;
    }
    assert title[..|title|] == title;
  }
}
