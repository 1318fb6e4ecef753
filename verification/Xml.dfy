/** Escaping, tags and notification blocks (cc-tui-core/src/shell_notification.rs). */
module Xml {
  import opened Wrappers
  import opened Text

  // ---- escaping ----

  function XmlEscape(s: string): string {
    Replace(Replace(Replace(s, "&", "&amp;"), "<", "&lt;"), ">", "&gt;")
  }

  function XmlUnescape(s: string): string {
    Replace(Replace(Replace(s, "&lt;", "<"), "&gt;", ">"), "&amp;", "&")
  }

  /** The text with `amp`, `lt` and `gt` written for the three special characters. */
  function Encode(s: string, amp: string, lt: string, gt: string): string {
    if s == "" then "" else
    (if s[0] == '&' then amp else if s[0] == '<' then lt else if s[0] == '>' then gt else [s[0]])
      + Encode(s[1..], amp, lt, gt)
  }

  lemma {:induction false} EncodePlain(s: string)
    ensures Encode(s, "&", "<", ">") == s
  {
    if s != "" { EncodePlain(s[1..]); }
  }

  lemma {:induction false} EscapeAmp(s: string)
    ensures Replace(s, "&", "&amp;") == Encode(s, "&amp;", "<", ">")
  {
    if s != "" {
      EscapeAmp(s[1..]);
      assert s == [s[0]] + s[1..];
      assert OccursAt(s, "&", 0) <==> s[0] == '&';
    }
  }

  lemma {:induction false} EscapeLt(s: string)
    ensures Replace(Encode(s, "&amp;", "<", ">"), "<", "&lt;") == Encode(s, "&amp;", "&lt;", ">")
  {
    if s != "" {
      EscapeLt(s[1..]);
      var rest := Encode(s[1..], "&amp;", "<", ">");
      if s[0] == '<' {
        ReplaceHit(rest, "<", "&lt;");
      } else {
        ReplaceSkips(if s[0] == '&' then "&amp;" else [s[0]], rest, "<", "&lt;");
      }
    }
  }

  lemma {:induction false} EscapeGt(s: string)
    ensures Replace(Encode(s, "&amp;", "&lt;", ">"), ">", "&gt;") == Encode(s, "&amp;", "&lt;", "&gt;")
  {
    if s != "" {
      EscapeGt(s[1..]);
      var rest := Encode(s[1..], "&amp;", "&lt;", ">");
      if s[0] == '>' {
        ReplaceHit(rest, ">", "&gt;");
      } else {
        ReplaceSkips(if s[0] == '&' then "&amp;" else if s[0] == '<' then "&lt;" else [s[0]], rest, ">", "&gt;");
      }
    }
  }

  lemma EscapeIsEncode(s: string)
    ensures XmlEscape(s) == Encode(s, "&amp;", "&lt;", "&gt;")
  {
    EscapeAmp(s);
    EscapeLt(s);
    EscapeGt(s);
  }

  lemma {:induction false} UnescapeLt(s: string)
    ensures Replace(Encode(s, "&amp;", "&lt;", "&gt;"), "&lt;", "<") == Encode(s, "&amp;", "<", "&gt;")
  {
    if s != "" {
      UnescapeLt(s[1..]);
      var rest := Encode(s[1..], "&amp;", "&lt;", "&gt;");
      if s[0] == '<' {
        ReplaceHit(rest, "&lt;", "<");
      } else if s[0] == '&' {
        ReplaceMiss("&amp;", rest, "&lt;", "<");
      } else if s[0] == '>' {
        ReplaceMiss("&gt;", rest, "&lt;", "<");
      } else {
        ReplaceSkips([s[0]], rest, "&lt;", "<");
      }
    }
  }

  lemma {:induction false} UnescapeGt(s: string)
    ensures Replace(Encode(s, "&amp;", "<", "&gt;"), "&gt;", ">") == Encode(s, "&amp;", "<", ">")
  {
    if s != "" {
      UnescapeGt(s[1..]);
      var rest := Encode(s[1..], "&amp;", "<", "&gt;");
      if s[0] == '>' {
        ReplaceHit(rest, "&gt;", ">");
      } else if s[0] == '&' {
        ReplaceMiss("&amp;", rest, "&gt;", ">");
      } else {
        ReplaceSkips([s[0]], rest, "&gt;", ">");
      }
    }
  }

  lemma {:induction false} UnescapeAmp(s: string)
    ensures Replace(Encode(s, "&amp;", "<", ">"), "&amp;", "&") == s
  {
    if s != "" {
      UnescapeAmp(s[1..]);
      var rest := Encode(s[1..], "&amp;", "<", ">");
      if s[0] == '&' {
        ReplaceHit(rest, "&amp;", "&");
      } else {
        ReplaceSkips([s[0]], rest, "&amp;", "&");
      }
    }
  }

  /** Unescaping undoes escaping, for every text. */
  lemma UnescapeEscape(s: string)
    ensures XmlUnescape(XmlEscape(s)) == s
  {
    EscapeIsEncode(s);
    UnescapeLt(s);
    UnescapeGt(s);
    UnescapeAmp(s);
  }

  lemma {:induction false} EncodeHasNoBrackets(s: string)
    ensures forall i :: 0 <= i < |Encode(s, "&amp;", "&lt;", "&gt;")| ==>
              Encode(s, "&amp;", "&lt;", "&gt;")[i] != '<' && Encode(s, "&amp;", "&lt;", "&gt;")[i] != '>'
  {
    if s != "" { EncodeHasNoBrackets(s[1..]); }
  }

  lemma EscapeHasNoBrackets(s: string)
    ensures '<' !in XmlEscape(s) && '>' !in XmlEscape(s)
  {
    EscapeIsEncode(s);
    EncodeHasNoBrackets(s);
  }

  // ---- tags ----

  function OpenTag(tag: string): string { "<" + tag + ">" }

  function CloseTag(tag: string): string { "</" + tag + ">" }

  predicate TagName(tag: string) {
    tag != "" && tag[0] != '/' && '<' !in tag && '>' !in tag
  }

  function ExtractXmlTag(raw: string, tag: string): Option<string> {
    var open := Find(raw, OpenTag(tag));
    if open.None? then None else
    var start := open.value + |OpenTag(tag)|;
    var close := Find(raw[start..], CloseTag(tag));
    if close.None? then None else Some(raw[start..start + close.value])
  }

  lemma NoBracketNoTag(s: string, pat: string)
    requires pat != "" && pat[0] == '<' && '<' !in s
    ensures !Contains(s, pat)
  {
    forall i: nat ensures !OccursAt(s, pat, i) {
      assert i + |pat| <= |s| ==> s[i..i + |pat|][0] == s[i];
    }
  }

  lemma FirstElement(pre: string, tag: string, v: string, post: string)
    requires TagName(tag) && !Contains(pre, OpenTag(tag)) && !Contains(v, CloseTag(tag))
    ensures var raw := pre + OpenTag(tag) + v + CloseTag(tag) + post;
            && Find(raw, OpenTag(tag)) == Some(|pre|)
            && Find(raw[|pre| + |OpenTag(tag)|..], CloseTag(tag)) == Some(|v|)
  {
    var raw := pre + OpenTag(tag) + v + CloseTag(tag) + post;
    var open, close := OpenTag(tag), CloseTag(tag);
    assert forall j :: 0 < j < |open| ==> open[j] != '<';
    assert forall j :: 0 < j < |close| ==> close[j] != '<';
    assert raw == pre + open + (v + close + post);
    FirstAfter(pre, open, v + close + post);
    FirstAfter(v, close, post);
    assert raw[|pre| + |open|..] == v + close + post;
  }

  /** Extracting a tag that was printed around an escaped value gives the value back. */
  lemma ExtractPrinted(pre: string, tag: string, v: string, post: string)
    requires TagName(tag) && !Contains(pre, OpenTag(tag))
    ensures ExtractXmlTag(pre + OpenTag(tag) + XmlEscape(v) + CloseTag(tag) + post, tag) == Some(XmlEscape(v))
    ensures XmlUnescape(ExtractXmlTag(pre + OpenTag(tag) + XmlEscape(v) + CloseTag(tag) + post, tag).value) == v
  {
    EscapedHasNoTag(v, tag);
    hide XmlEscape, XmlUnescape, OpenTag, CloseTag, TagName, Contains;
    FirstElement(pre, tag, XmlEscape(v), post);
    UnescapeEscape(v);
    var raw := pre + OpenTag(tag) + XmlEscape(v) + CloseTag(tag) + post;
    var start := |pre| + |OpenTag(tag)|;
    assert raw[start..start + |XmlEscape(v)|] == XmlEscape(v);
  }

  lemma EscapedHasNoTag(v: string, tag: string)
    ensures !Contains(XmlEscape(v), CloseTag(tag))
  {
    EscapeHasNoBrackets(v);
    NoBracketNoTag(XmlEscape(v), CloseTag(tag));
  }
}
