/** Template rendering and the assembly of the system prompt (cc-acp/src/prompt/mod.rs). */
module Prompt {
  import opened Wrappers
  import opened Text

  const BOUNDARY: string := "\n\n__SYSTEM_PROMPT_DYNAMIC_BOUNDARY__"

  /** A placeholder with its braces, and what it stands for. */
  datatype Variable = Variable(key: string, value: string)

  /** The last occurrence of `pat`. */
  function RFind(s: string, pat: string): (r: Option<nat>)
    ensures r.Some? ==> OccursAt(s, pat, r.value)
    ensures forall j: nat :: (r.Some? ==> j > r.value) ==> !OccursAt(s, pat, j)
  {
    RFindUpTo(s, pat, |s|)
  }

  function RFindUpTo(s: string, pat: string, n: nat): (r: Option<nat>)
    requires n <= |s|
    ensures r.Some? ==> r.value <= n && OccursAt(s, pat, r.value)
    ensures forall j: nat :: j <= n && (r.Some? ==> j > r.value) ==> !OccursAt(s, pat, j)
  {
    if OccursAt(s, pat, n) then Some(n) else if n == 0 then None else RFindUpTo(s, pat, n - 1)
  }

  /** The pieces of a text that end with "}}", and what is left. */
  function SplitInclusive(t: string): seq<string>
    decreases |t|
  {
    match Find(t, "}}")
    case None => if t == "" then [] else [t]
    case Some(k) => [t[..k + 2]] + SplitInclusive(t[k + 2..])
  }

  function ValueOf(key: string, vars: seq<Variable>): Option<string> {
    if vars == [] then None else if vars[0].key == key then Some(vars[0].value) else ValueOf(key, vars[1..])
  }

  function RenderPart(part: string, vars: seq<Variable>): string {
    match RFind(part, "{{")
    case None => part
    case Some(start) =>
      match ValueOf(part[start..], vars)
      case None => part
      case Some(v) => part[..start] + v
  }

  function RenderParts(parts: seq<string>, vars: seq<Variable>): string {
    if parts == [] then "" else RenderPart(parts[0], vars) + RenderParts(parts[1..], vars)
  }

  function Render(t: string, vars: seq<Variable>): string { RenderParts(SplitInclusive(t), vars) }

  lemma NextPart(rendered: string, parts: seq<string>, i: nat, vars: seq<Variable>)
    requires i < |parts|
    ensures rendered + RenderParts(parts[i..], vars) ==
              rendered + RenderPart(parts[i], vars) + RenderParts(parts[i + 1..], vars)
  {
    hide RenderPart;
    assert parts[i..][0] == parts[i] && parts[i..][1..] == parts[i + 1..];
    Regroup(rendered, RenderPart(parts[i], vars), RenderParts(parts[i + 1..], vars));
  }

  /** The wording of the template is first adapted to the kernel; any function of it may do that. */
  method RenderSection(template: string, dialect: string -> string, vars: seq<Variable>) returns (rendered: string)
    ensures rendered == Render(dialect(template), vars)
  {
    hide RFind, SplitInclusive, RenderParts, ValueOf;
    rendered := "";
    var parts := SplitInclusive(dialect(template));
    var i := 0;
    NoParts(vars);
    while i < |parts|
      invariant 0 <= i <= |parts|
      invariant rendered + RenderParts(parts[i..], vars) == RenderParts(parts, vars)
    {
      var part := parts[i];
      NextPart(rendered, parts, i, vars);
      i := i + 1;
      var start := RFind(part, "{{");
      if start.Some? {
        var value := ValueOf(part[start.value..], vars);
        if value.Some? {
          Regroup(rendered, part[..start.value], value.value);
          rendered := rendered + part[..start.value];
          rendered := rendered + value.value;
          continue;
        }
      }
      rendered := rendered + part;
    }
    assert parts[|parts|..] == [];
  }

  lemma NoParts(vars: seq<Variable>)
    ensures RenderParts([], vars) == ""
  {
  }

  // ---- one pass ----

  /** A placeholder: two braces, a name without braces, two braces. */
  predicate Placeholder(key: string) {
    |key| >= 4 && key[..2] == "{{" && key[|key| - 2..] == "}}"
    && forall i :: 2 <= i < |key| - 2 ==> key[i] != '{' && key[i] != '}'
  }

  ghost predicate Keys(vars: seq<Variable>) { forall i :: 0 <= i < |vars| ==> Placeholder(vars[i].key) }

  function Expanded(key: string, vars: seq<Variable>): string { ValueOf(key, vars).GetOr(key) }

  lemma {:induction false} ValueOfKey(key: string, vars: seq<Variable>)
    requires Keys(vars) && ValueOf(key, vars).Some?
    ensures Placeholder(key)
  {
    if vars[0].key != key { ValueOfKey(key, vars[1..]); }
  }

  lemma PlaceholderChars(key: string)
    requires Placeholder(key)
    ensures key[0] == '{' && key[1] == '{' && key[|key| - 2] == '}' && key[|key| - 1] == '}'
    ensures forall i :: 0 <= i < |key| - 2 ==> key[i] != '}'
    ensures forall i :: 2 <= i < |key| ==> key[i] != '{'
  {
    assert key[0] == key[..2][0] && key[1] == key[..2][1];
    assert key[|key| - 2] == key[|key| - 2..][0] && key[|key| - 1] == key[|key| - 2..][1];
  }

  /** The closing braces of a placeholder are the first ones after text that closes none. */
  lemma PlaceholderCloses(x: string, key: string, rest: string)
    requires Placeholder(key) && !Contains(x, "}}")
    ensures Find(x + key + rest, "}}") == Some(|x| + |key| - 2)
  {
    var s := x + key + rest;
    var n := |x| + |key| - 2;
    PlaceholderChars(key);
    assert s[n..n + 2] == key[|key| - 2..];
    assert forall k :: 0 <= k < |key| ==> s[|x| + k] == key[k];
    forall j: nat | j < n ensures !OccursAt(s, "}}", j) {
      assert s[j..j + 2][0] == s[j] && s[j..j + 2][1] == s[j + 1];
      if j + 2 <= |x| {
        assert s[j..j + 2] == x[j..j + 2];
        assert !OccursAt(x, "}}", j);
      } else if j < |x| {
        assert s[j + 1] == key[0];
      } else {
        assert s[j] == key[j - |x|];
      }
    }
    FindFirst(s, "}}", n);
  }

  lemma PlaceholderOpens(x: string, key: string)
    requires Placeholder(key)
    ensures RFind(x + key, "{{") == Some(|x|)
  {
    var s := x + key;
    PlaceholderChars(key);
    assert s[|x|..|x| + 2] == key[..2];
    assert OccursAt(s, "{{", |x|);
    assert forall k :: 0 <= k < |key| ==> s[|x| + k] == key[k];
    forall j: nat | j > |x| ensures !OccursAt(s, "{{", j) {
      if j + 2 <= |s| {
        assert s[j..j + 2][1] == s[j + 1] == key[j + 1 - |x|];
      }
    }
  }

  lemma OpenTailIsNoKey(x: string, vars: seq<Variable>)
    requires Keys(vars) && !Contains(x, "}}")
    ensures RenderPart(x, vars) == x
  {
    var start := RFind(x, "{{");
    if start.Some? && ValueOf(x[start.value..], vars).Some? {
      var key := x[start.value..];
      ValueOfKey(key, vars);
      assert x[|x| - 2..|x|] == key[|key| - 2..];
      assert OccursAt(x, "}}", |x| - 2);
    }
  }

  lemma FirstPart(t: string)
    requires Find(t, "}}").Some?
    ensures var k := Find(t, "}}").value + 2;
            forall vars :: Render(t, vars) == RenderPart(t[..k], vars) + Render(t[k..], vars)
  {
    var k := Find(t, "}}").value + 2;
    assert SplitInclusive(t)[1..] == SplitInclusive(t[k..]);
  }

  lemma LastPart(t: string, vars: seq<Variable>)
    requires Find(t, "}}").None?
    ensures Render(t, vars) == RenderPart(t, vars)
  {
    if t != "" {
      var parts := SplitInclusive(t);
      assert parts == [t] && parts[1..] == [];
      assert RenderParts(parts, vars) == RenderPart(t, vars) + RenderParts([], vars);
    }
  }

  lemma PlaceholderPart(x: string, key: string, vars: seq<Variable>)
    requires Placeholder(key)
    ensures RenderPart(x + key, vars) == x + Expanded(key, vars)
  {
    PlaceholderOpens(x, key);
    assert (x + key)[|x|..] == key && (x + key)[..|x|] == x;
  }

  /**
   A placeholder anywhere in a text is rendered once, between the renderings of what is before and after it. What is
   put in its place is never looked at again, and an unknown placeholder stays as it is.
   */
  lemma {:induction false} PlaceholderRendered(before: string, key: string, after: string, vars: seq<Variable>)
    requires Keys(vars) && Placeholder(key)
    ensures Render(before + key + after, vars) == Render(before, vars) + Expanded(key, vars) + Render(after, vars)
    decreases |before|
  {
    hide Render, RenderPart, Expanded, Placeholder, Keys;
    var s := before + key + after;
    var close := Find(before, "}}");
    if close.None? {
      PlaceholderCloses(before, key, after);
      OpenTailIsNoKey(before, vars);
      LastPart(before, vars);
      FirstPart(s);
      PlaceholderPart(before, key, vars);
      var n := |before| + |key|;
      assert s[..n] == before + key && s[n..] == after;
    } else {
      var k := close.value + 2;
      FirstPart(before);
      PlaceholderRendered(before[k..], key, after, vars);
      FindInPrefix(before, key + after, "}}");
      assert s == before + (key + after);
      FirstPart(s);
      assert s[..k] == before[..k] && s[k..] == before[k..] + key + after;
    }
  }

  lemma FindInPrefix(a: string, b: string, pat: string)
    requires Find(a, pat).Some?
    ensures Find(a + b, pat) == Find(a, pat)
  {
    var k := Find(a, pat).value;
    assert (a + b)[k..k + |pat|] == a[k..k + |pat|];
    forall j: nat | j < k ensures !OccursAt(a + b, pat, j) {
      assert (a + b)[j..j + |pat|] == a[j..j + |pat|];
      assert !OccursAt(a, pat, j);
    }
    FindFirst(a + b, pat, k);
  }

  ghost predicate HoldsPlaceholder(t: string, vars: seq<Variable>) {
    exists i :: 0 <= i < |vars| && Contains(t, vars[i].key)
  }

  lemma {:induction false} ValueIsVariable(key: string, vars: seq<Variable>)
    requires ValueOf(key, vars).Some?
    ensures exists i :: 0 <= i < |vars| && vars[i].key == key
  {
    if vars[0].key != key {
      ValueIsVariable(key, vars[1..]);
      var i :| 0 <= i < |vars[1..]| && vars[1..][i].key == key;
      assert vars[i + 1].key == key;
    }
  }

  lemma PartWithoutKey(part: string, vars: seq<Variable>)
    requires !HoldsPlaceholder(part, vars)
    ensures RenderPart(part, vars) == part
  {
    var start := RFind(part, "{{");
    if start.Some? && ValueOf(part[start.value..], vars).Some? {
      ValueIsVariable(part[start.value..], vars);
      assert OccursAt(part, part[start.value..], start.value);
    }
  }

  lemma ContainsWider(a: string, t: string, b: string, pat: string)
    requires Contains(t, pat)
    ensures Contains(a + t + b, pat)
  {
    var i: nat :| OccursAt(t, pat, i);
    var s := a + t + b;
    assert s[|a| + i..|a| + i + |pat|] == t[i..i + |pat|];
    assert OccursAt(s, pat, |a| + i);
  }

  /** A template without a known placeholder is rendered as it is. */
  lemma {:induction false} InertUnchanged(t: string, vars: seq<Variable>)
    requires !HoldsPlaceholder(t, vars)
    ensures Render(t, vars) == t
    decreases |t|
  {
    if Find(t, "}}").None? {
      PartWithoutKey(t, vars);
      LastPart(t, vars);
    } else {
      var k := Find(t, "}}").value + 2;
      var x, y := t[..k], t[k..];
      assert t == "" + x + y && t == x + y + "";
      forall i | 0 <= i < |vars| ensures !Contains(x, vars[i].key) && !Contains(y, vars[i].key) {
        if Contains(x, vars[i].key) { ContainsWider("", x, y, vars[i].key); }
        if Contains(y, vars[i].key) { ContainsWider(x, y, "", vars[i].key); }
      }
      PartWithoutKey(x, vars);
      InertUnchanged(y, vars);
      FirstPart(t);
    }
  }

  /** Splitting loses nothing. */
  lemma {:induction false} SplitRejoins(t: string)
    ensures RenderParts(SplitInclusive(t), []) == t
  {
    InertUnchanged(t, []);
  }

  // ---- assembly ----

  /** What the prompt is made of, apart from the sections and the variables. */
  datatype Config = Config(isCc: bool, subagent: bool, overrides: string, memory: Option<string>,
                           language: Option<string>)

  /** Section 4 holds a tool policy that only the main agent of the cc kernel gets. */
  predicate Included(i: nat, c: Config) { !(i == 4 && (!c.isCc || c.subagent)) }

  function StaticPart(sections: seq<string>, n: nat, vars: seq<Variable>, c: Config): string
    requires n <= |sections|
  {
    if n == 0 then "" else
    StaticPart(sections, n - 1, vars, c)
    + if Included(n - 1, c) then (if n - 1 > 0 then "\n\n" else "") + Render(sections[n - 1], vars) else ""
  }

  function DynamicPart(sections: seq<string>, n: nat, vars: seq<Variable>): string
    requires n <= |sections|
  {
    if n == 0 then "" else DynamicPart(sections, n - 1, vars) + ("\n\n" + Render(sections[n - 1], vars))
  }

  function Tail(dynamics: seq<string>, vars: seq<Variable>, c: Config): string {
    (if c.overrides != "" then "\n\n" + c.overrides else "")
    + DynamicPart(dynamics, |dynamics|, vars)
    + (if c.memory.Some? then "\n\n" + c.memory.value else "")
    + c.language.GetOr("")
  }

  function Adapted(sections: seq<string>, dialect: string -> string): (r: seq<string>)
    ensures |r| == |sections| && forall i :: 0 <= i < |r| ==> r[i] == dialect(sections[i])
  {
    seq(|sections|, i requires 0 <= i < |sections| => dialect(sections[i]))
  }

  /** The static sections, the boundary marker, and only then what changes from session to session. */
  method BuildSystemPrompt(statics: seq<string>, dynamics: seq<string>, dialect: string -> string,
                           vars: seq<Variable>, c: Config)
    returns (result: string)
    ensures result == StaticPart(Adapted(statics, dialect), |statics|, vars, c) + BOUNDARY
                      + Tail(Adapted(dynamics, dialect), vars, c)
  {
    hide Render, Adapted, Tail;
    result := "";
    var i := 0;
    while i < |statics|
      invariant 0 <= i <= |statics| && result == StaticPart(Adapted(statics, dialect), i, vars, c)
    {
      if !(i == 4 && (!c.isCc || c.subagent)) {
        ghost var before := result;
        if i > 0 {
          result := result + "\n\n";
        }
        var rendered := RenderSection(statics[i], dialect, vars);
        result := result + rendered;
        assert result == before + ((if i > 0 then "\n\n" else "") + rendered);
      }
      i := i + 1;
    }
    result := result + BOUNDARY;
    var rest := AppendDynamic(result, dynamics, dialect, vars, c);
    result := rest;
  }

  method AppendSections(head: string, dynamics: seq<string>, dialect: string -> string, vars: seq<Variable>)
    returns (result: string)
    ensures result == head + DynamicPart(Adapted(dynamics, dialect), |dynamics|, vars)
  {
    hide Render, Adapted;
    result := head;
    var j := 0;
    while j < |dynamics|
      invariant 0 <= j <= |dynamics| && result == head + DynamicPart(Adapted(dynamics, dialect), j, vars)
    {
      ghost var before := result;
      result := result + "\n\n";
      var rendered := RenderSection(dynamics[j], dialect, vars);
      result := result + rendered;
      Regroup(before, "\n\n", rendered);
      Regroup(head, DynamicPart(Adapted(dynamics, dialect), j, vars), "\n\n" + rendered);
      j := j + 1;
    }
  }

  method AppendDynamic(head: string, dynamics: seq<string>, dialect: string -> string, vars: seq<Variable>, c: Config)
    returns (result: string)
    ensures result == head + Tail(Adapted(dynamics, dialect), vars, c)
  {
    hide Render, Adapted, DynamicPart;
    result := head;
    if c.overrides != "" {
      result := result + "\n\n";
      result := result + c.overrides;
    }
    var rest := AppendSections(result, dynamics, dialect, vars);
    result := rest;
    if c.memory.Some? {
      result := result + "\n\n";
      result := result + c.memory.value;
    }
    if c.language.Some? {
      result := result + c.language.value;
    }
  }

  // ---- what the cache prefix depends on ----

  /** The same placeholders, all standing for the same text. */
  function AllMean(keys: seq<string>, value: string): (r: seq<Variable>)
    ensures |r| == |keys| && forall i :: 0 <= i < |r| ==> r[i] == Variable(keys[i], value)
  {
    if keys == [] then [] else [Variable(keys[0], value)] + AllMean(keys[1..], value)
  }

  ghost predicate SameKeys(a: seq<Variable>, b: seq<Variable>) {
    |a| == |b| && forall i :: 0 <= i < |a| ==> a[i].key == b[i].key
  }

  /** The static sections that are used hold no known placeholder. */
  ghost predicate Stable(sections: seq<string>, vars: seq<Variable>, c: Config) {
    forall i :: 0 <= i < |sections| && Included(i, c) ==> !HoldsPlaceholder(sections[i], vars)
  }

  lemma SameHolds(t: string, a: seq<Variable>, b: seq<Variable>)
    requires SameKeys(a, b)
    ensures HoldsPlaceholder(t, a) <==> HoldsPlaceholder(t, b)
  {
  }

  /** Without placeholders the text before the boundary is the same for all values of the variables. */
  lemma {:induction false} StablePrefix(sections: seq<string>, n: nat, a: seq<Variable>, b: seq<Variable>,
                                        c: Config, d: Config)
    requires n <= |sections| && SameKeys(a, b) && Stable(sections, a, c) && c.isCc == d.isCc && c.subagent == d.subagent
    ensures StaticPart(sections, n, a, c) == StaticPart(sections, n, b, d)
  {
    if n > 0 {
      StablePrefix(sections, n - 1, a, b, c, d);
      if Included(n - 1, c) {
        SameHolds(sections[n - 1], a, b);
        InertUnchanged(sections[n - 1], a);
        InertUnchanged(sections[n - 1], b);
      }
    }
  }

  lemma {:induction false} ValueOfAll(keys: seq<string>, value: string, key: string)
    ensures ValueOf(key, AllMean(keys, value)) == if key in keys then Some(value) else None
  {
    if keys != [] { ValueOfAll(keys[1..], value, key); }
  }

  lemma PartGrows(part: string, keys: seq<string>)
    ensures |RenderPart(part, AllMean(keys, ""))| <= |RenderPart(part, AllMean(keys, "x"))|
  {
    var start := RFind(part, "{{");
    if start.Some? {
      ValueOfAll(keys, "", part[start.value..]);
      ValueOfAll(keys, "x", part[start.value..]);
    }
  }

  lemma {:induction false} PartsGrow(parts: seq<string>, keys: seq<string>)
    ensures |RenderParts(parts, AllMean(keys, ""))| <= |RenderParts(parts, AllMean(keys, "x"))|
  {
    if parts != [] {
      PartGrows(parts[0], keys);
      PartsGrow(parts[1..], keys);
    }
  }

  lemma HolderGrows(t: string, keys: seq<string>)
    requires forall i :: 0 <= i < |keys| ==> Placeholder(keys[i])
    requires HoldsPlaceholder(t, AllMean(keys, ""))
    ensures |Render(t, AllMean(keys, ""))| < |Render(t, AllMean(keys, "x"))|
  {
    var empty, one := AllMean(keys, ""), AllMean(keys, "x");
    var i :| 0 <= i < |empty| && Contains(t, empty[i].key);
    var key := keys[i];
    var k: nat :| OccursAt(t, key, k);
    var before, after := t[..k], t[k + |key|..];
    assert t == before + key + after;
    ValueOfAll(keys, "", key);
    ValueOfAll(keys, "x", key);
    PlaceholderRendered(before, key, after, empty);
    PlaceholderRendered(before, key, after, one);
    PartsGrow(SplitInclusive(before), keys);
    PartsGrow(SplitInclusive(after), keys);
  }

  lemma {:induction false} StaticGrows(sections: seq<string>, n: nat, keys: seq<string>, c: Config)
    requires n <= |sections| && forall i :: 0 <= i < |keys| ==> Placeholder(keys[i])
    ensures |StaticPart(sections, n, AllMean(keys, ""), c)| <= |StaticPart(sections, n, AllMean(keys, "x"), c)|
    ensures !Stable(sections[..n], AllMean(keys, ""), c) ==>
              |StaticPart(sections, n, AllMean(keys, ""), c)| < |StaticPart(sections, n, AllMean(keys, "x"), c)|
  {
    if n > 0 {
      hide HoldsPlaceholder, AllMean, Included, Stable;
      StaticGrows(sections, n - 1, keys, c);
      SectionGrows(sections[n - 1], keys);
      StableNext(sections, n, AllMean(keys, ""), c);
    }
  }

  lemma SectionGrows(t: string, keys: seq<string>)
    requires forall i :: 0 <= i < |keys| ==> Placeholder(keys[i])
    ensures |Render(t, AllMean(keys, ""))| <= |Render(t, AllMean(keys, "x"))|
    ensures HoldsPlaceholder(t, AllMean(keys, "")) ==> |Render(t, AllMean(keys, ""))| < |Render(t, AllMean(keys, "x"))|
  {
    PartsGrow(SplitInclusive(t), keys);
    if HoldsPlaceholder(t, AllMean(keys, "")) { HolderGrows(t, keys); }
  }

  lemma StableNext(sections: seq<string>, n: nat, vars: seq<Variable>, c: Config)
    requires 0 < n <= |sections|
    ensures !Stable(sections[..n], vars, c) ==>
              !Stable(sections[..n - 1], vars, c) || (Included(n - 1, c) && HoldsPlaceholder(sections[n - 1], vars))
  {
    hide HoldsPlaceholder, Included;
    assert forall i :: 0 <= i < n - 1 ==> sections[..n - 1][i] == sections[..n][i];
  }

  /**
   The text before the boundary does not depend on the values of the variables just if no static section that is used
   holds a known placeholder. It never depends on overrides, memory or language.
   */
  lemma PrefixIsStableIff(sections: seq<string>, keys: seq<string>, c: Config)
    requires forall i :: 0 <= i < |keys| ==> Placeholder(keys[i])
    ensures Stable(sections, AllMean(keys, ""), c) <==>
              (forall a: seq<Variable>, b: seq<Variable>, d: Config ::
                 SameKeys(a, AllMean(keys, "")) && SameKeys(b, AllMean(keys, ""))
                 && c.isCc == d.isCc && c.subagent == d.subagent ==>
                   StaticPart(sections, |sections|, a, c) == StaticPart(sections, |sections|, b, d))
  {
    var empty, one := AllMean(keys, ""), AllMean(keys, "x");
    if Stable(sections, empty, c) {
      forall a: seq<Variable>, b: seq<Variable>, d: Config
        | SameKeys(a, empty) && SameKeys(b, empty) && c.isCc == d.isCc && c.subagent == d.subagent
        ensures StaticPart(sections, |sections|, a, c) == StaticPart(sections, |sections|, b, d)
      {
        forall t | t in sections { SameHolds(t, a, empty); }
        StablePrefix(sections, |sections|, a, b, c, d);
      }
    } else {
      assert sections[..|sections|] == sections;
      StaticGrows(sections, |sections|, keys, c);
      assert SameKeys(one, empty) && SameKeys(empty, empty);
      assert StaticPart(sections, |sections|, empty, c) != StaticPart(sections, |sections|, one, c);
    }
  }
}
