/** The layout of the whole system prompt (cc-acp/src/prompt/mod.rs): which pieces it has, and in which order. */
module PromptLayout {
  import opened Wrappers
  import opened Prompt

  /** Pieces with a blank line between them. */
  function Spaced(pieces: seq<string>): string {
    if pieces == [] then "" else if |pieces| == 1 then pieces[0] else pieces[0] + "\n\n" + Spaced(pieces[1..])
  }

  /** Pieces with a blank line before each. */
  function Trailing(pieces: seq<string>): string {
    if pieces == [] then "" else "\n\n" + pieces[0] + Trailing(pieces[1..])
  }

  function RenderAll(sections: seq<string>, vars: seq<Variable>): (r: seq<string>)
    ensures |r| == |sections| && forall i :: 0 <= i < |r| ==> r[i] == Render(sections[i], vars)
  {
    seq(|sections|, i requires 0 <= i < |sections| => Render(sections[i], vars))
  }

  /** The main agent of the cc kernel gets all static sections, every other agent all but the fifth. */
  function Used(sections: seq<string>, c: Config): seq<string> {
    if (c.isCc && !c.subagent) || |sections| <= 4 then sections else sections[..4] + sections[5..]
  }

  lemma {:induction false} SpacedNext(pieces: seq<string>, p: string)
    ensures Spaced(pieces + [p]) == if pieces == [] then p else Spaced(pieces) + "\n\n" + p
  {
    if |pieces| > 1 {
      assert (pieces + [p])[1..] == pieces[1..] + [p];
      SpacedNext(pieces[1..], p);
    }
  }

  lemma UsedNext(sections: seq<string>, n: nat, c: Config)
    requires 0 < n <= |sections|
    ensures Used(sections[..n], c) ==
              Used(sections[..n - 1], c) + if n == 5 && !(c.isCc && !c.subagent) then [] else [sections[n - 1]]
    ensures Used(sections[..n - 1], c) == [] <==> n == 1
  {
    assert sections[..n] == sections[..n - 1] + [sections[n - 1]];
    assert n > 5 ==> sections[..n][5..] == sections[..n - 1][5..] + [sections[n - 1]];
    assert n > 4 ==> sections[..n][..4] == sections[..4] && sections[..n - 1][..4] == sections[..4];
  }

  /** The text before the boundary is made of the sections that are used, with a blank line between them. */
  lemma {:induction false} StaticIsSpaced(sections: seq<string>, n: nat, vars: seq<Variable>, c: Config)
    requires n <= |sections|
    ensures StaticPart(sections, n, vars, c) == Spaced(RenderAll(Used(sections[..n], c), vars))
  {
    hide Render, Used, Spaced;
    if n == 0 {
      NothingUsed(c);
    } else {
      StaticIsSpaced(sections, n - 1, vars, c);
      UsedNext(sections, n, c);
      var before := Used(sections[..n - 1], c);
      if n == 5 && !(c.isCc && !c.subagent) {
        assert before + [] == before;
      } else {
        assert RenderAll(before + [sections[n - 1]], vars) == RenderAll(before, vars) + [Render(sections[n - 1], vars)];
        SpacedNext(RenderAll(before, vars), Render(sections[n - 1], vars));
        NothingSpaced(RenderAll(before, vars));
        Regroup(Spaced(RenderAll(before, vars)), "\n\n", Render(sections[n - 1], vars));
      }
    }
  }

  lemma NothingUsed(c: Config)
    ensures Used([], c) == [] && Spaced([]) == ""
  {
  }

  lemma NothingSpaced(pieces: seq<string>)
    ensures pieces == [] ==> Spaced(pieces) == ""
  {
  }

  lemma {:induction false} TrailingConcat(a: seq<string>, b: seq<string>)
    ensures Trailing(a + b) == Trailing(a) + Trailing(b)
  {
    if a == [] {
      assert a + b == b;
    } else {
      assert (a + b)[1..] == a[1..] + b;
      TrailingConcat(a[1..], b);
      Regroup("\n\n" + a[0], Trailing(a[1..]), Trailing(b));
    }
  }

  lemma OneTrailing(p: string)
    ensures Trailing([p]) == "\n\n" + p && Trailing([]) == ""
  {
    assert [p][1..] == [];
  }

  lemma {:induction false} DynamicIsTrailing(sections: seq<string>, n: nat, vars: seq<Variable>)
    requires n <= |sections|
    ensures DynamicPart(sections, n, vars) == Trailing(RenderAll(sections[..n], vars))
  {
    hide Render, Trailing;
    OneTrailing("");
    if n > 0 {
      DynamicIsTrailing(sections, n - 1, vars);
      var p := Render(sections[n - 1], vars);
      assert sections[..n] == sections[..n - 1] + [sections[n - 1]];
      assert RenderAll(sections[..n], vars) == RenderAll(sections[..n - 1], vars) + [p];
      TrailingConcat(RenderAll(sections[..n - 1], vars), [p]);
      OneTrailing(p);
    }
  }

  /** What comes behind the boundary: the overrides if any, the dynamic sections, the memory if there is one. */
  function BehindBoundary(dynamics: seq<string>, vars: seq<Variable>, c: Config): seq<string> {
    (if c.overrides == "" then [] else [c.overrides]) + RenderAll(dynamics, vars)
    + (if c.memory.Some? then [c.memory.value] else [])
  }

  lemma TailIsTrailing(dynamics: seq<string>, vars: seq<Variable>, c: Config)
    ensures Tail(dynamics, vars, c) == Trailing(BehindBoundary(dynamics, vars, c)) + c.language.GetOr("")
  {
    hide Render, Trailing, DynamicPart;
    assert dynamics[..|dynamics|] == dynamics;
    DynamicIsTrailing(dynamics, |dynamics|, vars);
    var first := if c.overrides == "" then [] else [c.overrides];
    var last := if c.memory.Some? then [c.memory.value] else [];
    TrailingConcat(first + RenderAll(dynamics, vars), last);
    TrailingConcat(first, RenderAll(dynamics, vars));
    OneTrailing(c.overrides);
    OneTrailing(if c.memory.Some? then c.memory.value else "");
  }

  /**
   The whole prompt, as `BuildSystemPrompt` puts it together: the rendered static sections that are used, a blank line
   between them; the boundary; then each of the other pieces behind a blank line; and the language text at the end.
   */
  lemma PromptLaidOut(statics: seq<string>, dynamics: seq<string>, vars: seq<Variable>, c: Config)
    ensures StaticPart(statics, |statics|, vars, c) + BOUNDARY + Tail(dynamics, vars, c) ==
              Spaced(RenderAll(Used(statics, c), vars)) + BOUNDARY
              + (Trailing(BehindBoundary(dynamics, vars, c)) + c.language.GetOr(""))
  {
    hide Render, Spaced, Trailing, Used, BehindBoundary, StaticPart, Tail;
    assert statics[..|statics|] == statics;
    StaticIsSpaced(statics, |statics|, vars, c);
    TailIsTrailing(dynamics, vars, c);
  }
}
