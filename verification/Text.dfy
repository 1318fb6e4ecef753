/** Searching and replacing in strings, as Rust's `find` and `replace` do it. Positions count characters. */
module Text {
  import opened Wrappers

  predicate OccursAt(s: string, pat: string, i: nat) {
    i + |pat| <= |s| && s[i..i + |pat|] == pat
  }

  /** The first occurrence at or after `i`. */
  function FindFrom(s: string, pat: string, i: nat): (r: Option<nat>)
    requires i <= |s|
    ensures r.Some? ==> i <= r.value && OccursAt(s, pat, r.value)
    ensures forall j :: i <= j && (r.Some? ==> j < r.value) ==> !OccursAt(s, pat, j)
    decreases |s| - i
  {
    if OccursAt(s, pat, i) then Some(i) else if i < |s| then FindFrom(s, pat, i + 1) else None
  }

  function Find(s: string, pat: string): (r: Option<nat>)
    ensures r.Some? ==> OccursAt(s, pat, r.value) && r.value + |pat| <= |s|
    ensures forall j: nat :: (r.Some? ==> j < r.value) ==> !OccursAt(s, pat, j)
  {
    FindFrom(s, pat, 0)
  }

  ghost predicate Contains(s: string, pat: string) { exists i: nat :: OccursAt(s, pat, i) }

  lemma FindFirst(s: string, pat: string, k: nat)
    requires OccursAt(s, pat, k) && forall j: nat :: j < k ==> !OccursAt(s, pat, j)
    ensures Find(s, pat) == Some(k)
  {
  }

  /** A pattern whose first character does not occur in it again cannot start in `pre` and reach over that character. */
  lemma NotReachingInto(pre: string, pat: string, post: string, i: nat)
    requires pat != "" && (forall j :: 0 < j < |pat| ==> pat[j] != pat[0]) && !Contains(pre, pat)
    requires post != "" && post[0] == pat[0] && i < |pre|
    ensures !OccursAt(pre + post, pat, i)
  {
    var s := pre + post;
    if i + |pat| <= |pre| {
      assert s[i..i + |pat|] == pre[i..i + |pat|];
      assert !OccursAt(pre, pat, i);
    } else if i + |pat| <= |s| {
      assert s[i..i + |pat|][|pre| - i] == s[|pre|] == pat[0];
    }
  }

  lemma FirstAfter(pre: string, pat: string, post: string)
    requires pat != "" && (forall j :: 0 < j < |pat| ==> pat[j] != pat[0]) && !Contains(pre, pat)
    ensures Find(pre + pat + post, pat) == Some(|pre|)
  {
    var s := pre + pat + post;
    assert s[|pre|..|pre| + |pat|] == pat && s == pre + (pat + post);
    forall j: nat | j < |pre| ensures !OccursAt(s, pat, j) {
      NotReachingInto(pre, pat, pat + post, j);
    }
    FindFirst(s, pat, |pre|);
  }

  /** Every occurrence is replaced, from left to right and without overlap. */
  function Replace(s: string, pat: string, rep: string): string
    requires pat != ""
    decreases |s|
  {
    if s == "" then ""
    else if OccursAt(s, pat, 0) then rep + Replace(s[|pat|..], pat, rep)
    else [s[0]] + Replace(s[1..], pat, rep)
  }

  /** Text in which the pattern cannot start is copied. */
  lemma {:induction false} ReplaceSkips(x: string, rest: string, pat: string, rep: string)
    requires pat != "" && forall i :: 0 <= i < |x| ==> x[i] != pat[0]
    ensures Replace(x + rest, pat, rep) == x + Replace(rest, pat, rep)
  {
    if x == "" {
      assert x + rest == rest;
    } else {
      assert (x + rest)[1..] == x[1..] + rest;
      ReplaceSkips(x[1..], rest, pat, rep);
      assert |pat| <= |x + rest| ==> (x + rest)[0..|pat|][0] == x[0];
      assert x == [x[0]] + x[1..];
    }
  }

  lemma ReplaceHit(rest: string, pat: string, rep: string)
    requires pat != ""
    ensures Replace(pat + rest, pat, rep) == rep + Replace(rest, pat, rep)
  {
    assert (pat + rest)[0..|pat|] == pat && (pat + rest)[|pat|..] == rest;
  }

  /** A text that starts like the pattern but differs in the second character, and in which it starts nowhere else. */
  lemma ReplaceMiss(x: string, rest: string, pat: string, rep: string)
    requires |pat| >= 2 && |x| >= 2 && x[0] == pat[0] && x[1] != pat[1]
    requires forall i :: 0 < i < |x| ==> x[i] != pat[0]
    ensures Replace(x + rest, pat, rep) == x + Replace(rest, pat, rep)
  {
    assert |pat| <= |x + rest| ==> (x + rest)[0..|pat|][1] == x[1];
    assert (x + rest)[1..] == x[1..] + rest;
    ReplaceSkips(x[1..], rest, pat, rep);
    assert x == [x[0]] + x[1..];
  }
}
