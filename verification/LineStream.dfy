/** Line reassembly from a byte stream (cc-tui/src/update.rs). */
module LineStream {
  import opened Wrappers

  type byte = x: int | 0 <= x < 256

  const LF: byte := 10
  const CR: byte := 13

  /** One outcome of a read: some bytes, no byte at the end of the stream, or an error. */
  datatype Read = Data(bytes: seq<byte>) | Failed

  function FirstLf(s: seq<byte>): (k: nat)
    ensures k <= |s| && (k < |s| ==> s[k] == LF) && forall i :: 0 <= i < k ==> s[i] != LF
  {
    if s == [] || s[0] == LF then 0 else 1 + FirstLf(s[1..])
  }

  function StripCr(line: seq<byte>): seq<byte> {
    if line != [] && line[|line| - 1] == CR then line[..|line| - 1] else line
  }

  /** The lines of a text that end with LF, each without its LF and one CR before it. */
  function TerminatedLines(s: seq<byte>): seq<seq<byte>>
    decreases |s|
  {
    var k := FirstLf(s);
    if k == |s| then [] else [StripCr(s[..k])] + TerminatedLines(s[k + 1..])
  }

  /** What comes after the last LF. */
  function Remainder(s: seq<byte>): (r: seq<byte>)
    ensures LF !in r
    decreases |s|
  {
    var k := FirstLf(s);
    if k == |s| then s else Remainder(s[k + 1..])
  }

  /** The reference split of a whole stream: an unterminated tail is a line too, as it is. */
  function AllLines(s: seq<byte>): seq<seq<byte>> {
    TerminatedLines(s) + if Remainder(s) == [] then [] else [Remainder(s)]
  }

  function Decoded(lines: seq<seq<byte>>, decode: seq<byte> -> string): (r: seq<string>)
    ensures |r| == |lines|
  {
    if lines == [] then [] else [decode(lines[0])] + Decoded(lines[1..], decode)
  }

  lemma {:induction false} DecodedConcat(a: seq<seq<byte>>, b: seq<seq<byte>>, decode: seq<byte> -> string)
    ensures Decoded(a + b, decode) == Decoded(a, decode) + Decoded(b, decode)
  {
    if a == [] {
      assert a + b == b;
    } else {
      assert (a + b)[1..] == a[1..] + b;
      DecodedConcat(a[1..], b, decode);
    }
  }

  lemma DecodedNext(done: seq<seq<byte>>, line: seq<byte>, decode: seq<byte> -> string)
    ensures Decoded(done + [line], decode) == Decoded(done, decode) + [decode(line)]
  {
    DecodedConcat(done, [line], decode);
    assert [line][1..] == [] && Decoded([line], decode) == [decode(line)] + Decoded([], decode);
  }

  lemma NoneDecoded(decode: seq<byte> -> string)
    ensures Decoded([], decode) == []
  {
  }

  /** The first line and the rest. */
  lemma FirstLine(s: seq<byte>, k: nat)
    requires k < |s| && s[k] == LF && forall i :: 0 <= i < k ==> s[i] != LF
    ensures FirstLf(s) == k
    ensures TerminatedLines(s) == [StripCr(s[..k])] + TerminatedLines(s[k + 1..])
    ensures Remainder(s) == Remainder(s[k + 1..])
  {
  }

  lemma NoLine(s: seq<byte>)
    requires FirstLf(s) == |s|
    ensures TerminatedLines(s) == [] && Remainder(s) == s
  {
  }

  /** Cutting a text in two: the second part continues the unterminated end of the first. */
  lemma {:induction false} LinesOfCut(a: seq<byte>, b: seq<byte>)
    ensures TerminatedLines(a + b) == TerminatedLines(a) + TerminatedLines(Remainder(a) + b)
    ensures Remainder(a + b) == Remainder(Remainder(a) + b)
    decreases |a|
  {
    hide TerminatedLines, Remainder, StripCr;
    var k := FirstLf(a);
    if k == |a| {
      NoLine(a);
      assert [] + TerminatedLines(a + b) == TerminatedLines(a + b);
    } else {
      assert (a + b)[..k] == a[..k] && (a + b)[k + 1..] == a[k + 1..] + b;
      FirstLine(a, k);
      FirstLine(a + b, k);
      LinesOfCut(a[k + 1..], b);
    }
  }

  // ---- the loops ----

  /** Drains the terminated lines of a buffer; `rest` is what stays in it. */
  method TakeCompleteLines(buf: seq<byte>, decode: seq<byte> -> string) returns (out: seq<string>, rest: seq<byte>)
    ensures out == Decoded(TerminatedLines(buf), decode) && rest == Remainder(buf)
  {
    hide Decoded, TerminatedLines, Remainder;
    out, rest := [], buf;
    assert Decoded([], decode) == [] by { NoneDecoded(decode); }
    var pos := FirstLf(rest);
    ghost var done: seq<seq<byte>> := [];
    while pos < |rest|
      invariant pos == FirstLf(rest)
      invariant done + TerminatedLines(rest) == TerminatedLines(buf) && out == Decoded(done, decode)
      invariant Remainder(rest) == Remainder(buf)
      decreases |rest|
    {
      FirstLine(rest, pos);
      var line := rest[..pos + 1];
      assert line[..pos] == rest[..pos];
      rest := rest[pos + 1..];
      line := line[..|line| - 1];
      if |line| > 0 && line[|line| - 1] == CR {
        line := line[..|line| - 1];
      }
      out := out + [decode(line)];
      DecodedNext(done, line, decode);
      assert done + ([line] + TerminatedLines(rest)) == done + [line] + TerminatedLines(rest);
      done := done + [line];
      pos := FirstLf(rest);
    }
    NoLine(rest);
    assert done + [] == done;
  }

  /** The bytes that are read before the stream ends or fails. */
  function Stream(chunks: seq<Read>): seq<byte> {
    if chunks == [] || chunks[0].Failed? || chunks[0].bytes == [] then [] else chunks[0].bytes + Stream(chunks[1..])
  }

  predicate EndsWell(chunks: seq<Read>) {
    chunks == [] || (chunks[0].Data? && (chunks[0].bytes == [] || EndsWell(chunks[1..])))
  }

  /** Emits the lines as they are completed; between two chunks the pending bytes hold no LF. */
  method StreamLinesLossy(chunks: seq<Read>, decode: seq<byte> -> string) returns (emitted: seq<string>, ok: bool)
    ensures ok <==> EndsWell(chunks)
    ensures emitted == Decoded(if ok then AllLines(Stream(chunks)) else TerminatedLines(Stream(chunks)), decode)
  {
    hide Decoded, TerminatedLines, Remainder;
    emitted, ok := [], true;
    var pending: seq<byte> := [];
    ghost var seen: seq<byte> := [];
    NoLine([]);
    NoneDecoded(decode);
    var i := 0;
    while i < |chunks|
      invariant 0 <= i <= |chunks|
      invariant LF !in pending && pending == Remainder(seen)
      invariant emitted == Decoded(TerminatedLines(seen), decode)
      invariant seen + Stream(chunks[i..]) == Stream(chunks)
      invariant EndsWell(chunks[i..]) == EndsWell(chunks)
    {
      assert chunks[i..][0] == chunks[i] && chunks[i..][1..] == chunks[i + 1..];
      if chunks[i].Failed? {
        assert seen + [] == seen;
        ok := false;
        return;
      }
      var chunk := chunks[i].bytes;
      if |chunk| == 0 {
        break;
      }
      LinesOfCut(seen, chunk);
      DecodedConcat(TerminatedLines(seen), TerminatedLines(pending + chunk), decode);
      seen := seen + chunk;
      pending := pending + chunk;
      var lines, rest := TakeCompleteLines(pending, decode);
      emitted := emitted + lines;
      pending := rest;
      i := i + 1;
    }
    assert seen == Stream(chunks);
    if |pending| > 0 {
      emitted := emitted + [decode(pending)];
      DecodedNext(TerminatedLines(seen), pending, decode);
    }
    assert AllLines(seen) == if pending == [] then TerminatedLines(seen) else TerminatedLines(seen) + [pending];
  }

  // ---- what the reference split is ----

  function Join(lines: seq<seq<byte>>): seq<byte> {
    if lines == [] then [] else lines[0] + [LF] + Join(lines[1..])
  }

  /** Lines printed with LF are split into the same lines, with one CR at the end of each taken away. */
  lemma {:induction false} SplitJoined(lines: seq<seq<byte>>, tail: seq<byte>)
    requires LF !in tail && forall i :: 0 <= i < |lines| ==> LF !in lines[i]
    ensures |TerminatedLines(Join(lines) + tail)| == |lines| && Remainder(Join(lines) + tail) == tail
    ensures forall i :: 0 <= i < |lines| ==> TerminatedLines(Join(lines) + tail)[i] == StripCr(lines[i])
    decreases |lines|
  {
    hide TerminatedLines, Remainder, StripCr;
    var s := Join(lines) + tail;
    if lines == [] {
      assert s == tail;
      NoLine(tail);
    } else {
      var rest := Join(lines[1..]) + tail;
      assert s == lines[0] + [LF] + rest;
      FirstLine(s, |lines[0]|);
      assert s[..|lines[0]|] == lines[0] && s[|lines[0]| + 1..] == rest;
      SplitJoined(lines[1..], tail);
      forall i | 0 < i < |lines| ensures TerminatedLines(s)[i] == StripCr(lines[i]) {
        assert TerminatedLines(s)[i] == TerminatedLines(rest)[i - 1];
      }
    }
  }

  /** All lines of such a text: those printed, and the rest behind the last LF as it is, if there is any. */
  lemma AllLinesOfJoined(lines: seq<seq<byte>>, tail: seq<byte>)
    requires LF !in tail && forall i :: 0 <= i < |lines| ==> LF !in lines[i]
    ensures var all := AllLines(Join(lines) + tail);
            && |all| == |lines| + (if tail == [] then 0 else 1)
            && (forall i :: 0 <= i < |lines| ==> all[i] == StripCr(lines[i]))
            && (tail != [] ==> all[|lines|] == tail)
  {
    SplitJoined(lines, tail);
  }

  /** Of a line that ends with carriage returns exactly one is taken away. */
  lemma OneCrStripped(line: seq<byte>)
    ensures StripCr(line + [CR]) == line
    ensures line == [] || line[|line| - 1] != CR ==> StripCr(line) == line
  {
  }

  lemma NothingJoined(lines: seq<seq<byte>>)
    requires lines == []
    ensures Join(lines) == []
  {
  }

  lemma JoinedFirst(line: seq<byte>, rest: seq<seq<byte>>)
    ensures Join([line] + rest) == line + [LF] + Join(rest)
  {
    assert ([line] + rest)[1..] == rest;
  }

  /** Every stream is such a text. */
  lemma {:induction false} StreamIsJoined(s: seq<byte>) returns (lines: seq<seq<byte>>)
    ensures s == Join(lines) + Remainder(s) && forall i :: 0 <= i < |lines| ==> LF !in lines[i]
    decreases |s|
  {
    hide Remainder, TerminatedLines, StripCr, Join;
    var k := FirstLf(s);
    if k == |s| {
      NoLine(s);
      lines := [];
      NothingJoined(lines);
    } else {
      FirstLine(s, k);
      var rest := StreamIsJoined(s[k + 1..]);
      lines := [s[..k]] + rest;
      JoinedFirst(s[..k], rest);
      assert s == s[..k] + [LF] + s[k + 1..];
      Regroup(s[..k] + [LF], Join(rest), Remainder(s));
    }
  }
}
