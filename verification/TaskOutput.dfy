/** Writing and reading the output of a background task (cc-agent/src/task_output.rs). */
module TaskOutput {
  import opened Wrappers
  import LineStream

  type Bytes = seq<LineStream.byte>

  const MAX_OUTPUT_BYTES: nat := 5 * 1024 * 1024 * 1024
  const MAX_READ_BYTES: nat := 8 * 1024 * 1024

  function Min(a: nat, b: nat): nat { if a <= b then a else b }

  function Concat(chunks: seq<Bytes>): Bytes {
    if chunks == [] then [] else Concat(chunks[..|chunks| - 1]) + chunks[|chunks| - 1]
  }

  // ---- the writer ----

  /** Whether a chunk is written; a failed write may have left any part of it in the file. */
  datatype Write = Done | Failed(written: nat)

  /** What the writer counts as written after the first `n` chunks. */
  function Total(chunks: seq<Bytes>, write: nat -> Write, n: nat): (t: nat)
    requires n <= |chunks|
    ensures t <= MAX_OUTPUT_BYTES
  {
    if n == 0 then 0 else
    var before := Total(chunks, write, n - 1);
    if write(n - 1).Done? then Min(before + |chunks[n - 1]|, MAX_OUTPUT_BYTES) else before
  }

  /** The part of chunk `n` that reaches the file. */
  function Part(chunks: seq<Bytes>, write: nat -> Write, n: nat): (r: Bytes)
    requires n < |chunks|
    ensures r <= chunks[n]
  {
    var allowed := Min(|chunks[n]|, MAX_OUTPUT_BYTES - Total(chunks, write, n));
    match write(n)
    case Done => chunks[n][..allowed]
    case Failed(written) => chunks[n][..Min(written, allowed)]
  }

  /** The bytes in the file after the first `n` chunks. */
  function Written(chunks: seq<Bytes>, write: nat -> Write, n: nat): Bytes
    requires n <= |chunks|
  {
    if n == 0 then [] else Written(chunks, write, n - 1) + Part(chunks, write, n - 1)
  }

  lemma {:induction false} ConcatSnoc(chunks: seq<Bytes>, n: nat)
    requires n < |chunks|
    ensures Concat(chunks[..n + 1]) == Concat(chunks[..n]) + chunks[n]
  {
    assert chunks[..n + 1][..n] == chunks[..n];
  }

  lemma NothingConcat(chunks: seq<Bytes>)
    requires chunks == []
    ensures Concat(chunks) == []
  {
  }

  function Prefix(s: Bytes, n: nat): Bytes { s[..Min(|s|, n)] }

  lemma PrefixConcat(a: Bytes, b: Bytes, n: nat)
    ensures Prefix(a + b, n) == Prefix(a, n) + Prefix(b, n - Min(|a|, n))
  {
  }

  /** Without write errors the file holds the longest allowed prefix of the output. */
  lemma {:induction false} WrittenIsPrefix(chunks: seq<Bytes>, write: nat -> Write, n: nat)
    requires n <= |chunks| && forall i: nat :: i < n ==> write(i).Done?
    ensures Written(chunks, write, n) == Prefix(Concat(chunks[..n]), MAX_OUTPUT_BYTES)
    ensures Total(chunks, write, n) == |Written(chunks, write, n)|
  {
    hide Concat, Written, Part, Total;
    NothingTotal(chunks, write);
    NothingConcat(chunks[..0]);
    if n > 0 {
      WrittenIsPrefix(chunks, write, n - 1);
      ConcatSnoc(chunks, n - 1);
      var before := Concat(chunks[..n - 1]);
      PrefixConcat(before, chunks[n - 1], MAX_OUTPUT_BYTES);
      PartAt(chunks, write, n - 1, Prefix(chunks[n - 1], MAX_OUTPUT_BYTES - Min(|before|, MAX_OUTPUT_BYTES)));
      WrittenNext(chunks, write, n - 1);
    }
  }

  /** Bytes that failed writes left behind are not counted, so with errors the file can pass the limit by just these. */
  function Stray(chunks: seq<Bytes>, write: nat -> Write, n: nat): nat
    requires n <= |chunks|
  {
    if n == 0 then 0 else
    Stray(chunks, write, n - 1) + if write(n - 1).Failed? then |Part(chunks, write, n - 1)| else 0
  }

  lemma {:induction false} FileSize(chunks: seq<Bytes>, write: nat -> Write, n: nat)
    requires n <= |chunks|
    ensures |Written(chunks, write, n)| == Total(chunks, write, n) + Stray(chunks, write, n)
  {
    if n > 0 {
      FileSize(chunks, write, n - 1);
    }
  }

  /** Once the limit is reached nothing is written any more. */
  lemma {:induction false} FullStaysFull(chunks: seq<Bytes>, write: nat -> Write, m: nat, n: nat)
    requires m <= n <= |chunks| && Total(chunks, write, m) == MAX_OUTPUT_BYTES
    ensures Written(chunks, write, n) == Written(chunks, write, m) && Total(chunks, write, n) == MAX_OUTPUT_BYTES
    decreases n
  {
    if n > m {
      FullStaysFull(chunks, write, m, n - 1);
    }
  }

  lemma NothingTotal(chunks: seq<Bytes>, write: nat -> Write)
    ensures Total(chunks, write, 0) == 0 && Written(chunks, write, 0) == []
  {
  }

  lemma WrittenNext(chunks: seq<Bytes>, write: nat -> Write, n: nat)
    requires n < |chunks|
    ensures Written(chunks, write, n + 1) == Written(chunks, write, n) + Part(chunks, write, n)
  {
  }

  /** What the writer tries to write of chunk `n`, and what becomes of it. */
  lemma PartAt(chunks: seq<Bytes>, write: nat -> Write, n: nat, toWrite: Bytes)
    requires n < |chunks| && toWrite == Prefix(chunks[n], MAX_OUTPUT_BYTES - Total(chunks, write, n))
    ensures Part(chunks, write, n) == if write(n).Done? then toWrite else Prefix(toWrite, write(n).written)
    ensures Total(chunks, write, n + 1) == Total(chunks, write, n) + if write(n).Done? then |toWrite| else 0
  {
  }

  /** What is sent until the last sender goes away. */
  class Channel {
    var queue: seq<Bytes>

    constructor (sent: seq<Bytes>)
      ensures queue == sent
    {
      queue := sent;
    }

    /** Receives to the end, so that no sender is left waiting. */
    method Drain()
      modifies this
      ensures queue == []
    {
      var ignored := Recv();
      while ignored.Some?
        invariant ignored.None? ==> queue == []
        decreases |queue|, ignored.Some?
      {
        ignored := Recv();
      }
    }

    method Recv() returns (r: Option<Bytes>)
      modifies this
      ensures r == if old(queue) == [] then None else Some(old(queue)[0])
      ensures queue == if old(queue) == [] then [] else old(queue)[1..]
    {
      if queue == [] {
        return None;
      }
      r := Some(queue[0]);
      queue := queue[1..];
    }
  }

  class OutputFile {
    var content: Bytes

    constructor ()
      ensures content == []
    {
      content := [];
    }

    method WriteAll(bytes: Bytes, write: Write) returns (ok: bool)
      modifies this
      ensures ok == write.Done?
      ensures content == old(content) + if write.Done? then bytes else Prefix(bytes, write.written)
    {
      match write
      case Done =>
        content := content + bytes;
        ok := true;
      case Failed(written) =>
        content := content + Prefix(bytes, written);
        ok := false;
    }

    /** Appends what the channel delivers; `opens` says which of five attempts to open the file succeed. */
    method Writer(rx: Channel, opens: nat -> bool, write: nat -> Write)
      modifies this, rx
      ensures rx.queue == []
      ensures content == old(content) +
                if exists a: nat :: a < 5 && opens(a) then Written(old(rx.queue), write, |old(rx.queue)|) else []
    {
      var found := false;
      for attempt := 0 to 5
        invariant !found && forall a: nat :: a < attempt ==> !opens(a)
      {
        if opens(attempt) {
          found := true;
          break;
        }
      }
      if !found {
        rx.Drain();
        return;
      }
      AppendAll(rx, write);
    }

    /** Appends the chunks as they come, up to the limit, and goes on receiving after it. */
    method AppendAll(rx: Channel, write: nat -> Write)
      modifies this, rx
      ensures rx.queue == []
      ensures content == old(content) + Written(old(rx.queue), write, |old(rx.queue)|)
    {
      hide Total, Part, Written;
      ghost var chunks := rx.queue;
      var total: nat := 0;
      NothingTotal(chunks, write);
      var n: nat := 0;
      while true
        invariant n <= |chunks| && rx.queue == chunks[n..]
        invariant total == Total(chunks, write, n) && content == old(content) + Written(chunks, write, n)
        decreases |rx.queue|
      {
        var chunk := rx.Recv();
        if chunk.None? {
          break;
        }
        assert chunk.value == chunks[n];
        WrittenNext(chunks, write, n);
        n := n + 1;
        if total >= MAX_OUTPUT_BYTES {
          PartAt(chunks, write, n - 1, []);
          continue;
        }
        var remaining := MAX_OUTPUT_BYTES - total;
        var toWrite := if |chunk.value| <= remaining then chunk.value else chunk.value[..remaining];
        PartAt(chunks, write, n - 1, toWrite);
        Regroup(old(content), Written(chunks, write, n - 1), Part(chunks, write, n - 1));
        var ok := WriteAll(toWrite, write(n - 1));
        if !ok {
          continue;
        }
        total := total + |toWrite|;
      }
    }
  }

  // ---- the readers ----

  /** A file as one call sees it: its size is taken before it is read to the end, and it may have grown meanwhile. */
  datatype View = View(sized: Bytes, read: Bytes)

  function ReadTail(v: View, bytes: nat): Bytes
    requires v.sized <= v.read
  {
    var start := |v.sized| - Min(|v.sized|, Min(bytes, MAX_READ_BYTES));
    v.read[start..]
  }

  function ReadDelta(v: View, from: nat): Bytes
    requires v.sized <= v.read
  {
    if from >= |v.sized| then [] else Prefix(v.read[from..], MAX_READ_BYTES)
  }

  /** The tail is the end of the file, and within the bound exactly if the file did not outgrow it while it was read. */
  lemma TailWithinIff(v: View, bytes: nat)
    requires v.sized <= v.read
    ensures var limit, r := Min(bytes, MAX_READ_BYTES), ReadTail(v, bytes);
            && r == v.read[|v.read| - |r|..] && |r| >= Min(limit, |v.sized|)
            && (|r| <= limit <==> |v.read| <= limit || |v.read| == |v.sized|)
  {
  }

  /** A file of one byte that grows to two: a tail of one byte returns both. */
  lemma TailTooLong(x: LineStream.byte, y: LineStream.byte)
    ensures var v := View([x], [x, y]); v.sized <= v.read && ReadTail(v, 1) == [x, y]
  {
  }

  /** The views of a file that is only appended to. */
  ghost predicate Growing(views: seq<View>) {
    && (forall i :: 0 <= i < |views| ==> views[i].sized <= views[i].read)
    && (forall i, j :: 0 <= i < j < |views| ==> views[i].read <= views[j].sized)
  }

  /** The offset of a reader that starts at `from` and goes on by what it gets. */
  function Offset(views: seq<View>, from: nat, n: nat): nat
    requires n <= |views| && forall i :: 0 <= i < |views| ==> views[i].sized <= views[i].read
  {
    if n == 0 then from else
    var offset := Offset(views, from, n - 1);
    offset + |ReadDelta(views[n - 1], offset)|
  }

  function Deltas(views: seq<View>, from: nat, n: nat): Bytes
    requires n <= |views| && forall i :: 0 <= i < |views| ==> views[i].sized <= views[i].read
  {
    if n == 0 then [] else Deltas(views, from, n - 1) + ReadDelta(views[n - 1], Offset(views, from, n - 1))
  }

  /** One call reads what comes next, and nothing only if there was nothing when it looked. */
  lemma DeltaIsNext(v: View, from: nat, final: Bytes)
    requires v.sized <= v.read <= final && from <= |final|
    ensures var r := ReadDelta(v, from);
            && from + |r| <= |final| && r == final[from..from + |r|] && |r| <= MAX_READ_BYTES
            && (r == [] <==> |v.sized| <= from)
            && (v.sized == v.read ==> |r| == Min(|v.read| - Min(from, |v.read|), MAX_READ_BYTES))
  {
    assert v.read == final[..|v.read|];
  }

  lemma SlicesMeet(s: Bytes, a: nat, b: nat, c: nat)
    requires a <= b <= c <= |s|
    ensures s[a..b] + s[b..c] == s[a..c]
  {
  }

  /** The pieces fit together: no byte is missing and none is read twice, however the file grew between the calls. */
  lemma {:induction false} DeltasReassemble(views: seq<View>, from: nat, n: nat, final: Bytes)
    requires Growing(views) && n <= |views| && from <= |final|
    requires forall i :: 0 <= i < |views| ==> views[i].read <= final
    ensures from <= Offset(views, from, n) <= |final|
    ensures Deltas(views, from, n) == final[from..Offset(views, from, n)]
  {
    hide ReadDelta;
    if n > 0 {
      DeltasReassemble(views, from, n - 1, final);
      var offset := Offset(views, from, n - 1);
      DeltaIsNext(views[n - 1], offset, final);
      SlicesMeet(final, from, offset, Offset(views, from, n));
    }
  }

  /** A file that rests is read to its end, eight mebibytes at a time. */
  lemma {:induction false} DeltasCatchUp(content: Bytes, views: seq<View>, from: nat, n: nat)
    requires from <= |content| && n <= |views|
    requires forall i :: 0 <= i < |views| ==> views[i] == View(content, content)
    ensures Offset(views, from, n) == Min(|content|, from + n * MAX_READ_BYTES)
  {
    hide ReadDelta;
    if n > 0 {
      DeltasCatchUp(content, views, from, n - 1);
      DeltaIsNext(views[n - 1], Offset(views, from, n - 1), content);
    }
  }

  /** Whatever a reader that follows a faultless writer has put together is the beginning of the task's output. */
  lemma ReaderFollowsWriter(chunks: seq<Bytes>, write: nat -> Write, views: seq<View>, n: nat)
    requires Growing(views) && n <= |views| && forall i: nat :: i < |chunks| ==> write(i).Done?
    requires forall i :: 0 <= i < |views| ==> views[i].read <= Written(chunks, write, |chunks|)
    ensures Deltas(views, 0, n) == Prefix(Concat(chunks), Offset(views, 0, n))
    ensures Offset(views, 0, n) <= MAX_OUTPUT_BYTES
  {
    hide Written, Deltas, Offset, Growing, Concat;
    WrittenIsPrefix(chunks, write, |chunks|);
    assert chunks[..|chunks|] == chunks;
    DeltasReassemble(views, 0, n, Written(chunks, write, |chunks|));
  }
}
