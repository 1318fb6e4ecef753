/** The batcher object, with the fields of langfuse-client/src/batcher.rs and the queue its task reads from. */
module Batcher {
  import opened BatcherModel
  import M = BatcherModel

  class Batcher<E> {
    const maxEvents: nat
    const backpressure: Policy
    var queue: seq<Command<E>>
    var waiting: seq<Command<E>>
    var buffer: seq<E>
    var ingested: seq<seq<E>>
    var acked: seq<Ack>
    var alive: bool
    var running: bool
    /** The history of what entered the queue. */
    var accepted: seq<E>
    var asked: seq<Ack>

    ghost function Abs(): State<E>
      reads this
    {
      State(maxEvents, queue, waiting, buffer, ingested, acked, alive, running, accepted, asked)
    }

    /** A channel without places cannot be created. */
    constructor (maxEvents: nat, backpressure: Policy)
      requires maxEvents >= 1
      ensures Abs() == New(maxEvents) && this.backpressure == backpressure
    {
      this.maxEvents, this.backpressure := maxEvents, backpressure;
      queue, waiting, buffer, ingested, acked := [], [], [], [], [];
      alive, running, accepted, asked := true, true, [], [];
    }

    method Put(c: Command<E>)
      modifies this
      ensures Abs() == M.Enqueue(old(Abs()), c)
    {
      match c
      case Add(e) => accepted := accepted + [e]; queue := queue + [c];
      case Flush(t, _) => asked := asked + [Ack(t, |accepted|)]; queue := queue + [Command.Flush(t, |accepted|)];
      case Shutdown => queue := queue + [c];
    }

    method TrySend(c: Command<E>) returns (ok: bool)
      modifies this
      ensures Abs() == M.TrySend(old(Abs()), c)
      ensures ok <==> old(running && |queue| < maxEvents && waiting == [])
    {
      ok := running && |queue| < maxEvents && waiting == [];
      if ok {
        Put(c);
      }
    }

    method Send(c: Command<E>)
      modifies this
      ensures Abs() == M.Send(old(Abs()), c)
    {
      if running {
        var ok := TrySend(c);
        if !ok {
          waiting := waiting + [c];
        }
      }
    }

    method TryAdd(event: E) returns (ok: bool)
      requires alive
      modifies this
      ensures Abs() == M.Step(old(Abs()), DoTryAdd(event))
      ensures ok <==> accepted == old(accepted) + [event]
    {
      ok := TrySend(Command.Add(event));
      assert !ok ==> |accepted| != |old(accepted) + [event]|;
    }

    method Add(event: E)
      requires alive
      modifies this
      ensures Abs() == M.Step(old(Abs()), DoAdd(event, backpressure))
    {
      match backpressure
      case DropNew => var ok := TrySend(Command.Add(event));
      case Block => Send(Command.Add(event));
    }

    method Flush(ticket: nat)
      requires alive
      modifies this
      ensures Abs() == M.Step(old(Abs()), DoFlush(ticket))
    {
      Send(Command.Flush(ticket, 0));
    }

    method Drop()
      requires alive && waiting == []
      modifies this
      ensures Abs() == M.Step(old(Abs()), DoDrop)
    {
      var ok := TrySend(Shutdown);
      alive := false;
    }

    // ---- the background task ----

    method FlushBuffer()
      modifies this
      ensures Abs() == M.FlushBuffer(old(Abs()))
    {
      if |buffer| == 0 {
        return;
      }
      ingested := ingested + [buffer];
      buffer := [];
    }

    method Return()
      modifies this
      ensures Abs() == M.Return(old(Abs()))
    {
      FlushBuffer();
      running, queue, waiting := false, [], [];
    }

    method Receive()
      requires running
      modifies this
      ensures Abs() == M.Receive(old(Abs()))
    {
      if queue == [] {
        if !alive {
          Return();
        }
        return;
      }
      var c := queue[0];
      queue := queue[1..];
      if |waiting| > 0 {
        var w := waiting[0];
        waiting := waiting[1..];
        Put(w);
      }
      match c
      case Add(event) =>
        buffer := buffer + [event];
        if |buffer| >= maxEvents {
          FlushBuffer();
        }
      case Flush(ticket, n) =>
        FlushBuffer();
        acked := acked + [Ack(ticket, n)];
      case Shutdown =>
        Return();
    }

    method Tick()
      requires running
      modifies this
      ensures Abs() == M.Tick(old(Abs()))
    {
      FlushBuffer();
    }

    /** What other threads do between two wake-ups of the task. */
    method Interfere(a: Action<E>)
      requires !a.DoReceive? && !a.DoTick?
      modifies this
      ensures Abs() == M.Step(old(Abs()), a)
    {
      var ok;
      match a
      case DoTryAdd(e) => if alive { ok := TryAdd(e); }
      case DoAdd(e, policy) =>
        if alive {
          match policy
          case DropNew => ok := TrySend(Command.Add(e));
          case Block => Send(Command.Add(e));
        }
      case DoFlush(ticket) => if alive { Flush(ticket); }
      case DoCancel(i) => if i < |waiting| { waiting := waiting[..i] + waiting[i + 1..]; }
      case DoDrop => if alive && waiting == [] { Drop(); }
    }

    /**
     The endless loop of the task, for any finite schedule of its wake-ups and of what other threads do in between. Once
     it has returned, nothing in the schedule changes the object any more.
     */
    method RunLoop(schedule: seq<Action<E>>)
      requires M.Inv(Abs())
      modifies this
      ensures Abs() == M.Run(old(Abs()), schedule) && M.Inv(Abs())
    {
      hide M.Inv, M.Step;
      var i := 0;
      while i < |schedule| && running
        invariant 0 <= i <= |schedule| && M.Inv(Abs())
        invariant M.Run(Abs(), schedule[i..]) == M.Run(old(Abs()), schedule)
        decreases |schedule| - i
      {
        assert schedule[i..][0] == schedule[i] && schedule[i..][1..] == schedule[i + 1..];
        StepKeeps(Abs(), schedule[i]);
        Turn(schedule[i]);
        i := i + 1;
      }
      if i < |schedule| {
        StoppedStays(Abs(), schedule[i..]);
      }
    }

    method Turn(a: Action<E>)
      requires running
      modifies this
      ensures Abs() == M.Step(old(Abs()), a)
    {
      match a
      case DoReceive => Receive();
      case DoTick => Tick();
      case _ => Interfere(a);
    }
  }
}
