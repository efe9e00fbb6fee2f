/** The pending-record buffer (DatabaseLoggerCollector.cs): a FIFO queue of
    log entries, here sequential; `queue` stands for the concurrent queue. */
module Collecting {
  import opened LogEntries

  class LogCollector {
    var queue: seq<LogEntry>

    constructor ()
      ensures queue == []
    {
      queue := [];
    }

    /** `AddEntry`: enqueue at the tail. */
    method AddEntry(entry: LogEntry)
      modifies this
      ensures queue == old(queue) + [entry]
    {
      queue := queue + [entry];
    }

    /** `TryGetEntry`: dequeue the head if there is one; the out value is null
        when the queue is empty. */
    method TryGetEntry() returns (ok: bool, entry: LogEntry?)
      modifies this
      ensures ok <==> old(queue) != []
      ensures ok ==> entry == old(queue)[0] && queue == old(queue)[1..]
      ensures !ok ==> entry == null && queue == old(queue)
    {
      if queue == [] {
        ok, entry := false, null;
      } else {
        ok, entry := true, queue[0];
        queue := queue[1..];
      }
    }

    /** Makes the calls `ops` on this collector, one `AddEntry` or
        `TryGetEntry` at a time, and returns what the successful dequeues
        gave, in order: the class behaves as `Run` says, so it is FIFO. */
    method Replay(ops: seq<QueueOp<LogEntry>>) returns (dequeued: seq<LogEntry>)
      modifies this
      ensures (queue, dequeued) == Run(old(queue), ops)
      ensures dequeued + queue == old(queue) + Enqueued(ops)
    {
      dequeued := [];
      var i := 0;
      while i < |ops|
        invariant 0 <= i <= |ops|
        invariant Run(queue, ops[i..]).0 == Run(old(queue), ops).0
        invariant dequeued + Run(queue, ops[i..]).1 == Run(old(queue), ops).1
      {
        assert ops[i..][1..] == ops[i + 1..];
        match ops[i] {
          case Enqueue(x) =>
            AddEntry(x);
          case Dequeue =>
            var ok, entry := TryGetEntry();
            if ok {
              assert dequeued + [entry] + Run(queue, ops[i + 1..]).1
                  == dequeued + ([entry] + Run(queue, ops[i + 1..]).1);
              dequeued := dequeued + [entry];
            }
        }
        i := i + 1;
      }
      assert ops[i..] == [];
      assert Run(queue, ops[i..]) == (queue, []);
      assert dequeued + [] == dequeued;
      RunIsFifo(old(queue), ops);
    }

    /** `IsEmpty`. */
    function IsEmpty(): (r: bool)
      reads this
      ensures r <==> queue == []
    {
      |queue| == 0
    }

    /** `GetEnumerator`: the text of every pending entry, in queue order; being a
        function, it cannot change the queue. */
    function Lines(formatTime: DateTime -> string): (r: seq<string>)
      reads this, queue
      ensures |r| == |queue|
      ensures forall i | 0 <= i < |queue| :: r[i] == queue[i].ToText(formatTime)
    {
      Texts(queue, formatTime)
    }
  }

  function Texts(entries: seq<LogEntry>, formatTime: DateTime -> string): (r: seq<string>)
    reads entries
    ensures |r| == |entries|
    ensures forall i | 0 <= i < |entries| :: r[i] == entries[i].ToText(formatTime)
  {
    if entries == [] then [] else [entries[0].ToText(formatTime)] + Texts(entries[1..], formatTime)
  }

  /** One call on a collector: `AddEntry(item)` or `TryGetEntry()`. */
  datatype QueueOp<T> = Enqueue(item: T) | Dequeue

  /** The items a sequence of calls enqueues, in call order. */
  function Enqueued<T>(ops: seq<QueueOp<T>>): seq<T> {
    if ops == [] then []
    else match ops[0]
      case Enqueue(x) => [x] + Enqueued(ops[1..])
      case Dequeue => Enqueued(ops[1..])
  }

  /** The effect of a sequence of calls on a queue, as the contracts of
      `AddEntry` and `TryGetEntry` state it: the final queue and the items the
      successful dequeues returned, in order. */
  function Run<T>(queue: seq<T>, ops: seq<QueueOp<T>>): (seq<T>, seq<T>)
    decreases |ops|
  {
    if ops == [] then (queue, [])
    else match ops[0]
      case Enqueue(x) => Run(queue + [x], ops[1..])
      case Dequeue =>
        if queue == [] then Run(queue, ops[1..])
        else var (rest, dequeued) := Run(queue[1..], ops[1..]); (rest, [queue[0]] + dequeued)
  }

  /** FIFO with no loss and no duplication: what was dequeued, followed by what
      is still queued, is exactly what was queued before plus what was enqueued. */
  lemma {:induction false} RunIsFifo<T>(queue: seq<T>, ops: seq<QueueOp<T>>)
    ensures Run(queue, ops).1 + Run(queue, ops).0 == queue + Enqueued(ops)
    decreases |ops|
  {
    if ops != [] {
      match ops[0]
      case Enqueue(x) =>
        RunIsFifo(queue + [x], ops[1..]);
        assert Enqueued(ops) == [x] + Enqueued(ops[1..]);
        assert queue + [x] + Enqueued(ops[1..]) == queue + Enqueued(ops);
      case Dequeue =>
        assert Enqueued(ops) == Enqueued(ops[1..]);
        if queue == [] {
          RunIsFifo(queue, ops[1..]);
        } else {
          RunIsFifo(queue[1..], ops[1..]);
          var (rest, dequeued) := Run(queue[1..], ops[1..]);
          assert Run(queue, ops) == (rest, [queue[0]] + dequeued);
          assert queue == [queue[0]] + queue[1..];
          assert [queue[0]] + dequeued + rest == [queue[0]] + (dequeued + rest);
        }
    }
  }

  /** The successful dequeues return a prefix of everything ever queued, and
      every item is either dequeued or still queued. */
  lemma DequeuedIsPrefix<T>(queue: seq<T>, ops: seq<QueueOp<T>>)
    ensures Run(queue, ops).1 <= queue + Enqueued(ops)
    ensures |Run(queue, ops).1| + |Run(queue, ops).0| == |queue| + |Enqueued(ops)|
  {
    RunIsFifo(queue, ops);
  }
}
