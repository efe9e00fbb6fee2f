/** One flush cycle (DatabaseLoggerLogHandler.cs): drain the collector into a
    batch, stage and commit the batch, and put back every entry the commit
    left without an id. */
module Flushing {
  import opened Base
  import opened LogEntries
  import opened Collecting
  import opened Storage

  /** The entries of `batch` whose id is still 0 ("not persisted"), in batch order. */
  function Unsaved(batch: seq<LogEntry>): seq<LogEntry>
    reads batch
  {
    if batch == [] then []
    else
      var last := batch[|batch| - 1];
      Unsaved(batch[..|batch| - 1]) + (if last.id == 0 then [last] else [])
  }

  /** An entry is put back exactly when it is in the batch and unsaved. */
  lemma {:induction false} UnsavedMembership(batch: seq<LogEntry>, e: LogEntry)
    ensures e in Unsaved(batch) <==> e in batch && e.id == 0
  {
    if batch != [] {
      var front := batch[..|batch| - 1];
      UnsavedMembership(front, e);
      assert batch == front + [batch[|batch| - 1]];
    }
  }

  /** What is put back is never longer than the batch: all of it when no
      entry was saved, none of it when every entry was. */
  lemma {:induction false} UnsavedIsShorter(batch: seq<LogEntry>)
    ensures |Unsaved(batch)| <= |batch|
    ensures (forall e | e in batch :: e.id == 0) ==> Unsaved(batch) == batch
    ensures (forall e | e in batch :: e.id != 0) ==> Unsaved(batch) == []
  {
    if batch != [] {
      var front := batch[..|batch| - 1];
      UnsavedIsShorter(front);
      assert batch == front + [batch[|batch| - 1]];
    }
  }

  /** After a successful save every drained entry is either persisted
      (`id != 0`) or back in the collector, and never both. */
  lemma DrainedEntriesAccountedFor(batch: seq<LogEntry>, queue: seq<LogEntry>)
    requires queue == Unsaved(batch)
    ensures forall e | e in batch :: e.id != 0 <==> e !in queue
    ensures forall e | e in queue :: e in batch && e.id == 0
  {
    forall e | e in batch || e in queue
      ensures e in queue <==> e in batch && e.id == 0
    {
      UnsavedMembership(batch, e);
    }
  }

  class LogHandler {
    const context: LogStore
    const collector: LogCollector

    constructor (context: LogStore, collector: LogCollector)
      ensures this.context == context && this.collector == collector
    {
      this.context := context;
      this.collector := collector;
    }

    /** `new DatabaseLoggerLogHandler(context, logCollector)`: each argument
        is checked for null, the context first. */
    static method Create(context: LogStore?, collector: LogCollector?) returns (r: Result<LogHandler, Fault>)
      ensures context == null ==> r == Failure(ArgumentNull("context"))
      ensures context != null && collector == null ==> r == Failure(ArgumentNull("logCollector"))
      ensures context != null && collector != null ==>
        r.Success? && fresh(r.value) && r.value.context == context && r.value.collector == collector
    {
      if context == null {
        return Failure(ArgumentNull("context"));
      }
      if collector == null {
        return Failure(ArgumentNull("logCollector"));
      }
      var handler := new LogHandler(context, collector);
      r := Success(handler);
    }

    /** `ProcessAsync`. The store sees exactly one `AddRange` of the whole
        drained batch, then one save, whose result is returned. On success the
        collector holds exactly the unsaved part of the batch; when the save
        throws, the batch is not put back and the collector stays empty. */
    method Process() returns (r: Result<nat, Fault>)
      modifies collector, context, (set e | e in collector.queue || e in context.staged)`id
      ensures var batch := old(collector.queue);
        && context.calls == old(context.calls) + [StagedBatch(batch), Committed(r)]
        && (r.Failure? ==> collector.queue == [] && forall e | e in batch :: e.id == old(e.id))
        && (r.Success? ==> collector.queue == Unsaved(batch))
        && (forall e | e in batch :: e.id == old(e.id) || e.id != 0)
    {
      var batch := DrainCollector();
      context.AddRange(batch);
      r := context.SaveChanges();
      if r.Success? {
        RequeueUnsaved(batch);
      }
    }

    /** The `TryGetEntry` loop of `ProcessAsync`: the batch is everything that
        was queued, in queue order, and the collector is left empty. */
    method DrainCollector() returns (batch: seq<LogEntry>)
      modifies collector
      ensures batch == old(collector.queue) && collector.queue == []
    {
      batch := [];
      while true
        invariant batch + collector.queue == old(collector.queue)
        decreases |collector.queue|
      {
        var ok, entry := collector.TryGetEntry();
        if !ok {
          break;
        }
        batch := batch + [entry];
      }
    }

    /** The `foreach` of `ProcessAsync`: every batch entry whose id is still 0
        is enqueued again, in batch order. */
    method RequeueUnsaved(batch: seq<LogEntry>)
      modifies collector
      ensures collector.queue == old(collector.queue) + Unsaved(batch)
    {
      var i := 0;
      while i < |batch|
        invariant 0 <= i <= |batch|
        invariant collector.queue == old(collector.queue) + Unsaved(batch[..i])
      {
        assert batch[..i + 1] == batch[..i] + [batch[i]];
        if batch[i].id == 0 {
          collector.AddEntry(batch[i]);
        }
        i := i + 1;
      }
      assert batch[..i] == batch;
    }
  }
}
