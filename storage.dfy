/** The storage collaborator the flush handler needs from IDatabaseLoggerDbContext:
    stage a batch of entries, then commit. What a commit does is up to the
    database; the model allows any behaviour the handler must cope with. */
module Storage {
  import opened Base
  import opened LogEntries

  /** One call made on the store, in order. */
  datatype StoreCall = StagedBatch(entries: seq<LogEntry>) | Committed(outcome: Result<nat, Fault>)

  class LogStore {
    /** Entries added and not yet committed. */
    var staged: seq<LogEntry>
    /** Every call made on this store so far. */
    ghost var calls: seq<StoreCall>

    constructor ()
      ensures staged == [] && calls == []
    {
      staged := [];
      calls := [];
    }

    /** `GetLoggerDbSet().AddRangeAsync(entries)`. */
    method AddRange(entries: seq<LogEntry>)
      modifies this
      ensures staged == old(staged) + entries
      ensures calls == old(calls) + [StagedBatch(entries)]
    {
      staged := staged + entries;
      calls := calls + [StagedBatch(entries)];
    }

    /** `SaveChangesAsync()`: either throws, changing nothing, or commits the
        staged entries, assigning a nonzero `id` to any subset of them, and
        returns a count that need not match the number of ids assigned. */
    method SaveChanges() returns (r: Result<nat, Fault>)
      modifies this, (set e | e in staged)`id
      ensures calls == old(calls) + [Committed(r)]
      ensures r.Failure? ==>
        && r.error == StorageFailure
        && staged == old(staged)
        && forall e | e in old(staged) :: e.id == old(e.id)
      ensures r.Success? ==>
        && staged == []
        && forall e | e in old(staged) :: e.id == old(e.id) || e.id != 0
    {
      var fails: bool := *;
      if fails {
        r := Failure(StorageFailure);
      } else {
        var i := 0;
        while i < |staged|
          invariant 0 <= i <= |staged| && staged == old(staged)
          invariant forall e | e in old(staged) :: e.id == old(e.id) || e.id != 0
          modifies (set e | e in staged)`id
        {
          var stored: bool := *;
          var newId: int := *;
          if stored && newId != 0 {
            staged[i].id := newId;
          }
          i := i + 1;
        }
        var count: nat := *;
        staged := [];
        r := Success(count);
      }
      calls := calls + [Committed(r)];
    }
  }
}
