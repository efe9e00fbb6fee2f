/** The logger configuration (DatabaseLoggerOptions.cs): a flush interval in
    seconds that must exceed 1, the storage context type, and the scope flag. */
module Configuration {
  import opened Base

  /** C# `byte`. */
  newtype byte = x: int | 0 <= x < 256

  const DefaultSyncInterval: byte := 5

  /** A CLR type as reflection sees it: its full name and the full names of
      every interface and base class it can be assigned to. */
  datatype ClrType = ClrType(name: string, assignableTo: set<string>)

  const ContextInterface := "VNetDev.LoggerService.Database.IDatabaseLoggerDbContext"

  /** `typeof(IDatabaseLoggerDbContext).IsAssignableFrom(t)`: false for null. */
  predicate ImplementsLoggerContext(t: Nullable<ClrType>) {
    t.NotNull? && (t.value.name == ContextInterface || ContextInterface in t.value.assignableTo)
  }

  const ContextTypeFault :=
    Argument("Context must implement IDatabaseLoggerDbContext interface.", NotNull("DbContextType"))

  const SyncIntervalFault := Argument("Value must be greater than 1.", NotNull("SyncInterval"))

  class LoggerOptions {
    var syncInterval: byte
    var dbContextType: Nullable<ClrType>
    var includeScopes: bool

    /** What the setters guarantee of every stored value. */
    ghost predicate Valid()
      reads this
    {
      && 2 <= syncInterval
      && (dbContextType.NotNull? ==> ImplementsLoggerContext(dbContextType))
    }

    /** `new DatabaseLoggerOptions()`. */
    constructor ()
      ensures Valid()
      ensures syncInterval == DefaultSyncInterval && dbContextType == Null && !includeScopes
    {
      syncInterval := DefaultSyncInterval;
      dbContextType := Null;
      includeScopes := false;
    }

    /** `new DatabaseLoggerOptions(type)`: the field defaults, then the
        validating `DbContextType` setter. */
    static method WithContextType(t: Nullable<ClrType>) returns (r: Result<LoggerOptions, Fault>)
      ensures r.Success? <==> ImplementsLoggerContext(t)
      ensures r.Failure? ==> r.error == ContextTypeFault
      ensures r.Success? ==>
        && fresh(r.value) && r.value.Valid()
        && r.value.dbContextType == t
        && r.value.syncInterval == DefaultSyncInterval && !r.value.includeScopes
    {
      var options := new LoggerOptions();
      var o := options.SetDbContextType(t);
      if o.Fail? {
        return Failure(o.error);
      }
      r := Success(options);
    }

    /** The `DbContextType` setter: stores only a type that implements the
        context interface, otherwise throws and keeps the old value. */
    method SetDbContextType(value: Nullable<ClrType>) returns (o: Outcome<Fault>)
      requires Valid()
      modifies this`dbContextType
      ensures Valid()
      ensures o == Pass <==> ImplementsLoggerContext(value)
      ensures o.Pass? ==> dbContextType == value
      ensures o.Fail? ==> o.error == ContextTypeFault && dbContextType == old(dbContextType)
    {
      if ImplementsLoggerContext(value) {
        dbContextType := value;
        o := Pass;
      } else {
        o := Fail(ContextTypeFault);
      }
    }

    /** The `SyncInterval` setter: values of 1 or less are rejected, never clamped. */
    method SetSyncInterval(value: byte) returns (o: Outcome<Fault>)
      requires Valid()
      modifies this`syncInterval
      ensures Valid()
      ensures o == Pass <==> value > 1
      ensures o.Pass? ==> syncInterval == value
      ensures o.Fail? ==> o.error == SyncIntervalFault && syncInterval == old(syncInterval)
    {
      if value > 1 {
        syncInterval := value;
        o := Pass;
      } else {
        o := Fail(SyncIntervalFault);
      }
    }
  }
}
