/** The persisted log record (DatabaseLoggerLogEntry.cs): its fields, the two
    normalising setters, the "not yet persisted" Id marker and its text form. */
module LogEntries {
  import opened Base

  /** Microsoft.Extensions.Logging.LogLevel; `None` is a "log nothing" sentinel. */
  datatype LogLevel = Trace | Debug | Information | Warning | Error | Critical | None

  /** A UTC point in time; how it is printed is left to a formatting function. */
  datatype DateTime = DateTime(ticks: int)

  /** The length `ExceptionMessage` keeps of the text it is given. */
  const ExceptionMessageLength: nat := 20480

  /** `char.IsWhiteSpace`: the Unicode separators and the control characters
      U+0009..U+000D, U+0085. */
  predicate IsWhiteSpace(c: char) {
    || '\U{0009}' <= c <= '\U{000D}'
    || c == ' ' || c == '\U{0085}' || c == '\U{00A0}' || c == '\U{1680}'
    || '\U{2000}' <= c <= '\U{200A}'
    || c == '\U{2028}' || c == '\U{2029}' || c == '\U{202F}' || c == '\U{205F}' || c == '\U{3000}'
  }

  /** `string.IsNullOrWhiteSpace`: null, empty, or white space only. */
  predicate IsNullOrWhiteSpace(value: Nullable<string>) {
    value.Null? || forall i | 0 <= i < |value.value| :: IsWhiteSpace(value.value[i])
  }

  /** What the `Scope` setter stores for `value`. */
  function NormalizeScope(value: Nullable<string>): (r: Nullable<string>)
    ensures r == Null || r == value
    ensures r.NotNull? ==> !IsNullOrWhiteSpace(r)
    ensures !IsNullOrWhiteSpace(value) ==> r == value
  {
    if IsNullOrWhiteSpace(value) then Null else value
  }

  /** Normalising a stored scope again changes nothing. */
  lemma NormalizeScopeIdempotent(value: Nullable<string>)
    ensures NormalizeScope(NormalizeScope(value)) == NormalizeScope(value)
  {
  }

  /** What the `ExceptionMessage` setter stores for `value`, or the exception
      it throws: `Substring(0, 20480)` does not shorten text, it demands at
      least that many characters. */
  function NormalizeExceptionMessage(value: Nullable<string>): (r: Result<Nullable<string>, Fault>)
    ensures r == Success(Null) <==> IsNullOrWhiteSpace(value)
    ensures r.Failure? <==> !IsNullOrWhiteSpace(value) && |value.value| < ExceptionMessageLength
    ensures r.Failure? ==> r.error == ArgumentOutOfRange("length")
    ensures r.Success? && r.value.NotNull? ==>
      && |r.value.value| == ExceptionMessageLength
      && r.value.value <= value.value
  {
    if IsNullOrWhiteSpace(value) then Success(Null)
    else if |value.value| < ExceptionMessageLength then Failure(ArgumentOutOfRange("length"))
    else Success(NotNull(value.value[..ExceptionMessageLength]))
  }

  /** The blank check comes before the cut, so a stored exception message can
      itself be blank: text whose first 20480 characters are spaces. */
  lemma StoredExceptionMessageMayBeBlank()
    ensures exists v :: NormalizeExceptionMessage(v).Success?
                        && NormalizeExceptionMessage(v).value.NotNull?
                        && IsNullOrWhiteSpace(NormalizeExceptionMessage(v).value)
  {
    var spaces := seq(ExceptionMessageLength, _ => ' ');
    var v := NotNull(spaces + "x");
    assert (spaces + "x")[ExceptionMessageLength] == 'x';
    assert (spaces + "x")[..ExceptionMessageLength] == spaces;
    assert NormalizeExceptionMessage(v).value == NotNull(spaces);
  }

  /** A value snapshot of every property of a log entry. */
  datatype EntryData = EntryData(
    id: int,
    logUtcTime: DateTime,
    source: string,
    message: string,
    level: LogLevel,
    eventId: int,
    scope: Nullable<string>,
    exceptionMessage: Nullable<string>)

  /** One log record. Storage assigns `id` on commit; `id == 0` marks a record
      that has never been persisted. */
  class LogEntry {
    var id: int
    var logUtcTime: DateTime
    var source: string
    var message: string
    var level: LogLevel
    var eventId: int
    var scope: Nullable<string>
    var exceptionMessage: Nullable<string>

    /** `new DatabaseLoggerLogEntry()` at time `now`; string properties that
        C# leaves null print as the empty string and start out as "". */
    constructor (now: DateTime)
      ensures Data() == EntryData(0, now, "", "", Trace, 0, Null, Null)
    {
      id, logUtcTime := 0, now;
      source, message := "", "";
      level, eventId := Trace, 0;
      scope, exceptionMessage := Null, Null;
    }

    function Data(): EntryData
      reads this
    {
      EntryData(id, logUtcTime, source, message, level, eventId, scope, exceptionMessage)
    }

    /** The `Scope` setter. */
    method SetScope(value: Nullable<string>)
      modifies this`scope
      ensures scope == NormalizeScope(value)
    {
      scope := if IsNullOrWhiteSpace(value) then Null else value;
    }

    /** The `ExceptionMessage` setter: on a throw the field keeps its value. */
    method SetExceptionMessage(value: Nullable<string>) returns (o: Outcome<Fault>)
      modifies this`exceptionMessage
      ensures NormalizeExceptionMessage(value).Success? ==>
                o == Pass && exceptionMessage == NormalizeExceptionMessage(value).value
      ensures NormalizeExceptionMessage(value).Failure? ==>
                o == Fail(NormalizeExceptionMessage(value).error)
                && exceptionMessage == old(exceptionMessage)
    {
      if IsNullOrWhiteSpace(value) {
        exceptionMessage := Null;
        o := Pass;
      } else if |value.value| < ExceptionMessageLength {
        o := Fail(ArgumentOutOfRange("length"));
      } else {
        exceptionMessage := NotNull(value.value[..ExceptionMessageLength]);
        o := Pass;
      }
    }

    /** `ToString()`, with the timestamp printed by `formatTime`: it opens with
        the id and level and closes with the exception message, `<null>` when
        there is none. */
    function ToText(formatTime: DateTime -> string): (r: string)
      reads this
      ensures var head := "[" + IntToText(id) + "] " + LevelName(level) + ": LogUtcTime: '";
              var tail := "ExceptionMessage: '" + ExceptionText(exceptionMessage) + "'";
              && |head| + |tail| <= |r|
              && r[..|head|] == head
              && r[|r| - |tail|..] == tail
    {
      Render(Data(), formatTime)
    }
  }

  function LevelName(level: LogLevel): string {
    match level
    case Trace => "Trace"
    case Debug => "Debug"
    case Information => "Information"
    case Warning => "Warning"
    case Error => "Error"
    case Critical => "Critical"
    case None => "None"
  }

  function DigitChar(d: nat): char
    requires d < 10
  {
    "0123456789"[d]
  }

  function NatToText(n: nat): string
    decreases n
  {
    if n < 10 then [DigitChar(n)] else NatToText(n / 10) + [DigitChar(n % 10)]
  }

  /** Decimal text of an integer, as C# prints `long` and `int`. */
  function IntToText(n: int): string {
    if n < 0 then "-" + NatToText(-n) else NatToText(n)
  }

  /** Everything `ToString` prints before the optional scope segment. */
  function Header(d: EntryData, formatTime: DateTime -> string): string {
    "[" + IntToText(d.id) + "] " + LevelName(d.level) + ": LogUtcTime: '" + formatTime(d.logUtcTime)
      + "', Source: '" + d.source + "', "
  }

  function ScopeSegment(scope: Nullable<string>): string {
    match scope
    case Null => ""
    case NotNull(s) => "Scope: '" + s + "', "
  }

  function ExceptionText(exceptionMessage: Nullable<string>): string {
    match exceptionMessage
    case Null => "<null>"
    case NotNull(m) => m
  }

  /** Everything `ToString` prints after the optional scope segment. */
  function Trailer(d: EntryData): string {
    "Message: '" + d.message + "', EventId: '" + IntToText(d.eventId) + "', "
      + "ExceptionMessage: '" + ExceptionText(d.exceptionMessage) + "'"
  }

  function Render(d: EntryData, formatTime: DateTime -> string): string {
    Header(d, formatTime) + ScopeSegment(d.scope) + Trailer(d)
  }

  /** The text of an entry with a scope is the text of the same entry without
      one, with exactly "Scope: '<scope>', " inserted after the source. */
  lemma ScopeSegmentOnlyWhenSet(d: EntryData, s: string, formatTime: DateTime -> string)
    ensures var without := Render(d.(scope := Null), formatTime);
            var k := |Header(d, formatTime)|;
            && k <= |without|
            && Render(d.(scope := NotNull(s)), formatTime)
               == without[..k] + "Scope: '" + s + "', " + without[k..]
  {
  }

  /** `ToString` ends with the exception message, or `<null>` when there is none. */
  lemma ExceptionMessageAtEnd(d: EntryData, formatTime: DateTime -> string)
    ensures var tail := "ExceptionMessage: '" + ExceptionText(d.exceptionMessage) + "'";
            var text := Render(d, formatTime);
            && |tail| <= |text|
            && text[|text| - |tail|..] == tail
    ensures d.exceptionMessage.Null? ==> ExceptionText(d.exceptionMessage) == "<null>"
  {
  }
}
