/**
 * The query logger: a bounded store of leveled log entries with views of the
 * newest entries and of the entries at one level.
 */
module Logger {
  import opened Js
  import opened Capped

  /** The constructor's default capacity. */
  const DefaultMaxLogs: int := 500
  /** `getRecentLogs`'s default limit. */
  const DefaultRecentLogs: int := 50

  datatype Level = Info | Warn | Error

  /** One entry; `timestamp` is the `Date` it was created at, in milliseconds,
      and `metadata` is `Absent` when the caller passed none. */
  datatype LogEntry = LogEntry(level: Level, message: string, timestamp: int, metadata: Meta)

  /** `(log) => log.level === level` */
  function AtLevel(level: Level): LogEntry -> bool
  {
    (e: LogEntry) => e.level == level
  }

  class QueryLogger {
    var logs: seq<LogEntry>
    const maxLogs: int
    /** Every entry added since the logger was created or last cleared, oldest
        first. */
    ghost var added: seq<LogEntry>

    /** The store holds the most recent `maxLogs` added entries, in the order
        they were added. */
    ghost predicate Valid()
      reads this
    {
      logs == Keep(added, maxLogs)
    }

    constructor(maxLogs: int)
      ensures Valid()
      ensures logs == [] && added == [] && this.maxLogs == maxLogs
    {
      logs := [];
      added := [];
      this.maxLogs := maxLogs;
    }

    method Info(message: string, metadata: Meta, now: int)
      requires Valid()
      modifies this
      ensures Valid() && added == old(added) + [LogEntry(Level.Info, message, now, metadata)]
      ensures logs == PushShift(old(logs), LogEntry(Level.Info, message, now, metadata), maxLogs)
    {
      AddLog(Level.Info, message, metadata, now);
    }

    method Warn(message: string, metadata: Meta, now: int)
      requires Valid()
      modifies this
      ensures Valid() && added == old(added) + [LogEntry(Level.Warn, message, now, metadata)]
      ensures logs == PushShift(old(logs), LogEntry(Level.Warn, message, now, metadata), maxLogs)
    {
      AddLog(Level.Warn, message, metadata, now);
    }

    method Error(message: string, metadata: Meta, now: int)
      requires Valid()
      modifies this
      ensures Valid() && added == old(added) + [LogEntry(Level.Error, message, now, metadata)]
      ensures logs == PushShift(old(logs), LogEntry(Level.Error, message, now, metadata), maxLogs)
    {
      AddLog(Level.Error, message, metadata, now);
    }

    /** Appends one entry stamped `now` and drops the oldest entry once the
        store is over capacity. */
    method AddLog(level: Level, message: string, metadata: Meta, now: int)
      requires Valid()
      modifies this
      ensures Valid() && added == old(added) + [LogEntry(level, message, now, metadata)]
      ensures logs == PushShift(old(logs), LogEntry(level, message, now, metadata), maxLogs)
      ensures |logs| <= Room(maxLogs)
      ensures maxLogs >= 1 ==> logs[|logs| - 1] == LogEntry(level, message, now, metadata)
    {
      var entry := LogEntry(level, message, now, metadata);
      logs := logs + [entry];
      if |logs| > maxLogs {
        logs := logs[1..];
      }
      PushShiftKeeps(added, entry, maxLogs);
      added := added + [entry];
    }

    /** `logs.slice(-limit).reverse()`: newest first; the last `limit` entries
        for a positive limit, every entry for 0, and all but the oldest
        `-limit` for a negative one. */
    function GetRecentLogs(limit: int): (r: seq<LogEntry>)
      reads this
      ensures limit >= 0 ==> |r| == if 0 < limit < |logs| then limit else |logs|
      ensures limit < 0 ==> |r| == if -limit < |logs| then |logs| + limit else 0
      ensures forall i :: 0 <= i < |r| ==> r[i] == logs[|logs| - 1 - i]
    {
      Reverse(SliceFrom(logs, -limit))
    }

    /** The stored entries at `level`, in stored order. */
    function GetLogsByLevel(level: Level): (r: seq<LogEntry>)
      reads this
      ensures forall e :: e in r <==> e in logs && e.level == level
      ensures |r| == |Passing(logs, AtLevel(level))|
      ensures forall k :: 0 <= k < |r| ==> r[k] == logs[Passing(logs, AtLevel(level))[k]]
    {
      FilterMembers(logs, AtLevel(level));
      FilterPassing(logs, AtLevel(level));
      Filter(logs, AtLevel(level))
    }

    method Clear()
      modifies this
      ensures Valid() && logs == [] && added == []
    {
      logs := [];
      added := [];
    }
  }
}
