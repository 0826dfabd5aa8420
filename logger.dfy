/**
 * The in-memory request log and counters (backend/internal/logger/logger.go):
 * a buffer of at most 100 formatted lines, trimmed from the front, and three
 * request counters. The clock is a parameter (the formatted timestamp), the
 * echo to standard output and the mutex are left out.
 */
module Logger {

  const MaxLogs: nat := 100

  datatype Level = Info | Warn | Error

  function LevelName(level: Level): string {
    match level
    case Info => "INFO"
    case Warn => "WARN"
    case Error => "ERROR"
  }

  /** `fmt.Sprintf("[%s] [%s] %s", timestamp, level, message)`. */
  function Line(timestamp: string, level: Level, message: string): string {
    "[" + timestamp + "] [" + LevelName(level) + "] " + message
  }

  /** The line starts with the bracketed timestamp and level and ends with the message. */
  lemma LineShape(timestamp: string, level: Level, message: string)
    ensures var line := Line(timestamp, level, message);
      var head := "[" + timestamp + "] [" + LevelName(level) + "] ";
      |line| == |head| + |message| && line[..|head|] == head && line[|head|..] == message
  {
  }

  /** Reads the level back from a line whose timestamp is `|timestamp|` long. */
  function LevelAt(line: string, timestampLength: nat): Level
    requires timestampLength + 9 <= |line|
  {
    var k := timestampLength + 4;
    if line[k + 4] != ']' then Level.Error
    else if line[k] == 'I' then Level.Info
    else Level.Warn
  }

  /** The level is recoverable from the line it was written into. */
  lemma LevelAtLine(timestamp: string, level: Level, message: string)
    ensures |timestamp| + 9 <= |Line(timestamp, level, message)|
    ensures LevelAt(Line(timestamp, level, message), |timestamp|) == level
  {
    var a := Line(timestamp, level, message);
    var k := |timestamp| + 4;
    assert a[k..] == LevelName(level) + "] " + message;
  }

  /**
   * Lines written at the same timestamp tell their level and message apart:
   * different calls never produce the same line.
   */
  lemma LineInjective(timestamp: string, l1: Level, m1: string, l2: Level, m2: string)
    requires Line(timestamp, l1, m1) == Line(timestamp, l2, m2)
    ensures l1 == l2 && m1 == m2
  {
    LevelAtLine(timestamp, l1, m1);
    LevelAtLine(timestamp, l2, m2);
    var a, b := Line(timestamp, l1, m1), Line(timestamp, l2, m2);
    var k := |timestamp| + 4 + |LevelName(l1)| + 2;
    assert a[k..] == m1;
    assert b[k..] == m2;
  }

  // ---------------------------------------------------------------------------
  // The bounded buffer

  /** `logs = append(logs, line)` and, past the limit, `logs = logs[1:]`. */
  function Push(logs: seq<string>, line: string): (r: seq<string>)
    requires |logs| <= MaxLogs
    ensures |r| <= MaxLogs
    ensures |r| > 0 && r[|r| - 1] == line
    ensures |logs| < MaxLogs ==> r == logs + [line]
    ensures |logs| == MaxLogs ==> r == logs[1..] + [line]
  {
    var grown := logs + [line];
    if |grown| > MaxLogs then grown[1..] else grown
  }

  /** The newest `MaxLogs` of a history of lines. */
  function Newest(history: seq<string>): (r: seq<string>)
    ensures |r| <= MaxLogs
    ensures |r| == if |history| < MaxLogs then |history| else MaxLogs
  {
    if |history| <= MaxLogs then history else history[|history| - MaxLogs..]
  }

  /** One push keeps the buffer equal to the newest lines of the whole history. */
  lemma PushKeepsNewest(history: seq<string>, line: string)
    ensures Push(Newest(history), line) == Newest(history + [line])
  {
    var h := history + [line];
    if |history| > MaxLogs {
      assert Newest(history)[1..] + [line] == h[|h| - MaxLogs..];
    } else if |history| == MaxLogs {
      assert history[1..] + [line] == h[|h| - MaxLogs..];
    }
  }

  /** Logging many lines one after another, as the buffer sees them. */
  function PushAll(logs: seq<string>, lines: seq<string>): (r: seq<string>)
    requires |logs| <= MaxLogs
    ensures |r| <= MaxLogs
    decreases |lines|
  {
    if lines == [] then logs else PushAll(Push(logs, lines[0]), lines[1..])
  }

  /**
   * Whatever was logged, the buffer holds exactly the newest 100 lines of
   * everything written since it was last cleared, oldest first.
   */
  lemma {:induction false} PushAllNewest(history: seq<string>, lines: seq<string>)
    ensures PushAll(Newest(history), lines) == Newest(history + lines)
    decreases |lines|
  {
    if lines == [] {
      assert history + lines == history;
    } else {
      var h1 := history + [lines[0]];
      assert h1 + lines[1..] == history + lines;
      assert PushAll(Newest(history), lines) == PushAll(Push(Newest(history), lines[0]), lines[1..]);
      PushKeepsNewest(history, lines[0]);
      PushAllNewest(h1, lines[1..]);
    }
  }

  /** From an empty buffer: the newest 100 of the lines written. */
  lemma PushAllFromEmpty(lines: seq<string>)
    ensures PushAll([], lines) == Newest(lines)
  {
    PushAllNewest([], lines);
    assert [] + lines == lines;
  }

  /** GetStats: the counters and when they were last reset. */
  datatype Stats = Stats(totalRequests: int, successRequests: int, errorRequests: int, lastReset: string)

  class Log {
    /** `logs`: the formatted lines, oldest first. */
    var logs: seq<string>
    var stats: Stats

    ghost predicate Valid()
      reads this
    {
      |logs| <= MaxLogs
    }

    /** The package variables at start-up: no lines, counters at zero. */
    constructor (startedAt: string)
      ensures Valid()
      ensures logs == [] && stats == Stats(0, 0, 0, startedAt)
    {
      logs := [];
      stats := Stats(0, 0, 0, startedAt);
    }

    /** log: format the line, append it, drop the oldest when over the limit. */
    method Write(level: Level, message: string, timestamp: string)
      requires Valid()
      modifies this
      ensures Valid()
      ensures logs == Push(old(logs), Line(timestamp, level, message))
      ensures stats == old(stats)
    {
      var line := "[" + timestamp + "] [" + LevelName(level) + "] " + message;
      logs := logs + [line];
      if |logs| > MaxLogs {
        logs := logs[1..];
      }
    }

    method Info(message: string, timestamp: string)
      requires Valid()
      modifies this
      ensures Valid()
      ensures logs == Push(old(logs), Line(timestamp, Level.Info, message)) && stats == old(stats)
    {
      Write(Level.Info, message, timestamp);
    }

    method Warn(message: string, timestamp: string)
      requires Valid()
      modifies this
      ensures Valid()
      ensures logs == Push(old(logs), Line(timestamp, Level.Warn, message)) && stats == old(stats)
    {
      Write(Level.Warn, message, timestamp);
    }

    method Error(message: string, timestamp: string)
      requires Valid()
      modifies this
      ensures Valid()
      ensures logs == Push(old(logs), Line(timestamp, Level.Error, message)) && stats == old(stats)
    {
      Write(Level.Error, message, timestamp);
    }

    /** RequestStart: one more request seen; the log is untouched. */
    method RequestStart()
      modifies this
      ensures stats == old(stats).(totalRequests := old(stats).totalRequests + 1)
      ensures logs == old(logs)
    {
      stats := stats.(totalRequests := stats.totalRequests + 1);
    }

    /** RequestSuccess: one more successful request. */
    method RequestSuccess()
      modifies this
      ensures stats == old(stats).(successRequests := old(stats).successRequests + 1)
      ensures logs == old(logs)
    {
      stats := stats.(successRequests := stats.successRequests + 1);
    }

    /** RequestError: one more failed request. */
    method RequestError()
      modifies this
      ensures stats == old(stats).(errorRequests := old(stats).errorRequests + 1)
      ensures logs == old(logs)
    {
      stats := stats.(errorRequests := stats.errorRequests + 1);
    }

    /** GetLogs: a copy of the buffer, element by element. */
    method GetLogs() returns (result: seq<string>)
      ensures result == logs
    {
      result := [];
      var i := 0;
      while i < |logs|
        invariant 0 <= i <= |logs|
        invariant result == logs[..i]
      {
        result := result + [logs[i]];
        i := i + 1;
      }
    }

    /** GetStats: a copy of the counters; nothing changes. */
    method GetStats() returns (s: Stats)
      ensures s == stats
    {
      s := stats;
    }

    /** ClearLogs: no lines left; the counters are untouched. */
    method ClearLogs()
      modifies this
      ensures Valid()
      ensures logs == [] && stats == old(stats)
    {
      logs := [];
    }

    /** ResetStats: every counter back to zero, stamped `now`; the log is untouched. */
    method ResetStats(now: string)
      modifies this
      ensures stats == Stats(0, 0, 0, now) && logs == old(logs)
    {
      stats := Stats(0, 0, 0, now);
    }
  }
}
