/**
 * The logging utility of the bridge: a logger keeps a maximum severity and a
 * tag, fixed when it is made, and each level method writes a line exactly
 * when its own severity passes the gate.  The console is modelled as the
 * sequence of lines written; the time stamp of a line is left out.
 */
module Logger {
  import opened Js

  const SILENT := 0
  const FATAL := 10
  const ERROR := 20
  const WARN := 30
  const INFO := 40
  const DEBUG := 50
  const TRACE := 60
  const ALL := 100

  /** The severities by name, in the order the table lists them. */
  const LEVELS: seq<(string, int)> :=
    [("SILENT", SILENT), ("FATAL", FATAL), ("ERROR", ERROR), ("WARN", WARN), ("INFO", INFO),
     ("DEBUG", DEBUG), ("TRACE", TRACE), ("ALL", ALL)]

  /** The names printed for each severity but SILENT. */
  const LEVEL_NAMES: map<int, string> :=
    map[FATAL := "fatal", ERROR := "error", WARN := "warn", INFO := "info", DEBUG := "debug",
        TRACE := "trace", ALL := "all"]

  /** The level a logger keeps: a number from SILENT to ALL, anything else means DEBUG. */
  function NormalLevel(level: Value): (r: int)
    ensures SILENT <= r <= ALL
    ensures level.Num? && SILENT <= level.n <= ALL ==> r == level.n
    ensures !(level.Num? && SILENT <= level.n <= ALL) ==> r == DEBUG
  {
    if level.Num? && SILENT <= level.n && level.n <= ALL then level.n else 50
  }

  /** The tag a logger keeps: a string, anything else means "Logger". */
  function NormalTag(tag: Value): (r: string)
    ensures tag.Str? ==> r == tag.s
    ensures !tag.Str? ==> r == "Logger"
  {
    if tag.Str? then tag.s else "Logger"
  }

  /** One line on the console: the level name, the tag and the message. */
  datatype Line = Line(name: string, tag: string, message: Value)

  class Logger {
    const currentLevel: int
    const currentTag: string
    /** The lines written so far. */
    var lines: seq<Line>

    constructor(level: Value, tag: Value)
      ensures currentLevel == NormalLevel(level) && currentTag == NormalTag(tag)
      ensures lines == []
    {
      currentLevel := NormalLevel(level);
      currentTag := NormalTag(tag);
      lines := [];
    }

    /** Whether a message of severity `level` is written: above SILENT and not above the logger's level. */
    predicate ShouldLog(level: int) {
      SILENT < level <= currentLevel
    }

    /** Writes a line for `message` at `level`, when the gate lets it through. */
    method LogAt(level: int, message: Value)
      requires level in LEVEL_NAMES
      modifies this
      ensures lines == if ShouldLog(level) then old(lines) + [Line(LEVEL_NAMES[level], currentTag, message)]
                       else old(lines)
    {
      if SILENT < level && level <= currentLevel {
        lines := lines + [Line(LEVEL_NAMES[level], currentTag, message)];
      }
    }

    method Fatal(message: Value)
      modifies this
      ensures lines == if ShouldLog(FATAL) then old(lines) + [Line("fatal", currentTag, message)] else old(lines)
    {
      LogAt(FATAL, message);
    }

    method Error(message: Value)
      modifies this
      ensures lines == if ShouldLog(ERROR) then old(lines) + [Line("error", currentTag, message)] else old(lines)
    {
      LogAt(ERROR, message);
    }

    method Warn(message: Value)
      modifies this
      ensures lines == if ShouldLog(WARN) then old(lines) + [Line("warn", currentTag, message)] else old(lines)
    {
      LogAt(WARN, message);
    }

    method Info(message: Value)
      modifies this
      ensures lines == if ShouldLog(INFO) then old(lines) + [Line("info", currentTag, message)] else old(lines)
    {
      LogAt(INFO, message);
    }

    method Debug(message: Value)
      modifies this
      ensures lines == if ShouldLog(DEBUG) then old(lines) + [Line("debug", currentTag, message)] else old(lines)
    {
      LogAt(DEBUG, message);
    }

    method Trace(message: Value)
      modifies this
      ensures lines == if ShouldLog(TRACE) then old(lines) + [Line("trace", currentTag, message)] else old(lines)
    {
      LogAt(TRACE, message);
    }
  }

  /** A SILENT logger writes nothing, and a logger at ALL writes at every named level. */
  lemma GateExtremes(logger: Logger, level: int)
    requires level in LEVEL_NAMES
    ensures logger.currentLevel == SILENT ==> !logger.ShouldLog(level)
    ensures logger.currentLevel == ALL ==> logger.ShouldLog(level)
  {
  }

  /** The gate is monotone: whatever a logger writes, a logger with a higher level writes too. */
  lemma GateMonotone(low: Logger, high: Logger, level: int)
    requires low.currentLevel <= high.currentLevel
    ensures low.ShouldLog(level) ==> high.ShouldLog(level)
  {
  }

  /** Every level of the table but SILENT is printed under its own name in lower case. */
  lemma NamesInvertLevels()
    ensures forall i | 0 <= i < |LEVELS| && LEVELS[i].1 != SILENT ::
              LEVELS[i].1 in LEVEL_NAMES && LEVEL_NAMES[LEVELS[i].1] == Lower(LEVELS[i].0)
  {
    forall i | 0 <= i < |LEVELS| && LEVELS[i].1 != SILENT
      ensures LEVELS[i].1 in LEVEL_NAMES && LEVEL_NAMES[LEVELS[i].1] == Lower(LEVELS[i].0)
    {
      NameAt(i);
    }
  }

  lemma NameAt(i: nat)
    requires 0 < i < |LEVELS|
    ensures LEVELS[i].1 in LEVEL_NAMES && LEVEL_NAMES[LEVELS[i].1] == Lower(LEVELS[i].0)
  {
    var (name, level) := LEVELS[i];
    LowerWord(name, LEVEL_NAMES[level]);
  }

  /** The printed names name the levels of the table and nothing else. */
  lemma NamesOnlyLevels()
    ensures forall level | level in LEVEL_NAMES :: exists i :: 0 < i < |LEVELS| && LEVELS[i].1 == level
    ensures SILENT !in LEVEL_NAMES
  {
    forall level | level in LEVEL_NAMES ensures exists i :: 0 < i < |LEVELS| && LEVELS[i].1 == level {
      var i := if level == FATAL then 1 else if level == ERROR then 2 else if level == WARN then 3
               else if level == INFO then 4 else if level == DEBUG then 5 else if level == TRACE then 6 else 7;
      assert LEVELS[i].1 == level;
    }
  }

  lemma LowerWord(s: string, t: string)
    requires |s| == |t| && forall i :: 0 <= i < |s| ==> LowerChar(s[i]) == t[i]
    ensures Lower(s) == t
  {
  }
}
