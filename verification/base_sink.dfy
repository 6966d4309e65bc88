/** The part every sink shares: its name, its priority threshold, the
    settings of the formatter it owns and the operating system it was
    built on, together with the priority filter that decides whether a
    level method formats and forwards its message. The formatter itself
    is a parameter of type `Formatter`; the lock that serialises calls is
    not modelled (each call is one atomic step). */
module BaseSinks {
  import opened Common

  /** An unsigned 32-bit value, as the constructors and setters take it. */
  type Unsigned = n: int | 0 <= n < 0x1_0000_0000

  /** The operating systems a sink distinguishes. */
  datatype OperatingSystem = Windows | Linux | Unknown

  /** The three platform macros the preprocessor defines. */
  datatype Macros = Macros(windows: int, linux: int, unknown: int)

  /** The macro values for a build target: `win32` and `win64` say whether
      `_WIN32` and `_WIN64` are defined, `linux` whether `__linux` is. */
  function ConfigureMacros(win32: bool, win64: bool, linux: bool): (m: Macros)
    ensures m.windows in {0, 1} && m.linux in {0, 1} && m.unknown in {0, 1}
    ensures m.windows + m.linux + m.unknown == 1
    ensures m.windows == 1 <==> win32 || win64
    ensures m.linux == 1 <==> !(win32 || win64) && linux
  {
    if win32 || win64 then Macros(1, 0, 0)
    else if linux then Macros(0, 1, 0)
    else Macros(0, 0, 1)
  }

  /** The operating system a sink records at construction: Windows if
      the Windows macro is 1, else Linux if the Linux macro is 1, else Unknown. */
  function DetectOs(m: Macros): (os: OperatingSystem)
    ensures os == Windows <==> m.windows == 1
    ensures os == Linux <==> m.windows != 1 && m.linux == 1
    ensures os == Unknown <==> m.windows != 1 && m.linux != 1
  {
    if m.windows == 1 then Windows
    else if m.linux == 1 then Linux
    else Unknown
  }

  /** The platform a target is built for is detected correctly. */
  lemma DetectOsOfTarget(win32: bool, win64: bool, linux: bool)
    ensures DetectOs(ConfigureMacros(win32, win64, linux))
         == if win32 || win64 then Windows else if linux then Linux else Unknown
  {
  }

  /** The formatter's settings. `None` stands for whatever the formatter
      chooses by default; its defaults are not part of this model. */
  datatype FormatterConfig = FormatterConfig(
    outputFormat: Option<string>,
    decimalPlaces: Option<Unsigned>,
    precision: Option<bool>,
    timeZone: Option<TimeZone>)

  /** A formatter built with no arguments. */
  const DefaultFormatter := FormatterConfig(None, None, None, None)

  /** A positional value handed to the formatter. */
  datatype Value = Text(s: string) | Integer(i: int) | Decimal(d: real) | Flag(b: bool)

  /** The formatter: from its settings, the sink's name, the level, the
      message template and the positional values to the final line. */
  type Formatter = (FormatterConfig, string, LogLevel, string, seq<Value>) -> string

  /** The state every sink carries. */
  datatype BaseSink = BaseSink(
    name: string,
    threshold: LogLevel,
    formatter: FormatterConfig,
    os: OperatingSystem)

  /** A call to the sink's write primitive: the formatted line and its level. */
  datatype WriteCall = WriteCall(text: string, level: LogLevel)

  /** The name-only constructor: default formatter, and a threshold that lets every level through. */
  function NewBaseSink(name: string, m: Macros): (s: BaseSink)
    ensures s.name == name && s.os == DetectOs(m)
    ensures s.formatter == DefaultFormatter
    ensures forall l: LogLevel :: AtLeast(l, s.threshold)
  {
    BaseSink(name, LTrace, DefaultFormatter, DetectOs(m))
  }

  /** The constructors taking a priority and formatter settings (the
      `std::string` and `const char*` overloads behave the same). */
  function NewPrioritisedBaseSink(name: string, priority: LogLevel, outputFormat: string,
                                  decimalPlaces: Unsigned, precision: bool, m: Macros): (s: BaseSink)
    ensures s.name == name && s.os == DetectOs(m)
    ensures s.threshold == priority
    ensures s.formatter.outputFormat == Some(outputFormat)
    ensures s.formatter.decimalPlaces == Some(decimalPlaces)
    ensures s.formatter.precision == Some(precision)
    ensures s.formatter.timeZone == None
  {
    BaseSink(name, priority, FormatterConfig(Some(outputFormat), Some(decimalPlaces), Some(precision), None), DetectOs(m))
  }

  /** The levels a threshold lets through: the tail of `AllLevels` from the threshold on. */
  function EnabledLevels(threshold: LogLevel): set<LogLevel> {
    set i | Rank(threshold) <= i < |AllLevels| :: AllLevels[i]
  }

  /** The body shared by all twelve level methods: when `level` is at or
      above the threshold, format the message with the sink's own name and
      level and hand the result, with that same level, to the write
      primitive; otherwise do nothing at all (`None`: no formatting, no write).
      The plain overload is the call with no `args`. */
  function Emit(s: BaseSink, level: LogLevel, template: string, args: seq<Value>, format: Formatter): (r: Option<WriteCall>)
    ensures r.Some? <==> level in EnabledLevels(s.threshold)
    ensures r.Some? ==> r.value.level == level
    ensures r.Some? ==> r.value.text == format(s.formatter, s.name, level, template, args)
  {
    AllLevelsEnumerated();
    assert AllLevels[Rank(level)] == level;
    if AtLeast(level, s.threshold) then Some(WriteCall(format(s.formatter, s.name, level, template, args), level))
    else None
  }

  function Trace(s: BaseSink, template: string, args: seq<Value>, format: Formatter): Option<WriteCall> {
    Emit(s, LTrace, template, args, format)
  }

  function Debug(s: BaseSink, template: string, args: seq<Value>, format: Formatter): Option<WriteCall> {
    Emit(s, LDebug, template, args, format)
  }

  function Info(s: BaseSink, template: string, args: seq<Value>, format: Formatter): Option<WriteCall> {
    Emit(s, LInfo, template, args, format)
  }

  function Warning(s: BaseSink, template: string, args: seq<Value>, format: Formatter): Option<WriteCall> {
    Emit(s, LWarning, template, args, format)
  }

  function Error(s: BaseSink, template: string, args: seq<Value>, format: Formatter): Option<WriteCall> {
    Emit(s, LError, template, args, format)
  }

  function Fatal(s: BaseSink, template: string, args: seq<Value>, format: Formatter): Option<WriteCall> {
    Emit(s, LFatal, template, args, format)
  }

  /** The level method for a level. */
  function EntryPoint(level: LogLevel): (BaseSink, string, seq<Value>, Formatter) -> Option<WriteCall> {
    match level
    case LTrace => Trace
    case LDebug => Debug
    case LInfo => Info
    case LWarning => Warning
    case LError => Error
    case LFatal => Fatal
  }

  /** Over all 6x6 level/threshold pairs and both overload shapes: the
      level method for L writes iff L >= threshold, and what it writes is
      the formatter's output for L, tagged with L. */
  lemma {:induction false} EntryPointsGate(s: BaseSink, level: LogLevel, template: string, args: seq<Value>, format: Formatter)
    ensures EntryPoint(level)(s, template, args, format).Some? <==> AtLeast(level, s.threshold)
    ensures AtLeast(level, s.threshold) ==>
      EntryPoint(level)(s, template, args, format) == Some(WriteCall(format(s.formatter, s.name, level, template, args), level))
  {
    var r := Emit(s, level, template, args, format);
    assert EntryPoint(level)(s, template, args, format) == r;
    EnabledIsAtLeast(s.threshold, level);
  }

  /** The enabled set is exactly the levels at or above the threshold. */
  lemma EnabledIsAtLeast(threshold: LogLevel, level: LogLevel)
    ensures level in EnabledLevels(threshold) <==> AtLeast(level, threshold)
  {
    AllLevelsEnumerated();
    if level in EnabledLevels(threshold) {
      var i :| Rank(threshold) <= i < |AllLevels| && AllLevels[i] == level;
      assert Rank(level) == i;
    } else {
      assert AllLevels[Rank(level)] == level;
    }
  }

  /** A threshold of rank k lets through exactly 6 - k levels, and raising
      the threshold only removes levels. */
  lemma {:induction false} EnabledLevelsShrink(t1: LogLevel, t2: LogLevel)
    ensures |EnabledLevels(t1)| == 6 - Rank(t1)
    ensures Rank(t1) <= Rank(t2) ==> EnabledLevels(t2) <= EnabledLevels(t1)
  {
    AllLevelsEnumerated();
    var k := Rank(t1);
    assert EnabledLevels(t1) == set l | l in AllLevels[k..];
    DistinctSeqCard(AllLevels[k..]);
    forall l | l in EnabledLevels(t2) && Rank(t1) <= Rank(t2)
      ensures l in EnabledLevels(t1)
    {
      EnabledIsAtLeast(t2, l);
      EnabledIsAtLeast(t1, l);
    }
  }

  /** A sequence without repeats has as many distinct elements as entries. */
  lemma {:induction false} DistinctSeqCard<T>(xs: seq<T>)
    requires forall i, j :: 0 <= i < j < |xs| ==> xs[i] != xs[j]
    ensures |set x | x in xs| == |xs|
    decreases |xs|
  {
    if |xs| > 0 {
      DistinctSeqCard(xs[1..]);
      assert (set x | x in xs) == {xs[0]} + (set x | x in xs[1..]);
      assert xs[0] !in (set x | x in xs[1..]);
    }
  }

  /** Replaces the threshold and nothing else. */
  function SetLogPriority(s: BaseSink, newLevel: LogLevel): (r: BaseSink)
    ensures r.name == s.name && r.formatter == s.formatter && r.os == s.os
    ensures r.threshold == newLevel
  {
    s.(threshold := newLevel)
  }

  /** Reconfigures the owned formatter: format string and time zone always;
      decimal places only when precision is switched on, otherwise
      precision is switched off and decimal places stay as they were. The
      threshold, name and platform are not touched. */
  function SetFormattingProperties(s: BaseSink, outputFormat: string, decimalPlaces: Unsigned,
                                   setPrecision: bool, timeZone: TimeZone): (r: BaseSink)
    ensures r.name == s.name && r.threshold == s.threshold && r.os == s.os
    ensures r.formatter.outputFormat == Some(outputFormat)
    ensures r.formatter.timeZone == Some(timeZone)
    ensures r.formatter.precision == Some(setPrecision)
    ensures setPrecision ==> r.formatter.decimalPlaces == Some(decimalPlaces)
    ensures !setPrecision ==> r.formatter.decimalPlaces == s.formatter.decimalPlaces
  {
    var f := s.formatter.(outputFormat := Some(outputFormat));
    var f := if setPrecision then f.(precision := Some(true), decimalPlaces := Some(decimalPlaces))
             else f.(precision := Some(false));
    s.(formatter := f.(timeZone := Some(timeZone)))
  }

  /** Reconfiguring the formatter never changes which levels are written,
      and applying the same settings twice is the same as applying them once. */
  lemma FormattingKeepsFilter(s: BaseSink, outputFormat: string, decimalPlaces: Unsigned,
                              setPrecision: bool, timeZone: TimeZone, level: LogLevel,
                              template: string, args: seq<Value>, format: Formatter)
    ensures Emit(SetFormattingProperties(s, outputFormat, decimalPlaces, setPrecision, timeZone), level, template, args, format).Some?
        <==> Emit(s, level, template, args, format).Some?
    ensures var r := SetFormattingProperties(s, outputFormat, decimalPlaces, setPrecision, timeZone);
      SetFormattingProperties(r, outputFormat, decimalPlaces, setPrecision, timeZone) == r
  {
  }

  /** Threshold changes apply to later calls: with the default threshold a
      DEBUG call is written; after setting INFO a DEBUG call is dropped
      while an INFO call is still written. */
  lemma ThresholdChangeScenario(name: string, m: Macros, template: string, format: Formatter)
    ensures Debug(NewBaseSink(name, m), template, [], format).Some?
    ensures var s := SetLogPriority(NewBaseSink(name, m), LInfo);
      Debug(s, template, [], format) == None && Info(s, template, [], format).Some?
  {
  }
}
