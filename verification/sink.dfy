/** A sink of any variant: the shared base state plus the destination's
    own state, the virtual write primitive that dispatches on the variant,
    and the level entry point that filters, formats and writes. A call's
    outcome is the sink afterwards and the console effects it produced. */
module Sinks {
  import opened Common
  import opened Output
  import opened BaseSinks
  import ConsoleSinks
  import ColourSinks
  import FileSinks

  /** The destination-specific state of each variant. */
  datatype Destination =
    | ConsoleOut
    | ColourConsoleOut(colours: ColourSinks.ColourTable)
    | FileOut(file: FileSinks.FileSink)

  /** Which variant a sink is, as a checked downcast would tell. */
  datatype SinkKind = ConsoleKind | ColourConsoleKind | FileKind

  datatype Sink = Sink(base: BaseSink, dest: Destination) {
    function Kind(): SinkKind {
      match dest
      case ConsoleOut => ConsoleKind
      case ColourConsoleOut(_) => ColourConsoleKind
      case FileOut(_) => FileKind
    }
  }

  /** The sink after a call and the console effects the call produced, in order. */
  datatype Outcome = Outcome(sink: Sink, effects: seq<Effect>)

  /** A console sink, built with the name-only base constructor. */
  function NewConsoleSink(name: string, m: Macros): (s: Sink)
    ensures s.Kind() == ConsoleKind
    ensures s.base == NewBaseSink(name, m)
    ensures s.base.name == name && s.base.threshold == LTrace && s.base.os == DetectOs(m)
  {
    Sink(NewBaseSink(name, m), ConsoleOut)
  }

  /** A colour console sink with the default colour table. */
  function NewColourSink(name: string, m: Macros): (s: Sink)
    ensures s.Kind() == ColourConsoleKind && s.dest.colours == ColourSinks.DefaultColours()
    ensures s.base == NewBaseSink(name, m)
    ensures s.base.name == name && s.base.threshold == LTrace && s.base.os == DetectOs(m)
  {
    Sink(NewBaseSink(name, m), ColourConsoleOut(ColourSinks.DefaultColours()))
  }

  /** A file sink; `existing` and `openOk` stand for the file system. */
  function NewFileSink(name: string, fileName: string, filePath: string, overwrite: bool,
                       m: Macros, existing: string, openOk: bool): (s: Sink)
    ensures s.Kind() == FileKind
    ensures s.dest.file.path == filePath + fileName && s.dest.file.isOpen == openOk
    ensures s.dest.file == FileSinks.OpenFile(fileName, filePath, overwrite, existing, openOk)
    ensures overwrite && openOk ==> s.dest.file.content == ""
    ensures !(overwrite && openOk) ==> s.dest.file.content == existing
    ensures s.base == NewBaseSink(name, m)
    ensures s.base.name == name && s.base.threshold == LTrace && s.base.os == DetectOs(m)
  {
    Sink(NewBaseSink(name, m), FileOut(FileSinks.OpenFile(fileName, filePath, overwrite, existing, openOk)))
  }

  /** The virtual write primitive, dispatched on the variant. The console
      variants print and keep their state; the file variant prints nothing
      and updates its file. */
  function Write(s: Sink, message: string, level: LogLevel): (o: Outcome)
    ensures o.sink.base == s.base && o.sink.Kind() == s.Kind()
    ensures !s.dest.FileOut? ==> o.sink == s
    ensures s.dest.ConsoleOut? ==> o.effects == ConsoleSinks.Log(message, level)
    ensures s.dest.ColourConsoleOut? ==> o.effects == ColourSinks.Log(s.base.os, s.dest.colours, message, level)
    ensures s.dest.FileOut? ==> o.effects == [] && o.sink.dest.file == FileSinks.Log(s.dest.file, message)
  {
    match s.dest
    case ConsoleOut => Outcome(s, ConsoleSinks.Log(message, level))
    case ColourConsoleOut(t) => Outcome(s, ColourSinks.Log(s.base.os, t, message, level))
    case FileOut(f) => Outcome(s.(dest := FileOut(FileSinks.Log(f, message))), [])
  }

  /** A level method on a sink of any variant: below the threshold the
      call changes nothing and produces nothing; otherwise the formatted
      message reaches the variant's write primitive with the call's level. */
  function Log(s: Sink, level: LogLevel, template: string, args: seq<Value>, format: Formatter): (o: Outcome)
    ensures !AtLeast(level, s.base.threshold) ==> o == Outcome(s, [])
    ensures AtLeast(level, s.base.threshold) ==>
      o == Write(s, format(s.base.formatter, s.base.name, level, template, args), level)
  {
    EnabledIsAtLeast(s.base.threshold, level);
    match Emit(s.base, level, template, args, format)
    case None => Outcome(s, [])
    case Some(w) => Write(s, w.text, w.level)
  }

  /** `set_log_priority` on a sink of any variant. */
  function SetLogPriority(s: Sink, level: LogLevel): (r: Sink)
    ensures r.dest == s.dest && r.base.name == s.base.name && r.base.threshold == level
    ensures r.base.formatter == s.base.formatter && r.base.os == s.base.os
  {
    s.(base := BaseSinks.SetLogPriority(s.base, level))
  }

  /** Off Windows the colour sink's write is exactly the plain console write. */
  lemma ColourLogOffWindowsIsPlain(os: OperatingSystem, t: ColourSinks.ColourTable, message: string, level: LogLevel)
    requires os != Windows
    ensures ColourSinks.Log(os, t, message, level) == ConsoleSinks.Log(message, level)
  {
  }

  /** Logging never changes a sink's name, threshold, formatter, platform or
      variant, and the only state it can change is a file sink's content,
      which it only extends: by the formatted line and a newline when the
      level passes and the file is open, by nothing otherwise. */
  lemma LogOnlyExtendsFile(s: Sink, level: LogLevel, template: string, args: seq<Value>, format: Formatter)
    ensures var o := Log(s, level, template, args, format);
      o.sink.base == s.base && o.sink.Kind() == s.Kind()
    ensures var o := Log(s, level, template, args, format);
      !s.dest.FileOut? ==> o.sink == s
    ensures var o := Log(s, level, template, args, format);
      s.dest.FileOut? ==>
        o.effects == [] &&
        o.sink.dest.file.content ==
          s.dest.file.content +
          (if AtLeast(level, s.base.threshold) && s.dest.file.isOpen
           then format(s.base.formatter, s.base.name, level, template, args) + "\n" else "")
  {
  }

  /** On a colour sink built on Windows, a call that passes the threshold
      sets the level's colour, prints the formatted line and resets to the
      default attribute, in that order; one that does not pass emits nothing. */
  lemma ColourSinkSequence(s: Sink, level: LogLevel, template: string, args: seq<Value>, format: Formatter)
    requires s.dest.ColourConsoleOut? && s.base.os == Windows
    ensures var o := Log(s, level, template, args, format);
      AtLeast(level, s.base.threshold) ==>
        o.effects == [SetAttr(ColourSinks.WindowsAttribute(ColourSinks.ColourFor(s.dest.colours, level))),
                      Print(format(s.base.formatter, s.base.name, level, template, args) + "\n"),
                      SetAttr(7)]
    ensures var o := Log(s, level, template, args, format);
      !AtLeast(level, s.base.threshold) ==> o.effects == []
  {
  }

  /** A threshold change applies to later calls. On a file sink opened for
      appending: a DEBUG call passes under the default threshold; after the
      threshold is set to INFO, a DEBUG call adds nothing and an INFO call
      adds its line. */
  lemma ThresholdScenario(name: string, fileName: string, m: Macros, format: Formatter)
    ensures
      var s0 := NewFileSink(name, fileName, "", false, m, "", true);
      var d := format(s0.base.formatter, name, LDebug, "d", []);
      var i := format(s0.base.formatter, name, LInfo, "i", []);
      var s1 := Log(s0, LDebug, "d", [], format).sink;
      var s2 := SetLogPriority(s1, LInfo);
      var s3 := Log(s2, LDebug, "d", [], format).sink;
      var s4 := Log(s3, LInfo, "i", [], format).sink;
      s1.dest.file.content == d + "\n" && s3 == s2 && s4.dest.file.content == d + "\n" + i + "\n"
  {
  }
}
