# SyrenLogger in Dafny

A model of the message-routing core of SyrenLogger, a small C++ logging
library. Application code registers named sinks with a `Logger` registry.
There are three kinds of sink: console, colour console and file. It then
logs through a sink at one of six levels.

The model covers four pieces:

- **Priority filter and level dispatch** (`BaseSinks`, `Sinks`).
  - Every level method formats and forwards its message only when its level is at or above the sink's threshold.
  - The threshold defaults to TRACE and can be reassigned.
  - The formatter is a function-typed parameter (`BaseSinks.Formatter`). It receives the formatter settings, the sink name, the level, the template and the positional values.
  - The twelve level methods (plain and positional) are one function, `BaseSinks.Emit`. The plain form is the call with no values.
- **Colour console state machine** (`ColourSinks`).
  - A six-entry colour table with fixed defaults and single-entry updates.
  - A write emits three console effects on Windows: set the level's colour, print the line, reset to the default attribute 7.
  - On Linux and unknown platforms a write only prints.
  - Console effects are recorded as a trace (`Output.Effect`). `Output.Play` interprets a trace on a terminal that has a current attribute and a screen. Each character on the screen carries the attribute it was printed in.
- **Destination write primitives** (`ConsoleSinks`, `FileSinks`).
  - Each appends `"\n"` and writes.
  - A file sink opens `file_path + file_name`, truncating or appending. It ignores writes when the open failed.
  - A file is its content as a string. Whether the open succeeds, and what the file held before, are parameters.
- **Sink registry** (`Logger`).
  - A sequence of (name, sink) entries whose names stay pairwise distinct.
  - Creating a sink under a taken name does nothing.
  - Lookup returns the sink or nothing.
  - A colour change reaches a sink only when that sink is a colour console sink.

Files: `common.dfy` (levels, colours, time zones), `output.dfy` (console
effects and the terminal), `base_sink.dfy`, `console_sink.dfy`,
`console_colour_sink.dfy`, `file_sink.dfy`, `sink.dfy` (variant dispatch
and the full log call), `logger.dfy`.

## Model

| member | source | states |
|---|---|---|
| Common.Rank | src/common.h:6 | each level's value is below 6, and `LevelOf` maps it back to the level, so distinct levels have distinct values |
| Common.LevelOfRank | src/common.h:6 | the values 0..5 are exactly the levels' values: the numbering is a bijection |
| Common.AllLevelsEnumerated | src/common.h:6 | there are exactly six levels; `AllLevels` lists each once, in value order, so every switch over them is total |
| Common.LevelOrderIsStrictTotal | src/common.h:6 | severity is a strict total order, with TRACE<DEBUG<INFO<WARNING<ERROR<FATAL |
| Common.ZoneValue | src/common.h:7 | UTC has value 0 and COLOMBO has value 2, and these are the only two zones |
| Common.ColoursEnumerated | src/common.h:8 | there are exactly seven colours; DEFAULT is not one of the six display colours |
| BaseSinks.ConfigureMacros | src/base_sink.h:12-26 | exactly one of WINDOWS, LINUX, UNKNOWN is 1: WINDOWS when `_WIN32` or `_WIN64` is defined, else LINUX when `__linux` is |
| BaseSinks.DetectOs | src/base_sink.h:219-230 | the platform is Windows iff WINDOWS==1, Linux iff not and LINUX==1, Unknown otherwise, so exactly one is chosen |
| BaseSinks.DetectOsOfTarget | src/base_sink.h:12-26 | the platform a sink records matches the target it is built for |
| BaseSinks.NewBaseSink | src/base_sink.h:48-54 | the name-only constructor keeps the name, uses default formatter settings and lets every level through |
| BaseSinks.NewPrioritisedBaseSink | src/base_sink.h:56-68 | the prioritised constructors set the threshold to the given priority and the formatter's template, decimal places and precision to the given values |
| BaseSinks.Emit | src/base_sink.h:70-182 | a level method writes iff its level is in the threshold's enabled set; the write carries the formatter's output for that level and that same level; otherwise nothing is formatted or written |
| BaseSinks.EntryPointsGate | src/base_sink.h:70-182 | for each of the six level methods, every threshold and both overload shapes, the method writes iff level >= threshold, passing its own level to the formatter and to the write |
| BaseSinks.EnabledIsAtLeast | src/base_sink.h:73 | the enabled set (the tail of the level list from the threshold on) is exactly the levels >= threshold |
| BaseSinks.EnabledLevelsShrink | src/base_sink.h:212-215 | a threshold of value k lets through exactly 6-k levels; raising the threshold only removes levels |
| BaseSinks.SetLogPriority | src/base_sink.h:212-215 | the threshold becomes the new level; name, formatter and platform are unchanged |
| BaseSinks.SetFormattingProperties | src/base_sink.h:184-209 | sets template, time zone and precision flag; decimal places change only when precision is enabled, otherwise they are kept; threshold, name and platform are unchanged |
| BaseSinks.FormattingKeepsFilter | src/base_sink.h:184-209 | reconfiguring the formatter never changes which levels are written, and repeating it changes nothing |
| BaseSinks.ThresholdChangeScenario | src/base_sink.h:99-125 | DEBUG passes under the default threshold; after setting INFO, DEBUG is dropped and INFO passes |
| ColourSinks.DefaultColours | src/console_colour_sink.h:26-34 | a new table maps TRACE→GREEN, DEBUG→CYAN, INFO→WHITE, WARNING→BLUE, ERROR→YELLOW, FATAL→RED |
| ColourSinks.DefaultColoursDistinct | src/console_colour_sink.h:26-34 | in the default table no level is DEFAULT and no two levels share a colour |
| ColourSinks.SetColour | src/console_colour_sink.h:36-57 | the level's entry becomes the new colour and the other five entries are unchanged |
| ColourSinks.SetColourLastWriteWins | src/console_colour_sink.h:36-57 | two assignments to one level equal the second alone |
| ColourSinks.SetColourCommutes | src/console_colour_sink.h:36-57 | assignments to different levels commute |
| ColourSinks.SetColourCurrentIsNoop | src/console_colour_sink.h:36-57 | assigning a level its current colour leaves the table unchanged |
| ColourSinks.WindowsAttribute | src/console_colour_sink.h:106-132 | every palette index lies in 7..15, and it is 7 exactly for DEFAULT |
| ColourSinks.WindowsAttributeIsBrightHue | src/console_colour_sink.h:106-132 | WHITE→15, CYAN→11, GREEN→10, BLUE→9, YELLOW→14, RED→12 are the Win32 foreground hue bits plus the intensity bit; DEFAULT→7 is the hue without intensity; no two colours share an index |
| ColourSinks.ChangeColour | src/console_colour_sink.h:91-152 | on Windows one attribute effect with the colour's palette index (through `ChangeColourWindows`); on Linux (through `ChangeColourLinux`) and Unknown no effect for any colour |
| ColourSinks.Log | src/console_colour_sink.h:62-89 | on Windows exactly three effects: the level's colour, the line with a newline, attribute 7; elsewhere only the line |
| ColourSinks.LogEndsWithDefaultAttribute | src/console_colour_sink.h:86-88 | on Windows, after any earlier output and at any level, the last attribute set is 7 |
| ColourSinks.LogOnTerminal | src/console_colour_sink.h:62-89 | on a terminal a write appends the line to the screen. On Windows every character of the line, newline included, is shown in the level's colour, and the attribute ends at 7. Elsewhere the line is shown in the current attribute, which is left untouched |
| ConsoleSinks.Log | console_sink.h:21-25 | the write prints exactly the message and a newline, as one print effect with no colour effect |
| ConsoleSinks.LogIgnoresLevel | console_sink.h:21-25 | what the console sink prints does not depend on the level |
| ConsoleSinks.LogOnTerminal | console_sink.h:12-26 | on a terminal a write appends the line in the current attribute and never changes the attribute |
| ConsoleSinks.PrintfAsWritten | console_sink.h:23-24 | `printf` with the message as format string: when it is defined the output is no longer than the format; a format with neither '%' nor NUL prints unchanged; a format without '%' is always defined and prints a NUL-free prefix of itself |
| ConsoleSinks.PrintfPlainConcat | console_sink.h:23-24 | for any text with neither '%' nor NUL followed by any format, the text is copied unchanged and the format after it prints on its own |
| ConsoleSinks.PrintfPlainPrefix | console_sink.h:23-24 | for any format, a leading run with neither '%' nor NUL is copied unchanged, and the rest is printed as a format of its own (undefined exactly when the rest is) |
| ConsoleSinks.PrintfStopsAtFirstNul | console_sink.h:23-24 | for any format whose first NUL comes before any '%', the output is exactly the text before that NUL, so the rest of the line and its newline are lost |
| ConsoleSinks.PrintfEscapedPercent | console_sink.h:23-24 | for any format whose first '%' is followed by another '%', the pair prints as one '%' after the text before it, and printing goes on after the pair |
| ConsoleSinks.PrintfConversionUndefined | console_sink.h:23-24 | for any format whose first '%' (with no NUL before it) is followed by anything but '%', or ends the string, the call is undefined |
| ConsoleSinks.PrintfAgreesWithoutPercent | console_sink.h:23-24 | for messages with neither '%' nor NUL the `printf` call and the verbatim write print the same |
| ConsoleSinks.PrintfStopsAtNul | console_sink.h:23-24 | "a\0b" is printed as "a" by `printf`, losing the rest and the newline, but as "a\0b\n" by a verbatim write |
| ConsoleSinks.PrintfMangledPercent | console_sink.h:24 | "100%%" is printed as "100%" by `printf` but as "100%%" by a verbatim write; "%s" is undefined |
| FileSinks.OpenFile | file_sink.h:42-49 | the path opened is `file_path + file_name`; a successful truncating open empties the file; appending, or a failed open, keeps the existing content |
| FileSinks.OpenFileWithDefaults | file_sink.h:20-23 | with the defaults, the path is the bare file name and the file is appended to |
| FileSinks.Log | file_sink.h:34-40 | an open file gets the message and a newline appended; a closed file is unchanged |
| FileSinks.LogAllAppendsLines | file_sink.h:34-40 | after writes m1..mk an open file holds its initial content followed by m1+"\n"…mk+"\n"; a closed file never changes |
| FileSinks.OverwriteExample | file_sink.h:45-46 | truncate, then write "hello": the file holds "hello\n" |
| FileSinks.AppendAcrossInstancesExample | file_sink.h:47-48 | "a" then "b" in append mode, through one sink or through two, gives "a\nb\n" |
| Sinks.NewConsoleSink | console_sink.h:16 | a console sink's base is exactly the name-only base sink: the given name, threshold TRACE, default formatter, detected platform |
| Sinks.NewColourSink | src/console_colour_sink.h:26-34 | a colour sink has the name-only base sink (threshold TRACE, default formatter) and the default colour table |
| Sinks.NewFileSink | file_sink.h:20-23 | a file sink has the name-only base sink and the file `OpenFile` gives: path `file_path + file_name`, emptied by a successful truncating open, otherwise holding its earlier content |
| Sinks.Write | src/base_sink.h:218 | the write primitive dispatches on the variant. Console sinks keep their state and emit their variant's effects. A file sink emits nothing and appends to its file. No write changes the base state or the variant |
| Sinks.Log | src/base_sink.h:70-182 | below the threshold a call changes nothing and emits nothing; otherwise the formatted message reaches the variant's write with the call's level |
| Sinks.SetLogPriority | src/base_sink.h:212-215 | replaces the threshold of a sink of any variant; everything else is unchanged |
| Sinks.LogOnlyExtendsFile | src/base_sink.h:73-77 | logging never changes a sink's name, threshold, formatter, platform or variant; a file's content only grows by the formatted line when the level passes and the file is open |
| Sinks.ColourSinkSequence | src/console_colour_sink.h:62-89 | on a Windows colour sink, a passing call emits set-colour, print, reset in that order; a filtered call emits nothing |
| Sinks.ThresholdScenario | src/base_sink.h:212-215 | on a file sink: DEBUG written, threshold set to INFO, DEBUG dropped, INFO written |
| Sinks.ColourLogOffWindowsIsPlain | src/console_colour_sink.h:93-103 | off Windows the colour sink's write equals the plain console write |
| Logger.Find | logger.h:92-115 | the scan finds the first entry with the name, or nothing exactly when no entry has it |
| Logger.FindUnique | logger.h:104-115 | with unique names the scan finds the only entry with the name |
| Logger.SinkExists | logger.h:92-102 | true exactly when some entry has the name |
| Logger.GetSinkPtr | logger.h:104-115 | null exactly when no entry has the name; otherwise an entry (name, sink) is in the registry |
| Logger.Register | logger.h:53-56 | appends one entry iff the name is free; otherwise the registry is unchanged; unique names stay unique |
| Logger.CreateConsoleSink | logger.h:51-57 | appends a new console sink iff the name is free; otherwise unchanged; unique names stay unique |
| Logger.CreateConsoleColourSink | logger.h:59-65 | appends a new colour sink iff the name is free; otherwise unchanged; unique names stay unique |
| Logger.CreateFileSink | logger.h:67-73 | appends a new file sink iff the name is free; otherwise unchanged; unique names stay unique |
| Logger.GetSink | logger.h:75-83 | null exactly when no entry has the name; with unique names, the sink of the entry with that name |
| Logger.ChangeColour | logger.h:85-89 | only the colour table of the named entry can change, and only when it is a colour sink. With an unknown name or another variant the registry is unchanged. Names, base state and kinds never change |
| Logger.CreateThenGet | logger.h:51-83 | after creating a console or colour sink under a fresh name, lookup returns that new sink, of that kind |
| Logger.CreateFileThenGet | logger.h:67-83 | after creating a file sink under a fresh name, lookup returns that new file sink |
| Logger.DuplicateNamesKeepFirst | logger.h:53-72 | creating "x" twice leaves one entry; creating a file sink under a console sink's name keeps the console sink |
| Logger.ChangeColourThenGet | logger.h:85-89 | after a colour change on a colour sink, lookup shows the new colour for that level and the old colours for the others |
| Logger.RunKeepsNamesUnique | logger.h:51-89 | from any registry with distinct names, after any sequence of create and colour-change calls, names stay pairwise distinct and existing entries keep their names and positions |
| Logger.MissingSinkColourExample | logger.h:85-89 | a colour change on an unregistered name does nothing |

## Left out

- The per-sink `std::mutex` and `std::scoped_lock` are not modelled. Each log call is one atomic step, and calls to one sink are assumed to be serialised. This is an assumption, not a proof.
- The string formatter (`str_fmt.h`) is not part of this model: formatting lies outside the routing core modelled here. It is the `Formatter` parameter. Its default settings are `None` in `FormatterConfig`. Template syntax, precision and time-zone rendering are not modelled.
- BaseSinks.Emit: the formatter is assumed to return normally. In the source nothing catches around the formatter call, so if it throws, nothing is written and the exception reaches the caller of the level method (the sink's lock is released on the way out). The model has no exceptional outcome.
- The variadic overloads collapse into one call per level that takes a sequence of `Value`s. The six wrappers `BaseSinks.Trace` … `BaseSinks.Fatal` carry no contract of their own. `BaseSinks.EntryPointsGate` states their behaviour.
- Win32 calls (`GetStdHandle`, `SetConsoleTextAttribute`) are recorded as `SetAttr` effects. The compile-time platform macros are the `Macros` parameter.
- `printf` interprets its argument as a format string. The model writes messages verbatim instead; see Findings.
- `std::ofstream` mechanics are left out: why an open fails, buffering, flushing, and the close in the destructor. Only the open flag and the content are modelled.
- `shared_ptr` sharing is not modelled. A sink returned by `get_sink` is a copy, so logging through it does not update the registry's entry. In the source both refer to one object.
- `dynamic_cast` is a check on the variant of the tagged `Destination`.
- The private `operator=` stubs with empty bodies have no defined meaning, so they are not modelled.
- The UNKNOWN macro is defined, but no code reads it.
- `<windows.h>` is included, and `GetStdHandle`/`SetConsoleTextAttribute` are compiled, on every platform. So the Linux and Unknown branches can only be built with a toolchain that supplies `windows.h`. The model treats the platform as a free parameter and does not model this build constraint.
- BaseSinks.NewBaseSink: the sink's name is modelled as an immutable copy. The source keeps the caller's `const char*` itself and passes it to the formatter on every call that passes the filter. The registry entry, by contrast, holds its own `std::string` copy. So if a caller reuses or frees the buffer, formatted lines change or read freed memory, while lookups still match the old name. The model assumes the caller's string outlives the sink unchanged.

## Findings

| source | as written | input that shows it | evidently intended | confidence | as-written member | corrected member |
|---|---|---|---|---|---|---|
| console_sink.h:24 | the message is passed to `printf` as its format string | message "100%%" is printed as "100%"; message "%s" reads an argument that was never passed; a formatted line "a\0b" is printed as "a", without its newline | print the message verbatim, followed by a newline | high; not executed | ConsoleSinks.PrintfAsWritten | ConsoleSinks.Log |
| src/console_colour_sink.h:87 | the colour sink passes the message to `printf` as its format string in the same way | message "100%%" is printed as "100%"; message "%s" reads an argument that was never passed | print the message verbatim, followed by a newline | high; not executed | ConsoleSinks.PrintfMangledPercent | ColourSinks.Log |
