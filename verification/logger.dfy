/** The registry: an ordered list of (name, sink) entries with pairwise
    distinct names. Creating a sink under a name that is taken does
    nothing; lookup by name yields the sink or nothing; a colour change
    reaches a sink only when it is a colour console sink. */
module Logger {
  import opened Common
  import opened BaseSinks
  import opened Sinks
  import ColourSinks

  datatype Entry = Entry(name: string, sink: Sink)

  type Registry = seq<Entry>

  /** No two entries share a name. */
  predicate NamesUnique(reg: Registry) {
    forall i, j :: 0 <= i < j < |reg| ==> reg[i].name != reg[j].name
  }

  /** Some entry is called `name`. */
  predicate Registered(reg: Registry, name: string) {
    exists i :: 0 <= i < |reg| && reg[i].name == name
  }

  /** The scan both lookups perform: the index of the first entry called
      `name`, or nothing when there is none. */
  function Find(reg: Registry, name: string): (r: Option<nat>)
    ensures r.None? <==> !Registered(reg, name)
    ensures r.Some? ==> r.value < |reg| && reg[r.value].name == name
    ensures r.Some? ==> forall j :: 0 <= j < r.value ==> reg[j].name != name
    decreases |reg|
  {
    if |reg| == 0 then None
    else if reg[0].name == name then Some(0)
    else
      match Find(reg[1..], name)
      case None => None
      case Some(i) => Some(i + 1)
  }

  /** In a registry with unique names, the entry found is the only one called `name`. */
  lemma FindUnique(reg: Registry, name: string, i: nat)
    requires NamesUnique(reg) && i < |reg| && reg[i].name == name
    ensures Find(reg, name) == Some(i)
  {
  }

  /** `sink_exists`: whether an entry is called `name`. */
  function SinkExists(reg: Registry, name: string): (b: bool)
    ensures b <==> Registered(reg, name)
  {
    Find(reg, name).Some?
  }

  /** `get_sink_ptr`: the sink of the first entry called `name`, or null. */
  function GetSinkPtr(reg: Registry, name: string): (r: Option<Sink>)
    ensures r.None? <==> !Registered(reg, name)
    ensures r.Some? ==> Entry(name, r.value) in reg
  {
    match Find(reg, name)
    case None => None
    case Some(i) => Some(reg[i].sink)
  }

  /** Appends a new entry only when the name is free. */
  function Register(reg: Registry, name: string, sink: Sink): (r: Registry)
    ensures Registered(reg, name) ==> r == reg
    ensures !Registered(reg, name) ==> r == reg + [Entry(name, sink)]
    ensures NamesUnique(reg) ==> NamesUnique(r)
  {
    if SinkExists(reg, name) then reg else reg + [Entry(name, sink)]
  }

  function CreateConsoleSink(reg: Registry, name: string, m: Macros): (r: Registry)
    ensures Registered(reg, name) ==> r == reg
    ensures !Registered(reg, name) ==> r == reg + [Entry(name, NewConsoleSink(name, m))]
    ensures NamesUnique(reg) ==> NamesUnique(r)
  {
    Register(reg, name, NewConsoleSink(name, m))
  }

  function CreateConsoleColourSink(reg: Registry, name: string, m: Macros): (r: Registry)
    ensures Registered(reg, name) ==> r == reg
    ensures !Registered(reg, name) ==> r == reg + [Entry(name, NewColourSink(name, m))]
    ensures NamesUnique(reg) ==> NamesUnique(r)
  {
    Register(reg, name, NewColourSink(name, m))
  }

  /** `existing` and `openOk` stand for the file system the sink opens its file in. */
  function CreateFileSink(reg: Registry, name: string, fileName: string, filePath: string, overwrite: bool,
                          m: Macros, existing: string, openOk: bool): (r: Registry)
    ensures Registered(reg, name) ==> r == reg
    ensures !Registered(reg, name) ==> r == reg + [Entry(name, NewFileSink(name, fileName, filePath, overwrite, m, existing, openOk))]
    ensures NamesUnique(reg) ==> NamesUnique(r)
  {
    Register(reg, name, NewFileSink(name, fileName, filePath, overwrite, m, existing, openOk))
  }

  /** `get_sink`: the sink called `name`, or null exactly when there is none. */
  function GetSink(reg: Registry, name: string): (r: Option<Sink>)
    ensures r.None? <==> !Registered(reg, name)
    ensures NamesUnique(reg) ==> forall i :: 0 <= i < |reg| && reg[i].name == name ==> r == Some(reg[i].sink)
  {
    if SinkExists(reg, name) then GetSinkPtr(reg, name) else None
  }

  /** `change_colour`: sets a level's colour on the sink called `name` when
      it is a colour console sink; otherwise nothing changes. Entries other
      than the one found never change, and no entry changes name, base
      state or variant. */
  function ChangeColour(reg: Registry, name: string, colour: Colour, level: LogLevel): (r: Registry)
    ensures |r| == |reg|
    ensures forall i :: 0 <= i < |reg| ==> r[i].name == reg[i].name && r[i].sink.base == reg[i].sink.base
    ensures forall i :: 0 <= i < |reg| ==> r[i].sink.Kind() == reg[i].sink.Kind()
    ensures forall i :: 0 <= i < |reg| && reg[i].name != name ==> r[i] == reg[i]
    ensures (match GetSinkPtr(reg, name) case Some(s) => !s.dest.ColourConsoleOut? case None => true) ==> r == reg
    ensures forall i :: 0 <= i < |reg| && Find(reg, name) == Some(i) && reg[i].sink.dest.ColourConsoleOut? ==>
      r[i].sink.dest.ColourConsoleOut? && r[i].sink.dest.colours == ColourSinks.SetColour(reg[i].sink.dest.colours, colour, level)
  {
    match Find(reg, name)
    case None => reg
    case Some(i) =>
      var s := reg[i].sink;
      match s.dest
      case ColourConsoleOut(t) =>
        reg[i := Entry(name, s.(dest := ColourConsoleOut(ColourSinks.SetColour(t, colour, level))))]
      case _ => reg
  }

  /** After creating a sink under a fresh name, looking that name up gives
      the new sink, of the kind requested. */
  lemma CreateThenGet(reg: Registry, name: string, m: Macros)
    requires NamesUnique(reg) && !Registered(reg, name)
    ensures GetSink(CreateConsoleSink(reg, name, m), name) == Some(NewConsoleSink(name, m))
    ensures GetSink(CreateConsoleColourSink(reg, name, m), name) == Some(NewColourSink(name, m))
    ensures GetSink(CreateConsoleSink(reg, name, m), name).value.Kind() == ConsoleKind
    ensures GetSink(CreateConsoleColourSink(reg, name, m), name).value.Kind() == ColourConsoleKind
  {
    var r1 := CreateConsoleSink(reg, name, m);
    var r2 := CreateConsoleColourSink(reg, name, m);
    assert r1[|reg|].name == name;
    assert r2[|reg|].name == name;
  }

  /** The same for a file sink. */
  lemma CreateFileThenGet(reg: Registry, name: string, fileName: string, filePath: string, overwrite: bool,
                          m: Macros, existing: string, openOk: bool)
    requires NamesUnique(reg) && !Registered(reg, name)
    ensures var r := CreateFileSink(reg, name, fileName, filePath, overwrite, m, existing, openOk);
      GetSink(r, name) == Some(NewFileSink(name, fileName, filePath, overwrite, m, existing, openOk))
      && GetSink(r, name).value.Kind() == FileKind
  {
    var r := CreateFileSink(reg, name, fileName, filePath, overwrite, m, existing, openOk);
    assert r[|reg|].name == name;
  }

  /** Creating a console sink twice under one name leaves exactly one entry
      with that name, and creating a file sink under a name a console sink
      holds keeps the console sink. */
  lemma DuplicateNamesKeepFirst(name: string, fileName: string, m: Macros, existing: string, openOk: bool)
    ensures var r := CreateConsoleSink(CreateConsoleSink([], name, m), name, m);
      r == [Entry(name, NewConsoleSink(name, m))]
    ensures var r := CreateFileSink(CreateConsoleSink([], name, m), name, fileName, "", false, m, existing, openOk);
      GetSink(r, name) == Some(NewConsoleSink(name, m)) && GetSink(r, name).value.Kind() == ConsoleKind
  {
    var r := CreateConsoleSink([], name, m);
    assert r[0].name == name;
  }

  /** A colour change on a colour sink: later lookups see the new colour for
      that level and the old colours for the others. */
  lemma ChangeColourThenGet(reg: Registry, name: string, colour: Colour, level: LogLevel)
    requires NamesUnique(reg)
    requires Registered(reg, name) && GetSink(reg, name).value.dest.ColourConsoleOut?
    ensures var s := GetSink(ChangeColour(reg, name, colour, level), name);
      s.Some? && s.value.dest.ColourConsoleOut?
      && ColourSinks.ColourFor(s.value.dest.colours, level) == colour
      && forall l: LogLevel :: l != level ==>
           ColourSinks.ColourFor(s.value.dest.colours, l) == ColourSinks.ColourFor(GetSink(reg, name).value.dest.colours, l)
  {
    var i := Find(reg, name).value;
    var r := ChangeColour(reg, name, colour, level);
    FindUnique(r, name, i);
  }

  /** The registry operations a caller can issue. */
  datatype Command =
    | CreateConsole(name: string)
    | CreateColour(name: string)
    | CreateFile(name: string, fileName: string, filePath: string, overwrite: bool, existing: string, openOk: bool)
    | SetColour(name: string, colour: Colour, level: LogLevel)

  /** The registry after one command. */
  function Step(reg: Registry, c: Command, m: Macros): Registry {
    match c
    case CreateConsole(n) => CreateConsoleSink(reg, n, m)
    case CreateColour(n) => CreateConsoleColourSink(reg, n, m)
    case CreateFile(n, f, p, o, e, ok) => CreateFileSink(reg, n, f, p, o, m, e, ok)
    case SetColour(n, col, l) => ChangeColour(reg, n, col, l)
  }

  /** The registry after a sequence of commands. */
  function Run(reg: Registry, cs: seq<Command>, m: Macros): Registry
    decreases |cs|
  {
    if |cs| == 0 then reg else Run(Step(reg, cs[0], m), cs[1..], m)
  }

  /** Whatever commands are issued, starting from any registry whose names
      are distinct (the empty one included), the names stay pairwise
      distinct and no registered name is ever lost or moved. */
  lemma {:induction false} RunKeepsNamesUnique(reg: Registry, cs: seq<Command>, m: Macros)
    requires NamesUnique(reg)
    ensures NamesUnique(Run(reg, cs, m))
    ensures |Run(reg, cs, m)| >= |reg|
    ensures forall i :: 0 <= i < |reg| ==> Run(reg, cs, m)[i].name == reg[i].name
    decreases |cs|
  {
    if |cs| > 0 {
      var next := Step(reg, cs[0], m);
      assert NamesUnique(next);
      assert forall i :: 0 <= i < |reg| ==> next[i].name == reg[i].name;
      RunKeepsNamesUnique(next, cs[1..], m);
    }
  }

  /** A colour change on a name nobody registered does nothing. */
  lemma MissingSinkColourExample(m: Macros)
    ensures var reg := CreateConsoleColourSink([], "console", m);
      ChangeColour(reg, "missing", Red, LError) == reg
  {
    var reg := CreateConsoleColourSink([], "console", m);
    assert reg[0].name == "console";
    assert !Registered(reg, "missing");
  }
}
