/** The colour console sink: a per-level colour table and a write that
    sets the level's colour, prints the line and resets to the default
    colour. Only Windows changes the console attribute; on Linux the
    colour change is an empty extension point and on other platforms it
    does nothing. */
module ColourSinks {
  import opened Common
  import opened Output
  import opened BaseSinks

  /** One colour per level, as the sink's six fields hold them. */
  datatype ColourTable = ColourTable(
    trace: Colour, debug: Colour, info: Colour,
    warning: Colour, error: Colour, fatal: Colour)

  /** The colour a level is printed in. */
  function ColourFor(t: ColourTable, level: LogLevel): Colour {
    match level
    case LTrace => t.trace
    case LDebug => t.debug
    case LInfo => t.info
    case LWarning => t.warning
    case LError => t.error
    case LFatal => t.fatal
  }

  /** Two tables are equal exactly when they agree on every level. */
  lemma TablesEqual(a: ColourTable, b: ColourTable)
    requires forall l: LogLevel :: ColourFor(a, l) == ColourFor(b, l)
    ensures a == b
  {
    assert ColourFor(a, LTrace) == ColourFor(b, LTrace);
    assert ColourFor(a, LDebug) == ColourFor(b, LDebug);
    assert ColourFor(a, LInfo) == ColourFor(b, LInfo);
    assert ColourFor(a, LWarning) == ColourFor(b, LWarning);
    assert ColourFor(a, LError) == ColourFor(b, LError);
    assert ColourFor(a, LFatal) == ColourFor(b, LFatal);
  }

  /** The colours a new colour sink starts with. */
  function DefaultColours(): (t: ColourTable)
    ensures ColourFor(t, LTrace) == Green && ColourFor(t, LDebug) == Cyan
    ensures ColourFor(t, LInfo) == White && ColourFor(t, LWarning) == Blue
    ensures ColourFor(t, LError) == Yellow && ColourFor(t, LFatal) == Red
  {
    ColourTable(Green, Cyan, White, Blue, Yellow, Red)
  }

  /** The default table gives every level its own display colour, never the reset colour. */
  lemma DefaultColoursDistinct()
    ensures forall l: LogLevel :: ColourFor(DefaultColours(), l) != Default
    ensures forall l1: LogLevel, l2: LogLevel :: l1 != l2 ==> ColourFor(DefaultColours(), l1) != ColourFor(DefaultColours(), l2)
  {
  }

  /** Assigns a colour to one level and leaves the other five alone. */
  function SetColour(t: ColourTable, colour: Colour, level: LogLevel): (r: ColourTable)
    ensures ColourFor(r, level) == colour
    ensures forall l: LogLevel :: l != level ==> ColourFor(r, l) == ColourFor(t, l)
  {
    match level
    case LTrace => t.(trace := colour)
    case LDebug => t.(debug := colour)
    case LInfo => t.(info := colour)
    case LWarning => t.(warning := colour)
    case LError => t.(error := colour)
    case LFatal => t.(fatal := colour)
  }

  /** The last assignment to a level wins. */
  lemma SetColourLastWriteWins(t: ColourTable, c1: Colour, c2: Colour, level: LogLevel)
    ensures SetColour(SetColour(t, c1, level), c2, level) == SetColour(t, c2, level)
  {
    TablesEqual(SetColour(SetColour(t, c1, level), c2, level), SetColour(t, c2, level));
  }

  /** Assignments to different levels do not interfere, so their order does not matter. */
  lemma SetColourCommutes(t: ColourTable, c1: Colour, l1: LogLevel, c2: Colour, l2: LogLevel)
    requires l1 != l2
    ensures SetColour(SetColour(t, c1, l1), c2, l2) == SetColour(SetColour(t, c2, l2), c1, l1)
  {
    TablesEqual(SetColour(SetColour(t, c1, l1), c2, l2), SetColour(SetColour(t, c2, l2), c1, l1));
  }

  /** Re-assigning a level its current colour changes nothing. */
  lemma SetColourCurrentIsNoop(t: ColourTable, level: LogLevel)
    ensures SetColour(t, ColourFor(t, level), level) == t
  {
    TablesEqual(SetColour(t, ColourFor(t, level), level), t);
  }

  /** The Win32 console attribute for a colour. */
  function WindowsAttribute(colour: Colour): (attr: int)
    ensures 7 <= attr <= 15
    ensures attr == 7 <==> colour == Default
  {
    match colour
    case White => 15
    case Cyan => 11
    case Green => 10
    case Blue => 9
    case Yellow => 14
    case Red => 12
    case Default => 7
  }

  /** The red, green and blue bits of a colour's hue, as the Win32
      foreground flags define them (blue 1, green 2, red 4). */
  function Hue(colour: Colour): (bits: int) {
    match colour
    case Default => 7
    case White => 4 + 2 + 1
    case Cyan => 2 + 1
    case Green => 2
    case Blue => 1
    case Yellow => 4 + 2
    case Red => 4
  }

  /** The palette indices are the hue bits, with the intensity bit (8) set
      for every display colour and clear for the default; so no two colours
      share an index. */
  lemma WindowsAttributeIsBrightHue(colour: Colour)
    ensures WindowsAttribute(colour) == if colour == Default then Hue(colour) else 8 + Hue(colour)
    ensures forall other: Colour :: WindowsAttribute(other) == WindowsAttribute(colour) ==> other == colour
  {
  }

  /** The Windows colour change: one attribute effect. */
  function ChangeColourWindows(colour: Colour): seq<Effect> {
    [SetAttr(WindowsAttribute(colour))]
  }

  /** The Linux colour change: an extension point that does nothing for any colour. */
  function ChangeColourLinux(colour: Colour): seq<Effect> {
    []
  }

  /** The colour change for the sink's platform: one attribute effect on
      Windows, nothing on Linux or an unknown platform. */
  function ChangeColour(os: OperatingSystem, colour: Colour): (effects: seq<Effect>)
    ensures os == Windows ==> effects == [SetAttr(WindowsAttribute(colour))]
    ensures os != Windows ==> effects == []
  {
    match os
    case Windows => ChangeColourWindows(colour)
    case Linux => ChangeColourLinux(colour)
    case Unknown => []
  }

  /** The write primitive: the level's colour, the line, then the default
      colour. On Windows that is exactly three effects; elsewhere only the
      line is printed. */
  function Log(os: OperatingSystem, t: ColourTable, message: string, level: LogLevel): (effects: seq<Effect>)
    ensures os == Windows ==>
      effects == [SetAttr(WindowsAttribute(ColourFor(t, level))), Print(message + "\n"), SetAttr(7)]
    ensures os != Windows ==> effects == [Print(message + "\n")]
  {
    ChangeColour(os, ColourFor(t, level)) + [Print(message + "\n")] + ChangeColour(os, Default)
  }

  /** On Windows, whatever was printed before and whatever the level, the
      last attribute set after a write is the default attribute 7. */
  lemma LogEndsWithDefaultAttribute(prior: seq<Effect>, t: ColourTable, message: string, level: LogLevel)
    ensures LastAttr(prior + Log(Windows, t, message, level)) == Some(7)
  {
    LastAttrOfSuffix(prior, Log(Windows, t, message, level), 7);
  }

  /** On a terminal, a write adds the line to the screen. On Windows every
      character of the line is shown in the level's colour and the attribute
      is 7 afterwards; elsewhere the line is shown in the terminal's current
      attribute, which stays as it was. */
  lemma LogOnTerminal(term: Terminal, os: OperatingSystem, t: ColourTable, message: string, level: LogLevel)
    ensures os == Windows ==>
      Play(term, Log(os, t, message, level))
        == Terminal(7, term.screen + Paint(message + "\n", WindowsAttribute(ColourFor(t, level))))
    ensures os != Windows ==>
      Play(term, Log(os, t, message, level))
        == Terminal(term.attribute, term.screen + Paint(message + "\n", term.attribute))
  {
    var line := message + "\n";
    if os == Windows {
      var colour := SetAttr(WindowsAttribute(ColourFor(t, level)));
      var coloured := Perform(term, colour);
      var printed := Perform(coloured, Print(line));
      PlayOne(term, colour);
      PlayOne(coloured, Print(line));
      PlayOne(printed, SetAttr(7));
      assert Log(os, t, message, level) == [colour] + [Print(line)] + [SetAttr(7)];
      PlayAppend(term, [colour] + [Print(line)], [SetAttr(7)]);
      PlayAppend(term, [colour], [Print(line)]);
    } else {
      PlayOne(term, Print(line));
    }
  }
}
