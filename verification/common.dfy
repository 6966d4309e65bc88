/** The enumerations every sink shares: the six logging levels and their
    order, the time zones the formatter accepts, and the colours a colour
    console sink can assign to a level. */
module Common {

  /** Some/None, standing in for a shared handle that may be null. */
  datatype Option<+T> = None | Some(value: T)

  /** The logging levels, declared from least to most severe. */
  datatype LogLevel = LTrace | LDebug | LInfo | LWarning | LError | LFatal

  /** The numeric value the source gives each level's enumerator. */
  function Rank(level: LogLevel): (n: nat)
    ensures n < 6
    ensures LevelOf(n) == level
  {
    match level
    case LTrace => 0
    case LDebug => 1
    case LInfo => 2
    case LWarning => 3
    case LError => 4
    case LFatal => 5
  }

  /** The level whose enumerator has value `n`. */
  function LevelOf(n: nat): LogLevel
    requires n < 6
  {
    if n == 0 then LTrace
    else if n == 1 then LDebug
    else if n == 2 then LInfo
    else if n == 3 then LWarning
    else if n == 4 then LError
    else LFatal
  }

  /** `Rank` and `LevelOf` are inverse: the levels are exactly the values 0..5. */
  lemma LevelOfRank(n: nat)
    requires n < 6
    ensures Rank(LevelOf(n)) == n
  {
  }

  /** The comparison `level >= threshold` on the enumeration. */
  predicate AtLeast(level: LogLevel, threshold: LogLevel) {
    Rank(level) >= Rank(threshold)
  }

  /** Strictly less severe. */
  predicate Below(a: LogLevel, b: LogLevel) {
    Rank(a) < Rank(b)
  }

  /** Every level, in order of severity. */
  const AllLevels: seq<LogLevel> := [LTrace, LDebug, LInfo, LWarning, LError, LFatal]

  /** There are exactly six levels; `AllLevels` lists each once, in rank order. */
  lemma AllLevelsEnumerated()
    ensures |AllLevels| == 6
    ensures forall i :: 0 <= i < |AllLevels| ==> Rank(AllLevels[i]) == i
    ensures forall l: LogLevel :: l in AllLevels
    ensures forall i, j :: 0 <= i < j < |AllLevels| ==> AllLevels[i] != AllLevels[j]
  {
    forall l: LogLevel
      ensures l in AllLevels
    {
      assert AllLevels[Rank(l)] == l;
    }
  }

  /** `Below` is a strict total order, and the chain
      TRACE < DEBUG < INFO < WARNING < ERROR < FATAL holds. */
  lemma LevelOrderIsStrictTotal()
    ensures forall a: LogLevel :: !Below(a, a)
    ensures forall a: LogLevel, b: LogLevel, c: LogLevel :: Below(a, b) && Below(b, c) ==> Below(a, c)
    ensures forall a: LogLevel, b: LogLevel :: a == b || Below(a, b) || Below(b, a)
    ensures Below(LTrace, LDebug) && Below(LDebug, LInfo) && Below(LInfo, LWarning)
    ensures Below(LWarning, LError) && Below(LError, LFatal)
  {
    forall a: LogLevel, b: LogLevel
      ensures a == b || Below(a, b) || Below(b, a)
    {
      if Rank(a) == Rank(b) {
        assert a == LevelOf(Rank(a)) == LevelOf(Rank(b)) == b;
      }
    }
  }

  /** The time zones the formatter can render. */
  datatype TimeZone = Utc | Colombo

  /** The numeric value the source gives each time zone's enumerator. */
  function ZoneValue(zone: TimeZone): (n: int)
    ensures n == 0 <==> zone == Utc
    ensures n == 2 <==> zone == Colombo
  {
    match zone
    case Utc => 0
    case Colombo => 2
  }

  /** The colours a colour sink can use, in declaration order. */
  datatype Colour = Default | White | Blue | Cyan | Red | Green | Yellow

  /** Every colour, in declaration order. */
  const AllColours: seq<Colour> := [Default, White, Blue, Cyan, Red, Green, Yellow]

  /** The colours a level can be displayed in: every colour except the reset colour. */
  const DisplayColours: seq<Colour> := AllColours[1..]

  /** There are exactly seven colours; `Default` is not one of the six display colours. */
  lemma ColoursEnumerated()
    ensures |AllColours| == 7
    ensures forall c: Colour :: c in AllColours
    ensures forall i, j :: 0 <= i < j < |AllColours| ==> AllColours[i] != AllColours[j]
    ensures |DisplayColours| == 6 && Default !in DisplayColours
    ensures forall c: Colour :: c != Default <==> c in DisplayColours
  {
    forall c: Colour
      ensures c in AllColours
    {
      match c
      case Default => assert AllColours[0] == c;
      case White => assert AllColours[1] == c;
      case Blue => assert AllColours[2] == c;
      case Cyan => assert AllColours[3] == c;
      case Red => assert AllColours[4] == c;
      case Green => assert AllColours[5] == c;
      case Yellow => assert AllColours[6] == c;
    }
  }
}
