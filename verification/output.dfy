/** What the console sinks do to standard output, recorded as a trace of
    effects, and a small terminal that gives those traces a meaning: the
    current text attribute and everything printed so far. */
module Output {
  import opened Common

  /** One observable step on the console: set the text attribute (the
      Win32 console call) or print a string. */
  datatype Effect = SetAttr(attribute: int) | Print(text: string)

  /** One character on the screen, with the text attribute it was printed in. */
  datatype Cell = Cell(ch: char, attribute: int)

  /** A console: its current text attribute and everything shown so far,
      character by character. */
  datatype Terminal = Terminal(attribute: int, screen: seq<Cell>)

  /** A string as printed in one attribute. */
  function Paint(s: string, attribute: int): (cells: seq<Cell>)
    ensures |cells| == |s|
    ensures forall i :: 0 <= i < |s| ==> cells[i] == Cell(s[i], attribute)
  {
    seq(|s|, i requires 0 <= i < |s| => Cell(s[i], attribute))
  }

  /** The characters on a screen, without their attributes. */
  function Text(cells: seq<Cell>): (s: string)
    ensures |s| == |cells|
    ensures forall i :: 0 <= i < |cells| ==> s[i] == cells[i].ch
  {
    seq(|cells|, i requires 0 <= i < |cells| => cells[i].ch)
  }

  /** The terminal after one effect: a print shows its text in the current attribute. */
  function Perform(t: Terminal, e: Effect): Terminal {
    match e
    case SetAttr(a) => t.(attribute := a)
    case Print(s) => t.(screen := t.screen + Paint(s, t.attribute))
  }

  /** The terminal after a trace of effects, first to last. */
  function Play(t: Terminal, effects: seq<Effect>): Terminal
    decreases |effects|
  {
    if |effects| == 0 then t else Play(Perform(t, effects[0]), effects[1..])
  }

  /** Everything a trace prints, in order. */
  function Printed(effects: seq<Effect>): string
    decreases |effects|
  {
    if |effects| == 0 then ""
    else (match effects[0] case Print(s) => s case SetAttr(_) => "") + Printed(effects[1..])
  }

  /** The attribute most recently set by a trace, if it sets one. */
  function LastAttr(effects: seq<Effect>): Option<int>
    decreases |effects|
  {
    if |effects| == 0 then None
    else match effects[|effects| - 1]
      case SetAttr(a) => Some(a)
      case Print(_) => LastAttr(effects[..|effects| - 1])
  }

  /** Playing two traces one after the other is playing their concatenation. */
  lemma {:induction false} PlayAppend(t: Terminal, a: seq<Effect>, b: seq<Effect>)
    ensures Play(t, a + b) == Play(Play(t, a), b)
    decreases |a|
  {
    if |a| == 0 {
      assert a + b == b;
    } else {
      assert (a + b)[1..] == a[1..] + b;
      PlayAppend(Perform(t, a[0]), a[1..], b);
    }
  }

  /** The text a trace prints is appended to the screen. */
  lemma {:induction false} PlayPrints(t: Terminal, effects: seq<Effect>)
    ensures Text(Play(t, effects).screen) == Text(t.screen) + Printed(effects)
    decreases |effects|
  {
    if |effects| > 0 {
      var next := Perform(t, effects[0]);
      PlayPrints(next, effects[1..]);
      var shown := match effects[0] case Print(s) => s case SetAttr(_) => "";
      assert Text(next.screen) == Text(t.screen) + shown;
    }
  }

  /** Playing a single effect is performing it. */
  lemma PlayOne(t: Terminal, e: Effect)
    ensures Play(t, [e]) == Perform(t, e)
  {
    assert [e][1..] == [];
  }

  /** After a trace the terminal shows the last attribute the trace set,
      or the attribute it had before when the trace sets none. */
  lemma {:induction false} PlayAttribute(t: Terminal, effects: seq<Effect>)
    ensures Play(t, effects).attribute
         == (match LastAttr(effects) case Some(a) => a case None => t.attribute)
    decreases |effects|
  {
    if |effects| > 0 {
      var init := effects[..|effects| - 1];
      var last := effects[|effects| - 1];
      assert effects == init + [last];
      PlayAppend(t, init, [last]);
      PlayAttribute(t, init);
    }
  }

  /** A trace that ends by setting an attribute leaves that attribute last,
      whatever came before it. */
  lemma LastAttrOfSuffix(prior: seq<Effect>, effects: seq<Effect>, a: int)
    requires |effects| > 0 && effects[|effects| - 1] == SetAttr(a)
    ensures LastAttr(prior + effects) == Some(a)
  {
    assert (prior + effects)[|prior + effects| - 1] == effects[|effects| - 1];
  }
}
