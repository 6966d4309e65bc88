/** The plain console sink: its write primitive prints the line and a
    line terminator, with no colour handling. */
module ConsoleSinks {
  import opened Common
  import opened Output

  /** The write primitive: prints the message followed by a newline and nothing else. */
  function Log(message: string, level: LogLevel): (effects: seq<Effect>)
    ensures forall e | e in effects :: e.Print?
    ensures Printed(effects) == message + "\n"
    ensures |effects| == 1
  {
    [Print(message + "\n")]
  }

  /** What is printed does not depend on the level. */
  lemma LogIgnoresLevel(message: string, l1: LogLevel, l2: LogLevel)
    ensures Log(message, l1) == Log(message, l2)
  {
  }

  /** On a terminal, a write adds the line to the screen in the current
      attribute and never changes the attribute. */
  lemma LogOnTerminal(term: Terminal, message: string, level: LogLevel)
    ensures Play(term, Log(message, level))
         == Terminal(term.attribute, term.screen + Paint(message + "\n", term.attribute))
  {
    PlayOne(term, Print(message + "\n"));
  }

  /** The first `k` characters hold neither '%' nor '\0'. */
  predicate PlainUpTo(format: string, k: nat)
    requires k <= |format|
  {
    forall i :: 0 <= i < k ==> format[i] != '%' && format[i] != '\0'
  }

  /** No character is '%'. */
  predicate PercentFree(s: string) {
    forall i :: 0 <= i < |s| ==> s[i] != '%'
  }

  /** No character is '\0'. */
  predicate NulFree(s: string) {
    forall i :: 0 <= i < |s| ==> s[i] != '\0'
  }

  /** What `printf` prints when the message itself is passed as the format
      string and no arguments follow. The format ends at the first '\0' of
      the C string, each "%%" becomes "%", and any other conversion reads
      an argument that was never passed, which is undefined (`None`).
      Text without '%' or '\0' is printed as is. */
  function PrintfAsWritten(format: string): (r: Option<string>)
    ensures r.Some? ==> |r.value| <= |format|
    ensures PlainUpTo(format, |format|) ==> r == Some(format)
    ensures PercentFree(format) ==> r.Some? && r.value <= format && NulFree(r.value)
    decreases |format|
  {
    if |format| == 0 then Some("")
    else if format[0] == '\0' then Some("")
    else if format[0] != '%' then
      assert format == [format[0]] + format[1..];
      match PrintfAsWritten(format[1..])
      case None => None
      case Some(rest) => Some([format[0]] + rest)
    else if |format| >= 2 && format[1] == '%' then
      match PrintfAsWritten(format[2..])
      case None => None
      case Some(rest) => Some("%" + rest)
    else None
  }

  /** Text printed before an output, which stays undefined when the output is. */
  function Prepend(prefix: string, r: Option<string>): Option<string> {
    match r
    case None => None
    case Some(rest) => Some(prefix + rest)
  }

  /** A first character that is neither '%' nor '\0' is printed as is,
      before the output of the rest. */
  lemma PrintfPlainFirst(format: string)
    requires |format| > 0 && format[0] != '%' && format[0] != '\0'
    ensures PrintfAsWritten(format) == Prepend([format[0]], PrintfAsWritten(format[1..]))
  {
  }

  /** A leading "%%" prints one '%' before the output of the rest. */
  lemma PrintfPercentPairFirst(format: string)
    requires |format| >= 2 && format[0] == '%' && format[1] == '%'
    ensures PrintfAsWritten(format) == Prepend("%", PrintfAsWritten(format[2..]))
  {
  }

  /** Printing one prefix and then another is printing both at once. */
  lemma PrependTwice(a: string, b: string, r: Option<string>)
    ensures Prepend(a, Prepend(b, r)) == Prepend(a + b, r)
  {
    match r
    case None =>
    case Some(rest) => assert a + (b + rest) == a + b + rest;
  }

  /** Dropping the first character of a plain run leaves a plain run. */
  lemma PlainTail(plain: string)
    requires |plain| > 0 && PlainUpTo(plain, |plain|)
    ensures plain[0] != '%' && plain[0] != '\0' && PlainUpTo(plain[1..], |plain| - 1)
  {
    forall i | 0 <= i < |plain| - 1 ensures plain[1..][i] != '%' && plain[1..][i] != '\0' {
      assert plain[1..][i] == plain[i + 1];
    }
  }

  /** A plain first character in front of any format is printed as is. */
  lemma PrintfPlainCons(c: char, format: string)
    requires c != '%' && c != '\0'
    ensures PrintfAsWritten([c] + format) == Prepend([c], PrintfAsWritten(format))
  {
    assert ([c] + format)[0] == c && ([c] + format)[1..] == format;
    PrintfPlainFirst([c] + format);
  }

  /** Plain text followed by any format: the text is copied unchanged and
      the format after it is printed on its own. */
  lemma {:induction false} PrintfPlainConcat(plain: string, rest: string)
    requires PlainUpTo(plain, |plain|)
    ensures PrintfAsWritten(plain + rest) == Prepend(plain, PrintfAsWritten(rest))
    decreases |plain|
  {
    if |plain| == 0 {
      assert plain + rest == rest;
      match PrintfAsWritten(rest)
      case None =>
      case Some(out) => assert plain + out == out;
    } else {
      var c, more := plain[0], plain[1..];
      PlainTail(plain);
      PrintfPlainConcat(more, rest);
      assert plain + rest == [c] + (more + rest);
      PrintfPlainCons(c, more + rest);
      assert [c] + more == plain;
      PrependTwice([c], more, PrintfAsWritten(rest));
    }
  }

  /** A leading run without '%' or '\0' is copied to the output unchanged,
      and what follows it is printed as a format of its own. */
  lemma PrintfPlainPrefix(format: string, k: nat)
    requires k <= |format| && PlainUpTo(format, k)
    ensures PrintfAsWritten(format) == Prepend(format[..k], PrintfAsWritten(format[k..]))
  {
    assert PlainUpTo(format[..k], k);
    assert format[..k] + format[k..] == format;
    PrintfPlainConcat(format[..k], format[k..]);
  }

  /** The output is the format up to its first '\0' when no '%' comes
      before it: the rest of the line, newline included, is lost. */
  lemma PrintfStopsAtFirstNul(format: string, k: nat)
    requires k < |format| && format[k] == '\0' && PlainUpTo(format, k)
    ensures PrintfAsWritten(format) == Some(format[..k])
  {
    PrintfPlainPrefix(format, k);
    assert format[..k] + "" == format[..k];
  }

  /** At the first '%', a following '%' prints one '%' and printing goes
      on after the pair. */
  lemma PrintfEscapedPercent(format: string, k: nat)
    requires k + 1 < |format| && format[k] == '%' && format[k + 1] == '%' && PlainUpTo(format, k)
    ensures PrintfAsWritten(format) == Prepend(format[..k] + "%", PrintfAsWritten(format[k + 2..]))
  {
    PrintfPlainPrefix(format, k);
    assert format[k..][2..] == format[k + 2..];
    PrintfPercentPairFirst(format[k..]);
    PrependTwice(format[..k], "%", PrintfAsWritten(format[k + 2..]));
  }

  /** At the first '%', anything other than a second '%' (the end of the
      string included) is a conversion with no argument: undefined. */
  lemma PrintfConversionUndefined(format: string, k: nat)
    requires k < |format| && format[k] == '%' && PlainUpTo(format, k)
    requires k + 1 == |format| || format[k + 1] != '%'
    ensures PrintfAsWritten(format).None?
  {
    PrintfPlainPrefix(format, k);
  }

  /** Where the message holds neither '%' nor '\0', the source's `printf`
      call prints exactly what the verbatim write primitive prints. */
  lemma PrintfAgreesWithoutPercent(message: string, level: LogLevel)
    requires PlainUpTo(message, |message|)
    ensures PrintfAsWritten(message + "\n") == Some(Printed(Log(message, level)))
  {
    var line := message + "\n";
    assert PlainUpTo(line, |line|);
  }

  /** A '\0' in the message cuts the line short: "a\0b" prints as "a",
      without its newline. */
  lemma PrintfStopsAtNul(level: LogLevel)
    ensures PrintfAsWritten("a\0b\n") == Some("a")
    ensures Printed(Log("a\0b", level)) == "a\0b\n"
  {
    assert "a\0b\n"[1..] == "\0b\n";
    assert PrintfAsWritten("\0b\n") == Some("");
    assert ['a'] + "" == "a";
  }

  /** But a message containing '%' is not printed verbatim: "100%%" comes
      out as "100%", and "%s" reads a missing argument. */
  lemma PrintfMangledPercent(level: LogLevel)
    ensures PrintfAsWritten("100%%\n") == Some("100%\n")
    ensures Printed(Log("100%%", level)) == "100%%\n"
    ensures PrintfAsWritten("%s\n") == None
  {
    assert "\n"[1..] == "";
    assert PrintfAsWritten("\n") == Some("\n");
    assert "%%\n"[0] == '%' && "%%\n"[1] == '%' && "%%\n"[2..] == "\n" && "%" + "\n" == "%\n";
    assert PrintfAsWritten("%%\n") == Some("%\n");
    assert "0%%\n"[1..] == "%%\n" && ['0'] + "%\n" == "0%\n";
    assert PrintfAsWritten("0%%\n") == Some("0%\n");
    assert "00%%\n"[1..] == "0%%\n" && ['0'] + "0%\n" == "00%\n";
    assert PrintfAsWritten("00%%\n") == Some("00%\n");
    assert "100%%\n"[1..] == "00%%\n" && ['1'] + "00%\n" == "100%\n";
  }
}
