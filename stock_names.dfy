/** Conversion of security codes between the terminal's "EXCHANGE.number"
    form (SHSE.600000, SZSE.000001) and the engine's "number.EXCHANGE" form
    (600000.XSHG, 000001.XSHE). */
module StockNames {
  import opened Text

  /** A code splits into exactly two names on '.'; any other code makes the
      tuple unpacking of both converters fail. */
  predicate WellFormed(stock: string) {
    CountChar(stock, '.') == 1
  }

  /** `stockcode_to_joinquant`: an exchange part containing SHSE becomes a
      XSHG suffix, one containing SZSE a XSHE suffix; otherwise the code is
      returned unchanged. */
  function Joinquant(stock: string): (r: string)
    requires WellFormed(stock)
    ensures WellFormed(r)
  {
    var parts := Split(stock, '.');
    var secName, stockNum := parts[0], parts[1];
    if Contains(secName, "SHSE") then Dotted(stockNum, "XSHG")
    else if Contains(secName, "SZSE") then Dotted(stockNum, "XSHE")
    else stock
  }

  /** `stockcode_to_myquant`: a suffix containing XSHG becomes a SHSE prefix,
      one containing XSHE a SZSE prefix; otherwise the code is unchanged. */
  function Myquant(stock: string): (r: string)
    requires WellFormed(stock)
    ensures WellFormed(r)
  {
    var parts := Split(stock, '.');
    var stockNum, secName := parts[0], parts[1];
    if Contains(secName, "XSHG") then Dotted("SHSE", stockNum)
    else if Contains(secName, "XSHE") then Dotted("SZSE", stockNum)
    else stock
  }

  /** `f"{a}.{b}"` for two names without a '.'. */
  function Dotted(a: string, b: string): (r: string)
    requires '.' !in a && '.' !in b
    ensures WellFormed(r) && Split(r, '.') == [a, b]
  {
    CountCharZero(a, '.');
    CountCharZero(b, '.');
    CountCharAppend(a, ['.'] + b, '.');
    CountCharAppend(['.'], b, '.');
    assert a + ['.'] + b == a + (['.'] + b);
    SplitCons(a, '.', b);
    SplitNone(b, '.');
    a + ['.'] + b
  }

  /** A four-letter exchange name contains another four-letter name only when
      the two are equal. */
  lemma ContainsSameLength(s: string, sub: string)
    requires |s| == |sub|
    ensures Contains(s, sub) <==> s == sub
  {
    ContainsAt(s, sub);
    if s == sub {
      assert OccursAt(s, sub, 0);
    }
  }

  /** The terminal's exchange names and the engine's suffixes. */
  predicate TerminalExchange(e: string) { e == "SHSE" || e == "SZSE" }
  predicate EngineExchange(e: string) { e == "XSHG" || e == "XSHE" }

  function ToEngineExchange(e: string): string requires TerminalExchange(e) {
    if e == "SHSE" then "XSHG" else "XSHE"
  }

  /** For a terminal code with an exact exchange name, conversion to the
      engine's form swaps the two halves and renames the exchange. */
  lemma JoinquantOfExact(e: string, num: string)
    requires TerminalExchange(e) && '.' !in num
    ensures Joinquant(Dotted(e, num)) == Dotted(num, ToEngineExchange(e))
  {
    ContainsSameLength(e, "SHSE");
    ContainsSameLength(e, "SZSE");
  }

  /** Round trip from the terminal's form: converting to the engine's form and
      back gives the original code when the exchange name is exactly SHSE or
      SZSE. */
  lemma TerminalRoundTrip(e: string, num: string)
    requires TerminalExchange(e) && '.' !in num
    ensures Myquant(Joinquant(Dotted(e, num))) == Dotted(e, num)
  {
    JoinquantOfExact(e, num);
    var x := ToEngineExchange(e);
    ContainsSameLength(x, "XSHG");
    ContainsSameLength(x, "XSHE");
  }

  /** Round trip from the engine's form, for suffixes exactly XSHG or XSHE. */
  lemma EngineRoundTrip(num: string, x: string)
    requires EngineExchange(x) && '.' !in num
    ensures Joinquant(Myquant(Dotted(num, x))) == Dotted(num, x)
  {
    ContainsSameLength(x, "XSHG");
    ContainsSameLength(x, "XSHE");
    var e := if x == "XSHG" then "SHSE" else "SZSE";
    assert Myquant(Dotted(num, x)) == Dotted(e, num);
    JoinquantOfExact(e, num);
  }

  /** Matching is by containment, so an exchange part that merely contains
      SHSE is converted too, and converting back does not restore it. */
  lemma ContainmentBreaksRoundTrip()
    ensures Joinquant(Dotted("XSHSE", "600000")) == Dotted("600000", "XSHG")
    ensures Myquant(Joinquant(Dotted("XSHSE", "600000"))) == Dotted("SHSE", "600000")
    ensures Dotted("SHSE", "600000") != Dotted("XSHSE", "600000")
  {
    assert OccursAt("XSHSE", "SHSE", 1);
    ContainsAt("XSHSE", "SHSE");
    TerminalRoundTrip("SHSE", "600000");
    JoinquantOfExact("SHSE", "600000");
  }

  /** A digit string contains no name that starts with a letter. */
  lemma DigitsContainNoName(s: string, name: string)
    requires AllDigits(s) && |name| > 0 && !IsDigit(name[0])
    ensures !Contains(s, name)
  {
    ContainsAt(s, name);
    assert forall i :: OccursAt(s, name, i) ==> s[i] == name[0];
  }

  /** Converting an engine-form code with a numeric code part again changes
      nothing: its first half names no terminal exchange. */
  lemma JoinquantOfEngineForm(num: string, x: string)
    requires AllDigits(num) && '.' !in x
    ensures '.' !in num
    ensures Joinquant(Dotted(num, x)) == Dotted(num, x)
  {
    assert !IsDigit('.');
    DigitsContainNoName(num, "SHSE");
    DigitsContainNoName(num, "SZSE");
  }
}
