/** Decimal rendering of counters, as template literals such as
    `mem-${nextId++}` produce them, and the parse that recovers the counter
    from such an id. The round trip is what makes ids built from distinct
    counters distinct. */
module Decimal {
  import opened Common

  function DigitChar(d: nat): (c: char)
    requires d < 10
    ensures IsDigit(c)
  {
    ['0', '1', '2', '3', '4', '5', '6', '7', '8', '9'][d]
  }

  function DigitValue(c: char): (d: nat)
    requires IsDigit(c)
    ensures d < 10
  {
    (c as int - '0' as int) as nat
  }

  lemma DigitRoundTrip(d: nat)
    requires d < 10
    ensures DigitValue(DigitChar(d)) == d
  {
  }

  /** `String(n)` for a natural number: its decimal digits, most significant
      first, with no leading zero. */
  function Render(n: nat): (s: string)
    ensures |s| >= 1 && AllDigits(s)
    decreases n
  {
    if n < 10 then [DigitChar(n)] else Render(n / 10) + [DigitChar(n % 10)]
  }

  /** The number a string of decimal digits denotes. */
  function Value(s: string): nat
    requires AllDigits(s)
  {
    if s == [] then 0 else 10 * Value(s[..|s| - 1]) + DigitValue(s[|s| - 1])
  }

  /** Reading back a rendered number gives the number. */
  lemma {:induction false} ValueOfRender(n: nat)
    ensures Value(Render(n)) == n
    decreases n
  {
    var s := Render(n);
    if n < 10 {
      DigitRoundTrip(n);
    } else {
      ValueOfRender(n / 10);
      assert s[..|s| - 1] == Render(n / 10);
      DigitRoundTrip(n % 10);
    }
  }

  /** Distinct numbers render as distinct strings. */
  lemma RenderInjective(a: nat, b: nat)
    requires Render(a) == Render(b)
    ensures a == b
  {
    ValueOfRender(a);
    ValueOfRender(b);
  }

  /** The id `prefix + String(n)`. */
  function Tagged(prefix: string, n: nat): string {
    prefix + Render(n)
  }

  /** The counter an id of the form `prefix + digits` carries, if it has
      that form. */
  function SerialOf(prefix: string, id: string): (r: Option<nat>)
    ensures r.Some? ==> |id| > |prefix| && id[..|prefix|] == prefix && AllDigits(id[|prefix|..])
  {
    if |id| > |prefix| && id[..|prefix|] == prefix && AllDigits(id[|prefix|..])
    then Some(Value(id[|prefix|..]))
    else None
  }

  /** Parsing a tagged id recovers its counter. */
  lemma SerialOfTagged(prefix: string, n: nat)
    ensures SerialOf(prefix, Tagged(prefix, n)) == Some(n)
  {
    var id := Tagged(prefix, n);
    assert id[..|prefix|] == prefix;
    assert id[|prefix|..] == Render(n);
    ValueOfRender(n);
  }

  /** Ids with the same prefix and distinct counters are distinct. */
  lemma TaggedInjective(prefix: string, a: nat, b: nat)
    ensures Tagged(prefix, a) == Tagged(prefix, b) <==> a == b
  {
    if Tagged(prefix, a) == Tagged(prefix, b) {
      SerialOfTagged(prefix, a);
      SerialOfTagged(prefix, b);
    }
  }
}
