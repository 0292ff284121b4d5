/**
 * The instrumentation override: a latency the caller measured, stored as
 * `<decimal value><unit suffix>`.  Both builders share this table.
 */
module Instrumentation {
  import opened Wrappers
  import opened Decimal
  import opened Escaping

  /** Java's 32-bit `int`, the type of the override value. */
  newtype Int32 = x: int | -0x8000_0000 <= x < 0x8000_0000

  /** The time units and their suffixes. */
  datatype TimeNotation = Nanos | Micros | Millis | Seconds | Minutes | Hours {
    function Notation(): string {
      match this
      case Nanos => "ns"
      case Micros => "\U{03BC}s"
      case Millis => "ms"
      case Seconds => "s"
      case Minutes => "min"
      case Hours => "h"
    }
  }

  /** The stored override text; an absent unit means milliseconds. */
  function OverrideText(value: Int32, unit: Option<TimeNotation>): string {
    DecimalString(value as int) + unit.GetOr(Millis).Notation()
  }

  /** The unit whose suffix is `s`, if any. */
  function NotationOf(s: string): Option<TimeNotation> {
    if s == "ns" then Some(Nanos)
    else if s == "\U{03BC}s" then Some(Micros)
    else if s == "ms" then Some(Millis)
    else if s == "s" then Some(Seconds)
    else if s == "min" then Some(Minutes)
    else if s == "h" then Some(Hours)
    else None
  }

  predicate IsNumeric(c: char) {
    IsDigit(c) || c == '-'
  }

  /** The length of the longest prefix made of digits and minus signs. */
  function NumericPrefixLength(s: string): (n: nat)
    ensures n <= |s|
  {
    if s == [] || !IsNumeric(s[0]) then 0 else 1 + NumericPrefixLength(s[1..])
  }

  /** Reads an override text back into its value and unit. */
  function ParseOverride(t: string): Option<(int, TimeNotation)> {
    var k := NumericPrefixLength(t);
    match (ParseDecimal(t[..k]), NotationOf(t[k..]))
    case (Some(v), Some(u)) => Some((v, u))
    case _ => None
  }

  lemma {:induction false} NumericPrefixOf(d: string, suffix: string)
    requires forall i :: 0 <= i < |d| ==> IsNumeric(d[i])
    requires suffix != [] && !IsNumeric(suffix[0])
    ensures NumericPrefixLength(d + suffix) == |d|
    decreases |d|
  {
    if d == [] {
      assert d + suffix == suffix;
    } else {
      assert (d + suffix)[0] == d[0];
      assert (d + suffix)[1..] == d[1..] + suffix;
      NumericPrefixOf(d[1..], suffix);
    }
  }

  /** The override text determines the value and the unit (an absent unit reads as milliseconds). */
  lemma OverrideRoundTrip(value: Int32, unit: Option<TimeNotation>)
    ensures ParseOverride(OverrideText(value, unit)) == Some((value as int, unit.GetOr(Millis)))
  {
    var d := DecimalString(value as int);
    var u := unit.GetOr(Millis);
    var t := OverrideText(value, unit);
    NumericPrefixOf(d, u.Notation());
    assert t[..|d|] == d && t[|d|..] == u.Notation();
    DecimalRoundTrip(value as int);
  }

  /**
   * The suffixes as the request-style builder's own copy of the table spells
   * them.  Its MICROS entry holds the code points U+00CE U+00BC U+0073 (the
   * UTF-8 bytes of `μs` read one byte per character and written out again),
   * not U+03BC U+0073; every other suffix agrees with `Notation`.
   */
  function RequestTableNotation(t: TimeNotation): (s: string)
    ensures t != Micros ==> s == t.Notation()
    ensures t == Micros ==> |s| == |t.Notation()| + 1 && s[0] != Micros.Notation()[0]
  {
    if t == Micros then "\U{00CE}\U{00BC}s" else t.Notation()
  }

  /** The override text the request-style builder stores with that table. */
  function RequestTableOverrideText(value: Int32, unit: Option<TimeNotation>): string {
    DecimalString(value as int) + RequestTableNotation(unit.GetOr(Millis))
  }

  /**
   * With the table as written, a microsecond override is never the text
   * `<value>μs`, and a reader of the unit table cannot read it back; every
   * other unit is unaffected.
   */
  lemma RequestMicrosMismatch(value: Int32, unit: Option<TimeNotation>)
    ensures unit.GetOr(Millis) != Micros ==> RequestTableOverrideText(value, unit) == OverrideText(value, unit)
    ensures unit == Some(Micros) ==> RequestTableOverrideText(value, unit) != OverrideText(value, unit)
    ensures unit == Some(Micros) ==> ParseOverride(RequestTableOverrideText(value, unit)) == None
  {
    if unit == Some(Micros) {
      var d := DecimalString(value as int);
      var w := RequestTableNotation(Micros);
      assert |d + w| != |OverrideText(value, unit)|;
      NumericPrefixOf(d, w);
      assert (d + w)[|d|..] == w;
      assert NotationOf(w) == None;
    }
  }

  /** The override text contains no reserved character, so escaping leaves it alone. */
  lemma OverrideIsClean(value: Int32, unit: Option<TimeNotation>)
    ensures IsClean(OverrideText(value, unit))
    ensures IsEscaped(OverrideText(value, unit))
  {
    var d := DecimalString(value as int);
    var u := unit.GetOr(Millis).Notation();
    assert IsClean(u);
    assert IsClean(d + u);
    CleanIsEscaped(d + u);
  }
}
