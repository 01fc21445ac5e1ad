/**
 * Amounts and numeric form fields.
 *
 * Money is a `real` number of rupees. The source rounds with
 * `parseFloat(x.toFixed(2))`; that is `Round2` here, rounding half away from
 * zero. A numeric field typed into the form is `Raw`: blank, a number, or text
 * that does not parse. `Coerce` is the source's `parseFloat(x) || 0`.
 */
module Money {

  datatype Raw = Blank | Num(value: real) | Garbage(text: string)

  /** `parseFloat(x) || 0`: blank and unparsable text count as 0. */
  function Coerce(r: Raw): real {
    if r.Num? then r.value else 0.0
  }

  /** JavaScript truthiness of a form string: only the empty string is false. */
  predicate Truthy(r: Raw) {
    !r.Blank?
  }

  /** `Math.max(0, x)` */
  function Max0(x: real): real {
    if x < 0.0 then 0.0 else x
  }

  /** True when `x` is a whole number of paise. */
  predicate TwoDecimals(x: real) {
    (x * 100.0).Floor as real == x * 100.0
  }

  /** The number of paise `toFixed(2)` keeps: |x| * 100 rounded half up, sign restored. */
  function RoundCents(x: real): int {
    if x >= 0.0 then (x * 100.0 + 0.5).Floor else -(((-x) * 100.0 + 0.5).Floor)
  }

  lemma FloorOfWhole(c: int)
    ensures ((c as real / 100.0) * 100.0).Floor == c
    ensures (c as real + 0.5).Floor == c
  {
  }

  /** Rounding to two decimals, half away from zero (`parseFloat(x.toFixed(2))`). */
  function Round2(x: real): real {
    RoundCents(x) as real / 100.0
  }

  /** The rounded amount has two decimals, keeps the sign and is within half a paisa. */
  lemma Round2Bounds(x: real)
    ensures TwoDecimals(Round2(x))
    ensures x >= 0.0 ==> Round2(x) >= 0.0
    ensures x <= 0.0 ==> Round2(x) <= 0.0
    ensures -0.005 <= Round2(x) - x <= 0.005
  {
    FloorOfWhole(RoundCents(x));
  }

  /** Zero rounds to zero. */
  lemma Round2Zero()
    ensures Round2(0.0) == 0.0
  {
    FloorOfWhole(0);
  }

  /** A value that already has two decimals is left alone by rounding. */
  lemma Round2Fixes(x: real)
    requires TwoDecimals(x)
    ensures Round2(x) == x
  {
    var k := (x * 100.0).Floor;
    if x >= 0.0 {
      FloorOfWhole(k);
      assert x * 100.0 + 0.5 == k as real + 0.5;
    } else {
      FloorOfWhole(-k);
      assert (-x) * 100.0 + 0.5 == (-k) as real + 0.5;
    }
  }

  /** Rounding twice is rounding once. */
  lemma Round2Idempotent(x: real)
    ensures Round2(Round2(x)) == Round2(x)
  {
    Round2Fixes(Round2(x));
  }

  /** Rounding keeps order: a larger amount never rounds to a smaller one. */
  lemma Round2Monotone(x: real, y: real)
    requires x <= y
    ensures Round2(x) <= Round2(y)
  {
    if x >= 0.0 {
      assert (x * 100.0 + 0.5).Floor <= (y * 100.0 + 0.5).Floor;
    } else if y < 0.0 {
      assert ((-y) * 100.0 + 0.5).Floor <= ((-x) * 100.0 + 0.5).Floor;
    }
  }

  /** The source's reduce `(sum, v) => sum + (parseFloat(v) || 0)`, left to right. */
  function SumRaw(s: seq<Raw>): real
  {
    if s == [] then 0.0 else SumRaw(s[..|s| - 1]) + Coerce(s[|s| - 1])
  }

  /** The entries that parse as numbers. */
  function NumbersOnly(s: seq<Raw>): (r: seq<Raw>)
    ensures forall i :: 0 <= i < |r| ==> r[i].Num?
  {
    if s == [] then []
    else if s[|s| - 1].Num? then NumbersOnly(s[..|s| - 1]) + [s[|s| - 1]]
    else NumbersOnly(s[..|s| - 1])
  }

  /** Summing is additive over concatenation. */
  lemma {:induction false} SumRawAppend(a: seq<Raw>, b: seq<Raw>)
    ensures SumRaw(a + b) == SumRaw(a) + SumRaw(b)
    decreases |b|
  {
    if b == [] {
      assert a + b == a;
    } else {
      assert (a + b)[..|a + b| - 1] == a + b[..|b| - 1];
      SumRawAppend(a, b[..|b| - 1]);
    }
  }

  /** Blank and unparsable entries contribute nothing: only the numbers are summed. */
  lemma {:induction false} SumRawIgnoresNonNumbers(s: seq<Raw>)
    ensures SumRaw(s) == SumRaw(NumbersOnly(s))
    decreases |s|
  {
    if s != [] {
      SumRawIgnoresNonNumbers(s[..|s| - 1]);
      if s[|s| - 1].Num? {
        var p := NumbersOnly(s[..|s| - 1]) + [s[|s| - 1]];
        assert p[..|p| - 1] == NumbersOnly(s[..|s| - 1]);
      }
    }
  }

  /** With no parsable entry at all (blank fields, an empty map) the total is 0. */
  lemma {:induction false} SumRawNoNumbers(s: seq<Raw>)
    requires forall i :: 0 <= i < |s| ==> !s[i].Num?
    ensures SumRaw(s) == 0.0
    decreases |s|
  {
    if s != [] {
      SumRawNoNumbers(s[..|s| - 1]);
    }
  }
}
