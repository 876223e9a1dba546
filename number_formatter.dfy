/** Display helpers of the client (src/lib/utils/numberFormatter.ts): column
    index lookups, the mm:ss clock, millisecond rounding and ordinals. The
    colour-class tables are not part of this model. */
module NumberFormatter {
  import opened BingoTypes

  /** getColumnIndex: the position of a column letter in B, I, N, G, O. */
  function ColumnIndex(c: Column): (i: int)
    ensures 0 <= i < |Columns| && Columns[i] == c
  {
    match c
    case B => 0
    case I => 1
    case N => 2
    case G => 3
    case O => 4
  }

  /** getColumnFromIndex: `columns[index]`, which is undefined outside 0..4. */
  function ColumnFromIndex(index: int): (r: Option<Column>)
    ensures r.Some? <==> 0 <= index < |Columns|
    ensures r.Some? ==> r.value == Columns[index]
  {
    if 0 <= index < |Columns| then Some(Columns[index]) else None
  }

  /** The two lookups are inverse to each other on columns and on indices 0..4. */
  lemma ColumnIndexRoundTrip(c: Column, index: int)
    ensures ColumnFromIndex(ColumnIndex(c)) == Some(c)
    ensures 0 <= index < |Columns| ==> ColumnIndex(ColumnFromIndex(index).value) == index
  {
  }

  /** JavaScript's `a % b` for a positive divisor: the remainder takes the sign
      of the dividend (it truncates towards zero). */
  function JsRem(a: int, b: int): (r: int)
    requires b > 0
    ensures a >= 0 ==> 0 <= r < b && r == a % b
    ensures a < 0 ==> -b < r <= 0 && r == -((-a) % b)
  {
    if a >= 0 then a % b else -((-a) % b)
  }

  /** padStart(2, '0'): left-pads with zeros to length two. */
  function PadStart2(s: string): (r: string)
    ensures |r| == if |s| < 2 then 2 else |s|
    ensures r[|r| - |s|..] == s
    ensures forall i :: 0 <= i < |r| - |s| ==> r[i] == '0'
  {
    if |s| == 0 then "00" + s else if |s| == 1 then "0" + s else s
  }

  /** formatTime: `${Math.floor(s / 60)}:${(s % 60).toString().padStart(2, '0')}`,
      the remainder being JavaScript's. */
  function FormatTime(seconds: int): string
  {
    IntToString(seconds / 60) + ":" + PadStart2(IntToString(JsRem(seconds, 60)))
  }

  /** For a non-negative number of seconds the clock reads the whole minutes,
      a colon, and exactly two digits spelling the leftover seconds. */
  lemma FormatTimeReadsBack(seconds: nat)
    ensures var t := FormatTime(seconds);
      |t| >= 4 && t[|t| - 3] == ':' &&
      (forall i :: 0 <= i < |t| && i != |t| - 3 ==> IsDigit(t[i])) &&
      DigitsValue(t[..|t| - 3]) == seconds / 60 &&
      DigitsValue(t[|t| - 2..]) == seconds % 60
  {
    var t := FormatTime(seconds);
    var m := NatToString(seconds / 60);
    var s := NatToString(seconds % 60);
    var p := PadStart2(s);
    assert |s| <= 2 by {
      if seconds % 60 >= 10 {
        assert NatToString(seconds % 60) == NatToString(seconds % 60 / 10) + [DigitChar(seconds % 60 % 10)];
      }
    }
    assert t == m + ":" + p;
    assert t[..|t| - 3] == m;
    assert t[|t| - 2..] == p;
    NatToStringRoundTrip(seconds / 60);
    NatToStringRoundTrip(seconds % 60);
    if |s| == 1 {
      assert p == "0" + s;
      assert p[..1] == "0";
    }
  }

  /** msToSeconds: Math.round(ms / 1000), the nearest whole second with halves
      rounded up. */
  function MsToSeconds(ms: int): (r: int)
    ensures 1000 * r - 500 <= ms < 1000 * r + 500
  {
    (ms + 500) / 1000
  }

  const OrdinalSuffixes: seq<string> := ["th", "st", "nd", "rd"]

  /** `suffixes[(v - 20) % 10] || suffixes[v] || suffixes[0]` with v = n % 100:
      an index outside the table reads undefined and falls through. */
  function OrdinalSuffix(n: int): (r: string)
    ensures r in OrdinalSuffixes
  {
    var v := JsRem(n, 100);
    var k := JsRem(v - 20, 10);
    if 0 <= k < |OrdinalSuffixes| then OrdinalSuffixes[k]
    else if 0 <= v < |OrdinalSuffixes| then OrdinalSuffixes[v]
    else OrdinalSuffixes[0]
  }

  /** formatOrdinal: the number followed by its English suffix. */
  function FormatOrdinal(n: int): string
  {
    IntToString(n) + OrdinalSuffix(n)
  }

  /** The English rule: "st", "nd", "rd" after a last digit 1, 2, 3 except in the
      teens 11-13, "th" otherwise; negative numbers always get "th". */
  lemma FormatOrdinalSuffix(n: int)
    ensures n >= 0 && n % 10 == 1 && n % 100 != 11 ==> FormatOrdinal(n) == IntToString(n) + "st"
    ensures n >= 0 && n % 10 == 2 && n % 100 != 12 ==> FormatOrdinal(n) == IntToString(n) + "nd"
    ensures n >= 0 && n % 10 == 3 && n % 100 != 13 ==> FormatOrdinal(n) == IntToString(n) + "rd"
    ensures (n < 0 || !(1 <= n % 10 <= 3) || 11 <= n % 100 <= 13) ==>
      FormatOrdinal(n) == IntToString(n) + "th"
  {
    var v := JsRem(n, 100);
    if n >= 0 {
      assert v == n % 100;
      assert v % 10 == n % 10;
      if v >= 20 {
        assert JsRem(v - 20, 10) == n % 10;
      } else {
        assert JsRem(v - 20, 10) == -((20 - v) % 10);
      }
    }
  }

  /** formatOrdinalEs: the number followed by the degree sign. */
  function FormatOrdinalEs(n: int): (r: string)
    ensures |r| >= 2 && r[|r| - 1] == '°'
    ensures r[..|r| - 1] == IntToString(n)
  {
    IntToString(n) + "°"
  }

  /** The Spanish ordinal of a non-negative number reads back as that number. */
  lemma FormatOrdinalEsReadsBack(n: nat)
    ensures var r := FormatOrdinalEs(n);
      (forall i :: 0 <= i < |r| - 1 ==> IsDigit(r[i])) && DigitsValue(r[..|r| - 1]) == n
  {
    NatToStringRoundTrip(n);
  }
}
