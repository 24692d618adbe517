/**
 * The two java.lang text conversions the output mapping relies on:
 * Integer.parseInt on decimal numerals and String.split(",").
 */
module JavaText {
  import opened Common

  /** The range of a Java `int`. */
  const MinInt := -0x8000_0000
  const MaxInt := 0x7fff_ffff

  predicate IsDigit(c: char)
  {
    '0' <= c <= '9'
  }

  predicate AllDigits(s: string)
  {
    forall k :: 0 <= k < |s| ==> IsDigit(s[k])
  }

  function DigitValue(c: char): nat
    requires IsDigit(c)
  {
    c as int - '0' as int
  }

  /** The value of a numeral of decimal digits, most significant digit first. */
  function DigitsValue(s: string): nat
    requires AllDigits(s)
  {
    if |s| == 0 then 0 else 10 * DigitsValue(s[..|s| - 1]) + DigitValue(s[|s| - 1])
  }

  /**
   * Integer.parseInt(s): an optional '-' or '+' followed by at least one
   * decimal digit, and a value that fits in an int. None stands for the
   * NumberFormatException Java throws otherwise (on an empty string, a lone
   * sign, a space, a second sign, any other character, or an overflow).
   */
  function ParseInt(s: string): (r: Option<int>)
    ensures r.Some? ==> MinInt <= r.value <= MaxInt
    ensures r.Some? ==> |s| > 0 && AllDigits(s[1..]) && (IsDigit(s[0]) || (|s| > 1 && (s[0] == '-' || s[0] == '+')))
    // an unsigned numeral: its value if that fits, an overflow otherwise
    ensures |s| > 0 && AllDigits(s) ==> r == if DigitsValue(s) <= MaxInt then Some(DigitsValue(s)) else None
    // '+' then digits: the same value
    ensures |s| > 1 && s[0] == '+' && AllDigits(s[1..]) ==>
      r == if DigitsValue(s[1..]) <= MaxInt then Some(DigitsValue(s[1..])) else None
    // '-' then digits: the negated value, down to MinInt
    ensures |s| > 1 && s[0] == '-' && AllDigits(s[1..]) ==>
      r == if DigitsValue(s[1..]) <= -MinInt then Some(-(DigitsValue(s[1..]) as int)) else None
  {
    if |s| == 0 then None
    else
      var digits := if s[0] == '-' || s[0] == '+' then s[1..] else s;
      if |digits| == 0 || !AllDigits(digits) then None
      else
        var v := if s[0] == '-' then -(DigitsValue(digits) as int) else DigitsValue(digits) as int;
        if MinInt <= v <= MaxInt then Some(v) else None
  }

  /** A leading zero does not change a numeral's value. */
  lemma {:induction false} LeadingZeroValue(s: string)
    requires AllDigits(s)
    ensures AllDigits("0" + s) && DigitsValue("0" + s) == DigitsValue(s)
  {
    if |s| > 0 {
      var z := "0" + s;
      assert z[..|z| - 1] == "0" + s[..|s| - 1];
      LeadingZeroValue(s[..|s| - 1]);
    }
  }

  /** parseInt accepts leading zeros: "007" is read as 7. */
  lemma ParseIntLeadingZero(s: string)
    requires |s| > 0 && AllDigits(s)
    ensures ParseInt("0" + s) == ParseInt(s)
  {
    LeadingZeroValue(s);
  }

  function DigitChar(d: nat): (c: char)
    requires d < 10
    ensures IsDigit(c) && DigitValue(c) == d
  {
    ('0' as int + d) as char
  }

  /** The decimal numeral of n without sign or leading zeros. */
  function Decimal(n: nat): (s: string)
    ensures |s| > 0 && AllDigits(s)
  {
    if n < 10 then [DigitChar(n)] else Decimal(n / 10) + [DigitChar(n % 10)]
  }

  /** Integer.toString(n). */
  function IntText(n: int): string
  {
    if n < 0 then "-" + Decimal(-n) else Decimal(n)
  }

  lemma {:induction false} DecimalValue(n: nat)
    ensures DigitsValue(Decimal(n)) == n
  {
    if n >= 10 {
      DecimalValue(n / 10);
      var s := Decimal(n);
      assert s[..|s| - 1] == Decimal(n / 10);
    }
  }

  /** parseInt reads back every int that toString writes. */
  lemma ParseIntText(n: int)
    requires MinInt <= n <= MaxInt
    ensures ParseInt(IntText(n)) == Some(n)
  {
    var s := IntText(n);
    if n < 0 {
      DecimalValue(-n);
      assert s[1..] == Decimal(-n);
    } else {
      DecimalValue(n);
    }
  }

  /** The pieces of s between commas, every one of them: one more than s has commas. */
  function Fields(s: string): (r: seq<string>)
    ensures |r| >= 1
  {
    if |s| == 0 then [""]
    else
      var r := Fields(s[..|s| - 1]);
      if s[|s| - 1] == ',' then r + [""]
      else r[..|r| - 1] + [r[|r| - 1] + [s[|s| - 1]]]
  }

  /** The fields put back together with a comma between each two. */
  function Join(fs: seq<string>): string
    requires |fs| >= 1
  {
    if |fs| == 1 then fs[0] else Join(fs[..|fs| - 1]) + "," + fs[|fs| - 1]
  }

  lemma {:induction false} JoinLast(fs: seq<string>, tail: string)
    requires |fs| >= 1
    ensures Join(fs[..|fs| - 1] + [fs[|fs| - 1] + tail]) == Join(fs) + tail
  {
    var gs := fs[..|fs| - 1] + [fs[|fs| - 1] + tail];
    if |fs| > 1 {
      assert gs[..|gs| - 1] == fs[..|fs| - 1];
    }
  }

  /** Splitting at every comma and joining again gives back the string, and no field holds a comma. */
  lemma {:induction false} FieldsJoin(s: string)
    ensures Join(Fields(s)) == s
    ensures forall k :: 0 <= k < |Fields(s)| ==> ',' !in Fields(s)[k]
  {
    if |s| > 0 {
      var init, c := s[..|s| - 1], s[|s| - 1];
      FieldsJoin(init);
      var r := Fields(init);
      assert s == init + [c];
      if c == ',' {
        assert (r + [""])[..|r|] == r;
      } else {
        JoinLast(r, [c]);
      }
    }
  }

  /** The fields without the empty ones at the end. */
  function DropTrailingEmpty(fs: seq<string>): (r: seq<string>)
    ensures r <= fs
    ensures forall k :: |r| <= k < |fs| ==> fs[k] == ""
    ensures |r| > 0 ==> r[|r| - 1] != ""
  {
    if |fs| > 0 && fs[|fs| - 1] == "" then DropTrailingEmpty(fs[..|fs| - 1]) else fs
  }

  /**
   * String.split(","): a string without a comma is its own only field;
   * otherwise the fields, with the trailing empty ones removed.
   */
  function Split(s: string): seq<string>
  {
    if ',' !in s then [s] else DropTrailingEmpty(Fields(s))
  }

  /**
   * What split keeps: its pieces are the leading fields of s, in order and
   * without commas, and everything it drops is empty, so joining all fields
   * gives back s.
   */
  lemma SplitFields(s: string)
    ensures ',' !in s ==> Split(s) == [s]
    ensures ',' in s ==> Split(s) == [] || Split(s)[|Split(s)| - 1] != ""
    ensures Split(s) <= Fields(s) && Join(Fields(s)) == s
    ensures forall k :: |Split(s)| <= k < |Fields(s)| ==> Fields(s)[k] == ""
    ensures forall k :: 0 <= k < |Split(s)| ==> ',' !in Split(s)[k]
  {
    FieldsJoin(s);
    if ',' !in s {
      FieldsNoComma(s);
    }
  }

  lemma {:induction false} FieldsNoComma(s: string)
    requires ',' !in s
    ensures Fields(s) == [s]
  {
    if |s| > 0 {
      FieldsNoComma(s[..|s| - 1]);
      assert s == s[..|s| - 1] + [s[|s| - 1]];
    }
  }
}
