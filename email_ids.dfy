/**
 * Message ids of the extraction run: `email_` followed by the run counter
 * written in decimal and zero-padded to six digits (Python's `{:06d}`),
 * together with the decimal reader that inverts the format.
 */
module EmailIds {
  import opened Text
  import opened Wrappers

  const IdPrefix: string := "email_"
  const IdWidth: nat := 6

  function DigitChar(d: nat): (c: char)
    requires d < 10
    ensures IsDigit(c)
  {
    ('0' as int + d) as char
  }

  function DigitValue(c: char): nat
    requires IsDigit(c)
  {
    c as int - '0' as int
  }

  predicate AllDigits(s: string) {
    forall i :: 0 <= i < |s| ==> IsDigit(s[i])
  }

  /** Python's str(n) for a natural number: decimal digits, no leading zero. */
  function Decimal(n: nat): (s: string)
    ensures 1 <= |s| && AllDigits(s)
    ensures |s| > 1 ==> s[0] != '0'
  {
    if n < 10 then [DigitChar(n)] else Decimal(n / 10) + [DigitChar(n % 10)]
  }

  function Zeros(k: nat): (z: string)
    ensures |z| == k && AllDigits(z)
    ensures forall i :: 0 <= i < k ==> z[i] == '0'
  {
    if k == 0 then [] else Zeros(k - 1) + ['0']
  }

  /** Left-pad with zeros up to the given width; longer strings are unchanged. */
  function ZeroPad(s: string, width: nat): (p: string)
    ensures |p| == if |s| >= width then |s| else width
    ensures p == Zeros(|p| - |s|) + s
  {
    if |s| >= width then s else Zeros(width - |s|) + s
  }

  /** The id the extractor gives to the n-th message it visits in a run. */
  function FormatId(n: nat): string {
    IdPrefix + ZeroPad(Decimal(n), IdWidth)
  }

  /** Value of a string of decimal digits (leading zeros allowed). */
  function ParseDecimal(s: string): nat
    requires AllDigits(s)
  {
    if s == [] then 0 else 10 * ParseDecimal(s[..|s| - 1]) + DigitValue(s[|s| - 1])
  }

  /** The counter value an id stands for, if it has the id shape. */
  function ParseId(id: string): Option<nat> {
    if StartsWith(id, IdPrefix) && |id| > |IdPrefix| && AllDigits(id[|IdPrefix|..])
    then Some(ParseDecimal(id[|IdPrefix|..]))
    else None
  }

  lemma {:induction false} ParseDecimalOfDecimal(n: nat)
    ensures ParseDecimal(Decimal(n)) == n
  {
    if n >= 10 {
      var s := Decimal(n / 10) + [DigitChar(n % 10)];
      assert s[..|s| - 1] == Decimal(n / 10);
      ParseDecimalOfDecimal(n / 10);
    }
  }

  lemma {:induction false} ParseDecimalOfZeros(k: nat)
    ensures ParseDecimal(Zeros(k)) == 0
  {
    if k > 0 {
      assert Zeros(k)[..k - 1] == Zeros(k - 1);
      ParseDecimalOfZeros(k - 1);
    }
  }

  /** Leading zeros do not change the value read back. */
  lemma {:induction false} ParseDecimalLeadingZeros(k: nat, s: string)
    requires AllDigits(s)
    ensures AllDigits(Zeros(k) + s)
    ensures ParseDecimal(Zeros(k) + s) == ParseDecimal(s)
    decreases |s|
  {
    var t := Zeros(k) + s;
    if s == [] {
      assert t == Zeros(k);
      ParseDecimalOfZeros(k);
    } else {
      assert t[..|t| - 1] == Zeros(k) + s[..|s| - 1];
      ParseDecimalLeadingZeros(k, s[..|s| - 1]);
    }
  }

  /** Reading an id back gives the counter it was formatted from. */
  lemma FormatIdRoundTrip(n: nat)
    ensures ParseId(FormatId(n)) == Some(n)
  {
    var d := Decimal(n);
    var id := FormatId(n);
    var body := ZeroPad(d, IdWidth);
    assert id[..|IdPrefix|] == IdPrefix;
    assert id[|IdPrefix|..] == body;
    ParseDecimalOfDecimal(n);
    if |d| < IdWidth {
      ParseDecimalLeadingZeros(IdWidth - |d|, d);
    }
  }

  /** Distinct counter values give distinct ids. */
  lemma FormatIdInjective(m: nat, n: nat)
    ensures FormatId(m) == FormatId(n) <==> m == n
  {
    FormatIdRoundTrip(m);
    FormatIdRoundTrip(n);
  }

  lemma {:induction false} DecimalLength(n: nat, k: nat)
    requires n < Pow10(k)
    ensures |Decimal(n)| <= if k == 0 then 1 else k
  {
    if n >= 10 {
      DecimalLength(n / 10, k - 1);
    }
  }

  function Pow10(k: nat): (p: nat)
    ensures p >= 1
  {
    if k == 0 then 1 else 10 * Pow10(k - 1)
  }

  /** Below one million every id has the fixed width of twelve characters. */
  lemma FormatIdFixedWidth(n: nat)
    requires n < 1000000
    ensures |FormatId(n)| == |IdPrefix| + IdWidth == 12
  {
    assert Pow10(6) == 1000000;
    DecimalLength(n, 6);
  }
}
