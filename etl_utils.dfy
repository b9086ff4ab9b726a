/**
 * CNPJ normalisation from the Python ETL helpers: strip every non-digit, then
 * left-pad with zeros to 14 characters or keep only the first 14 digits. The
 * check digits of the CNPJ are not validated.
 */
module EtlUtils {
  import opened Wrappers
  import opened Text

  /** Number of digits in a CNPJ. */
  const CnpjLength: nat := 14

  /**
   * Python's `str.zfill(width)`: pad on the left with zeros up to `width`,
   * keeping a leading sign in front of the padding; longer strings are unchanged.
   */
  function ZFill(s: string, width: nat): (r: string)
    ensures |r| == if |s| >= width then |s| else width
    ensures |s| >= width ==> r == s
    ensures |s| < width && AllDigits(s) ==> r == Zeros(width - |s|) + s
  {
    if |s| >= width then s
    else if s != [] && (s[0] == '+' || s[0] == '-') then [s[0]] + Zeros(width - |s|) + s[1..]
    else Zeros(width - |s|) + s
  }

  /**
   * `normalize_cnpj`: `None` for an absent or empty input; otherwise exactly 14
   * digits, being the input's digits padded with zeros on the left, or the first
   * 14 of them when there are more.
   */
  function NormalizeCnpj(raw: Option<string>): (r: Option<string>)
    ensures r.None? <==> raw.None? || raw.value == ""
    ensures r.Some? ==> |r.value| == CnpjLength && AllDigits(r.value)
    ensures r.Some? && |Digits(raw.value)| <= CnpjLength ==>
      r.value == Zeros(CnpjLength - |Digits(raw.value)|) + Digits(raw.value)
    ensures r.Some? && |Digits(raw.value)| > CnpjLength ==> r.value == Digits(raw.value)[..CnpjLength]
  {
    if raw.None? || raw.value == "" then None
    else
      var digits := Digits(raw.value);
      if |digits| <= CnpjLength then Some(ZFill(digits, CnpjLength)) else Some(digits[..CnpjLength])
  }

  /** Normalising an already normalised CNPJ leaves it unchanged. */
  lemma NormalizeIdempotent(raw: Option<string>)
    ensures NormalizeCnpj(NormalizeCnpj(raw)) == NormalizeCnpj(raw)
  {
    var r := NormalizeCnpj(raw);
    if r.Some? {
      DigitsOfDigits(r.value);
    }
  }

  /**
   * Formatting characters do not matter: removing one non-digit character from a
   * non-empty input changes nothing, as long as something is left.
   */
  lemma NormalizeIgnoresPunctuation(a: string, c: char, b: string)
    requires !IsDigit(c)
    requires a + b != ""
    ensures NormalizeCnpj(Some(a + [c] + b)) == NormalizeCnpj(Some(a + b))
  {
    DigitsSkip(a, c, b);
    DigitsAppend(a, b);
    assert a + [c] + b != "";
  }

  lemma DigitsSkip(a: string, c: char, b: string)
    requires !IsDigit(c)
    ensures Digits(a + [c] + b) == Digits(a) + Digits(b)
  {
    DigitsAppend(a, [c] + b);
    DigitsAppend([c], b);
    assert a + [c] + b == a + ([c] + b);
    assert Digits([c]) == [];
  }

  /** A string of non-digits normalises to fourteen zeros. */
  lemma NormalizeNoDigits(s: string)
    requires s != ""
    requires forall i :: 0 <= i < |s| ==> !IsDigit(s[i])
    ensures NormalizeCnpj(Some(s)) == Some(Zeros(CnpjLength))
  {
    NoDigits(s);
    assert Zeros(CnpjLength) + [] == Zeros(CnpjLength);
  }

  lemma {:induction false} NoDigits(s: string)
    requires forall i :: 0 <= i < |s| ==> !IsDigit(s[i])
    ensures Digits(s) == []
  {
    if s != [] {
      NoDigits(s[1..]);
    }
  }

  /** The worked example: the formatted CNPJ "00.000.000/0001-91" normalises to its fourteen digits. */
  lemma NormalizeFormattedExample()
    ensures NormalizeCnpj(Some("00.000.000/0001-91")) == Some("00000000000191")
  {
    var a, b, c, d, e := "00", "000", "000", "0001", "91";
    DigitsFormatted(a, b, c, d, e);
    assert a + "." + (b + "." + (c + "/" + (d + "-" + e))) == "00.000.000/0001-91";
    assert a + (b + (c + (d + e))) == "00000000000191";
    NormalizeFullLength("00.000.000/0001-91");
  }

  /** The punctuation of the usual CNPJ layout `aa.bbb.ccc/dddd-ee` is dropped and the digit groups are kept in order. */
  lemma DigitsFormatted(a: string, b: string, c: string, d: string, e: string)
    requires AllDigits(a) && AllDigits(b) && AllDigits(c) && AllDigits(d) && AllDigits(e)
    ensures Digits(a + "." + (b + "." + (c + "/" + (d + "-" + e)))) == a + (b + (c + (d + e)))
  {
    DigitsOfDigits(a);
    DigitsOfDigits(b);
    DigitsOfDigits(c);
    DigitsOfDigits(d);
    DigitsOfDigits(e);
    var t4 := d + "-" + e;
    DigitsSkip(d, '-', e);
    var t3 := c + "/" + t4;
    DigitsSkip(c, '/', t4);
    var t2 := b + "." + t3;
    DigitsSkip(b, '.', t3);
    DigitsSkip(a, '.', t2);
  }

  /** An input with exactly fourteen digits normalises to those digits. */
  lemma NormalizeFullLength(s: string)
    requires |Digits(s)| == CnpjLength
    ensures NormalizeCnpj(Some(s)) == Some(Digits(s))
  {
    assert Zeros(0) + Digits(s) == Digits(s);
  }

  /** An input with no digits normalises to fourteen zeros; an empty or absent one to `None`. */
  lemma NormalizeDegenerateExamples()
    ensures NormalizeCnpj(Some("abc")) == Some("00000000000000")
    ensures NormalizeCnpj(Some("")) == None && NormalizeCnpj(None) == None
  {
    NormalizeNoDigits("abc");
    assert forall i :: 0 <= i < CnpjLength ==> Zeros(CnpjLength)[i] == "00000000000000"[i];
    assert Zeros(CnpjLength) == "00000000000000";
  }
}
