/** Decimal text of unsigned numbers, and the padded invoice ids of Halyk Epay. */
module Decimal {
  import opened Text

  const TWO_64: nat := 0x1_0000_0000_0000_0000

  function Digit(d: nat): char
    requires d < 10
  {
    '0' + d as char
  }

  predicate IsDigit(c: char) { '0' <= c <= '9' }

  predicate AllDigits(s: string) {
    forall i :: 0 <= i < |s| ==> IsDigit(s[i])
  }

  /** `strconv.FormatUint(n, 10)`. */
  function FormatUint(n: nat): (s: string)
    ensures s != "" && AllDigits(s)
    ensures n != 0 ==> s[0] != '0'
  {
    if n < 10 then [Digit(n)] else FormatUint(n / 10) + [Digit(n % 10)]
  }

  /** `strconv.Itoa`. */
  function Itoa(n: int): string {
    if n < 0 then "-" + FormatUint(-n) else FormatUint(n)
  }

  function DigitsValue(s: string): nat
    requires AllDigits(s)
  {
    if s == "" then 0 else DigitsValue(s[..|s| - 1]) * 10 + (s[|s| - 1] - '0') as nat
  }

  /** `strconv.ParseUint(s, 10, 64)`, None for an error. */
  function ParseUint(s: string): Option<nat> {
    if s != "" && AllDigits(s) && DigitsValue(s) < TWO_64 then Some(DigitsValue(s)) else None
  }

  lemma {:induction false} ValueOfFormat(n: nat)
    ensures DigitsValue(FormatUint(n)) == n
  {
    var s := FormatUint(n);
    if n < 10 {
      assert DigitsValue(s[..|s| - 1]) == 0;
    } else {
      ValueOfFormat(n / 10);
      assert s[..|s| - 1] == FormatUint(n / 10);
    }
  }

  lemma {:induction false} FormatOfValue(s: string)
    requires s != "" && AllDigits(s) && (s[0] != '0' || |s| == 1)
    ensures FormatUint(DigitsValue(s)) == s
    ensures |s| > 1 ==> DigitsValue(s) >= 10
  {
    var front, last := s[..|s| - 1], s[|s| - 1];
    if |s| == 1 {
      assert DigitsValue(front) == 0;
    } else {
      FormatOfValue(front);
      assert front[0] == s[0];
      assert |front| == 1 ==> DigitsValue(front) == (front[0] - '0') as nat by {
        if |front| == 1 { assert DigitsValue(front[..0]) == 0; }
      }
      assert DigitsValue(s) / 10 == DigitsValue(front);
      assert s == front + [last];
    }
  }

  // ------------------------------------------------------------ invoice ids

  const MIN_INVOICE_LEN := 6

  function Zeros(n: nat): string {
    seq(n, _ => '0')
  }

  function FormatInvoice(orderID: nat): string {
    if orderID == 0 then ""
    else
      var s := FormatUint(orderID);
      if |s| >= MIN_INVOICE_LEN then s else Zeros(MIN_INVOICE_LEN - |s|) + s
  }

  /** `strings.TrimLeft(s, "0")`. */
  function TrimZeros(s: string): (r: string)
    ensures |r| <= |s| && s == Zeros(|s| - |r|) + r
    ensures r != "" ==> r[0] != '0'
  {
    if s != "" && s[0] == '0' then
      var r := TrimZeros(s[1..]);
      assert s == ['0'] + (Zeros(|s| - 1 - |r|) + r);
      r
    else s
  }

  function ParseInvoice(invoiceID: string): nat {
    var trimmed := TrimZeros(invoiceID);
    if trimmed == "" then 0
    else
      match ParseUint(trimmed)
      case None => 0
      case Some(n) => n
  }

  lemma {:induction false} TrimsZeros(n: nat, s: string)
    requires s != "" && s[0] != '0'
    ensures TrimZeros(Zeros(n) + s) == s
  {
    if n == 0 {
      assert Zeros(n) + s == s;
    } else {
      assert (Zeros(n) + s)[1..] == Zeros(n - 1) + s;
      TrimsZeros(n - 1, s);
    }
  }

  lemma {:induction false} ZerosAddNothing(n: nat, s: string)
    requires AllDigits(s)
    ensures AllDigits(Zeros(n) + s) && DigitsValue(Zeros(n) + s) == DigitsValue(s)
    decreases |s|, n
  {
    var z := Zeros(n) + s;
    if s != "" {
      ZerosAddNothing(n, s[..|s| - 1]);
      assert z[..|z| - 1] == Zeros(n) + s[..|s| - 1] && z[|z| - 1] == s[|s| - 1];
    } else if n > 0 {
      ZerosAddNothing(n - 1, s);
      assert z[..n - 1] == Zeros(n - 1) + s;
    }
  }

  /** The padded form is read back exactly, for every 64-bit order id. */
  lemma ParseFormatInvoice(n: nat)
    requires n < TWO_64
    ensures ParseInvoice(FormatInvoice(n)) == n
  {
    if n != 0 {
      var s := FormatUint(n);
      var pad := if |s| >= MIN_INVOICE_LEN then 0 else MIN_INVOICE_LEN - |s|;
      assert Zeros(0) + s == s;
      assert FormatInvoice(n) == Zeros(pad) + s;
      TrimsZeros(pad, s);
      ParseFormatUint(n);
    }
  }

  lemma ParseFormatUint(n: nat)
    requires n < TWO_64
    ensures ParseUint(FormatUint(n)) == Some(n)
  {
    ValueOfFormat(n);
  }

  /** Empty, or the decimal of a positive 64-bit number, padded with zeros to six digits and no further. */
  predicate CanonicalInvoice(s: string) {
    || s == ""
    || (&& |s| >= 6 && AllDigits(s)
        && (|s| > 6 ==> s[0] != '0')
        && 0 < DigitsValue(s) < TWO_64)
  }

  lemma ZerosLength(n: nat, t: string)
    ensures |Zeros(n) + t| == n + |t|
  {
  }

  lemma PaddedForms(n: nat, t: string, pad: nat)
    requires t != "" && t[0] != '0' && AllDigits(t) && DigitsValue(t) == n && 0 < n
    ensures FormatInvoice(n) == Zeros(pad) + t
       <==> pad + |t| >= MIN_INVOICE_LEN && (pad + |t| > MIN_INVOICE_LEN ==> pad == 0)
  {
    FormatOfValue(t);
    hide DigitsValue, FormatUint, AllDigits;
    FormatIsPadded(n, t);
    hide FormatInvoice, Zeros;
    ZerosLength(pad, t);
    ZerosLength(Want(t), t);
  }

  function Want(t: string): nat {
    if |t| >= MIN_INVOICE_LEN then 0 else MIN_INVOICE_LEN - |t|
  }

  lemma FormatIsPadded(n: nat, t: string)
    requires FormatUint(n) == t && 0 < n
    ensures FormatInvoice(n) == Zeros(Want(t)) + t
  {
    hide FormatUint;
    assert Zeros(0) + t == t;
  }

  lemma ValueIsPositive(t: string)
    requires t != "" && t[0] != '0' && AllDigits(t)
    ensures DigitsValue(t) > 0
  {
    FormatOfValue(t);
    if |t| == 1 { assert DigitsValue(t[..0]) == 0; }
  }

  /** Formatting a parsed id gives the id back exactly when it was canonical. */
  lemma FormatParseInvoice(s: string)
    ensures FormatInvoice(ParseInvoice(s)) == s <==> CanonicalInvoice(s)
  {
    var t := TrimZeros(s);
    var pad := |s| - |t|;
    DigitsBehindZeros(pad, t);
    if AllDigits(t) {
      ZerosAddNothing(pad, t);
      if t == "" {
        assert DigitsValue(s) == 0;
      } else {
        ValueIsPositive(t);
        PaddedForms(DigitsValue(t), t, pad);
        FirstBehindZeros(pad, t);
        hide DigitsValue, FormatInvoice, Zeros, TrimZeros, AllDigits;
      }
    }
  }

  lemma DigitsBehindZeros(pad: nat, t: string)
    ensures AllDigits(Zeros(pad) + t) <==> AllDigits(t)
  {
    var s := Zeros(pad) + t;
    assert forall i :: 0 <= i < |t| ==> t[i] == s[pad + i];
  }

  lemma FirstBehindZeros(pad: nat, t: string)
    requires t != "" && t[0] != '0'
    ensures (Zeros(pad) + t)[0] == '0' <==> pad > 0
  {
  }
}
