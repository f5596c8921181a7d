/** The byte-size captions shared by the document table and the store
    cards: the number of bytes is parsed and shown in the largest power of
    1024 that does not exceed it. */
module Sizes {
  import opened Common
  import opened Strings

  /** A size caption. `Scaled(bytes, exponent)` shows `bytes / 1024^exponent`
      rounded to two decimal places (not modelled), followed by
      `UnitName(exponent)`; `Unreadable` is the caption of a size that parses
      to NaN or to a negative number ("NaN undefined"). */
  datatype SizeLabel = Dash | ZeroBytes | Unreadable | Scaled(bytes: nat, exponent: nat)

  function Pow1024(e: nat): (p: nat)
    ensures p >= 1
  {
    if e == 0 then 1 else 1024 * Pow1024(e - 1)
  }

  /** `Math.floor(Math.log(n) / Math.log(1024))`, computed exactly. */
  function Exponent(n: nat): (e: nat)
    requires n >= 1
    ensures Pow1024(e) <= n < Pow1024(e + 1)
    decreases n
  {
    if n < 1024 then 0
    else
      var e := Exponent(n / 1024);
      assert 1024 * Pow1024(e) <= 1024 * (n / 1024) <= n;
      assert n < 1024 * (n / 1024 + 1) <= 1024 * Pow1024(e + 1);
      1 + e
  }

  /** `sizes[i]` of `["B", "KB", "MB", "GB"]`; past the end it is undefined. */
  function UnitName(e: nat): (u: string)
    ensures e == 0 <==> u == "B"
    ensures e == 1 <==> u == "KB"
    ensures e == 2 <==> u == "MB"
    ensures e == 3 <==> u == "GB"
    ensures e >= 4 <==> u == "undefined"
  {
    if e == 0 then "B" else if e == 1 then "KB" else if e == 2 then "MB" else if e == 3 then "GB" else "undefined"
  }

  /** `formatBytes` after its test for a missing size: `parseInt`, then "0 B"
      for zero and the scaled caption otherwise. */
  function Scale(bytes: string): (l: SizeLabel)
    ensures l != Dash
    ensures l == ZeroBytes <==> ParseInt(bytes) == Some(0)
    ensures l == Unreadable <==> ParseInt(bytes).None? || ParseInt(bytes).value < 0
    ensures l.Scaled? ==> Some(l.bytes as int) == ParseInt(bytes) && l.bytes > 0
  {
    match ParseInt(bytes)
    case None => Unreadable
    case Some(n) =>
      if n == 0 then ZeroBytes
      else if n < 0 then Unreadable
      else Scaled(n, Exponent(n))
  }

  /** The caption's text where it does not depend on floating point. */
  function FixedText(l: SizeLabel): (t: Option<string>)
    ensures l == Dash <==> t == Some("—")
    ensures l == ZeroBytes <==> t == Some("0 B")
    ensures l == Unreadable <==> t == Some("NaN undefined")
    ensures l.Scaled? <==> t.None?
  {
    match l
    case Dash => Some("—")
    case ZeroBytes => Some("0 B")
    case Unreadable => Some("NaN undefined")
    case Scaled(_, _) => None
  }

  /** A size written in digits is shown in the power of 1024 that fits it:
      bytes below 1024 in "B", below 1024^2 in "KB" and so on, with an
      undefined unit from 1024^4 bytes on. */
  lemma ScaleOfDigits(bytes: string)
    requires AllDigits(bytes) && bytes != "" && DigitsValue(bytes) > 0
    ensures var l := Scale(bytes);
      && l.Scaled? && l.bytes == DigitsValue(bytes)
      && Pow1024(l.exponent) <= l.bytes < Pow1024(l.exponent + 1)
      && (UnitName(l.exponent) == "undefined" <==> l.bytes >= Pow1024(4))
  {
    var l := Scale(bytes);
    if l.exponent >= 4 {
      PowMonotone(4, l.exponent);
    } else {
      PowMonotone(l.exponent + 1, 4);
    }
  }

  lemma {:induction false} PowMonotone(a: nat, b: nat)
    requires a <= b
    ensures Pow1024(a) <= Pow1024(b)
    decreases b
  {
    if a < b {
      PowMonotone(a, b - 1);
    }
  }
}
