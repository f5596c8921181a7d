/** The JavaScript string operations the console relies on: `trim`,
    `split("/").pop()`, `parseInt(s, 10)` and the decimal text of an integer. */
module Strings {
  import opened Common

  /** The ECMAScript WhiteSpace and LineTerminator code points, removed by
      `trim` and skipped by `parseInt`. */
  predicate IsSpace(c: char) {
    c == '\t' || c == '\n' || c == '\U{B}' || c == '\U{C}' || c == '\r' || c == ' '
    || c == '\U{A0}' || c == '\U{1680}' || ('\U{2000}' <= c <= '\U{200A}')
    || c == '\U{2028}' || c == '\U{2029}' || c == '\U{202F}' || c == '\U{205F}'
    || c == '\U{3000}' || c == '\U{FEFF}'
  }

  predicate IsBlank(s: string) {
    forall i :: 0 <= i < |s| ==> IsSpace(s[i])
  }

  /** `trimStart`: the suffix left after dropping leading white space. */
  function TrimStart(s: string): (r: string)
    ensures |r| <= |s| && r == s[|s| - |r|..]
    ensures IsBlank(s[..|s| - |r|])
    ensures r != [] ==> !IsSpace(r[0])
  {
    if s != [] && IsSpace(s[0]) then
      var r := TrimStart(s[1..]);
      BlankCons(s[0], s[1..][..|s| - 1 - |r|]);
      assert s[..|s| - |r|] == [s[0]] + s[1..][..|s| - 1 - |r|];
      r
    else s
  }

  lemma BlankCons(c: char, t: string)
    requires IsSpace(c) && IsBlank(t)
    ensures IsBlank([c] + t)
  {
    assert forall i :: 0 < i < |[c] + t| ==> ([c] + t)[i] == t[i - 1];
  }

  /** `trimEnd`: the prefix left after dropping trailing white space. */
  function TrimEnd(s: string): (r: string)
    ensures |r| <= |s| && r == s[..|r|]
    ensures IsBlank(s[|r|..])
    ensures r != [] ==> !IsSpace(r[|r| - 1])
  {
    if s != [] && IsSpace(s[|s| - 1]) then TrimEnd(s[..|s| - 1]) else s
  }

  /** How many white-space characters `s` starts with. */
  function LeadingSpaces(s: string): nat {
    |s| - |TrimStart(s)|
  }

  /** `s.trim()`: white space dropped at both ends. */
  function Trim(s: string): string {
    TrimEnd(TrimStart(s))
  }

  /** The trimmed text is a contiguous part of `s` that neither starts nor
      ends with white space, and everything dropped around it is white
      space; it is empty exactly when `s` is all white space. */
  lemma TrimSpec(s: string)
    ensures var r := Trim(s);
      && (r == [] <==> IsBlank(s))
      && (r != [] ==> !IsSpace(r[0]) && !IsSpace(r[|r| - 1]))
      && LeadingSpaces(s) + |r| <= |s|
      && r == s[LeadingSpaces(s)..LeadingSpaces(s) + |r|]
      && IsBlank(s[..LeadingSpaces(s)]) && IsBlank(s[LeadingSpaces(s) + |r|..])
  {
    var t := TrimStart(s);
    var r := TrimEnd(t);
    TrimParts(s, |s| - |t|, t, r);
  }

  lemma TrimParts(s: string, lead: nat, t: string, r: string)
    requires lead <= |s| && t == s[lead..] && IsBlank(s[..lead]) && (t != [] ==> !IsSpace(t[0]))
    requires |r| <= |t| && r == t[..|r|] && IsBlank(t[|r|..])
    ensures lead + |r| <= |s| && r == s[lead..lead + |r|] && IsBlank(s[lead + |r|..])
    ensures r == [] <==> IsBlank(s)
    ensures r != [] ==> !IsSpace(r[0])
  {
    assert s[lead + |r|..] == t[|r|..];
    if r == [] {
      assert s[..lead] == s;
    } else {
      assert s[lead] == t[0];
    }
  }

  /** `s.split("/").pop()`: the text after the last '/', or all of `s` when
      it has none. */
  function LastSegment(s: string): (r: string)
    ensures '/' !in r
    ensures |r| <= |s| && r == s[|s| - |r|..]
    ensures |r| < |s| ==> s[|s| - |r| - 1] == '/'
  {
    if s == [] then []
    else if s[|s| - 1] == '/' then []
    else LastSegment(s[..|s| - 1]) + [s[|s| - 1]]
  }

  /** `s.split("/").pop() || s`: the last segment, or the whole of `s` when
      that segment is empty. */
  function LastSegmentOrWhole(s: string): (r: string)
    ensures '/' !in s ==> r == s
    ensures s != [] && s[|s| - 1] == '/' ==> r == s
    ensures r != s ==> r != [] && '/' !in r && |r| < |s| && s[|s| - |r| - 1] == '/' && r == s[|s| - |r|..]
    ensures '/' in s && s[|s| - 1] != '/' ==> r != s
    ensures LastSegment(s) != [] ==> r == LastSegment(s)
  {
    var seg := LastSegment(s);
    if seg == [] then s else seg
  }

  /** The last segment of a path is the part after its final separator. */
  lemma {:induction false} LastSegmentOfPath(prefix: string, id: string)
    requires '/' !in id
    ensures LastSegment(prefix + "/" + id) == id
  {
    var s := prefix + "/" + id;
    if id == [] {
    } else {
      assert s[..|s| - 1] == prefix + "/" + id[..|id| - 1];
      LastSegmentOfPath(prefix, id[..|id| - 1]);
      assert id == id[..|id| - 1] + [id[|id| - 1]];
    }
  }

  predicate IsDigit(c: char) {
    '0' <= c <= '9'
  }

  predicate AllDigits(s: string) {
    forall i :: 0 <= i < |s| ==> IsDigit(s[i])
  }

  function DigitValue(c: char): (d: nat)
    requires IsDigit(c)
    ensures d < 10
  {
    (c as int - '0' as int) as nat
  }

  function DigitChar(d: nat): (c: char)
    requires d < 10
    ensures IsDigit(c) && DigitValue(c) == d
  {
    ('0' as int + d) as char
  }

  /** The value of a string of decimal digits, most significant first. */
  function DigitsValue(s: string): nat
    requires AllDigits(s)
  {
    if s == [] then 0 else DigitsValue(s[..|s| - 1]) * 10 + DigitValue(s[|s| - 1])
  }

  /** The longest prefix of `s` made of decimal digits. */
  function DigitPrefix(s: string): (r: string)
    ensures AllDigits(r) && |r| <= |s| && r == s[..|r|]
    ensures |r| < |s| ==> !IsDigit(s[|r|])
  {
    if s != [] && IsDigit(s[0]) then [s[0]] + DigitPrefix(s[1..]) else []
  }

  /** `parseInt(s, 10)`: white space is skipped, an optional sign is read,
      then the longest run of digits; `None` stands for NaN (no digits). */
  function ParseInt(s: string): (r: Option<int>)
    ensures r.None? <==> DigitPrefix(SignedDigits(TrimStart(s))) == []
    ensures AllDigits(s) && s != [] ==> r == Some(DigitsValue(s))
  {
    var t := TrimStart(s);
    var d := DigitPrefix(SignedDigits(t));
    assert AllDigits(s) && s != [] ==> t == s && d == s by {
      if AllDigits(s) && s != [] {
        assert !IsSpace(s[0]);
        DigitPrefixOfDigits(s);
      }
    }
    if d == [] then None
    else if t[0] == '-' then Some(-(DigitsValue(d) as int))
    else Some(DigitsValue(d))
  }

  /** The text after an optional leading sign. */
  function SignedDigits(t: string): (r: string)
    ensures r == t || (t != [] && (t[0] == '-' || t[0] == '+') && r == t[1..])
  {
    if t != [] && (t[0] == '-' || t[0] == '+') then t[1..] else t
  }

  lemma {:induction false} DigitPrefixOfDigits(s: string)
    requires AllDigits(s)
    ensures DigitPrefix(s) == s
  {
    if s != [] {
      DigitPrefixOfDigits(s[1..]);
    }
  }

  /** The decimal digits of a natural number, without leading zeros. */
  function NatToDigits(n: nat): (r: string)
    ensures r != [] && AllDigits(r) && DigitsValue(r) == n
    ensures r[0] == '0' ==> r == "0"
    decreases n
  {
    if n < 10 then [DigitChar(n)]
    else
      var r := NatToDigits(n / 10) + [DigitChar(n % 10)];
      assert r[..|r| - 1] == NatToDigits(n / 10);
      r
  }

  /** `String(n)` for an integer `n`: an optional '-' and its digits. */
  function IntToString(n: int): (r: string)
    ensures r != []
    ensures n < 0 <==> r[0] == '-'
    ensures n >= 0 ==> AllDigits(r) && DigitsValue(r) == n && (r[0] == '0' ==> r == "0")
    ensures n < 0 ==> |r| >= 2 && AllDigits(r[1..]) && r[1] != '0' && DigitsValue(r[1..]) == -n
  {
    if n < 0 then
      var d := NatToDigits(-n);
      assert ("-" + d)[1..] == d;
      "-" + d
    else NatToDigits(n)
  }

  /** `parseInt` reads back the decimal text of every integer. */
  lemma ParseIntOfIntToString(n: int)
    ensures ParseInt(IntToString(n)) == Some(n)
  {
    var s := IntToString(n);
    assert TrimStart(s) == s by { assert !IsSpace(s[0]); }
    if n < 0 {
      assert SignedDigits(s) == s[1..];
      DigitPrefixOfDigits(s[1..]);
    } else {
      assert SignedDigits(s) == s;
      DigitPrefixOfDigits(s);
    }
  }
}
