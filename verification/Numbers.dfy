/** Printing and scanning of integers, as the standard streams, sscanf (section 7.21.6.2 of ISO
    C11) and strtoul (section 7.22.1.4) do it. */
module Numbers {
  import opened StringUtils

  predicate IsSpace(c: char) {
    c == ' ' || 9 as char <= c <= 13 as char
  }

  /** The value of a digit in some base up to 16; 99 for any other character. */
  function DigitOf(c: char): nat {
    if '0' <= c <= '9' then (c - '0') as nat
    else if 'a' <= c <= 'f' then (c - 'a') as nat + 10
    else if 'A' <= c <= 'F' then (c - 'A') as nat + 10
    else 99
  }

  /** The length of the longest prefix of digits. */
  function DigitRun(s: string, base: nat): (k: nat)
    ensures k <= |s|
  {
    if s == "" || DigitOf(s[0]) >= base then 0 else 1 + DigitRun(s[1..], base)
  }

  function Value(digits: string, base: nat): nat {
    if digits == "" then 0
    else Value(digits[..|digits| - 1], base) * base + DigitOf(digits[|digits| - 1])
  }

  function SpaceRun(s: string): (k: nat)
    ensures k <= |s|
  {
    if s == "" || !IsSpace(s[0]) then 0 else 1 + SpaceRun(s[1..])
  }

  /** The decimal representation without leading zeros. */
  function Decimal(n: nat): string {
    if n < 10 then [('0' as int + n) as char] else Decimal(n / 10) + [('0' as int + n % 10) as char]
  }

  /** A C string ends at its first NUL. */
  function CString(s: string): string {
    if s == "" || s[0] == 0 as char then "" else [s[0]] + CString(s[1..])
  }

  /** The sign and what follows it. */
  function Signed(s: string): (r: (bool, string))
    ensures |r.1| <= |s|
  {
    if s != "" && (s[0] == '-' || s[0] == '+') then (s[0] == '-', s[1..]) else (false, s)
  }

  /** sscanf with %d: None when no integer could be matched. */
  function ScanInt(s: string): Option<int> {
    var (negative, digits) := Signed(s[SpaceRun(s)..]);
    var k := DigitRun(digits, 10);
    if k == 0 then None
    else
      var v: int := Value(digits[..k], 10);
      Some(if negative then -v else v)
  }

  /** What strtoul with base 0 finds: the value, how many characters it used (0 when there is no
      number), and whether it set errno to ERANGE. */
  datatype Parsed = Parsed(value: nat, used: nat, outOfRange: bool)

  function Strtoul(s: string, max: nat): Parsed {
    var spaces := SpaceRun(s);
    var (negative, body) := Signed(s[spaces..]);
    var sign := |s| - spaces - |body|;
    var hexadecimal := |body| >= 3 && body[0] == '0' && (body[1] == 'x' || body[1] == 'X') && DigitOf(body[2]) < 16;
    var base := if hexadecimal then 16 else if body != "" && body[0] == '0' then 8 else 10;
    var prefix := if hexadecimal then 2 else 0;
    var k := DigitRun(body[prefix..], base);
    if k == 0 then Parsed(0, 0, false)
    else
      var v := Value(body[prefix..][..k], base);
      var used := spaces + sign + prefix + k;
      if v > max then Parsed(max, used, true)
      else Parsed(if negative && v > 0 then max + 1 - v else v, used, false)
  }

  // ---- Scanning undoes printing -----------------------------------------------------------------

  ghost predicate AllDigits(s: string, base: nat) {
    forall i :: 0 <= i < |s| ==> DigitOf(s[i]) < base
  }

  lemma {:induction false} DecimalShape(n: nat)
    ensures Decimal(n) != "" && AllDigits(Decimal(n), 10) && Value(Decimal(n), 10) == n
    ensures forall c :: c in Decimal(n) ==> '0' <= c <= '9'
    ensures Decimal(n)[0] == '0' <==> n == 0
    ensures n == 0 ==> |Decimal(n)| == 1
  {
    var last := ('0' as int + n % 10) as char;
    assert DigitOf(last) == n % 10;
    if n < 10 {
      assert Decimal(n)[..0] == "";
    } else {
      DecimalShape(n / 10);
      assert Decimal(n)[..|Decimal(n)| - 1] == Decimal(n / 10);
    }
  }

  lemma DigitRunAll(s: string, base: nat)
    requires AllDigits(s, base)
    ensures DigitRun(s, base) == |s|
  {
  }

  /** Reading with %d what was printed gives the number back. */
  lemma ScanDecimal(n: nat)
    ensures ScanInt(Decimal(n)) == Some(n)
  {
    DecimalShape(n);
    var s := Decimal(n);
    assert s[0] in s && SpaceRun(s) == 0 && s[0..] == s;
    DigitRunAll(s, 10);
    assert s[..|s|] == s;
  }

  /** A sign may stand before the digits. */
  lemma ScanSigned(n: nat)
    ensures ScanInt("-" + Decimal(n)) == Some(0 - n as int) && ScanInt("+" + Decimal(n)) == Some(n as int)
  {
    SignedDigits('-', n);
    SignedDigits('+', n);
  }

  lemma SignedDigits(sign: char, n: nat)
    requires sign == '-' || sign == '+'
    ensures ScanInt([sign] + Decimal(n)) == Some(if sign == '-' then 0 - n as int else n as int)
  {
    DecimalShape(n);
    var s := [sign] + Decimal(n);
    assert SpaceRun(s) == 0 && s[0..] == s && s[1..] == Decimal(n) && Signed(s) == (sign == '-', Decimal(n));
    DigitRunAll(Decimal(n), 10);
    assert Decimal(n)[..|Decimal(n)|] == Decimal(n);
  }

  lemma StrtoulZero(max: nat)
    ensures Strtoul("0", max) == Parsed(0, 1, false)
  {
    assert SpaceRun("0") == 0 && DigitRun("0", 8) == 1 && "0"[0..] == "0" && "0"[..1] == "0" && "0"[..0] == "";
    assert Value("0", 8) == 0;
  }

  lemma StrtoulDigits(s: string, max: nat)
    requires s != "" && AllDigits(s, 10) && '1' <= s[0] <= '9' && Value(s, 10) <= max
    ensures Strtoul(s, max) == Parsed(Value(s, 10), |s|, false)
  {
    assert SpaceRun(s) == 0 && s[0..] == s && Signed(s) == (false, s);
    DigitRunAll(s, 10);
    assert s[..|s|] == s;
  }

  /** Reading with strtoul and base 0 what was printed gives the number back, all of it: a
      decimal representation never looks like an octal or hexadecimal one, except for zero. */
  lemma StrtoulDecimal(n: nat, max: nat)
    requires n <= max
    ensures Strtoul(Decimal(n), max) == Parsed(n, |Decimal(n)|, false)
  {
    DecimalShape(n);
    if n == 0 {
      StrtoulZero(max);
    } else {
      StrtoulDigits(Decimal(n), max);
    }
  }

  /** A number beyond the type is out of range. */
  lemma StrtoulOverflow(n: nat, max: nat)
    requires n > max
    ensures Strtoul(Decimal(n), max) == Parsed(max, |Decimal(n)|, true)
  {
    DecimalShape(n);
    var s := Decimal(n);
    assert SpaceRun(s) == 0 && s[0..] == s && Signed(s) == (false, s);
    DigitRunAll(s, 10);
    assert s[..|s|] == s;
  }

  lemma CStringWithoutNul(s: string)
    requires 0 as char !in s
    ensures CString(s) == s
  {
  }
}
