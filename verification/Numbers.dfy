// Decimal numbers as the Python side prints them and the C side reads them back.
module Numbers {
  import opened Slots

  const INT_MAX: int := 0x7fff_ffff
  const ULONG_MAX: nat := 0xffff_ffff_ffff_ffff

  predicate IsInt(n: int) { -INT_MAX - 1 <= n <= INT_MAX }

  function Digit(d: nat): char
    requires d < 10
  {
    '0' + d as char
  }

  predicate IsDigit(c: char) { '0' <= c <= '9' }

  function DigitValue(c: char): nat
    requires IsDigit(c)
  {
    c as int - '0' as int
  }

  // The "%s" and "%d" of a Python integer.
  function DecNat(n: nat): string {
    if n < 10 then [Digit(n)] else DecNat(n / 10) + [Digit(n % 10)]
  }

  function Dec(n: int): string {
    if n < 0 then "-" + DecNat(-n) else DecNat(n)
  }

  function SkipSpace(s: string): string {
    if s != [] && (s[0] == ' ' || '\t' <= s[0] <= '\r') then SkipSpace(s[1..]) else s
  }

  function LeadingDigits(s: string): (r: string)
    ensures forall i :: 0 <= i < |r| ==> IsDigit(r[i])
  {
    if s != [] && IsDigit(s[0]) then [s[0]] + LeadingDigits(s[1..]) else []
  }

  function DigitsValue(s: string): nat
    requires forall i :: 0 <= i < |s| ==> IsDigit(s[i])
  {
    if s == [] then 0 else 10 * DigitsValue(s[..|s| - 1]) + DigitValue(s[|s| - 1])
  }

  // The initial portion of a string as a number: blanks, an optional sign, then digits.
  function Signed(s: string): int {
    var t := SkipSpace(s);
    if t != [] && t[0] == '-' then -(DigitsValue(LeadingDigits(t[1..])) as int)
    else if t != [] && t[0] == '+' then DigitsValue(LeadingDigits(t[1..]))
    else DigitsValue(LeadingDigits(t))
  }

  // atoi: out of range is undefined (section 7.20.1 of ISO C99).
  function Atoi(s: string): Option<int> {
    if IsInt(Signed(s)) then Some(Signed(s)) else None
  }

  // strtoul on a 64-bit unsigned long: saturating, and negation wraps.
  function Strtoul(s: string): nat {
    var v := Signed(s);
    if v > ULONG_MAX || -v > ULONG_MAX then ULONG_MAX
    else if v < 0 then v + ULONG_MAX + 1
    else v
  }

  lemma {:induction false} LeadingOfDigits(s: string, rest: string)
    requires forall i :: 0 <= i < |s| ==> IsDigit(s[i])
    requires rest == [] || !IsDigit(rest[0])
    ensures LeadingDigits(s + rest) == s
  {
    if s != [] {
      assert (s + rest)[1..] == s[1..] + rest;
      LeadingOfDigits(s[1..], rest);
    } else {
      assert s + rest == rest;
    }
  }

  lemma {:induction false} DecNatDigits(n: nat)
    ensures DecNat(n) != [] && forall i :: 0 <= i < |DecNat(n)| ==> IsDigit(DecNat(n)[i])
  {
    if n >= 10 {
      DecNatDigits(n / 10);
    }
  }

  lemma {:induction false} DecNatValue(n: nat)
    ensures forall i :: 0 <= i < |DecNat(n)| ==> IsDigit(DecNat(n)[i])
    ensures DigitsValue(DecNat(n)) == n
  {
    DecNatDigits(n);
    if n >= 10 {
      DecNatValue(n / 10);
      var s := DecNat(n);
      assert s[..|s| - 1] == DecNat(n / 10);
    } else {
      assert DecNat(n)[..0] == [];
    }
  }

  // Reading back a printed integer.
  lemma SignedDec(n: int)
    ensures Signed(Dec(n)) == n
  {
    hide DigitsValue;
    var m: nat := if n < 0 then -n else n;
    DecNatValue(m);
    DecNatDigits(m);
    LeadingOfDigits(DecNat(m), []);
    assert DecNat(m) + [] == DecNat(m);
    if n < 0 {
      assert Dec(n)[1..] == DecNat(m);
    }
  }

  // Every printed integer is read back: atoi as itself or not at all, strtoul saturated, with a minus sign
  // counting down from 2^64.
  lemma NumbersReadBack(n: int)
    ensures Atoi(Dec(n)) == if -0x8000_0000 <= n < 0x8000_0000 then Some(n) else None
    ensures Strtoul(Dec(n)) ==
            if 0 <= n < 0x1_0000_0000_0000_0000 then n
            else if -0x1_0000_0000_0000_0000 < n < 0 then n + 0x1_0000_0000_0000_0000
            else 0xffff_ffff_ffff_ffff
  {
    SignedDec(n);
  }

  predicate Blank(s: string) {
    forall i :: 0 <= i < |s| ==> s[i] as int in {9, 10, 11, 12, 13, 32}
  }

  lemma {:induction false} SkipBlank(space: string, rest: string)
    requires Blank(space)
    ensures SkipSpace(space + rest) == SkipSpace(rest)
  {
    if space == [] {
      assert space + rest == rest;
    } else {
      assert (space + rest)[1..] == space[1..] + rest;
      SkipBlank(space[1..], rest);
    }
  }

  // Digits, with anything but a digit after them.
  lemma DigitsThenText(m: nat, rest: string)
    requires rest == [] || !IsDigit(rest[0])
    ensures DecNat(m) != [] && IsDigit(DecNat(m)[0])
    ensures DigitsValue(LeadingDigits(DecNat(m) + rest)) == m
  {
    hide DecNat, DigitsValue, LeadingDigits;
    DecNatValue(m);
    DecNatDigits(m);
    LeadingOfDigits(DecNat(m), rest);
  }

  lemma UnsignedInText(m: nat, rest: string)
    requires rest == [] || !IsDigit(rest[0])
    ensures Signed(DecNat(m) + rest) == m && Signed("+" + DecNat(m) + rest) == m
    ensures Signed("-" + DecNat(m) + rest) == -(m as int)
  {
    hide DecNat, DigitsValue, LeadingDigits;
    DigitsThenText(m, rest);
    var t := DecNat(m) + rest;
    assert "-" + DecNat(m) + rest == "-" + t && ("-" + t)[1..] == t;
    assert "+" + DecNat(m) + rest == "+" + t && ("+" + t)[1..] == t;
  }

  lemma NoNumber(rest: string)
    requires rest == [] || !(Blank([rest[0]]) || IsDigit(rest[0]) || rest[0] == '+' || rest[0] == '-')
    ensures Signed(rest) == 0
  {
    if rest != [] {
      assert Blank([rest[0]]) <==> rest[0] as int in {9, 10, 11, 12, 13, 32};
    }
  }

  // Blanks before a number and anything but a digit after it are ignored, a plus sign changes nothing, and
  // text that does not start a number counts as 0.
  lemma NumberInText(space: string, n: int, rest: string)
    requires Blank(space) && (rest == [] || !('0' <= rest[0] <= '9'))
    ensures Signed(space + Dec(n) + rest) == n
    ensures n >= 0 ==> Signed(space + "+" + Dec(n) + rest) == n
    ensures rest == [] || !(Blank([rest[0]]) || rest[0] == '+' || rest[0] == '-') ==> Signed(space + rest) == 0
  {
    hide DecNat, Signed, Blank, SkipSpace;
    SignedAfter(space, Dec(n) + rest);
    SignedAfter(space, "+" + Dec(n) + rest);
    SignedAfter(space, rest);
    assert space + Dec(n) + rest == space + (Dec(n) + rest);
    assert space + "+" + Dec(n) + rest == space + ("+" + Dec(n) + rest);
    UnsignedInText(if n < 0 then -n else n, rest);
    if rest == [] || !(Blank([rest[0]]) || rest[0] == '+' || rest[0] == '-') {
      NoNumber(rest);
    }
  }

  lemma SignedAfter(space: string, t: string)
    requires Blank(space)
    ensures Signed(space + t) == Signed(t)
  {
    hide SkipSpace;
    SkipBlank(space, t);
  }
}
