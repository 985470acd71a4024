/** The few operations of Go's strings and strconv packages that the modelled code relies on. */
module Text {

  predicate IsSpace(c: char)
  {
    c in " \t\n\r" || c as int in {0x0B, 0x0C, 0x85, 0xA0, 0x1680, 0x2028, 0x2029, 0x202F, 0x205F, 0x3000}
      || 0x2000 <= c as int <= 0x200A
  }

  function TrimLeft(s: string): (r: string)
    ensures |r| <= |s|
  {
    if s != [] && IsSpace(s[0]) then TrimLeft(s[1..]) else s
  }

  function TrimRight(s: string): (r: string)
    ensures |r| <= |s|
  {
    if s != [] && IsSpace(s[|s| - 1]) then TrimRight(s[..|s| - 1]) else s
  }

  /** strings.TrimSpace */
  function TrimSpace(s: string): string { TrimRight(TrimLeft(s)) }

  predicate Blank(s: string) { TrimSpace(s) == "" }

  /** Neither blank nor padded with space. */
  predicate Canonical(s: string) { s != "" && TrimSpace(s) == s }

  function Digit(d: nat): char requires d < 10 { '0' + d as char }

  predicate IsDigit(c: char) { '0' <= c <= '9' }

  /** strconv.Itoa on non-negative numbers. */
  function Itoa(n: nat): (s: string)
    ensures s != [] && forall c :: c in s ==> IsDigit(c)
  {
    if n < 10 then [Digit(n)] else Itoa(n / 10) + [Digit(n % 10)]
  }

  /** Left-pads with zeros to at least width characters, as fmt's %0*d does. */
  function Pad(s: string, width: nat): (r: string)
    ensures |s| <= |r|
    ensures (forall c :: c in s ==> IsDigit(c)) ==> forall c :: c in r ==> IsDigit(c)
    decreases width - |s|
  {
    if |s| < width then Pad(['0'] + s, width) else s
  }

  datatype Parsed = Number(value: int) | NotANumber

  /** The value of a string of decimal digits. */
  function DigitsValue(s: string): nat
    requires forall c :: c in s ==> IsDigit(c)
  {
    if s == [] then 0 else assert IsDigit(s[|s| - 1]); DigitsValue(s[..|s| - 1]) * 10 + (s[|s| - 1] as int - '0' as int)
  }

  const MAX_INT := 0x7FFF_FFFF_FFFF_FFFF

  /** strconv.Atoi on a 64-bit platform: an optional sign, then digits, in range. */
  function Atoi(s: string): Parsed
  {
    var digits := if s != [] && (s[0] == '+' || s[0] == '-') then s[1..] else s;
    if digits == [] || exists c :: c in digits && !IsDigit(c) then NotANumber
    else
      var v: int := DigitsValue(digits);
      if s[0] == '-' then if v <= MAX_INT + 1 then Number(-v) else NotANumber
      else if v <= MAX_INT then Number(v) else NotANumber
  }

  lemma {:induction false} ItoaValue(n: nat)
    ensures DigitsValue(Itoa(n)) == n
  {
    if 10 <= n {
      ItoaValue(n / 10);
      assert Itoa(n)[..|Itoa(n)| - 1] == Itoa(n / 10);
    } else {
      assert Itoa(n) == [Digit(n)];
      assert DigitsValue(Itoa(n)[..0]) == 0;
    }
  }

  lemma {:induction false} LeadingZero(s: string)
    requires forall c :: c in s ==> IsDigit(c)
    ensures DigitsValue(['0'] + s) == DigitsValue(s)
  {
    var t := ['0'] + s;
    if s == [] {
      assert t[..0] == [];
    } else {
      assert t[..|t| - 1] == ['0'] + s[..|s| - 1];
      LeadingZero(s[..|s| - 1]);
    }
  }

  lemma {:induction false} PadValue(s: string, width: nat)
    requires forall c :: c in s ==> IsDigit(c)
    ensures DigitsValue(Pad(s, width)) == DigitsValue(s)
    decreases width - |s|
  {
    if |s| < width {
      PadValue(['0'] + s, width);
      LeadingZero(s);
    }
  }

  /** Parsing a printed, padded number gives the number back. */
  lemma ParsePrinted(n: nat, width: nat)
    requires n <= MAX_INT
    ensures Atoi(Pad(Itoa(n), width)) == Number(n)
  {
    ItoaValue(n);
    PadValue(Itoa(n), width);
    var s := Pad(Itoa(n), width);
    assert s[0] in s;
  }

  /** Different numbers print differently. */
  lemma ItoaInjective(a: nat, b: nat)
    requires Itoa(a) == Itoa(b)
    ensures a == b
  {
    ItoaValue(a);
    ItoaValue(b);
  }
}
