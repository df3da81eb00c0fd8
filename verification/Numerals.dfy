/** Decimal and hexadecimal numerals as the log prints them. */
module Numerals {
  import opened Machine

  function DigitChar(d: nat): (c: char)
    requires d < 10
    ensures '0' <= c <= '9'
  {
    '0' + d as char
  }

  predicate IsDigit(c: char) {
    '0' <= c <= '9'
  }

  function DigitValue(c: char): (d: nat)
    requires IsDigit(c)
    ensures d < 10
  {
    (c - '0') as nat
  }

  ghost predicate AllDigits(s: string) {
    forall i :: 0 <= i < |s| ==> IsDigit(s[i])
  }

  /** Decimal numeral, no sign, no leading zero. */
  function Decimal(n: nat): (s: string)
    ensures |s| >= 1 && AllDigits(s)
  {
    if n < 10 then [DigitChar(n)] else Decimal(n / 10) + [DigitChar(n % 10)]
  }

  function DecimalValue(s: string): (n: nat)
    requires AllDigits(s)
  {
    if s == "" then 0 else 10 * DecimalValue(s[..|s| - 1]) + DigitValue(s[|s| - 1])
  }

  lemma {:induction false} DecimalRoundTrip(n: nat)
    ensures DecimalValue(Decimal(n)) == n
    ensures |Decimal(n)| > 1 ==> Decimal(n)[0] != '0'
  {
    if n >= 10 {
      DecimalRoundTrip(n / 10);
      var front := Decimal(n / 10);
      assert Decimal(n)[..|front|] == front;
      assert |front| == 1 ==> front == [DigitChar(n / 10)];
    }
  }

  function Pow(b: nat, e: nat): (p: nat)
    ensures b > 0 ==> p > 0
  {
    if e == 0 then 1 else b * Pow(b, e - 1)
  }

  lemma {:induction false} PowAdd(b: nat, d: nat, e: nat)
    ensures Pow(b, d + e) == Pow(b, d) * Pow(b, e)
    decreases d
  {
    if d > 0 {
      PowAdd(b, d - 1, e);
      assert Pow(b, d + e) == b * (Pow(b, d - 1) * Pow(b, e)) == (b * Pow(b, d - 1)) * Pow(b, e);
    }
  }

  lemma PowersUsed()
    ensures Pow(10, 20) == 100_000_000_000_000_000_000 && Pow(16, 16) == 0x1_0000_0000_0000_0000
  {
    assert Pow(10, 5) == 100_000 && Pow(16, 4) == 0x1_0000;
    PowAdd(10, 5, 5);
    PowAdd(10, 10, 10);
    PowAdd(16, 4, 4);
    PowAdd(16, 8, 8);
  }

  lemma {:induction false} DecimalLength(n: nat, m: nat)
    requires m >= 1 && n < Pow(10, m)
    ensures |Decimal(n)| <= m
    decreases m
  {
    if n >= 10 {
      assert Pow(10, 1) == 10 * Pow(10, 0);
      DecimalLength(n / 10, m - 1);
    }
  }

  /** A 64-bit value has at most twenty decimal digits. */
  lemma WordLength(w: Word)
    ensures |Decimal(w)| <= 20
  {
    PowersUsed();
    DecimalLength(w, 20);
  }

  // ---- Hexadecimal ----

  const HEX := "0123456789abcdef"

  /** The `n` low hexadecimal digits of `v`, most significant first. */
  function HexDigits(v: nat, n: nat): (s: string)
    ensures |s| == n
  {
    if n == 0 then "" else HexDigits(v / 16, n - 1) + [HEX[v % 16]]
  }

  function HexDigitValue(c: char): (d: nat) {
    if '0' <= c <= '9' then (c - '0') as nat else if 'a' <= c <= 'f' then (c - 'a') as nat + 10 else 0
  }

  function HexValue(s: string): (v: nat) {
    if s == "" then 0 else 16 * HexValue(s[..|s| - 1]) + HexDigitValue(s[|s| - 1])
  }

  lemma HexDigitRoundTrip(d: nat)
    requires d < 16
    ensures HexDigitValue(HEX[d]) == d
  {
  }

  lemma {:induction false} HexRoundTrip(v: nat, n: nat)
    requires v < Pow(16, n)
    ensures HexValue(HexDigits(v, n)) == v
    decreases n
  {
    if n > 0 {
      HexRoundTrip(v / 16, n - 1);
      HexDigitRoundTrip(v % 16);
      assert HexDigits(v, n)[..n - 1] == HexDigits(v / 16, n - 1);
    }
  }

  /** `addr` as printed. */
  function Hex(v: Word): (s: string)
    ensures |s| == 18 && s[0] == '0' && s[1] == 'x'
  {
    "0x" + HexDigits(v, 16)
  }

  /** The printed address determines the value. */
  lemma HexInverts(v: Word)
    ensures HexValue(Hex(v)[2..]) == v
  {
    PowersUsed();
    HexRoundTrip(v, 16);
    assert Hex(v)[2..] == HexDigits(v, 16);
  }

  /** Dictionary order on strings. */
  predicate Before(s: string, t: string) {
    t != "" && (s == "" || s[0] < t[0] || (s[0] == t[0] && Before(s[1..], t[1..])))
  }

  lemma HexCharOrder(a: nat, b: nat)
    requires a < b < 16
    ensures HEX[a] < HEX[b]
  {
  }

  lemma {:induction false} BeforeSnoc(s: string, t: string, x: char, y: char)
    requires |s| == |t|
    ensures Before(s + [x], t + [y]) <==> Before(s, t) || (s == t && x < y)
    decreases |s|
  {
    if s == "" {
      assert s + [x] == [x] && t + [y] == [y];
    } else {
      assert (s + [x])[1..] == s[1..] + [x] && (t + [y])[1..] == t[1..] + [y];
      BeforeSnoc(s[1..], t[1..], x, y);
      assert s == [s[0]] + s[1..] && t == [t[0]] + t[1..];
    }
  }

  lemma {:induction false} HexDigitsOrder(v: nat, w: nat, n: nat)
    requires v < Pow(16, n) && w < Pow(16, n)
    ensures Before(HexDigits(v, n), HexDigits(w, n)) <==> v < w
    decreases n
  {
    if n > 0 {
      HexDigitsOrder(v / 16, w / 16, n - 1);
      BeforeSnoc(HexDigits(v / 16, n - 1), HexDigits(w / 16, n - 1), HEX[v % 16], HEX[w % 16]);
      if HexDigits(v / 16, n - 1) == HexDigits(w / 16, n - 1) {
        HexRoundTrip(v / 16, n - 1);
        HexRoundTrip(w / 16, n - 1);
      }
      if v % 16 < w % 16 { HexCharOrder(v % 16, w % 16); }
      if w % 16 < v % 16 { HexCharOrder(w % 16, v % 16); }
    }
  }

  /** Printed addresses sort as the addresses do. */
  lemma HexOrder(v: Word, w: Word)
    ensures Before(Hex(v), Hex(w)) <==> v < w
  {
    PowersUsed();
    HexDigitsOrder(v, w, 16);
    var s, t := Hex(v), Hex(w);
    assert s[1..][1..] == HexDigits(v, 16) && t[1..][1..] == HexDigits(w, 16);
  }

  /** `v >> (4 * i)`, a nibble at a time. */
  function Shr(v: nat, i: nat): (r: nat) {
    if i == 0 then v else Shr(v, i - 1) / 16
  }

  lemma {:induction false} ShrBound(v: nat, i: nat, n: nat)
    requires i <= n && v < Pow(16, n)
    ensures Shr(v, i) < Pow(16, n - i)
    decreases i
  {
    if i > 0 {
      ShrBound(v, i - 1, n);
      assert Pow(16, n - i + 1) == 16 * Pow(16, n - i);
    }
  }

  /** `appendHex`: the sixteen nibbles from the top, each `(v >> (4 * i)) & 0xf`. */
  method AppendHex(dst: string, v: Word) returns (r: string)
    ensures r == dst + Hex(v)
  {
    r := dst + "0x";
    var i := 16;
    ghost var digits := "";
    PowersUsed();
    ShrBound(v, 16, 16);
    while i > 0
      invariant 0 <= i <= 16
      invariant digits == HexDigits(Shr(v, i), 16 - i)
      invariant r == dst + "0x" + digits
    {
      i := i - 1;
      r := r + [HEX[Shr(v, i) % 16]];
      digits := digits + [HEX[Shr(v, i) % 16]];
    }
    assert r == dst + ("0x" + digits);
  }
}
