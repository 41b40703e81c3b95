/** Bytes, ASCII classes and bounded numbers shared by every wire rule. */
module Bytes {
  import opened States

  type byte = b: int | 0 <= b < 256
  type bytes = seq<byte>

  /** One more than the largest 64-bit `usize`. */
  const USIZE: nat := 0x1_0000_0000_0000_0000

  const TAB: byte := 9
  const LF: byte := 10
  const CR: byte := 13
  const SP: byte := 32
  const DQUOTE: byte := 34
  const COMMA: byte := 44
  const SLASH: byte := 47
  const COLON: byte := 58
  const SEMICOLON: byte := 59
  const EQUALS: byte := 61
  const BACKSLASH: byte := 92

  const CRLF: bytes := [CR, LF]

  predicate IsDigit(b: byte) {
    48 <= b <= 57
  }

  predicate IsOws(b: byte) {
    b == SP || b == TAB
  }

  predicate IsToken(b: byte) {
    || 97 <= b <= 122 || 65 <= b <= 90 || IsDigit(b)
    || b == 33 || 35 <= b <= 39 || b == 42 || b == 43 || b == 45 || b == 46
    || 94 <= b <= 96 || b == 124 || b == 126
  }

  /** Bytes allowed inside a field value or a quoted pair. */
  predicate IsLineValue(b: byte) {
    b == TAB || 32 <= b <= 126 || 128 <= b
  }

  predicate IsVchar(b: byte) {
    33 <= b <= 126 || 128 <= b
  }

  predicate AllOws(s: bytes) {
    forall i :: 0 <= i < |s| ==> IsOws(s[i])
  }

  predicate AllToken(s: bytes) {
    forall i :: 0 <= i < |s| ==> IsToken(s[i])
  }

  function Lower(b: byte): byte {
    if 65 <= b <= 90 then b + 32 else b
  }

  predicate EqIgnoreCase(a: bytes, b: bytes) {
    |a| == |b| && forall i :: 0 <= i < |a| ==> Lower(a[i]) == Lower(b[i])
  }

  // ------------------------------------------------------------------ numbers

  /** The value of one digit, or `radix` for a byte that is not one. */
  function DigitValue(b: byte, radix: nat): nat {
    var v := if IsDigit(b) then b - 48
             else if 97 <= b <= 102 then b - 87
             else if 65 <= b <= 70 then b - 55
             else radix;
    if v < radix then v else radix
  }

  predicate AllDigits(s: bytes, radix: nat) {
    forall i :: 0 <= i < |s| ==> DigitValue(s[i], radix) < radix
  }

  /** The unbounded value of a digit string. */
  function NumberValue(s: bytes, radix: nat): nat {
    if s == [] then 0
    else NumberValue(s[..|s| - 1], radix) * radix + DigitValue(s[|s| - 1], radix)
  }

  /** The left-to-right checked fold: overflow and a non-digit both fail. */
  function FoldNumber(s: bytes, radix: nat): Option<nat> {
    if s == [] then Some(0)
    else
      var prefix := FoldNumber(s[..|s| - 1], radix);
      var digit := DigitValue(s[|s| - 1], radix);
      if prefix.None? || prefix.value * radix >= USIZE || digit >= radix
         || prefix.value * radix + digit >= USIZE
      then None
      else Some(prefix.value * radix + digit)
  }

  function ParseNumber(s: bytes, radix: nat): Option<nat> {
    if s == [] then None else FoldNumber(s, radix)
  }

  lemma AllDigitsSnoc(s: bytes, radix: nat)
    requires s != []
    ensures AllDigits(s, radix) <==> AllDigits(s[..|s| - 1], radix) && DigitValue(s[|s| - 1], radix) < radix
  {
  }

  lemma Grows(a: nat, radix: nat)
    requires radix >= 1
    ensures a <= a * radix
  {
  }

  lemma {:induction false} FoldIsExact(s: bytes, radix: nat)
    requires radix >= 2
    ensures FoldNumber(s, radix) ==
            if AllDigits(s, radix) && NumberValue(s, radix) < USIZE
            then Some(NumberValue(s, radix)) else None
  {
    if s == [] {
    } else {
      FoldIsExact(s[..|s| - 1], radix);
      AllDigitsSnoc(s, radix);
      Grows(NumberValue(s[..|s| - 1], radix), radix);
    }
  }

  /** A checked parse succeeds exactly on digit strings whose value fits. */
  lemma ParseNumberIsExact(s: bytes, radix: nat, v: nat)
    requires radix >= 2
    ensures ParseNumber(s, radix) == Some(v) <==>
            s != [] && AllDigits(s, radix) && NumberValue(s, radix) == v && v < USIZE
  {
    FoldIsExact(s, radix);
  }

  lemma Regroup(x: bytes, y: bytes, z: bytes)
    ensures (x + y) + z == x + (y + z)
  {
  }
}
