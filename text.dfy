/**
 * Text primitives the protocol layer relies on: bytes, the UTF-8 encoding of
 * strings (Rust strings are UTF-8, so `len()` counts encoded bytes), ASCII case
 * folding of header names, and decimal numerals.
 */
module Text {

  type byte = b: int | 0 <= b < 0x100

  // ---------------------------------------------------------------- UTF-8

  /** A continuation byte 10xxxxxx. */
  predicate IsContinuation(b: byte) {
    0x80 <= b <= 0xBF
  }

  /**
   * The length of the well-formed UTF-8 sequence at the start of `bs`, or 0
   * when `bs` does not start with one (Table 3-7 of the Unicode Standard).
   */
  function LeadSequenceLength(bs: seq<byte>): nat
    requires |bs| > 0
  {
    var b0 := bs[0];
    if b0 <= 0x7F then 1
    else if 0xC2 <= b0 <= 0xDF then
      if |bs| >= 2 && IsContinuation(bs[1]) then 2 else 0
    else if 0xE0 <= b0 <= 0xEF then
      var lo := if b0 == 0xE0 then 0xA0 else 0x80;
      var hi := if b0 == 0xED then 0x9F else 0xBF;
      if |bs| >= 3 && lo <= bs[1] <= hi && IsContinuation(bs[2]) then 3 else 0
    else if 0xF0 <= b0 <= 0xF4 then
      var lo := if b0 == 0xF0 then 0x90 else 0x80;
      var hi := if b0 == 0xF4 then 0x8F else 0xBF;
      if |bs| >= 4 && lo <= bs[1] <= hi && IsContinuation(bs[2]) && IsContinuation(bs[3]) then 4 else 0
    else 0
  }

  /** `bs` is well-formed UTF-8 (what `std::str::from_utf8` accepts). */
  predicate IsUtf8(bs: seq<byte>)
    decreases |bs|
  {
    bs == [] ||
    var n := LeadSequenceLength(bs);
    0 < n <= |bs| && IsUtf8(bs[n..])
  }

  /** The UTF-8 encoding of one Unicode scalar value. */
  function EncodeChar(c: char): (bs: seq<byte>)
    ensures 1 <= |bs| <= 4
  {
    var n := c as int;
    if n < 0x80 then [n]
    else if n < 0x800 then [0xC0 + n / 0x40, 0x80 + n % 0x40]
    else if n < 0x10000 then [0xE0 + n / 0x1000, 0x80 + (n / 0x40) % 0x40, 0x80 + n % 0x40]
    else [0xF0 + n / 0x40000, 0x80 + (n / 0x1000) % 0x40, 0x80 + (n / 0x40) % 0x40, 0x80 + n % 0x40]
  }

  /** The UTF-8 encoding of a string: the bytes Rust stores for it. */
  function Utf8Encode(s: string): seq<byte>
  {
    if s == [] then [] else EncodeChar(s[0]) + Utf8Encode(s[1..])
  }

  /** The encoding of one scalar value is a single well-formed sequence. */
  lemma EncodeCharIsLeadSequence(c: char, rest: seq<byte>)
    ensures LeadSequenceLength(EncodeChar(c) + rest) == |EncodeChar(c)|
  {
    var n := c as int;
    var bs := EncodeChar(c) + rest;
    if n < 0x80 {
    } else if n < 0x800 {
      assert 2 <= n / 0x40 < 0x20;
    } else if n < 0x10000 {
      var top := n / 0x1000;
      var mid := (n / 0x40) % 0x40;
      assert 0 <= top < 0x10;
      assert n / 0x40 == top * 0x40 + mid;
      assert top == 0 ==> mid >= 0x20;
      assert top == 0xD ==> mid <= 0x1F;
    } else {
      var top := n / 0x40000;
      var mid := (n / 0x1000) % 0x40;
      assert 0 <= top <= 4;
      assert n / 0x1000 == top * 0x40 + mid;
      assert top == 0 ==> mid >= 0x10;
      assert top == 4 ==> mid <= 0xF;
    }
  }

  /** Every string encodes to well-formed UTF-8. */
  lemma {:induction false} EncodedIsUtf8(s: string)
    ensures IsUtf8(Utf8Encode(s))
  {
    if s != [] {
      var head := EncodeChar(s[0]);
      var rest := Utf8Encode(s[1..]);
      EncodedIsUtf8(s[1..]);
      EncodeCharIsLeadSequence(s[0], rest);
      assert (head + rest)[|head|..] == rest;
    }
  }

  // ------------------------------------------------------- ASCII and case

  /** Bytes below 0x80 are each a one-byte UTF-8 sequence. */
  lemma {:induction false} AsciiIsUtf8(bs: seq<byte>)
    requires forall i :: 0 <= i < |bs| ==> bs[i] < 0x80
    ensures IsUtf8(bs)
  {
    if bs != [] {
      AsciiIsUtf8(bs[1..]);
    }
  }

  predicate IsAsciiDigit(b: int) {
    '0' as int <= b <= '9' as int
  }

  predicate AllDigits(ds: seq<int>) {
    forall i :: 0 <= i < |ds| ==> IsAsciiDigit(ds[i])
  }

  /** The code points of a string, to read numerals from text and from bytes alike. */
  function Codes(s: string): (cs: seq<int>)
    ensures |cs| == |s| && forall i :: 0 <= i < |s| ==> cs[i] == s[i] as int
  {
    seq(|s|, i requires 0 <= i < |s| => s[i] as int)
  }

  /** ASCII lower-casing of one character; every other character is left as it is. */
  function LowerAscii(c: char): char {
    if 'A' <= c <= 'Z' then (c as int + 32) as char else c
  }

  function Lower(s: string): (r: string)
    ensures |r| == |s| && forall i :: 0 <= i < |s| ==> r[i] == LowerAscii(s[i])
  {
    seq(|s|, i requires 0 <= i < |s| => LowerAscii(s[i]))
  }

  // ------------------------------------------------------------- decimal

  function DigitChar(d: nat): (c: char)
    requires d < 10
    ensures IsAsciiDigit(c as int) && c as int - '0' as int == d
  {
    ('0' as int + d) as char
  }

  /** The value of a numeral, most significant digit first. */
  function DigitsValue(ds: seq<int>): nat
    requires AllDigits(ds)
  {
    if ds == [] then 0
    else DigitsValue(ds[..|ds| - 1]) * 10 + (ds[|ds| - 1] - '0' as int)
  }

  /** The decimal numeral of `n` without leading zeros, as Rust's `Display` writes a `usize`. */
  function Decimal(n: nat): (s: string)
    ensures |s| >= 1 && AllDigits(Codes(s))
    ensures |s| > 1 ==> s[0] != '0'
  {
    if n < 10 then [DigitChar(n)] else Decimal(n / 10) + [DigitChar(n % 10)]
  }

  /** Reading back the numeral `Decimal` writes gives the number. */
  lemma {:induction false} DecimalValue(n: nat)
    ensures DigitsValue(Codes(Decimal(n))) == n
  {
    var ds := Codes(Decimal(n));
    if n >= 10 {
      DecimalValue(n / 10);
      assert ds[..|ds| - 1] == Codes(Decimal(n / 10));
    }
  }

  /** A decimal numeral is ASCII, so its UTF-8 encoding is its code points. */
  lemma {:induction false} EncodeDigits(s: string)
    requires AllDigits(Codes(s))
    ensures Utf8Encode(s) == Codes(s)
  {
    if s != [] {
      EncodeDigits(s[1..]);
      assert Codes(s) == [s[0] as int] + Codes(s[1..]);
    }
  }

  /** `k` ASCII zero digits. */
  function Zeros(k: nat): (z: seq<byte>)
    ensures |z| == k && forall i :: 0 <= i < k ==> z[i] == '0' as int
  {
    seq(k, _ => '0' as int)
  }

  /**
   * `ds` spells `n`: some zero digits, then the numeral `Decimal` writes for `n`.
   * These are exactly the digit strings whose value is `n`.
   */
  predicate NumeralOf(ds: seq<int>, n: nat) {
    var d := Codes(Decimal(n));
    |d| <= |ds|
    && (forall i :: 0 <= i < |ds| - |d| ==> ds[i] == '0' as int)
    && ds[|ds| - |d|..] == d
  }

  /** Leading zeros do not change the value of a numeral. */
  lemma {:induction false} LeadingZerosValue(k: nat, ds: seq<int>)
    requires AllDigits(ds)
    ensures AllDigits(Zeros(k) + ds) && DigitsValue(Zeros(k) + ds) == DigitsValue(ds)
  {
    var zs := Zeros(k) + ds;
    if ds == [] {
      assert zs == Zeros(k);
      if k > 0 {
        LeadingZerosValue(k - 1, []);
        assert zs[..|zs| - 1] == Zeros(k - 1) + [];
      }
    } else {
      LeadingZerosValue(k, ds[..|ds| - 1]);
      assert zs[..|zs| - 1] == Zeros(k) + ds[..|ds| - 1];
    }
  }

  /** A numeral whose first digit is not zero has a positive value. */
  lemma {:induction false} NonZeroLeadValue(ds: seq<int>)
    requires |ds| >= 1 && AllDigits(ds) && ds[0] != '0' as int
    ensures DigitsValue(ds) >= 1
  {
    if |ds| > 1 {
      NonZeroLeadValue(ds[..|ds| - 1]);
    }
  }

  /** A numeral without leading zeros is the one `Decimal` writes for its value. */
  lemma {:induction false} CanonicalNumeral(ds: seq<int>)
    requires |ds| >= 1 && AllDigits(ds) && (|ds| == 1 || ds[0] != '0' as int)
    ensures Codes(Decimal(DigitsValue(ds))) == ds
  {
    var init, last := ds[..|ds| - 1], ds[|ds| - 1] - '0' as int;
    var n := DigitsValue(ds);
    if |ds| > 1 {
      CanonicalNumeral(init);
      NonZeroLeadValue(init);
      assert n / 10 == DigitsValue(init) && n % 10 == last;
      var s := Decimal(n / 10);
      assert Codes(s + [DigitChar(last)]) == Codes(s) + [ds[|ds| - 1]];
      assert ds == init + [ds[|ds| - 1]];
    }
  }

  /** Every non-empty digit string spells its own value. */
  lemma {:induction false} DigitsSpellValue(ds: seq<int>)
    requires |ds| >= 1 && AllDigits(ds)
    ensures NumeralOf(ds, DigitsValue(ds))
  {
    if |ds| > 1 && ds[0] == '0' as int {
      DigitsSpellValue(ds[1..]);
      LeadingZerosValue(1, ds[1..]);
      assert Zeros(1) + ds[1..] == ds;
    } else {
      CanonicalNumeral(ds);
    }
  }

  /** Conversely, a digit string that spells `n` has the value `n`. */
  lemma SpelledValue(ds: seq<int>, n: nat)
    requires NumeralOf(ds, n)
    ensures AllDigits(ds) && DigitsValue(ds) == n
  {
    var d := Codes(Decimal(n));
    assert ds == Zeros(|ds| - |d|) + d;
    LeadingZerosValue(|ds| - |d|, d);
    DecimalValue(n);
  }
}
