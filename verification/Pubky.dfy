/**
 The z-base-32 text of a 32-byte key, and the verifier's decoder.  Both loops keep their bits in a
 64-bit accumulator whose high bits fall off.
 */
module Pubky {
  import opened Options

  const ALPHABET := "ybndrfg8ejkmcpqxot1uwisza345h769"
  const KEY_BYTES: nat := 32
  const TEXT_CHARS: nat := 52
  const TWO64: int := 0x1_0000_0000_0000_0000

  predicate IsKey(key: seq<int>) {
    |key| == KEY_BYTES && forall i :: 0 <= i < |key| ==> 0 <= key[i] < 256
  }

  // -------------------------------------------------------------------------
  // Numerals
  // -------------------------------------------------------------------------

  // Bytes, and groups of five bits.
  type Base = b: int | b == 32 || b == 256 witness 32

  predicate AreDigits(ds: seq<int>, base: int) {
    forall i :: 0 <= i < |ds| ==> 0 <= ds[i] < base
  }

  // The number a numeral stands for, most significant digit first.
  function Number(ds: seq<int>, base: int): int {
    if ds == [] then 0 else base * Number(ds[..|ds| - 1], base) + ds[|ds| - 1]
  }

  // The last k digits of a number.
  function Numeral(n: int, base: Base, k: nat): seq<int>
    decreases k, n
  {
    if k == 0 then [] else Numeral(n / base, base, k - 1) + [n % base]
  }

  lemma QuotientOf(base: Base, q: int, r: int)
    requires 0 <= r < base
    ensures (base * q + r) / base == q && (base * q + r) % base == r
  {
    if base == 32 {
      assert (32 * q + r) / 32 == q;
    } else {
      assert (256 * q + r) / 256 == q;
    }
  }

  // A numeral is the only one of its length for its number.
  lemma {:induction false} NumeralOfNumber(ds: seq<int>, base: Base)
    requires AreDigits(ds, base)
    ensures Numeral(Number(ds, base), base, |ds|) == ds
    decreases |ds|
  {
    if ds != [] {
      var front, last := ds[..|ds| - 1], ds[|ds| - 1];
      NumeralOfNumber(front, base);
      QuotientOf(base, Number(front, base), last);
    }
  }

  lemma {:induction false} NumeralDigits(n: int, base: Base, k: nat)
    ensures |Numeral(n, base, k)| == k && AreDigits(Numeral(n, base, k), base)
    decreases k
  {
    if k > 0 {
      NumeralDigits(n / base, base, k - 1);
    }
  }

  function Power(base: int, k: nat): int {
    if k == 0 then 1 else base * Power(base, k - 1)
  }

  lemma {:induction false} NumberOfNumeral(n: int, base: Base, k: nat)
    requires 0 <= n < Power(base, k)
    ensures Number(Numeral(n, base, k), base) == n
    decreases k
  {
    if k > 0 {
      var q := n / base;
      assert n == base * q + n % base && 0 <= q < Power(base, k - 1) by {
        if base == 32 {
          assert n < 32 * Power(32, k - 1);
        } else {
          assert n < 256 * Power(256, k - 1);
        }
      }
      NumberOfNumeral(q, base, k - 1);
      var ds := Numeral(n, base, k);
      assert ds[..|ds| - 1] == Numeral(q, base, k - 1);
    }
  }

  lemma {:induction false} NumberIsBounded(ds: seq<int>, base: Base)
    requires AreDigits(ds, base)
    ensures 0 <= Number(ds, base) < Power(base, |ds|)
    decreases |ds|
  {
    if ds != [] {
      var front := ds[..|ds| - 1];
      NumberIsBounded(front, base);
      if base == 32 {
        assert Number(ds, 32) == 32 * Number(front, 32) + ds[|ds| - 1];
      } else {
        assert Number(ds, 256) == 256 * Number(front, 256) + ds[|ds| - 1];
      }
    }
  }

  // -------------------------------------------------------------------------
  // The alphabet
  // -------------------------------------------------------------------------

  function CharOf(d: int): char
    requires 0 <= d < 32
  {
    ALPHABET[d]
  }

  lemma AlphabetIsDistinct()
    ensures forall i, j :: 0 <= i < j < 32 ==> ALPHABET[i] != ALPHABET[j]
  {
  }

  // The place of a character in the alphabet.
  function Find(c: char): (i: Option<nat>)
    ensures i.Some? ==> i.value < 32 && CharOf(i.value) == c
    ensures i.None? ==> c !in ALPHABET
  {
    if c in ALPHABET then
      AlphabetIsDistinct();
      var i: nat :| i < 32 && ALPHABET[i] == c;
      Some(i)
    else None
  }

  lemma FindCharOf(d: int)
    requires 0 <= d < 32
    ensures Find(CharOf(d)) == Some(d)
  {
    AlphabetIsDistinct();
    assert ALPHABET[d] in ALPHABET;
  }

  predicate IsText(s: string) {
    forall i :: 0 <= i < |s| ==> Find(s[i]).Some?
  }

  predicate IsValidPubky(s: string) {
    |s| == TEXT_CHARS && IsText(s)
  }

  function Text(ds: seq<int>): string
    requires AreDigits(ds, 32)
  {
    seq(|ds|, i requires 0 <= i < |ds| => CharOf(ds[i]))
  }

  function DigitsOf(s: string): (ds: seq<int>)
    requires IsText(s)
    ensures |ds| == |s| && AreDigits(ds, 32)
  {
    seq(|s|, i requires 0 <= i < |s| => Find(s[i]).value)
  }

  lemma TextOfDigits(s: string)
    requires IsText(s)
    ensures Text(DigitsOf(s)) == s
  {
  }

  lemma DigitsOfText(ds: seq<int>)
    requires AreDigits(ds, 32)
    ensures IsText(Text(ds)) && DigitsOf(Text(ds)) == ds
  {
    forall i | 0 <= i < |ds| ensures Find(Text(ds)[i]) == Some(ds[i]) {
      FindCharOf(ds[i]);
    }
  }

  // -------------------------------------------------------------------------
  // What the two loops compute
  // -------------------------------------------------------------------------

  // Groups of five bits that n bytes take, and whole bytes that n groups give.
  function Groups(n: nat): nat { (8 * n + 4) / 5 }

  function WholeBytes(n: nat): nat { 5 * n / 8 }

  // The key as a number, times sixteen, in base 32.
  function Encoded(key: seq<int>): string
    requires IsKey(key)
  {
    NumeralDigits(16 * Number(key, 256), 32, Groups(|key|));
    Text(Numeral(16 * Number(key, 256), 32, Groups(|key|)))
  }

  // The first 52 characters as a number, over sixteen, as 32 bytes.
  function Decoded(s: string): Option<seq<int>> {
    if !IsText(s) || |s| < TEXT_CHARS then None
    else
      var ds := DigitsOf(s)[..TEXT_CHARS];
      Some(Numeral(Number(ds, 32) / 16, 256, WholeBytes(|ds|)))
  }

  // -------------------------------------------------------------------------
  // Shifts of the accumulator
  // -------------------------------------------------------------------------

  function ShiftRight(v: int, b: nat): int
    decreases b
  {
    if b == 0 then v else ShiftRight(v / 2, b - 1)
  }

  function Width(base: Base): nat { if base == 32 then 5 else 8 }

  lemma {:induction false} ShiftsAdd(v: int, a: nat, b: nat)
    ensures ShiftRight(v, a + b) == ShiftRight(ShiftRight(v, a), b)
    decreases a
  {
    if a > 0 {
      ShiftsAdd(v / 2, a - 1, b);
    }
  }

  lemma ShiftWidth(v: int, base: Base)
    ensures ShiftRight(v, Width(base)) == v / base
  {
    ShiftsAdd(v, 4, 4);
    assert ShiftRight(v, 4) == v / 16;
    assert ShiftRight(v / 16, 4) == v / 16 / 16 == v / 256;
    ShiftsAdd(v, 4, 1);
    assert ShiftRight(v / 16, 1) == v / 16 / 2 == v / 32;
  }

  // Shifting in a digit and dropping what leaves the 64 bits.
  lemma ShiftIn(v: int, base: Base, d: int)
    requires v >= 0 && 0 <= d < base
    ensures (v % TWO64 * base) % TWO64 + d == (base * v + d) % TWO64
  {
    var q, r := v / TWO64, v % TWO64;
    if base == 32 {
      ShiftInBy(32, TWO64 / 32, r, d);
      RemainderIs(32 * v + d, 32 * q + (r * 32) / TWO64, (r * 32) % TWO64 + d);
    } else {
      ShiftInBy(256, TWO64 / 256, r, d);
      RemainderIs(256 * v + d, 256 * q + (r * 256) / TWO64, (r * 256) % TWO64 + d);
    }
  }

  lemma RemainderIs(n: int, q: int, r: int)
    requires n == TWO64 * q + r && 0 <= r < TWO64
    ensures n % TWO64 == r
  {
  }

  // The shifted accumulator has its low bits free.
  lemma ShiftInBy(base: Base, k: int, r: int, d: int)
    requires k * base == TWO64 && 0 <= d < base
    ensures 0 <= (r * base) % TWO64 + d < TWO64
  {
    var q := (r * base) / TWO64;
    if base == 32 {
      assert (r * 32) % TWO64 == 32 * (r - 0x800_0000_0000_0000 * q);
    } else {
      assert (r * 256) % TWO64 == 256 * (r - 0x100_0000_0000_0000 * q);
    }
  }

  // The bits already written stay what they were.
  lemma ShiftKeeps(v: int, d: int, b: nat, base: Base)
    requires 0 <= d < base
    ensures ShiftRight(base * v + d, b + Width(base)) == ShiftRight(v, b)
  {
    ShiftsAdd(base * v + d, Width(base), b);
    ShiftWidth(base * v + d, base);
    QuotientOf(base, v, d);
  }

  function Two(b: nat): int {
    if b == 0 then 1 else 2 * Two(b - 1)
  }

  lemma {:induction false} TwosMultiply(a: nat, b: nat)
    ensures Two(a) * Two(b) == Two(a + b)
    decreases a
  {
    if a > 0 {
      TwosMultiply(a - 1, b);
    }
  }

  lemma {:induction false} ShiftOfSum(x: int, r: int, b: nat)
    ensures ShiftRight(Two(b) * x + r, b) == x + ShiftRight(r, b)
    decreases b
  {
    if b > 0 {
      var y := Two(b - 1) * x;
      assert Two(b) * x == 2 * y;
      ShiftOfSum(x, r / 2, b - 1);
    }
  }

  // The eight bits the loops look at are not among those that fell off.
  lemma LowBitsSurvive(v: int, b: nat)
    requires b <= 56
    ensures ShiftRight(v % TWO64, b) % 256 == ShiftRight(v, b) % 256
  {
    var r, y := v % TWO64, Two(56 - b) * (v / TWO64);
    HighBits(v, b);
    ShiftOfSum(256 * y, r, b);
    AddWhole(ShiftRight(r, b), y);
  }

  lemma AddWhole(n: int, y: int)
    ensures (256 * y + n) % 256 == n % 256
  {
  }

  // What fell off is a multiple of the 64th power of two, so of the b-th times 256.
  lemma HighBits(v: int, b: nat)
    requires b <= 56
    ensures v == Two(b) * (256 * (Two(56 - b) * (v / TWO64))) + v % TWO64
  {
    TwosMultiply(b, 56 - b);
    TwoToThe56();
    Regroup(Two(b), Two(56 - b), v / TWO64);
    WholeAndRest(v, Two(b) * Two(56 - b));
  }

  lemma WholeAndRest(v: int, p: int)
    requires 256 * p == TWO64
    ensures v == 256 * p * (v / TWO64) + v % TWO64
  {
  }

  lemma TwoToThe56()
    ensures 256 * Two(56) == TWO64
  {
    assert Two(8) == 256;
    TwosMultiply(8, 8);
    TwosMultiply(16, 8);
    TwosMultiply(16, 16);
    TwosMultiply(32, 24);
  }

  lemma Regroup(a: int, b: int, c: int)
    ensures a * (256 * (b * c)) == 256 * (a * b) * c
  {
    assert a * (256 * (b * c)) == 256 * (a * (b * c));
    assert a * (b * c) == (a * b) * c;
  }

  // The next digit out is right although the accumulator forgot the high bits.
  lemma NextDigit(v: int, b: nat, base: Base)
    requires b <= 56
    ensures ShiftRight(v, b) == base * ShiftRight(v, b + Width(base)) + ShiftRight(v % TWO64, b) % base
  {
    ShiftsAdd(v, b, Width(base));
    ShiftWidth(ShiftRight(v, b), base);
    LowBitsSurvive(v, b);
    LowDigit(ShiftRight(v, b), ShiftRight(v % TWO64, b), base);
  }

  lemma LowDigit(n: int, low: int, base: Base)
    requires low % 256 == n % 256
    ensures n == base * (n / base) + low % base
  {
    if base == 32 {
      LowFive(low);
      LowFive(n);
    }
  }

  lemma LowFive(n: int)
    ensures n % 256 % 32 == n % 32
  {
    assert n == 32 * (8 * (n / 256)) + n % 256;
  }

  // -------------------------------------------------------------------------
  // The loops
  // -------------------------------------------------------------------------

  // What the encoder holds after reading the number v: the low bits, and the digits above the last
  // `bits` bits, written out.
  ghost predicate Encoding(v: int, accumulator: int, bits: nat, ds: seq<int>, text: string) {
    && accumulator == v % TWO64
    && AreDigits(ds, 32) && Number(ds, 32) == ShiftRight(v, bits)
    && text == Text(ds)
  }

  lemma PushDigit(ds: seq<int>, d: int, base: Base)
    requires AreDigits(ds, base) && 0 <= d < base
    ensures AreDigits(ds + [d], base) && Number(ds + [d], base) == base * Number(ds, base) + d
    ensures base == 32 ==> Text(ds + [d]) == Text(ds) + [CharOf(d)]
  {
    assert (ds + [d])[..|ds|] == ds;
  }

  method EmitDigits(accumulator: int, held: nat, written: string, ghost v: int, ghost before: seq<int>)
    returns (bits: nat, text: string, ghost ds: seq<int>)
    requires Encoding(v, accumulator, held, before, written) && held <= 12
    ensures Encoding(v, accumulator, bits, ds, text)
    ensures bits < 5 && 5 * |ds| + bits == 5 * |before| + held
  {
    bits, text, ds := held, written, before;
    while bits >= 5
      invariant Encoding(v, accumulator, bits, ds, text)
      invariant bits <= 12 && 5 * |ds| + bits == 5 * |before| + held
    {
      bits := bits - 5;
      var d := ShiftRight(accumulator, bits) % 32;
      NextDigit(v, bits, 32);
      PushDigit(ds, d, 32);
      ds, text := ds + [d], text + [CharOf(d)];
    }
  }

  method EncodePubky(key: seq<int>) returns (text: string)
    requires IsKey(key)
    ensures text == Encoded(key)
  {
    var accumulator, bits := 0, 0;
    text := "";
    ghost var ds: seq<int> := [];
    for i := 0 to |key|
      invariant Encoding(Number(key[..i], 256), accumulator, bits, ds, text)
      invariant bits < 5 && 5 * |ds| + bits == 8 * i
    {
      Prefix(key, i, 256);
      ShiftIn(Number(key[..i], 256), 256, key[i]);
      ShiftKeeps(Number(key[..i], 256), key[i], bits, 256);
      accumulator := (accumulator * 256) % TWO64 + key[i];
      bits, text, ds := EmitDigits(accumulator, bits + 8, text, Number(key[..i + 1], 256), ds);
    }
    assert key[..|key|] == key;
    var d := accumulator * Two(5 - bits) % TWO64 % 32;
    FourLeft(accumulator, bits);
    LastDigit(Number(key, 256), accumulator, ds, text, Groups(|key|));
    text := text + [CharOf(d)];
  }

  lemma FourLeft(accumulator: int, bits: nat)
    requires bits == 1
    ensures accumulator * Two(5 - bits) % TWO64 % 32 == accumulator * 16 % 32
  {
    assert Two(4) == 16;
    DropHigh(accumulator * 16);
  }

  lemma DropHigh(n: int)
    ensures n % TWO64 % 32 == n % 32
  {
    assert n == 32 * (0x800_0000_0000_0000 * (n / TWO64)) + n % TWO64;
  }

  // 256 bits leave one over; padded with four zeros it is the last digit.
  lemma LastDigit(v: int, accumulator: int, ds: seq<int>, text: string, k: nat)
    requires Encoding(v, accumulator, 1, ds, text) && |ds| == k - 1
    ensures |Numeral(16 * v, 32, k)| == k && AreDigits(Numeral(16 * v, 32, k), 32)
    ensures text + [CharOf(accumulator * 16 % 32)] == Text(Numeral(16 * v, 32, k))
  {
    var d := accumulator * 16 % 32;
    PushDigit(ds, d, 32);
    assert Number(ds, 32) == ShiftRight(v / 2, 0) == v / 2;
    LastBit(v);
    NumeralOfNumber(ds + [d], 32);
  }

  lemma LastBit(v: int)
    ensures 32 * (v / 2) + v % TWO64 * 16 % 32 == 16 * v
  {
    var q, r := v / TWO64, v % TWO64;
    HalfOf(q, r);
    BitShifted(r);
    assert r == 2 * (r / 2) + r % 2;
  }

  lemma HalfOf(q: int, r: int)
    ensures (TWO64 * q + r) / 2 == 0x8000_0000_0000_0000 * q + r / 2
  {
  }

  lemma BitShifted(r: int)
    ensures r * 16 % 32 == 16 * (r % 2)
  {
    assert r * 16 == 32 * (r / 2) + 16 * (r % 2);
  }

  lemma Prefix(ds: seq<int>, i: nat, base: Base)
    requires AreDigits(ds, base) && i < |ds|
    ensures Number(ds[..i], base) >= 0
    ensures Number(ds[..i + 1], base) == base * Number(ds[..i], base) + ds[i]
  {
    assert ds[..i + 1][..i] == ds[..i];
    NumberIsBounded(ds[..i], base);
  }

  // What the decoder holds after reading the number u: the low bits, and the bytes above the last
  // `bits` bits.
  ghost predicate Decoding(u: int, accumulator: int, bits: nat, out: seq<int>) {
    accumulator == u % TWO64 && AreDigits(out, 256) && Number(out, 256) == ShiftRight(u, bits)
  }

  method TakeDigit(accumulator: int, held: nat, out: seq<int>, d: int, ghost u: int)
    returns (accumulator': int, bits: nat, out': seq<int>)
    requires Decoding(u, accumulator, held, out) && u >= 0 && held < 8 && 0 <= d < 32
    ensures Decoding(32 * u + d, accumulator', bits, out')
    ensures out <= out' && bits < 8 && 8 * |out'| + bits == 8 * |out| + held + 5
  {
    ShiftIn(u, 32, d);
    ShiftKeeps(u, d, held, 32);
    accumulator' := (accumulator * 32) % TWO64 + d;
    bits, out' := held + 5, out;
    if bits >= 8 {
      bits := bits - 8;
      var byte := ShiftRight(accumulator', bits) % 256;
      NextDigit(32 * u + d, bits, 256);
      PushDigit(out, byte, 256);
      out' := out + [byte];
    }
  }

  // Every byte the text gives, unless a character is not in the alphabet.
  method ReadText(text: string) returns (bytes: Option<seq<int>>)
    ensures bytes.Some? <==> IsText(text)
    ensures bytes.Some? ==> AreDigits(bytes.value, 256) && |bytes.value| == WholeBytes(|text|)
    ensures bytes.Some? && |text| >= TEXT_CHARS ==> FirstKey(DigitsOf(text), bytes.value)
  {
    var accumulator, bits, out := 0, 0, [];
    ReadNothing();
    for i := 0 to |text|
      invariant IsText(text[..i]) && Reading(DigitsOf(text[..i]), accumulator, bits, out)
    {
      var value := Find(text[i]);
      if value.None? {
        return None;
      }
      accumulator, bits, out := ReadDigit(accumulator, bits, out, value.value, DigitsOf(text[..i]));
      OneMore(text[..i], text[i]);
      assert text[..i + 1] == text[..i] + [text[i]];
    }
    assert text[..|text|] == text;
    ReadAll(DigitsOf(text), accumulator, bits, out);
    return Some(out);
  }

  method DecodePubky(text: string) returns (key: Option<seq<int>>)
    ensures key == Decoded(text)
  {
    var bytes := ReadText(text);
    if bytes.None? || |bytes.value| < KEY_BYTES {
      return None;
    }
    DecodedFrom(text, bytes.value);
    return Some(bytes.value[..KEY_BYTES]);
  }

  // What the decoder has after reading digits: the accumulator over their number, the bytes out, and
  // the whole key once there are enough of them.
  ghost predicate Reading(ds: seq<int>, accumulator: int, bits: nat, out: seq<int>) {
    && AreDigits(ds, 32) && Decoding(Number(ds, 32), accumulator, bits, out)
    && bits < 8 && 8 * |out| + bits == 5 * |ds|
    && (|ds| >= TEXT_CHARS ==> FirstKey(ds, out))
  }

  lemma ReadNothing()
    ensures IsText("") && Reading(DigitsOf(""), 0, 0, [])
  {
    assert DigitsOf("") == [];
  }

  lemma ReadAll(ds: seq<int>, accumulator: int, bits: nat, out: seq<int>)
    requires Reading(ds, accumulator, bits, out)
    ensures AreDigits(out, 256) && |out| == WholeBytes(|ds|)
    ensures |ds| >= TEXT_CHARS ==> FirstKey(ds, out)
  {
  }

  method ReadDigit(accumulator: int, held: nat, out: seq<int>, d: int, ghost ds: seq<int>)
    returns (accumulator': int, bits: nat, out': seq<int>)
    requires Reading(ds, accumulator, held, out) && 0 <= d < 32
    ensures Reading(ds + [d], accumulator', bits, out')
  {
    NumberIsBounded(ds, 32);
    PushDigit(ds, d, 32);
    accumulator', bits, out' := TakeDigit(accumulator, held, out, d, Number(ds, 32));
    KeyOnce(ds, ds + [d], out, accumulator', bits, out');
  }

  lemma KeyOnce(ds: seq<int>, ds': seq<int>, out: seq<int>, accumulator': int, bits': nat, out': seq<int>)
    requires |ds| >= TEXT_CHARS ==> FirstKey(ds, out)
    requires ds <= ds' && |ds'| == |ds| + 1 && out <= out' && bits' < 8 && 8 * |out'| + bits' == 5 * |ds'|
    requires Decoding(Number(ds', 32), accumulator', bits', out')
    ensures |ds'| >= TEXT_CHARS ==> FirstKey(ds', out')
  {
    if |ds'| == TEXT_CHARS {
      FirstBytes(ds', accumulator', out');
    } else if |ds'| > TEXT_CHARS {
      FirstKeyStays(ds, ds', out, out');
    }
  }

  // The first 32 bytes out are the first 52 digits, as a number, over sixteen.
  ghost predicate FirstKey(ds: seq<int>, out: seq<int>) {
    && |ds| >= TEXT_CHARS && |out| >= KEY_BYTES
    && Number(out[..KEY_BYTES], 256) == Number(ds[..TEXT_CHARS], 32) / 16
  }

  lemma FirstBytes(ds: seq<int>, accumulator: int, out: seq<int>)
    requires Decoding(Number(ds, 32), accumulator, 4, out) && |ds| == TEXT_CHARS && |out| == KEY_BYTES
    ensures FirstKey(ds, out)
  {
    ShiftsAdd(Number(ds, 32), 2, 2);
    assert ds[..TEXT_CHARS] == ds && out[..KEY_BYTES] == out;
  }

  lemma FirstKeyStays(ds: seq<int>, ds': seq<int>, out: seq<int>, out': seq<int>)
    requires FirstKey(ds, out) && ds <= ds' && out <= out'
    ensures FirstKey(ds', out')
  {
    assert ds'[..TEXT_CHARS] == ds[..TEXT_CHARS] && out'[..KEY_BYTES] == out[..KEY_BYTES];
  }

  lemma DecodedFrom(text: string, out: seq<int>)
    requires IsText(text) && AreDigits(out, 256) && FirstKey(DigitsOf(text), out)
    ensures Decoded(text) == Some(out[..KEY_BYTES])
  {
    NumeralOfNumber(out[..KEY_BYTES], 256);
  }

  lemma OneMore(text: string, c: char)
    requires IsText(text) && Find(c).Some?
    ensures IsText(text + [c]) && DigitsOf(text + [c]) == DigitsOf(text) + [Find(c).value]
  {
    assert (text + [c])[..|text|] == text && (text + [c])[|text|] == c;
  }

  // -------------------------------------------------------------------------
  // The theorems
  // -------------------------------------------------------------------------

  // The text read in base 32 is the key, as a 256-bit number, times sixteen; and it is a valid pubky.
  lemma EncodedIs(key: seq<int>)
    requires IsKey(key)
    ensures IsValidPubky(Encoded(key))
    ensures Number(DigitsOf(Encoded(key)), 32) == 16 * Number(key, 256)
  {
    var n, k := 16 * Number(key, 256), Groups(|key|);
    NumberIsBounded(key, 256);
    PowersMeet(|key|, k);
    NumeralDigits(n, 32, k);
    DigitsOfText(Numeral(n, 32, k));
    NumberOfNumeral(n, 32, k);
  }

  // 16 * 256^32 = 32^52
  lemma PowersMeet(bytes: nat, groups: nat)
    requires bytes == KEY_BYTES && groups == TEXT_CHARS
    ensures 16 * Power(256, bytes) == Power(32, groups)
  {
    PowerIsTwo(256, bytes);
    PowerIsTwo(32, groups);
    TwosMultiply(4, 8 * bytes);
    assert 4 + 8 * bytes == 5 * groups;
    assert Two(4) == 16;
  }

  lemma {:induction false} PowerIsTwo(base: Base, k: nat)
    ensures Power(base, k) == Two(Width(base) * k)
    decreases k
  {
    if k > 0 {
      PowerIsTwo(base, k - 1);
      TwosMultiply(Width(base), Width(base) * (k - 1));
      assert Width(base) + Width(base) * (k - 1) == Width(base) * k;
      assert Two(5) == 32 && Two(8) == 256;
    }
  }

  lemma DecodedIs(text: string)
    requires IsValidPubky(text)
    ensures Decoded(text) == Some(Numeral(Number(DigitsOf(text), 32) / 16, 256, WholeBytes(|text|)))
  {
    var ds := DigitsOf(text);
    assert ds[..TEXT_CHARS] == ds;
  }

  // Decoding undoes encoding.
  lemma DecodeEncode(key: seq<int>)
    requires IsKey(key)
    ensures Decoded(Encoded(key)) == Some(key)
  {
    EncodedIs(key);
    DecodesTo(Encoded(key), key);
  }

  lemma DecodesTo(text: string, key: seq<int>)
    requires IsValidPubky(text) && IsKey(key) && Number(DigitsOf(text), 32) == 16 * Number(key, 256)
    ensures Decoded(text) == Some(key)
  {
    DecodedIs(text);
    BytesOf(Number(DigitsOf(text), 32), key);
    assert WholeBytes(|text|) == |key|;
  }

  lemma BytesOf(n: int, key: seq<int>)
    requires AreDigits(key, 256) && n == 16 * Number(key, 256)
    ensures Numeral(n / 16, 256, |key|) == key
  {
    assert n / 16 == Number(key, 256);
    NumeralOfNumber(key, 256);
  }

  lemma EncodingIsInjective(key: seq<int>, other: seq<int>)
    requires IsKey(key) && IsKey(other) && Encoded(key) == Encoded(other)
    ensures key == other
  {
    DecodeEncode(key);
    DecodeEncode(other);
  }

  // A text decodes exactly if all its characters are in the alphabet and it has at least 52.
  lemma DecodesExactly(text: string)
    ensures Decoded(text).Some? <==> IsText(text) && |text| >= TEXT_CHARS
    ensures Decoded(text).Some? ==> IsKey(Decoded(text).value)
  {
    if IsText(text) && |text| >= TEXT_CHARS {
      var ds := DigitsOf(text)[..TEXT_CHARS];
      NumeralDigits(Number(ds, 32) / 16, 256, WholeBytes(|ds|));
    }
  }

  // Encoding undoes decoding exactly on 52 characters whose last has its four low bits zero.
  lemma EncodeDecode(text: string, key: seq<int>)
    requires Decoded(text) == Some(key)
    ensures IsKey(key) && IsText(text) && |text| >= TEXT_CHARS
    ensures Encoded(key) == text <==> |text| == TEXT_CHARS && DigitsOf(text)[TEXT_CHARS - 1] % 16 == 0
  {
    DecodesExactly(text);
    EncodedIs(key);
    if Encoded(key) == text {
      EndsInZeros(DigitsOf(text), Number(key, 256));
    }
    if |text| == TEXT_CHARS && DigitsOf(text)[TEXT_CHARS - 1] % 16 == 0 {
      SixteenTimes(text, key);
      ReencodesBack(text, key);
    }
  }

  lemma EndsInZeros(ds: seq<int>, n: int)
    requires ds != [] && Number(ds, 32) == 16 * n
    ensures ds[|ds| - 1] % 16 == 0
  {
    LowBitsOfLast(ds);
  }

  lemma SixteenTimes(text: string, key: seq<int>)
    requires IsValidPubky(text) && Decoded(text) == Some(key) && DigitsOf(text)[TEXT_CHARS - 1] % 16 == 0
    ensures Number(DigitsOf(text), 32) == 16 * Number(key, 256)
  {
    DecodedNumber(text, key);
    LowBitsOfLast(DigitsOf(text));
  }

  lemma DecodedNumber(text: string, key: seq<int>)
    requires IsValidPubky(text) && Decoded(text) == Some(key)
    ensures Number(key, 256) == Number(DigitsOf(text), 32) / 16
  {
    DecodedIs(text);
    KeyNumber(DigitsOf(text));
  }

  lemma ReencodesBack(text: string, key: seq<int>)
    requires IsValidPubky(text) && IsKey(key) && Number(DigitsOf(text), 32) == 16 * Number(key, 256)
    ensures Encoded(key) == text
  {
    EncodedOf(key, DigitsOf(text));
    TextOfDigits(text);
  }

  lemma EncodedOf(key: seq<int>, ds: seq<int>)
    requires IsKey(key) && AreDigits(ds, 32) && |ds| == Groups(|key|) && Number(ds, 32) == 16 * Number(key, 256)
    ensures Encoded(key) == Text(ds)
  {
    NumeralOfNumber(ds, 32);
  }

  lemma LowBitsOfLast(ds: seq<int>)
    requires ds != []
    ensures Number(ds, 32) % 16 == ds[|ds| - 1] % 16
  {
  }

  lemma KeyNumber(ds: seq<int>)
    requires AreDigits(ds, 32) && |ds| == TEXT_CHARS
    ensures Number(Numeral(Number(ds, 32) / 16, 256, WholeBytes(|ds|)), 256) == Number(ds, 32) / 16
  {
    NumberIsBounded(ds, 32);
    PowersMeet(WholeBytes(|ds|), |ds|);
    NumberOfNumeral(Number(ds, 32) / 16, 256, WholeBytes(|ds|));
  }
}
