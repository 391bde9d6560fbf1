/**
 * UTF-8 as Foundation uses it for the mock credential store: `Data(string.utf8)` is `Encode`,
 * and `String(decoding: data, as: UTF8.self)` is `Decode`, which replaces every maximal
 * ill-formed subpart with U+FFFD (the well-formed byte sequences are those of Table 3-7 of
 * the Unicode Standard, chapter 3.9).  A `char` is a Unicode scalar value.
 */
module Utf8 {

  newtype byte = x: int | 0 <= x < 256

  type Bytes = seq<byte>

  const ReplacementCharacter: char := '\U{FFFD}'

  predicate IsContinuation(b: byte) {
    0x80 <= b <= 0xBF
  }

  /** The length of the well-formed sequences led by `b0`; 0 when `b0` never leads one. */
  function SequenceLength(b0: byte): (n: nat)
    ensures n <= 4
  {
    if b0 < 0x80 then 1
    else if 0xC2 <= b0 <= 0xDF then 2
    else if 0xE0 <= b0 <= 0xEF then 3
    else if 0xF0 <= b0 <= 0xF4 then 4
    else 0
  }

  /** Bounds of the byte that may follow the lead byte `b0` (they exclude overlong forms and surrogates). */
  function SecondLow(b0: byte): byte {
    if b0 == 0xE0 then 0xA0 else if b0 == 0xF0 then 0x90 else 0x80
  }

  function SecondHigh(b0: byte): byte {
    if b0 == 0xED then 0x9F else if b0 == 0xF4 then 0x8F else 0xBF
  }

  /** Whether `b[i]` may stand at position `i` of a sequence led by `b[0]`. */
  predicate FitsAt(b: Bytes, i: nat)
    requires 1 <= i < |b|
  {
    if i == 1 then SecondLow(b[0]) <= b[1] <= SecondHigh(b[0]) else IsContinuation(b[i])
  }

  /**
   * The number of leading bytes of `b` that one decoding step consumes: the whole sequence
   * when it is well-formed, otherwise its maximal ill-formed subpart (at least one byte).
   */
  function MatchedLength(b: Bytes): (k: nat)
    requires |b| > 0
    ensures 1 <= k <= |b| && k <= 4
  {
    var n := SequenceLength(b[0]);
    if n <= 1 || |b| < 2 || !FitsAt(b, 1) then 1
    else if n == 2 || |b| < 3 || !FitsAt(b, 2) then 2
    else if n == 3 || |b| < 4 || !FitsAt(b, 3) then 3
    else 4
  }

  /** Whether `b` starts with a complete well-formed sequence. */
  predicate StartsComplete(b: Bytes)
    requires |b| > 0
  {
    SequenceLength(b[0]) >= 1 && MatchedLength(b) == SequenceLength(b[0])
  }

  predicate IsScalarValue(n: int) {
    0 <= n < 0xD800 || 0xE000 <= n < 0x11_0000
  }

  /** The scalar value encoded by the complete sequence at the front of `b`. */
  function ScalarAt(b: Bytes): (n: int)
    requires |b| > 0 && StartsComplete(b)
    ensures IsScalarValue(n)
  {
    var len := SequenceLength(b[0]);
    if len == 1 then b[0] as int
    else if len == 2 then (b[0] as int - 0xC0) * 64 + (b[1] as int - 0x80)
    else if len == 3 then (b[0] as int - 0xE0) * 4096 + (b[1] as int - 0x80) * 64 + (b[2] as int - 0x80)
    else (b[0] as int - 0xF0) * 262144 + (b[1] as int - 0x80) * 4096 + (b[2] as int - 0x80) * 64 + (b[3] as int - 0x80)
  }

  /** The UTF-8 form of one scalar value. */
  function EncodeScalar(c: char): (b: Bytes)
    ensures 1 <= |b| <= 4
  {
    var n := c as int;
    if n < 0x80 then [n as byte]
    else if n < 0x800 then [(0xC0 + n / 64) as byte, (0x80 + n % 64) as byte]
    else if n < 0x1_0000 then
      [(0xE0 + n / 4096) as byte, (0x80 + n / 64 % 64) as byte, (0x80 + n % 64) as byte]
    else
      [(0xF0 + n / 262144) as byte, (0x80 + n / 4096 % 64) as byte,
       (0x80 + n / 64 % 64) as byte, (0x80 + n % 64) as byte]
  }

  /** `Data(s.utf8)`. */
  function Encode(s: string): (b: Bytes)
    ensures |s| <= |b| <= 4 * |s|
  {
    if s == [] then [] else EncodeScalar(s[0]) + Encode(s[1..])
  }

  /** `String(decoding: b, as: UTF8.self)`: ill-formed subparts become U+FFFD. */
  function Decode(b: Bytes): (s: string)
    ensures |s| <= |b|
    decreases |b|
  {
    if b == [] then []
    else
      var c := if StartsComplete(b) then ScalarAt(b) as char else ReplacementCharacter;
      [c] + Decode(b[MatchedLength(b)..])
  }

  /** Well-formed UTF-8: a concatenation of complete sequences. */
  predicate WellFormed(b: Bytes)
    decreases |b|
  {
    b == [] || (StartsComplete(b) && WellFormed(b[MatchedLength(b)..]))
  }

  /** One decoding step reads back exactly the encoding of `c`, whatever follows it. */
  lemma EncodeScalarReadsBack(c: char, rest: Bytes)
    ensures var e := EncodeScalar(c);
            StartsComplete(e + rest) && MatchedLength(e + rest) == |e| && ScalarAt(e + rest) == c as int
  {
    var n := c as int;
    if n < 0x80 {
    } else if n < 0x800 {
      ReadsBack2(c, rest);
    } else if n < 0x1_0000 {
      ReadsBack3(c, rest);
    } else {
      ReadsBack4(c, rest);
    }
  }

  lemma ReadsBack2(c: char, rest: Bytes)
    requires 0x80 <= c as int < 0x800
    ensures var e := EncodeScalar(c);
            StartsComplete(e + rest) && MatchedLength(e + rest) == |e| && ScalarAt(e + rest) == c as int
  {
    var n := c as int;
    assert n == (n / 64) * 64 + n % 64;
  }

  lemma ReadsBack3(c: char, rest: Bytes)
    requires 0x800 <= c as int < 0x1_0000
    ensures var e := EncodeScalar(c);
            StartsComplete(e + rest) && MatchedLength(e + rest) == |e| && ScalarAt(e + rest) == c as int
  {
    var n := c as int;
    var b := EncodeScalar(c) + rest;
    var q := n / 64;
    assert n == q * 64 + n % 64;
    assert q == (q / 64) * 64 + q % 64;
    assert n / 4096 == q / 64;
    assert b[1] as int == 0x80 + q % 64;
    assert n / 4096 == 13 ==> n < 0xD800;
  }

  lemma ReadsBack4(c: char, rest: Bytes)
    requires 0x1_0000 <= c as int
    ensures var e := EncodeScalar(c);
            StartsComplete(e + rest) && MatchedLength(e + rest) == |e| && ScalarAt(e + rest) == c as int
  {
    var n := c as int;
    var b := EncodeScalar(c) + rest;
    var q := n / 64;
    var q2 := q / 64;
    assert n == q * 64 + n % 64;
    assert q == q2 * 64 + q % 64;
    assert q2 == (q2 / 64) * 64 + q2 % 64;
    assert n / 4096 == q2;
    assert n / 262144 == q2 / 64;
    assert b[1] as int == 0x80 + q2 % 64;
  }

  lemma DivMod64(hi: int, lo: int)
    requires hi >= 0 && 0 <= lo < 64
    ensures (hi * 64 + lo) / 64 == hi && (hi * 64 + lo) % 64 == lo
  {
  }

  /** Re-encoding the scalar value at the front of `b` gives back the bytes it was read from. */
  lemma ScalarAtReencodes(b: Bytes)
    requires |b| > 0 && StartsComplete(b)
    ensures EncodeScalar(ScalarAt(b) as char) == b[..MatchedLength(b)]
  {
    var len := SequenceLength(b[0]);
    if len == 2 {
      Reencodes2(b);
    } else if len == 3 {
      Reencodes3(b);
    } else if len == 4 {
      Reencodes4(b);
    }
  }

  lemma Reencodes2(b: Bytes)
    requires |b| > 0 && StartsComplete(b) && SequenceLength(b[0]) == 2
    ensures EncodeScalar(ScalarAt(b) as char) == b[..2]
  {
    var x, y := b[0] as int - 0xC0, b[1] as int - 0x80;
    var n := ScalarAt(b);
    assert n == x * 64 + y;
    DivMod64(x, y);
  }

  lemma Reencodes3(b: Bytes)
    requires |b| > 0 && StartsComplete(b) && SequenceLength(b[0]) == 3
    ensures EncodeScalar(ScalarAt(b) as char) == b[..3]
  {
    var x, y, z := b[0] as int - 0xE0, b[1] as int - 0x80, b[2] as int - 0x80;
    var n := ScalarAt(b);
    var q := x * 64 + y;
    assert n == q * 64 + z;
    DivMod64(q, z);
    DivMod64(x, y);
    assert n / 4096 == x;
    assert n >= 0x800;
  }

  lemma Reencodes4(b: Bytes)
    requires |b| > 0 && StartsComplete(b) && SequenceLength(b[0]) == 4
    ensures EncodeScalar(ScalarAt(b) as char) == b[..4]
  {
    var w, x := b[0] as int - 0xF0, b[1] as int - 0x80;
    var y, z := b[2] as int - 0x80, b[3] as int - 0x80;
    var n := ScalarAt(b);
    var q2 := w * 64 + x;
    var q := q2 * 64 + y;
    assert n == q * 64 + z;
    DivMod64(q, z);
    DivMod64(q2, y);
    DivMod64(w, x);
    assert n / 4096 == q2;
    assert n / 262144 == w;
    assert n >= 0x1_0000;
  }

  /** Decoding inverts encoding. */
  lemma {:induction false} DecodeEncode(s: string)
    ensures Decode(Encode(s)) == s
  {
    if s != [] {
      var e := EncodeScalar(s[0]);
      EncodeScalarReadsBack(s[0], Encode(s[1..]));
      assert Encode(s) == e + Encode(s[1..]);
      assert Encode(s)[|e|..] == Encode(s[1..]);
      DecodeEncode(s[1..]);
    }
  }

  /** Every encoding is well-formed. */
  lemma {:induction false} EncodeWellFormed(s: string)
    ensures WellFormed(Encode(s))
  {
    if s != [] {
      var e := EncodeScalar(s[0]);
      EncodeScalarReadsBack(s[0], Encode(s[1..]));
      assert Encode(s)[|e|..] == Encode(s[1..]);
      EncodeWellFormed(s[1..]);
    }
  }

  lemma EncodeCons(c: char, t: string)
    ensures Encode([c] + t) == EncodeScalar(c) + Encode(t)
  {
    assert ([c] + t)[1..] == t;
  }

  lemma DecodeComplete(b: Bytes)
    requires |b| > 0 && StartsComplete(b)
    ensures Decode(b) == [ScalarAt(b) as char] + Decode(b[MatchedLength(b)..])
  {
  }

  /** One complete sequence in front of a part that round-trips keeps the whole round-tripping. */
  lemma EncodeDecodeStep(b: Bytes)
    requires |b| > 0 && StartsComplete(b)
    requires Encode(Decode(b[MatchedLength(b)..])) == b[MatchedLength(b)..]
    ensures Encode(Decode(b)) == b
  {
    var k := MatchedLength(b);
    var c := ScalarAt(b) as char;
    var t := Decode(b[k..]);
    DecodeComplete(b);
    EncodeCons(c, t);
    ScalarAtReencodes(b);
    SplitAt(b, k);
  }

  lemma SplitAt(b: Bytes, k: nat)
    requires k <= |b|
    ensures b[..k] + b[k..] == b
  {
  }

  /** Encoding inverts decoding on well-formed input. */
  lemma {:induction false} EncodeDecode(b: Bytes)
    requires WellFormed(b)
    ensures Encode(Decode(b)) == b
    decreases |b|
  {
    if b != [] {
      var rest := b[MatchedLength(b)..];
      assert StartsComplete(b) && WellFormed(rest);
      EncodeDecode(rest);
      EncodeDecodeStep(b);
    }
  }

  /** The bytes survive a trip through `String` exactly when they are well-formed UTF-8. */
  lemma RoundTripIffWellFormed(b: Bytes)
    ensures Encode(Decode(b)) == b <==> WellFormed(b)
  {
    if WellFormed(b) {
      EncodeDecode(b);
    } else {
      EncodeWellFormed(Decode(b));
    }
  }
}
