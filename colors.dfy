/**
 * `generateColorFromString`: the colour of a tag, from a 31-based string
 * hash over the tag's UTF-16 code units kept to 32 bits, written as
 * `#rrggbb`-style lowercase hex of its three low bytes (lowest byte
 * first).
 */
module Colors {

  const TWO_31: int := 0x8000_0000
  const TWO_32: int := 0x1_0000_0000

  /** A UTF-16 code unit, what `charCodeAt` returns. */
  type CodeUnit = c: int | 0 <= c < 0x1_0000

  /** A 32-bit signed integer, the value of a JavaScript bitwise operation. */
  type Int32 = x: int | -TWO_31 <= x < TWO_31

  /** ECMAScript's ToInt32: the Int32 congruent to `x` modulo 2^32. */
  function ToInt32(x: int): (r: Int32)
    ensures r % TWO_32 == x % TWO_32
  {
    var m := x % TWO_32;
    if m >= TWO_31 then m - TWO_32 else m
  }

  /**
   * One step of the loop as written: `hash = c + ((hash << 5) - hash)`
   * followed by `hash = hash & hash`. The shift is ToInt32 of `hash * 32`,
   * the subtraction and the addition are exact on these magnitudes, and
   * `hash & hash` is ToInt32 of that sum.
   */
  function HashStep(hash: Int32, c: CodeUnit): Int32 {
    ToInt32(c + (ToInt32(hash * 32) - hash))
  }

  /** The hash as an unsigned 32-bit number: `h := (31 * h + c) mod 2^32` over the code units. */
  function Hash(s: seq<CodeUnit>): (h: nat)
    ensures h < TWO_32
  {
    if s == [] then 0 else (31 * Hash(s[..|s| - 1]) + s[|s| - 1]) % TWO_32
  }

  lemma ModAddMultiple(x: int, k: int)
    ensures (x + k * TWO_32) % TWO_32 == x % TWO_32
  {
  }

  /** The step as written is the step `31 * h + c` modulo 2^32. */
  lemma HashStepIsModular(hash: Int32, c: CodeUnit)
    ensures HashStep(hash, c) % TWO_32 == (31 * (hash % TWO_32) + c) % TWO_32
  {
    var shifted := ToInt32(hash * 32);
    var q := (hash * 32) / TWO_32;
    assert hash * 32 == q * TWO_32 + (hash * 32) % TWO_32;
    assert shifted == (hash * 32) % TWO_32 || shifted == (hash * 32) % TWO_32 - TWO_32;
    var t := if shifted == (hash * 32) % TWO_32 then 0 else 1;
    assert c + (shifted - hash) == (31 * hash + c) + (-q - t) * TWO_32;
    ModAddMultiple(31 * hash + c, -q - t);
    var u := hash / TWO_32;
    assert hash == u * TWO_32 + hash % TWO_32;
    assert 31 * hash + c == (31 * (hash % TWO_32) + c) + (31 * u) * TWO_32;
    ModAddMultiple(31 * (hash % TWO_32) + c, 31 * u);
  }

  // ---------------------------------------------------------------------------
  // Hex formatting

  /** A lowercase hex digit, as `toString(16)` writes it. */
  predicate IsHexDigit(c: char) {
    '0' <= c <= '9' || 'a' <= c <= 'f'
  }

  function HexDigit(d: nat): (c: char)
    requires d < 16
    ensures IsHexDigit(c) && HexDigitValue(c) == d
  {
    if d < 10 then ('0' as int + d) as char else ('a' as int + d - 10) as char
  }

  /** `n.toString(16)`: lowercase hex digits, no padding. */
  function ToHexString(n: nat): (s: string)
    ensures |s| >= 1
    ensures n < 16 ==> |s| == 1
    ensures 16 <= n < 256 ==> |s| == 2
  {
    if n < 16 then [HexDigit(n)] else ToHexString(n / 16) + [HexDigit(n % 16)]
  }

  /** `s.slice(-2)` on a string of at least two characters. */
  function LastTwo(s: string): string
    requires |s| >= 2
  {
    s[|s| - 2..]
  }

  /** `('00' + value.toString(16)).slice(-2)`: the byte written as exactly two lowercase hex digits. */
  function HexByte(value: nat): (s: string)
    requires value < 256
    ensures |s| == 2
  {
    LastTwo("00" + ToHexString(value))
  }

  /** The value of a lowercase hex digit. */
  function HexDigitValue(c: char): nat {
    if '0' <= c <= '9' then c as int - '0' as int
    else if 'a' <= c <= 'f' then c as int - 'a' as int + 10
    else 0
  }

  /** A two-digit group is the zero-padded hex of its byte: reading it back gives the byte. */
  lemma HexByteRoundTrip(value: nat)
    requires value < 256
    ensures var s := HexByte(value);
      16 * HexDigitValue(s[0]) + HexDigitValue(s[1]) == value
      && IsHexDigit(s[0]) && IsHexDigit(s[1])
  {
    var s := HexByte(value);
    if value < 16 {
      assert s == ['0', HexDigit(value)];
    } else {
      assert ToHexString(value / 16) == [HexDigit(value / 16)];
      assert s == [HexDigit(value / 16), HexDigit(value % 16)];
    }
  }

  // ---------------------------------------------------------------------------
  // The colour

  /** Byte `k` (bits 8k to 8k+7) of a 32-bit pattern. */
  function Byte(h: nat, k: nat): (b: nat)
    requires k < 3
    ensures b < 256
  {
    if k == 0 then h % 256 else if k == 1 then (h / 0x100) % 256 else (h / 0x1_0000) % 256
  }

  /** The colour of a non-empty string with the given unsigned hash. */
  function ColorOfHash(h: nat): (color: string) {
    "#" + HexByte(Byte(h, 0)) + HexByte(Byte(h, 1)) + HexByte(Byte(h, 2))
  }

  /** The colour of a string: white for the empty string, else the three low bytes of its hash. */
  function ColorOf(text: seq<CodeUnit>): (color: string) {
    if |text| == 0 then "#FFFFFF" else ColorOfHash(Hash(text))
  }

  /** Every colour is `#` and six characters; for a non-empty text they are lowercase hex. */
  lemma ColorShape(text: seq<CodeUnit>)
    ensures |ColorOf(text)| == 7 && ColorOf(text)[0] == '#'
    ensures |text| > 0 ==> forall i :: 1 <= i < 7 ==> IsHexDigit(ColorOf(text)[i])
  {
    if |text| > 0 {
      var h := Hash(text);
      HexByteRoundTrip(Byte(h, 0));
      HexByteRoundTrip(Byte(h, 1));
      HexByteRoundTrip(Byte(h, 2));
    }
  }

  /** The groups are, in order, bits 0-7, 8-15, and 16-23 of the hash. */
  lemma ColorGroups(text: seq<CodeUnit>, k: nat)
    requires |text| > 0 && k < 3
    ensures var color := ColorOf(text);
      16 * HexDigitValue(color[1 + 2 * k]) + HexDigitValue(color[2 + 2 * k]) == Byte(Hash(text), k)
  {
    HashGroups(Hash(text), k);
  }

  lemma HashGroups(h: nat, k: nat)
    requires k < 3
    ensures var color := ColorOfHash(h);
      16 * HexDigitValue(color[1 + 2 * k]) + HexDigitValue(color[2 + 2 * k]) == Byte(h, k)
  {
    var g0, g1, g2 := HexByte(Byte(h, 0)), HexByte(Byte(h, 1)), HexByte(Byte(h, 2));
    var color := ColorOfHash(h);
    assert color == "#" + g0 + g1 + g2;
    if k == 0 {
      HexByteRoundTrip(Byte(h, 0));
      assert color[1] == g0[0] && color[2] == g0[1];
    } else if k == 1 {
      HexByteRoundTrip(Byte(h, 1));
      assert color[3] == g1[0] && color[4] == g1[1];
    } else {
      HexByteRoundTrip(Byte(h, 2));
      assert color[5] == g2[0] && color[6] == g2[1];
    }
  }

  /** Euclidean division is determined by a quotient and a remainder in range. */
  lemma DivMod(x: int, d: int, q: int, r: int)
    requires d > 0 && x == q * d + r && 0 <= r < d
    ensures x / d == q && x % d == r
  {
    var q' := x / d;
    assert x == q' * d + x % d;
    assert (q - q') * d == x % d - r;
    if q > q' {
      MulAtLeast(q - q', d);
    } else if q < q' {
      MulAtLeast(q' - q, d);
    }
  }

  lemma MulAtLeast(a: int, d: int)
    requires a >= 1 && d > 0
    ensures a * d >= d
  {
  }

  /** The top byte (and so the sign) of the hash does not affect the colour. */
  lemma TopByteIgnored(h: nat)
    ensures ColorOfHash(h) == ColorOfHash(h % 0x100_0000)
  {
    var low := h % 0x100_0000;
    var top := h / 0x100_0000;
    assert h == top * 0x100_0000 + low;
    DivMod(h, 256, top * 0x1_0000 + low / 256, low % 256);
    DivMod(h, 0x100, top * 0x1_0000 + low / 0x100, low % 0x100);
    DivMod(h, 0x1_0000, top * 0x100 + low / 0x1_0000, low % 0x1_0000);
    assert Byte(h, 1) == Byte(low, 1) by {
      DivMod(top * 0x1_0000 + low / 0x100, 256, top * 0x100 + (low / 0x100) / 256, (low / 0x100) % 256);
    }
    assert Byte(h, 2) == Byte(low, 2) by {
      DivMod(top * 0x100 + low / 0x1_0000, 256, top + (low / 0x1_0000) / 256, (low / 0x1_0000) % 256);
    }
  }

  /** `x >> (k * 8)` for `k < 3`: the sign-propagating shift, division rounding down. */
  function ShiftRightBytes(x: Int32, k: nat): int
    requires k < 3
  {
    if k == 0 then x else if k == 1 then x / 0x100 else x / 0x1_0000
  }

  /** `(hash >> 8) & 255` is byte 1 of the pattern: the shift moves the sign's multiple of 2^32 to one of 2^24. */
  lemma ShiftedByte1(hash: Int32)
    ensures (hash / 0x100) % 256 == Byte(hash % TWO_32, 1)
  {
    var h := hash % TWO_32;
    var t := if hash < 0 then 1 else 0;
    assert hash == h - t * TWO_32;
    var q := h / 0x100 - t * 0x100_0000;
    DivMod(hash, 0x100, q, h % 0x100);
    DivMod(q, 256, (h / 0x100) / 256 - t * 0x1_0000, (h / 0x100) % 256);
  }

  /** `(hash >> 16) & 255` is byte 2 of the pattern. */
  lemma ShiftedByte2(hash: Int32)
    ensures (hash / 0x1_0000) % 256 == Byte(hash % TWO_32, 2)
  {
    var h := hash % TWO_32;
    var t := if hash < 0 then 1 else 0;
    assert hash == h - t * TWO_32;
    var q := h / 0x1_0000 - t * 0x1_0000;
    DivMod(hash, 0x1_0000, q, h % 0x1_0000);
    DivMod(q, 256, (h / 0x1_0000) / 256 - t * 0x100, (h / 0x1_0000) % 256);
  }

  /** `(hash >> (k * 8)) & 255` on a signed hash picks byte `k` of its 32-bit pattern. */
  lemma ShiftedByte(hash: Int32, k: nat)
    requires k < 3
    ensures ShiftRightBytes(hash, k) % 256 == Byte(hash % TWO_32, k)
  {
    if k == 0 {
      var t := if hash < 0 then 1 else 0;
      assert hash == hash % TWO_32 + (-t * 0x100_0000) * 256;
    } else if k == 1 {
      ShiftedByte1(hash);
    } else {
      ShiftedByte2(hash);
    }
  }

  /** `generateColorFromString(text)` */
  method GenerateColorFromString(text: seq<CodeUnit>) returns (color: string)
    ensures color == ColorOf(text)
  {
    var hash: Int32 := 0;
    if |text| == 0 {
      return "#FFFFFF";
    }
    for i := 0 to |text|
      invariant hash % TWO_32 == Hash(text[..i])
    {
      HashStepIsModular(hash, text[i]);
      assert text[..i + 1][..i] == text[..i];
      hash := HashStep(hash, text[i]);
    }
    assert text[..|text|] == text;
    color := "#";
    for i := 0 to 3
      invariant color == "#" + Groups(Hash(text), i)
    {
      var value := ShiftRightBytes(hash, i) % 256;
      ShiftedByte(hash, i);
      color := color + LastTwo("00" + ToHexString(value));
    }
    assert Groups(Hash(text), 1) == HexByte(Byte(Hash(text), 0));
  }

  /** The first `k` two-digit groups of the colour. */
  function Groups(h: nat, k: nat): (s: string)
    requires k <= 3
  {
    if k == 0 then "" else Groups(h, k - 1) + HexByte(Byte(h, k - 1))
  }
}
