/** Keys in the layout of version 7 identifiers (section 5.7 of RFC 9562): time stamp first, then random bits. */
module IdempotencyKeys {
  import opened Text
  import opened Wrappers

  const MAX_TIMESTAMP: nat := 0xffff_ffff_ffff

  function DigitValue(c: char): nat {
    if '0' <= c <= '9' then c as int - '0' as int
    else if 'a' <= c <= 'f' then c as int - 'a' as int + 10
    else 0
  }

  /** The number in base 16, without leading zeros. */
  function Hex(n: nat): string {
    (if n < 16 then "" else Hex(n / 16)) + [HexDigit(n % 16)]
  }

  function PadStart(s: string, width: nat): string
    decreases width - |s|
  {
    if |s| < width then PadStart("0" + s, width) else s
  }

  function Value(s: string): nat {
    if s == "" then 0 else 16 * Value(s[..|s| - 1]) + DigitValue(s[|s| - 1])
  }

  function Power16(n: nat): nat {
    if n == 0 then 1 else 16 * Power16(n - 1)
  }

  lemma DigitReadsBack(n: nat)
    requires n < 16
    ensures DigitValue(HexDigit(n)) == n
  {
  }

  lemma {:induction false} HexReadsBack(n: nat)
    ensures Value(Hex(n)) == n
  {
    hide HexDigit, DigitValue;
    DigitReadsBack(n % 16);
    var s := Hex(n);
    if n < 16 {
      assert s == [HexDigit(n % 16)];
      assert s[..0] == "";
    } else {
      HexReadsBack(n / 16);
      assert s[..|s| - 1] == Hex(n / 16);
    }
  }

  lemma {:induction false} HexIsShort(n: nat, width: nat)
    requires n < Power16(width) && width > 0
    ensures 1 <= |Hex(n)| <= width
  {
    hide HexDigit;
    if n >= 16 {
      HexIsShort(n / 16, width - 1);
    }
  }

  lemma {:induction false} ZeroInFront(s: string)
    ensures Value("0" + s) == Value(s)
  {
    hide DigitValue;
    DigitReadsBack(0);
    var z := "0" + s;
    if s == "" {
      assert z[..0] == "";
      assert DigitValue('0') == 0;
    } else {
      ZeroInFront(s[..|s| - 1]);
      assert z[..|z| - 1] == "0" + s[..|s| - 1];
    }
  }

  lemma {:induction false} PadStartReadsBack(s: string, width: nat)
    requires |s| <= width
    ensures |PadStart(s, width)| == width && Value(PadStart(s, width)) == Value(s)
    decreases width - |s|
  {
    if |s| < width {
      ZeroInFront(s);
      PadStartReadsBack("0" + s, width);
    }
  }

  function Padded(n: nat, width: nat): string {
    PadStart(Hex(n), width)
  }

  /** Padding gives exactly the width, and the number can be read back. */
  lemma PaddedReadsBack(n: nat, width: nat)
    requires n < Power16(width) && width > 0
    ensures |Padded(n, width)| == width && Value(Padded(n, width)) == n
  {
    HexIsShort(n, width);
    HexReadsBack(n);
    PadStartReadsBack(Hex(n), width);
  }

  predicate IsBytes(bytes: seq<nat>) {
    forall i :: 0 <= i < |bytes| ==> bytes[i] < 256
  }

  function BytesHex(bytes: seq<nat>): string {
    if bytes == [] then "" else Padded(bytes[0], 2) + BytesHex(bytes[1..])
  }

  /** The 12 random bits after the version, and the 6 after the variant. */
  function RandomA(random: seq<nat>): nat
    requires |random| == 10
  {
    (random[0] * 256 + random[1]) % 4096
  }

  function VariantByte(random: seq<nat>): nat
    requires |random| == 10
  {
    random[2] % 64 + 128
  }

  function Generate(now: int, random: seq<nat>): Option<string> {
    if !(0 <= now <= MAX_TIMESTAMP) || |random| != 10 then None
    else
      var timestamp := Padded(now, 12);
      if |timestamp| != 12 then None
      else
        Some(timestamp[..8] + "-" + timestamp[8..] + "-" + ("7" + Padded(RandomA(random), 3)) + "-"
             + (Padded(VariantByte(random), 2) + Padded(random[3], 2)) + "-" + BytesHex(random[4..]))
  }

  /** What a key holds: the time stamp, the 12 bits, the 6 bits and the last 7 bytes. */
  datatype Parts = Parts(timestamp: nat, randomA: nat, randomB: nat, tail: seq<nat>)

  function ReadBytes(s: string): seq<nat> {
    if |s| < 2 then [] else [Value(s[..2])] + ReadBytes(s[2..])
  }

  function Decode(key: string): Option<Parts> {
    if |key| != 36 || key[8] != '-' || key[13] != '-' || key[18] != '-' || key[23] != '-' || key[14] != '7' then None
    else
      var variant := Value(key[19..21]);
      if !(128 <= variant < 192) then None
      else Some(Parts(Value(key[..8] + key[9..13]), Value(key[15..18]), variant - 128, ReadBytes(key[21..23] + key[24..])))
  }

  lemma {:induction false} BytesReadBack(bytes: seq<nat>)
    requires IsBytes(bytes)
    ensures |BytesHex(bytes)| == 2 * |bytes| && ReadBytes(BytesHex(bytes)) == bytes
  {
    hide Padded;
    if bytes != [] {
      assert bytes[0] < 256 == Power16(2);
      PaddedReadsBack(bytes[0], 2);
      BytesReadBack(bytes[1..]);
      var s := BytesHex(bytes);
      assert s[..2] == Padded(bytes[0], 2) && s[2..] == BytesHex(bytes[1..]);
      assert bytes == [bytes[0]] + bytes[1..];
    }
  }

  function Kept(now: nat, random: seq<nat>): Parts
    requires |random| == 10
  {
    Parts(now, random[0] % 16 * 256 + random[1], random[2] % 64, random[3..])
  }

  lemma TwelveBits(random: seq<nat>)
    requires |random| == 10 && IsBytes(random)
    ensures RandomA(random) == random[0] % 16 * 256 + random[1]
  {
    var high, low := random[0] / 16, random[0] % 16;
    assert random[0] * 256 + random[1] == 4096 * high + (low * 256 + random[1]);
  }

  /** Where the hyphens of a key are. */
  predicate IsHyphen(i: nat) {
    i == 8 || i == 13 || i == 18 || i == 23
  }

  /** The fixed characters of a key, and lower-case digits of base 16 for the others. */
  predicate HasLayout(key: string) {
    && |key| == 36 && key[14] == '7' && (key[19] == '8' || key[19] == '9' || key[19] == 'a' || key[19] == 'b')
    && forall i :: 0 <= i < 36 ==> if IsHyphen(i) then key[i] == '-' else '0' <= key[i] <= '9' || 'a' <= key[i] <= 'f'
  }

  predicate AreDigits(s: string) {
    forall i :: 0 <= i < |s| ==> '0' <= s[i] <= '9' || 'a' <= s[i] <= 'f'
  }

  lemma {:induction false} PaddedDigits(n: nat, width: nat)
    ensures AreDigits(Padded(n, width))
  {
    HexDigits(n);
    PadStartDigits(Hex(n), width);
  }

  lemma {:induction false} HexDigits(n: nat)
    ensures AreDigits(Hex(n))
  {
    if n >= 16 {
      HexDigits(n / 16);
    }
  }

  lemma {:induction false} PadStartDigits(s: string, width: nat)
    requires AreDigits(s)
    ensures AreDigits(PadStart(s, width))
    decreases width - |s|
  {
    if |s| < width {
      PadStartDigits("0" + s, width);
    }
  }

  lemma {:induction false} BytesDigits(bytes: seq<nat>)
    ensures AreDigits(BytesHex(bytes))
  {
    hide Padded;
    if bytes != [] {
      PaddedDigits(bytes[0], 2);
      BytesDigits(bytes[1..]);
    }
  }

  lemma TwoDigits(n: nat)
    requires 128 <= n < 192
    ensures Padded(n, 2) == [HexDigit(n / 16), HexDigit(n % 16)]
  {
    assert Hex(n / 16) == [HexDigit(n / 16)];
  }

  /** A key is made exactly for a time stamp in range and ten random bytes, and then has the layout. */
  lemma KeyHasLayout(now: int, random: seq<nat>)
    requires IsBytes(random)
    ensures Generate(now, random).Some? <==> 0 <= now < 0x1_0000_0000_0000 && |random| == 10
    ensures Generate(now, random).Some? ==> HasLayout(Generate(now, random).value)
  {
    hide Padded, BytesHex, Power16, HexDigit;
    if 0 <= now <= MAX_TIMESTAMP && |random| == 10 {
      PowersOf16();
      PaddedReadsBack(now, 12);
      PaddedReadsBack(RandomA(random), 3);
      PaddedReadsBack(VariantByte(random), 2);
      PaddedReadsBack(random[3], 2);
      BytesReadBack(random[4..]);
      PaddedDigits(now, 12);
      PaddedDigits(RandomA(random), 3);
      PaddedDigits(VariantByte(random), 2);
      PaddedDigits(random[3], 2);
      BytesDigits(random[4..]);
      TwoDigits(VariantByte(random));
      KeyCharacters(Padded(now, 12), Padded(RandomA(random), 3), Padded(VariantByte(random), 2), Padded(random[3], 2),
                    BytesHex(random[4..]));
      VariantDigit(VariantByte(random));
    }
  }

  lemma VariantDigit(n: nat)
    requires 128 <= n < 192
    ensures var c := HexDigit(n / 16); c == '8' || c == '9' || c == 'a' || c == 'b'
  {
  }

  lemma KeyCharacters(timestamp: string, a: string, variant: string, first: string, rest: string)
    requires |timestamp| == 12 && |a| == 3 && |variant| == 2 && |first| == 2 && |rest| == 12
    requires AreDigits(timestamp) && AreDigits(a) && AreDigits(variant) && AreDigits(first) && AreDigits(rest)
    ensures var key := timestamp[..8] + "-" + timestamp[8..] + "-" + ("7" + a) + "-" + (variant + first) + "-" + rest;
            && |key| == 36 && key[14] == '7' && key[19] == variant[0]
            && forall i :: 0 <= i < 36 ==> if IsHyphen(i) then key[i] == '-' else '0' <= key[i] <= '9' || 'a' <= key[i] <= 'f'
  {
  }

  lemma PowersOf16()
    ensures Power16(2) == 256 && Power16(3) == 4096 && Power16(12) == MAX_TIMESTAMP + 1
  {
    assert Power16(4) == 65536;
    assert Power16(6) == 0x100_0000;
    assert Power16(8) == 0x1_0000_0000;
    assert Power16(10) == 0x100_0000_0000;
  }

  /** A key has the version 7 layout and decodes to its time stamp and all 74 kept random bits. */
  lemma KeyDecodes(now: nat, random: seq<nat>)
    requires now <= MAX_TIMESTAMP && |random| == 10 && IsBytes(random)
    ensures Generate(now, random).Some? && Decode(Generate(now, random).value) == Some(Kept(now, random))
  {
    hide Padded, Value, BytesHex, ReadBytes, Power16;
    PowersOf16();
    TwelveBits(random);
    PaddedReadsBack(now, 12);
    PaddedReadsBack(RandomA(random), 3);
    PaddedReadsBack(VariantByte(random), 2);
    PaddedReadsBack(random[3], 2);
    BytesReadBack(random[4..]);
    BytesReadBack(random[3..]);
    FirstByte(random[3..]);
    var timestamp, a, variant, first, rest :=
      Padded(now, 12), Padded(RandomA(random), 3), Padded(VariantByte(random), 2), Padded(random[3], 2), BytesHex(random[4..]);
    var key := timestamp[..8] + "-" + timestamp[8..] + "-" + ("7" + a) + "-" + (variant + first) + "-" + rest;
    assert Generate(now, random) == Some(key);
    KeySlices(timestamp, a, variant, first, rest, key);
    assert random[3..][1..] == random[4..];
  }

  lemma FirstByte(bytes: seq<nat>)
    requires bytes != []
    ensures BytesHex(bytes) == Padded(bytes[0], 2) + BytesHex(bytes[1..])
  {
  }

  lemma KeySlices(timestamp: string, a: string, variant: string, first: string, rest: string, key: string)
    requires |timestamp| == 12 && |a| == 3 && |variant| == 2 && |first| == 2 && |rest| == 12
    requires key == timestamp[..8] + "-" + timestamp[8..] + "-" + ("7" + a) + "-" + (variant + first) + "-" + rest
    ensures |key| == 36 && key[8] == '-' && key[13] == '-' && key[14] == '7' && key[18] == '-' && key[23] == '-'
    ensures key[..8] + key[9..13] == timestamp && key[15..18] == a && key[19..21] == variant
    ensures key[21..23] + key[24..] == first + rest
  {
    assert key[..8] == timestamp[..8];
    assert key[9..13] == timestamp[8..];
    assert key[15..18] == a;
    assert key[19..21] == variant;
    assert key[21..23] == first;
    assert key[24..] == rest;
  }

  /** Keys are equal only when time stamp and kept bits are, so fresh bits make fresh keys. */
  lemma KeysTell(now: nat, random: seq<nat>, now': nat, random': seq<nat>)
    requires now <= MAX_TIMESTAMP && |random| == 10 && IsBytes(random)
    requires now' <= MAX_TIMESTAMP && |random'| == 10 && IsBytes(random')
    ensures Generate(now, random) == Generate(now', random') <==> Kept(now, random) == Kept(now', random')
  {
    hide Decode, Padded, BytesHex;
    KeyDecodes(now, random);
    KeyDecodes(now', random');
    assert random[4..] == random[3..][1..] && random'[4..] == random'[3..][1..];
    assert random[3] == random[3..][0] && random'[3] == random'[3..][0];
  }
}
