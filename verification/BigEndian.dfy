/** Big-endian bytes of an integer of any size, by way of its hexadecimal text. */
module BigEndian {
  import opened Limits

  newtype digit = x: int | 0 <= x < 16

  // ----- hexadecimal text -----

  const HEX: string := "0123456789abcdef"

  function HexChar(d: digit): char {
    HEX[d as int]
  }

  function HexDigit(c: char): digit {
    if '0' <= c <= '9' then (c - '0') as int as digit
    else if 'a' <= c <= 'f' then ((c - 'a') as int + 10) as digit
    else 0
  }

  lemma DigitRoundTrip(d: digit)
    ensures HexDigit(HexChar(d)) == d
  {
  }

  /** The text of `b` to base 16, without leading zeros. */
  function ToString16(b: nat): (s: string)
    ensures s != ""
  {
    if b < 16 then [HexChar(b as digit)] else ToString16(b / 16) + [HexChar((b % 16) as digit)]
  }

  /** The same, padded to an even number of digits. */
  function ToHex(b: nat): (s: string)
    ensures |s| % 2 == 0 && |s| > 0
  {
    var hex := ToString16(b);
    if |hex| % 2 != 0 then "0" + hex else hex
  }

  /** The number a text to base 16 stands for. */
  function Parse16(s: string): nat {
    if s == "" then 0 else Parse16(s[..|s| - 1]) * 16 + HexDigit(s[|s| - 1]) as nat
  }

  // ----- bytes -----

  /** The number whose big-endian bytes these are. */
  function Value(bytes: seq<byte>): nat {
    if bytes == [] then 0 else Value(bytes[..|bytes| - 1]) * 256 + bytes[|bytes| - 1] as nat
  }

  function PairToByte(pair: string): byte
    requires |pair| == 2
  {
    (HexDigit(pair[0]) as int * 16 + HexDigit(pair[1]) as int) as byte
  }

  /** Two digits at a time. */
  function PairsToBytes(hex: string): seq<byte>
    requires |hex| % 2 == 0
    decreases |hex|
  {
    if hex == "" then []
    else
      var n := |hex|;
      PairsToBytes(hex[..n - 2]) + [PairToByte(hex[n - 2..])]
  }

  function Encode(b: nat): seq<byte> {
    PairsToBytes(ToHex(b))
  }

  function BytesToHex(bytes: seq<byte>): string {
    if bytes == [] then "" else BytesToHex(bytes[..|bytes| - 1]) + ToHex(bytes[|bytes| - 1] as nat)
  }

  function Decode(bytes: seq<byte>): nat {
    if bytes == [] then 0 else Parse16(BytesToHex(bytes))
  }

  /** The bytes of the first `i` pairs of digits. */
  function FirstPairs(hex: string, i: nat): seq<byte>
    requires 2 * i <= |hex|
  {
    PairsToBytes(hex[..2 * i])
  }

  lemma OneMorePair(hex: string, i: nat)
    requires 2 * i + 2 <= |hex|
    ensures FirstPairs(hex, i + 1) == FirstPairs(hex, i) + [PairToByte(hex[2 * i..2 * i + 2])]
  {
    var more := hex[..2 * i + 2];
    assert more[..2 * i] == hex[..2 * i] && more[2 * i..] == hex[2 * i..2 * i + 2];
  }

  lemma {:induction false} AllPairs(hex: string)
    requires |hex| % 2 == 0
    ensures FirstPairs(hex, 0) == [] && FirstPairs(hex, |hex| / 2) == PairsToBytes(hex)
  {
    assert hex[..2 * (|hex| / 2)] == hex;
  }

  /** Fills a new array, two digits of the text for each byte. */
  method BigintToBigEndianBytes(b: nat) returns (u8: array<byte>)
    ensures fresh(u8) && u8[..] == Encode(b)
  {
    var hex := ToHex(b);
    var len := |hex| / 2;
    u8 := new byte[len];
    AllPairs(hex);
    var i, j := 0, 0;
    while i < len
      invariant 0 <= i <= len && j == 2 * i
      invariant u8[..i] == FirstPairs(hex, i)
    {
      ghost var before := u8[..];
      u8[i] := PairToByte(hex[j..j + 2]);
      assert u8[..] == before[i := PairToByte(hex[2 * i..2 * i + 2])];
      FillOne(before, hex, i);
      i := i + 1;
      j := j + 2;
    }
    assert u8[..] == u8[..i];
  }

  lemma FillOne(before: seq<byte>, hex: string, i: nat)
    requires i < |before| && 2 * i + 2 <= |hex| && before[..i] == FirstPairs(hex, i)
    ensures before[i := PairToByte(hex[2 * i..2 * i + 2])][..i + 1] == FirstPairs(hex, i + 1)
  {
    OneMorePair(hex, i);
  }

  function Join(parts: seq<string>): string {
    if parts == [] then "" else Join(parts[..|parts| - 1]) + parts[|parts| - 1]
  }

  /** The text of some bytes is written byte by byte, two lower-case digits each, the high one first. */
  lemma {:induction false} HexOfBytes(bytes: seq<byte>, x: byte)
    ensures BytesToHex([]) == "" && BytesToHex(bytes + [x]) == BytesToHex(bytes) + Digits(x)
  {
    var more := bytes + [x];
    assert more[..|more| - 1] == bytes && more[|more| - 1] == x;
    TwoDigits(x);
  }

  function Digits(x: byte): string {
    ["0123456789abcdef"[x as int / 16], "0123456789abcdef"[x as int % 16]]
  }

  lemma {:induction false} TwoDigits(x: byte)
    ensures ToHex(x as nat) == Digits(x)
  {
    var b := x as nat;
    if b < 16 {
      assert ToHex(b) == "0" + [HexChar(b as digit)];
    } else {
      assert ToString16(b) == ToString16(b / 16) + [HexChar((b % 16) as digit)];
      assert ToString16(b / 16) == [HexChar((b / 16) as digit)];
    }
  }

  method BuffToHex(bytes: seq<byte>) returns (hex: string)
    ensures hex == "0x" + BytesToHex(bytes)
  {
    var hexArr: seq<string> := [];
    for i := 0 to |bytes|
      invariant Join(hexArr) == BytesToHex(bytes[..i])
    {
      assert bytes[..i + 1][..i] == bytes[..i];
      hexArr := hexArr + [ToHex(bytes[i] as nat)];
    }
    assert bytes[..|bytes|] == bytes;
    hex := "0x" + Join(hexArr);
  }

  /** The number a hexadecimal literal stands for. */
  function ParseLiteral(s: string): nat
    requires |s| >= 2 && s[..2] == "0x"
  {
    Parse16(s[2..])
  }

  method BigEndianBytesToBigInt(bytes: seq<byte>) returns (b: nat)
    ensures b == Decode(bytes)
  {
    if |bytes| == 0 {
      return 0;
    }
    var hex := BuffToHex(bytes);
    return ParseLiteral(hex);
  }

  // ----- both directions -----

  lemma {:induction false} ParseOfText(b: nat)
    ensures Parse16(ToString16(b)) == b
  {
    if b >= 16 {
      ParseOfText(b / 16);
      DigitRoundTrip((b % 16) as digit);
      assert ToString16(b)[..|ToString16(b)| - 1] == ToString16(b / 16);
    } else {
      DigitRoundTrip(b as digit);
      assert ToString16(b)[..0] == "";
    }
  }

  lemma {:induction false} LeadingZero(s: string)
    ensures Parse16("0" + s) == Parse16(s)
  {
    if s == "" {
      assert "0" + s == "0" && "0"[..0] == "";
    } else {
      LeadingZero(s[..|s| - 1]);
      assert ("0" + s)[..|s|] == "0" + s[..|s| - 1];
    }
  }

  lemma ParseOfHex(b: nat)
    ensures Parse16(ToHex(b)) == b
  {
    ParseOfText(b);
    LeadingZero(ToString16(b));
  }

  lemma {:induction false} PairsKeepValue(hex: string)
    requires |hex| % 2 == 0
    ensures Value(PairsToBytes(hex)) == Parse16(hex)
    decreases |hex|
  {
    if hex != "" {
      var n := |hex|;
      PairsKeepValue(hex[..n - 2]);
      assert hex[..n - 1][..n - 2] == hex[..n - 2];
      assert PairsToBytes(hex)[..|PairsToBytes(hex)| - 1] == PairsToBytes(hex[..n - 2]);
    }
  }

  lemma {:induction false} ParseOfOneMore(s: string, c: char)
    ensures Parse16(s + [c]) == Parse16(s) * 16 + HexDigit(c) as nat
  {
    assert (s + [c])[..|s|] == s;
  }

  lemma {:induction false} ParseOfPair(s: string, t: string)
    requires |t| == 2
    ensures Parse16(s + t) == Parse16(s) * 256 + Parse16(t)
  {
    ParseOfOneMore(s, t[0]);
    ParseOfOneMore(s + [t[0]], t[1]);
    ParseOfOneMore("", t[0]);
    ParseOfOneMore([t[0]], t[1]);
    assert s + t == s + [t[0]] + [t[1]] && t == [t[0]] + [t[1]] && [t[0]] == "" + [t[0]];
  }

  lemma ByteHex(x: byte)
    ensures |ToHex(x as nat)| == 2
  {
    if x >= 16 {
      assert ToString16(x as nat) == ToString16(x as nat / 16) + [HexChar((x as nat % 16) as digit)];
    }
  }

  lemma {:induction false} HexKeepsValue(bytes: seq<byte>)
    ensures Parse16(BytesToHex(bytes)) == Value(bytes)
  {
    if bytes != [] {
      var last := bytes[|bytes| - 1];
      HexKeepsValue(bytes[..|bytes| - 1]);
      ByteHex(last);
      ParseOfHex(last as nat);
      ParseOfPair(BytesToHex(bytes[..|bytes| - 1]), ToHex(last as nat));
    }
  }

  lemma {:induction false} DecodeIsValue(bytes: seq<byte>)
    ensures Decode(bytes) == Value(bytes)
  {
    HexKeepsValue(bytes);
  }

  /** Decoding undoes encoding, for every integer. */
  lemma DecodeEncode(b: nat)
    ensures Decode(Encode(b)) == b
  {
    PairsKeepValue(ToHex(b));
    ParseOfHex(b);
    DecodeIsValue(Encode(b));
  }

  /** The bytes of a number without leading zeros; zero itself is one zero byte. */
  predicate Minimal(bytes: seq<byte>) {
    bytes == [0] || (bytes != [] && bytes[0] != 0)
  }

  lemma {:induction false} FirstDigit(b: nat)
    requires b > 0
    ensures HexDigit(ToString16(b)[0]) != 0
  {
    if b >= 16 {
      FirstDigit(b / 16);
    } else {
      DigitRoundTrip(b as digit);
    }
  }

  lemma {:induction false} FirstPair(hex: string)
    requires |hex| % 2 == 0 && |hex| > 0
    ensures var bytes := PairsToBytes(hex);
            |bytes| > 0 && bytes[0] as int == HexDigit(hex[0]) as int * 16 + HexDigit(hex[1]) as int
    decreases |hex|
  {
    if |hex| > 2 {
      FirstPair(hex[..|hex| - 2]);
    } else {
      assert hex[..0] == "";
    }
  }

  lemma EncodeIsMinimal(b: nat)
    ensures Minimal(Encode(b))
  {
    FirstPair(ToHex(b));
    if b > 0 {
      FirstDigit(b);
    } else {
      assert ToHex(0) == "00" && PairsToBytes("00")[..0] == [];
      assert "00"[..0] == "";
    }
  }

  function Power256(n: nat): nat {
    if n == 0 then 1 else 256 * Power256(n - 1)
  }

  lemma {:induction false} ValueBounds(bytes: seq<byte>)
    ensures Value(bytes) < Power256(|bytes|)
    ensures bytes != [] && bytes[0] != 0 ==> Value(bytes) >= Power256(|bytes| - 1)
  {
    if bytes != [] {
      ValueBounds(bytes[..|bytes| - 1]);
    }
  }

  lemma {:induction false} PowersGrow(m: nat, n: nat)
    requires m <= n
    ensures Power256(m) <= Power256(n)
  {
    if m < n {
      PowersGrow(m, n - 1);
    }
  }

  /** The encoding of a positive integer has as many bytes as it needs and no more. */
  lemma EncodeLength(b: nat)
    ensures b == 0 ==> Encode(b) == [0]
    ensures b > 0 ==> var n := |Encode(b)|; n > 0 && Power256(n - 1) <= b < Power256(n)
  {
    EncodeIsMinimal(b);
    DecodeEncode(b);
    DecodeIsValue(Encode(b));
    ValueBounds(Encode(b));
  }

  lemma {:induction false} SameLengthUnique(x: seq<byte>, y: seq<byte>)
    requires |x| == |y| && Value(x) == Value(y)
    ensures x == y
  {
    if x != [] {
      var n := |x| - 1;
      assert Value(x[..n]) == Value(y[..n]) && x[n] == y[n];
      SameLengthUnique(x[..n], y[..n]);
      assert x == x[..n] + [x[n]] && y == y[..n] + [y[n]];
    }
  }

  lemma {:induction false} MinimalNotLonger(x: seq<byte>, y: seq<byte>)
    requires Minimal(x) && Minimal(y) && Value(x) == Value(y)
    ensures |x| <= |y|
  {
    ValueBounds(x);
    ValueBounds(y);
    if |x| > |y| {
      PowersGrow(|y|, |x| - 1);
    }
  }

  /** Encoding undoes decoding exactly on the bytes without leading zeros. */
  lemma EncodeDecodeIff(bytes: seq<byte>)
    ensures Encode(Decode(bytes)) == bytes <==> Minimal(bytes)
  {
    var again := Encode(Decode(bytes));
    EncodeIsMinimal(Decode(bytes));
    DecodeEncode(Decode(bytes));
    DecodeIsValue(bytes);
    DecodeIsValue(again);
    if Minimal(bytes) {
      MinimalNotLonger(bytes, again);
      MinimalNotLonger(again, bytes);
      SameLengthUnique(bytes, again);
    }
  }
}
