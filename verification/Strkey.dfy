/** Account addresses as SEP-0023 encodes them, which is what the client must decode before it registers an order. */
module Strkey {
  const ACCOUNT_VERSION: bv16 := 0x30

  predicate IsBase32(c: char) { 'A' <= c <= 'Z' || '2' <= c <= '7' }

  function Quintet(c: char): bv16 {
    if 'A' <= c <= 'Z' then (c as int - 'A' as int) as bv16
    else if '2' <= c <= '7' then (c as int - '2' as int + 26) as bv16
    else 0
  }

  /** Eight characters of five bits are five bytes (section 6 of RFC 4648). */
  function Group(s: string): (bytes: seq<bv16>)
    requires |s| == 8
    ensures |bytes| == 5
  {
    var a, b, c, d := Quintet(s[0]), Quintet(s[1]), Quintet(s[2]), Quintet(s[3]);
    var e, f, g, h := Quintet(s[4]), Quintet(s[5]), Quintet(s[6]), Quintet(s[7]);
    [0xFF & ((a << 3) | (b >> 2)), 0xFF & ((b << 6) | (c << 1) | (d >> 4)), 0xFF & ((d << 4) | (e >> 1)),
     0xFF & ((e << 7) | (f << 2) | (g >> 3)), 0xFF & ((g << 5) | h)]
  }

  function Raw(s: string): (bytes: seq<bv16>)
    requires |s| % 8 == 0
    ensures |bytes| == |s| / 8 * 5
  {
    if s == "" then [] else Group(s[..8]) + Raw(s[8..])
  }

  function CrcBit(x: bv16): bv16 { if x & 0x8000 != 0 then (x << 1) ^ 0x1021 else x << 1 }

  function CrcByte(crc: bv16, b: bv16): bv16 {
    CrcBit(CrcBit(CrcBit(CrcBit(CrcBit(CrcBit(CrcBit(CrcBit(crc ^ (b << 8)))))))))
  }

  /** CRC16-XModem. */
  function Crc(crc: bv16, bytes: seq<bv16>): bv16
    decreases |bytes|
  {
    if bytes == [] then crc else Crc(CrcByte(crc, bytes[0]), bytes[1..])
  }

  /** 56 base32 characters: the version byte, 32 bytes of key, and the checksum of both, low byte first. */
  predicate Decodes(addr: string) {
    && |addr| == 56 && (forall i :: 0 <= i < |addr| ==> IsBase32(addr[i]))
    && Checks(Raw(addr))
  }

  predicate Checks(raw: seq<bv16>)
    requires |raw| == 35
  {
    raw[0] == ACCOUNT_VERSION && Crc(0, raw[..33]) == (raw[34] << 8) | raw[33]
  }

  function Repeat(c: char, k: nat): (s: string)
    ensures |s| == k && forall i :: 0 <= i < k ==> s[i] == c
  {
    seq(k, i requires 0 <= i < k => c)
  }

  function ZeroBytes(k: nat): (bytes: seq<bv16>)
    ensures |bytes| == k && forall i :: 0 <= i < k ==> bytes[i] == 0
  {
    seq(k, i requires 0 <= i < k => 0)
  }

  /**
   * A well-formed address: the bytes 0x36 0x53 of its key cancel the checksum of the version byte, and zeros keep
   * it.
   */
  function GoodAddress(): string { "GA3FG" + Repeat('A', 51) }

  lemma {:induction false} ZeroGroups(k: nat)
    ensures Raw(Repeat('A', 8 * k)) == ZeroBytes(5 * k)
  {
    if k > 0 {
      var s := Repeat('A', 8 * k);
      assert s[8..] == Repeat('A', 8 * (k - 1));
      ZeroGroups(k - 1);
      assert Group(s[..8]) == [0, 0, 0, 0, 0];
    }
  }

  lemma {:induction false} ZeroCrc(k: nat)
    ensures Crc(0, ZeroBytes(k)) == 0
  {
    if k > 0 {
      assert ZeroBytes(k)[1..] == ZeroBytes(k - 1);
      ZeroCrc(k - 1);
    }
  }

  lemma {:induction false} FirstGroup()
    ensures Group("GA3FGAAA") == [0x30, 0x36, 0x53, 0, 0]
  {}

  lemma {:induction false} FirstBytes()
    ensures CrcByte(CrcByte(CrcByte(0, 0x30), 0x36), 0x53) == 0
  {}

  lemma {:induction false} GoodRaw()
    ensures Raw(GoodAddress()) == [0x30, 0x36, 0x53, 0, 0] + ZeroBytes(30)
  {
    hide Group;
    var addr := GoodAddress();
    assert addr[..8] == "GA3FGAAA" && addr[8..] == Repeat('A', 48);
    FirstGroup();
    ZeroGroups(6);
  }

  lemma {:induction false} GoodChecks()
    ensures Checks([0x30, 0x36, 0x53, 0, 0] + ZeroBytes(30))
  {
    hide CrcByte;
    var raw := [0x30, 0x36, 0x53, 0, 0] + ZeroBytes(30);
    assert raw[..33] == [0x30] + ([0x36] + ([0x53] + ZeroBytes(30)));
    FirstBytes();
    ZeroCrc(30);
    hide Crc;
    NextByte(0, 0x30, [0x36] + ([0x53] + ZeroBytes(30)));
    NextByte(CrcByte(0, 0x30), 0x36, [0x53] + ZeroBytes(30));
    NextByte(CrcByte(CrcByte(0, 0x30), 0x36), 0x53, ZeroBytes(30));
  }

  /** Some address decodes. */
  lemma {:induction false} GoodDecodes()
    ensures Decodes(GoodAddress())
  {
    hide Raw, Checks;
    GoodRaw();
    GoodChecks();
  }

  lemma {:induction false} NextByte(crc: bv16, b: bv16, rest: seq<bv16>)
    ensures Crc(crc, [b] + rest) == Crc(CrcByte(crc, b), rest)
  {
    assert ([b] + rest)[1..] == rest;
  }

  /** The shape the server checks, G and 55 more characters, but outside the alphabet. */
  function BadAddress(): string { "G" + Repeat('1', 55) }

  lemma {:induction false} BadDoesNotDecode()
    ensures |BadAddress()| == 56 && BadAddress()[0] == 'G' && !Decodes(BadAddress())
  {
    assert !IsBase32(BadAddress()[1]);
  }
}
