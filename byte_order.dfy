/** Byte-order helpers of the FLV publisher.

    The reader loads 1 to 4 bytes of the file into a `uint32_t` with `fread`
    on a little-endian host and then permutes the bytes of that word with one
    of the HTON macros to obtain the big-endian value stored in the file.
    `uint32_t` is modelled as `bv32`. A file byte is its value, 0 to 255;
    `Bits` gives the pattern of eight bits it has in memory. */
module ByteOrder {

  /** The value of one byte of the file. */
  type byte = x: int | 0 <= x < 0x100

  /** HTON16: swaps the two low bytes of the word. */
  function Hton16(x: bv32): (r: bv32)
    ensures ByteOf(r, 0) == ByteOf(x, 1) && ByteOf(r, 1) == ByteOf(x, 0)
    ensures ByteOf(r, 2) == 0 && ByteOf(r, 3) == 0
  {
    ((x >> 8) & 0xff) | ((x << 8) & 0xff00)
  }

  /** HTON24: swaps byte 0 and byte 2, keeps byte 1, clears byte 3. */
  function Hton24(x: bv32): (r: bv32)
    ensures ByteOf(r, 0) == ByteOf(x, 2) && ByteOf(r, 1) == ByteOf(x, 1) && ByteOf(r, 2) == ByteOf(x, 0)
    ensures ByteOf(r, 3) == 0
  {
    ((x >> 16) & 0xff) | ((x << 16) & 0xff0000) | (x & 0xff00)
  }

  /** HTON32: reverses the four bytes of the word. */
  function Hton32(x: bv32): (r: bv32)
    ensures ByteOf(r, 0) == ByteOf(x, 3) && ByteOf(r, 1) == ByteOf(x, 2)
    ensures ByteOf(r, 2) == ByteOf(x, 1) && ByteOf(r, 3) == ByteOf(x, 0)
  {
    ((x >> 24) & 0xff) | ((x >> 8) & 0xff00) | ((x << 8) & 0xff0000) | ((x << 24) & 0xff000000)
  }

  /** HTONTIME: the last mask is a 40-bit constant, so C evaluates that term
      (and the whole disjunction) as a 64-bit `long`; the value is stored back
      into a `uint32_t`. The term can never be non-zero, so byte 3 of the
      word is lost and HTONTIME computes exactly what HTON24 computes. */
  function HtonTime(x: bv32): (r: bv32)
    ensures r == Hton24(x)
    ensures r < 0x100_0000
  {
    var low := ((x >> 16) & 0xff) | ((x << 16) & 0xff0000) | (x & 0xff00);
    ((low as bv64) | ((x as bv64) & 0xff_0000_0000)) as bv32
  }

  // ---------------------------------------------------------------------
  // Bytes in memory.

  /** The bits of a byte: the bits of half its value shifted up, and its
      parity as the lowest bit. */
  function Bits(x: byte): bv8
    decreases x
  {
    if x == 0 then 0 else (Bits(x / 2) << 1) | (if x % 2 == 1 then 1 else 0)
  }

  /** The number eight bits hold: twice the number in the bits above the
      lowest, plus the lowest bit. */
  function ByteValue(b: bv8): nat
    decreases b as int
  {
    if b == 0 then 0 else 2 * ByteValue(b >> 1) + (if b & 1 == 1 then 1 else 0)
  }

  /** `ByteValue` is the unsigned value of the bits. */
  lemma {:induction false} ByteValueIs(b: bv8)
    ensures ByteValue(b) == b as int
    decreases b as int
  {
    if b != 0 {
      ByteValueIs(b >> 1);
    }
  }

  lemma ByteValueBound(b: bv8)
    ensures ByteValue(b) < 0x100
  {
    ByteValueIs(b);
  }

  /** The bits of a byte hold its value. */
  lemma {:induction false} BitsValue(x: byte)
    ensures ByteValue(Bits(x)) == x
    decreases x
  {
    if x != 0 {
      var half := Bits(x / 2);
      BitsValue(x / 2);
      ByteValueIs(half);
      var low: bv8 := if x % 2 == 1 then 1 else 0;
      var b := (half << 1) | low;
      assert half < 0x80;
      assert b >> 1 == half && b & 1 == low;
      assert b != 0;
    }
  }

  /** Different bytes have different bits. */
  lemma BitsInjective(x: byte, y: byte)
    ensures Bits(x) == Bits(y) <==> x == y
  {
    BitsValue(x);
    BitsValue(y);
  }

  /** The word that `fread` leaves in a `uint32_t` after reading `bytes` on a
      little-endian host: file byte k lands in byte k of the word and the bytes
      above the ones read keep the value `prev` had. */
  function Load(prev: bv32, bytes: seq<byte>): (r: bv32)
    requires 1 <= |bytes| <= 4
    ensures (r & 0xff) as bv8 == Bits(bytes[0])
    ensures |bytes| >= 2 ==> ((r >> 8) & 0xff) as bv8 == Bits(bytes[1])
    ensures |bytes| >= 3 ==> ((r >> 16) & 0xff) as bv8 == Bits(bytes[2])
    ensures |bytes| == 4 ==> (r >> 24) as bv8 == Bits(bytes[3])
    ensures |bytes| == 1 ==> r >> 8 == prev >> 8
    ensures |bytes| == 2 ==> r >> 16 == prev >> 16
    ensures |bytes| == 3 ==> r >> 24 == prev >> 24
  {
    var b0 := Bits(bytes[0]) as bv32;
    if |bytes| == 1 then (prev & 0xffff_ff00) | b0
    else
      var b1 := Bits(bytes[1]) as bv32;
      if |bytes| == 2 then (prev & 0xffff_0000) | b0 | (b1 << 8)
      else
        var b2 := Bits(bytes[2]) as bv32;
        if |bytes| == 3 then (prev & 0xff00_0000) | b0 | (b1 << 8) | (b2 << 16)
        else b0 | (b1 << 8) | (b2 << 16) | (Bits(bytes[3]) as bv32 << 24)
  }

  // ---------------------------------------------------------------------
  // Numbers held by byte strings and words.

  /** The big-endian number held by two, three or four bytes. */
  function Be16(bs: seq<byte>): (n: nat)
    requires |bs| == 2
    ensures n < 0x1_0000
  {
    bs[0] as int * 0x100 + bs[1]
  }

  function Be24(bs: seq<byte>): (n: nat)
    requires |bs| == 3
    ensures n < 0x100_0000
  {
    bs[0] as int * 0x1_0000 + bs[1] as int * 0x100 + bs[2]
  }

  function Be32(bs: seq<byte>): (n: nat)
    requires |bs| == 4
    ensures n < 0x1_0000_0000
  {
    bs[0] as int * 0x100_0000 + bs[1] as int * 0x1_0000 + bs[2] as int * 0x100 + bs[3]
  }

  /** The timestamp the reader decodes from the four timestamp bytes of a
      tag header: the first three bytes, big-endian; the fourth is ignored. */
  function TimeValue(bs: seq<byte>): (n: nat)
    requires |bs| == 4
    ensures n < 0x100_0000
  {
    Be24(bs[..3])
  }

  /** The timestamp as the FLV format lays it out: the first three bytes are
      bits 0-23 (big-endian), the fourth (TimestampExtended) bits 24-31. */
  function FlvTimestamp(bs: seq<byte>): nat
    requires |bs| == 4
  {
    bs[3] as int * 0x100_0000 + Be24(bs[..3])
  }

  /** Byte `k` of a word, byte 0 being the least significant one. */
  function ByteOf(w: bv32, k: nat): bv8
    requires k < 4
  {
    if k == 0 then (w & 0xff) as bv8
    else if k == 1 then ((w >> 8) & 0xff) as bv8
    else if k == 2 then ((w >> 16) & 0xff) as bv8
    else (w >> 24) as bv8
  }

  /** The unsigned value of a `uint32_t`. */
  function Unsigned(w: bv32): (n: nat)
    ensures n < 0x1_0000_0000
  {
    ByteValueBound(ByteOf(w, 0));
    ByteValueBound(ByteOf(w, 1));
    ByteValueBound(ByteOf(w, 2));
    ByteValueBound(ByteOf(w, 3));
    ByteValue(ByteOf(w, 3)) * 0x100_0000 + ByteValue(ByteOf(w, 2)) * 0x1_0000
      + ByteValue(ByteOf(w, 1)) * 0x100 + ByteValue(ByteOf(w, 0))
  }

  // ---------------------------------------------------------------------
  // What the reader functions compute.

  /** ReadUnsigned16: the big-endian value of the two bytes, whatever the
      target word held before. */
  lemma Read16Value(prev: bv32, bs: seq<byte>)
    requires |bs| == 2
    ensures Unsigned(Hton16(Load(prev, bs))) == Be16(bs)
  {
    var w := Hton16(Load(prev, bs));
    assert ByteOf(w, 0) == Bits(bs[1]) && ByteOf(w, 1) == Bits(bs[0]) && ByteOf(w, 2) == 0 && ByteOf(w, 3) == 0;
    BitsValue(bs[0]);
    BitsValue(bs[1]);
  }

  /** ReadUnsigned24: the big-endian value of the three bytes; the stale
      upper byte of the target word does not leak into the result. */
  lemma Read24Value(prev: bv32, bs: seq<byte>)
    requires |bs| == 3
    ensures Unsigned(Hton24(Load(prev, bs))) == Be24(bs)
  {
    var w := Hton24(Load(prev, bs));
    assert ByteOf(w, 0) == Bits(bs[2]) && ByteOf(w, 1) == Bits(bs[1]) && ByteOf(w, 2) == Bits(bs[0]) && ByteOf(w, 3) == 0;
    BitsValue(bs[0]);
    BitsValue(bs[1]);
    BitsValue(bs[2]);
  }

  /** ReadUnsigned32: the big-endian value of the four bytes. */
  lemma Read32Value(prev: bv32, bs: seq<byte>)
    requires |bs| == 4
    ensures Unsigned(Hton32(Load(prev, bs))) == Be32(bs)
  {
    var w := Hton32(Load(prev, bs));
    assert ByteOf(w, 0) == Bits(bs[3]) && ByteOf(w, 1) == Bits(bs[2]) && ByteOf(w, 2) == Bits(bs[1]) && ByteOf(w, 3) == Bits(bs[0]);
    BitsValue(bs[0]);
    BitsValue(bs[1]);
    BitsValue(bs[2]);
    BitsValue(bs[3]);
  }

  /** ReadTime: the big-endian value of the first three bytes, below 2^24;
      the fourth byte makes no difference. */
  lemma ReadTimeValue(prev: bv32, bs: seq<byte>)
    requires |bs| == 4
    ensures Unsigned(HtonTime(Load(prev, bs))) == TimeValue(bs)
  {
    var low := bs[..3];
    assert low[0] == bs[0] && low[1] == bs[1] && low[2] == bs[2];
    Hton24Ignores3(Load(prev, bs), Load(prev, low));
    Read24Value(prev, low);
  }

  /** HTON24 reads only the three low bytes of the word. */
  lemma Hton24Ignores3(x: bv32, y: bv32)
    requires (x & 0xff) as bv8 == (y & 0xff) as bv8
    requires ((x >> 8) & 0xff) as bv8 == ((y >> 8) & 0xff) as bv8
    requires ((x >> 16) & 0xff) as bv8 == ((y >> 16) & 0xff) as bv8
    ensures Hton24(x) == Hton24(y)
  {
  }

  /** ReadUnsigned8 and PeekUnsigned8 apply no macro: into a word whose upper
      bytes are clear, the loaded word is the byte itself. */
  lemma Read8Value(prev: bv32, bs: seq<byte>)
    requires |bs| == 1
    requires prev < 0x100
    ensures Load(prev, bs) == Bits(bs[0]) as bv32
  {
  }

  /** Comparing a byte loaded into a clear word is comparing the byte. */
  lemma WidenInjective(x: byte, y: byte)
    ensures (Bits(x) as bv32 == Bits(y) as bv32) <==> (x == y)
  {
    BitsInjective(x, y);
  }

  /** The value a `uint32_t` keeps when it is stored into a `uint8_t`: its
      low byte. */
  function LowByte(w: bv32): byte {
    ByteValueBound(ByteOf(w, 0));
    ByteValue(ByteOf(w, 0))
  }

  /** A byte loaded into a word and stored back into a byte is the byte. */
  lemma LowByteOfLoaded(x: byte)
    ensures LowByte(Bits(x) as bv32) == x
  {
    assert ByteOf(Bits(x) as bv32, 0) == Bits(x);
    BitsValue(x);
  }

  /** The bits of the tag type and key-frame constants. */
  lemma BitsOfConstants()
    ensures Bits(0x08) == 0x08 && Bits(0x09) == 0x09 && Bits(0x17) == 0x17
  {
  }

  /** A byte loaded into a clear word equals a constant exactly when the
      byte does. */
  lemma LoadedIs(x: byte, w: bv32, c: byte)
    requires w == Bits(x) as bv32
    ensures w == Bits(c) as bv32 <==> x == c
  {
    WidenInjective(x, c);
  }

  /** The decoded timestamp is the FLV timestamp modulo 2^24, and agrees
      with it exactly when the TimestampExtended byte is zero. */
  lemma TimeValueVersusFlv(bs: seq<byte>)
    requires |bs| == 4
    ensures TimeValue(bs) == FlvTimestamp(bs) % 0x100_0000
    ensures TimeValue(bs) == FlvTimestamp(bs) <==> bs[3] == 0
  {
    var low := Be24(bs[..3]);
    assert FlvTimestamp(bs) == bs[3] as int * 0x100_0000 + low;
  }
}
