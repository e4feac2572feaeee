/** The reader functions of the publisher over an open file: a class holding
    the file's bytes and its position indicator, with `fread`, `fseek` and the
    ReadUnsigned / PeekUnsigned / ReadTime helpers built on them. */
module FlvReader {
  import opened ByteOrder

  function Min(a: nat, b: nat): nat {
    if a <= b then a else b
  }

  function Max(a: nat, b: nat): nat {
    if a <= b then b else a
  }

  /** An open `FILE *` over a regular file. The position may lie beyond the
      end of the file, where `fseek` is allowed to put it. */
  class FlvFile {
    const data: seq<byte>
    var pos: nat

    constructor (contents: seq<byte>)
      ensures data == contents && pos == 0
    {
      data := contents;
      pos := 0;
    }

    /** `fread` of `n` bytes: yields the bytes that are left, up to `n`, and
        advances the position past them. */
    method Fread(n: nat) returns (got: seq<byte>)
      modifies this
      ensures got == data[Min(old(pos), |data|)..Min(old(pos) + n, |data|)]
      ensures |got| == n <==> n == 0 || old(pos) + n <= |data|
      ensures pos == old(pos) + |got|
    {
      got := data[Min(pos, |data|)..Min(pos + n, |data|)];
      pos := pos + |got|;
    }

    /** `fseek(file, offset, SEEK_SET)`. */
    method SeekSet(offset: nat)
      modifies this
      ensures pos == offset
    {
      pos := offset;
    }

    /** `fseek(file, offset, SEEK_CUR)`: fails, leaving the position alone,
        only when the target would be negative. */
    method SeekCur(offset: int) returns (ok: bool)
      modifies this
      ensures ok <==> old(pos) + offset >= 0
      ensures pos == if ok then old(pos) + offset else old(pos)
    {
      ok := pos + offset >= 0;
      if ok {
        pos := pos + offset;
      }
    }

    /** ReadUnsigned8: loads one byte into the low byte of `*u8` and applies
        no macro, so the upper bytes keep what `prev` held. */
    method ReadUnsigned8(prev: bv32) returns (ok: bool, u8: bv32)
      modifies this
      ensures ok <==> old(pos) + 1 <= |data|
      ensures ok ==> pos == old(pos) + 1 && u8 == Load(prev, [data[old(pos)]])
      ensures ok && prev < 0x100 ==> u8 == Bits(data[old(pos)]) as bv32
      ensures !ok ==> pos == old(pos) && u8 == prev
    {
      var got := Fread(1);
      if |got| != 1 {
        return false, prev;
      }
      ok, u8 := true, Load(prev, got);
      if prev < 0x100 {
        Read8Value(prev, got);
      }
    }

    /** PeekUnsigned8: reads one byte and steps back over it. */
    method PeekUnsigned8(prev: bv32) returns (ok: bool, u8: bv32)
      modifies this
      ensures ok <==> pos < |data|
      ensures pos == old(pos)
      ensures ok ==> u8 == Load(prev, [data[pos]])
      ensures ok && prev < 0x100 ==> u8 == Bits(data[pos]) as bv32
      ensures !ok ==> u8 == prev
    {
      ok, u8 := ReadUnsigned8(prev);
      if ok {
        var back := SeekCur(-1);
      }
    }

    /** ReadUnsigned16: two bytes, converted with HTON16. A short read
        consumes what was left of the file. */
    method ReadUnsigned16(prev: bv32) returns (ok: bool, u16: bv32)
      modifies this
      ensures ok <==> old(pos) + 2 <= |data|
      ensures ok ==> pos == old(pos) + 2 && Unsigned(u16) == Be16(data[old(pos)..old(pos) + 2])
      ensures !ok ==> pos == Max(old(pos), |data|) && u16 == prev
    {
      var got := Fread(2);
      if |got| != 2 {
        return false, prev;
      }
      ok, u16 := true, Hton16(Load(prev, got));
      Read16Value(prev, got);
    }

    /** ReadUnsigned24: three bytes, converted with HTON24. */
    method ReadUnsigned24(prev: bv32) returns (ok: bool, u24: bv32)
      modifies this
      ensures ok <==> old(pos) + 3 <= |data|
      ensures ok ==> pos == old(pos) + 3 && Unsigned(u24) == Be24(data[old(pos)..old(pos) + 3])
      ensures !ok ==> pos == Max(old(pos), |data|) && u24 == prev
    {
      var got := Fread(3);
      if |got| != 3 {
        return false, prev;
      }
      ok, u24 := true, Hton24(Load(prev, got));
      Read24Value(prev, got);
    }

    /** ReadUnsigned32: four bytes, converted with HTON32. */
    method ReadUnsigned32(prev: bv32) returns (ok: bool, u32: bv32)
      modifies this
      ensures ok <==> old(pos) + 4 <= |data|
      ensures ok ==> pos == old(pos) + 4 && Unsigned(u32) == Be32(data[old(pos)..old(pos) + 4])
      ensures !ok ==> pos == Max(old(pos), |data|) && u32 == prev
    {
      var got := Fread(4);
      if |got| != 4 {
        return false, prev;
      }
      ok, u32 := true, Hton32(Load(prev, got));
      Read32Value(prev, got);
    }

    /** ReadTime: four bytes, converted with HTONTIME, which keeps only the
        first three. */
    method ReadTime(prev: bv32) returns (ok: bool, utime: bv32)
      modifies this
      ensures ok <==> old(pos) + 4 <= |data|
      ensures ok ==> pos == old(pos) + 4 && Unsigned(utime) == TimeValue(data[old(pos)..old(pos) + 4])
      ensures ok ==> Unsigned(utime) < 0x100_0000
      ensures !ok ==> pos == Max(old(pos), |data|) && utime == prev
    {
      var got := Fread(4);
      if |got| != 4 {
        return false, prev;
      }
      ok, utime := true, HtonTime(Load(prev, got));
      ReadTimeValue(prev, got);
    }
  }
}
