/**
 The byte writer and reader.  A writer's buffer after a call is `Emit` of the value written; a reader's call
 is `Dec` of the format read.
 */
module Codec {
  import opened Format
  import opened Words

  /** The longest string a 16-bit length can announce. */
  const MAX_STRING := 0xFFFF

  /** A float on the wire is its bit pattern. */
  type F32 = U32

  function FU8(): Fmt { FNum(1, 0, 0xFF) }
  function FU16(): Fmt { FNum(2, 0, 0xFFFF) }
  function FU32(): Fmt { FNum(4, 0, 0xFFFF_FFFF) }
  function FU64(): Fmt { FNum(8, 0, 0xFFFF_FFFF_FFFF_FFFF) }

  /** A single byte that must not exceed `max`: an enumeration. */
  function FEnum(max: U8): Fmt { FNum(1, 0, max) }

  /** Two's complement. */
  function Bits(i: I32): U32 {
    if i < 0 then i + 0x1_0000_0000 else i
  }

  /** The outcome of a write that may throw `std::length_error`. */
  datatype Outcome = Done | Thrown {
    predicate IsFailure() {
      Thrown?
    }

    function PropagateFailure(): Outcome
      requires Thrown?
    {
      this
    }
  }

  class ByteWriter {
    var bytes: Bytes

    constructor ()
      ensures bytes == []
    {
      bytes := [];
    }

    method WriteU8(value: U8)
      modifies this
      ensures bytes == Emit(VNum(1, value), old(bytes))
    {
      assert LE(0, value / 256) == [];
      bytes := bytes + [value];
    }

    method WriteBool(value: bool)
      modifies this
      ensures bytes == Emit(VBool(value), old(bytes))
    {
      bytes := bytes + [if value then 1 else 0];
    }

    method WriteU16(value: U16)
      modifies this
      ensures bytes == Emit(VNum(2, value), old(bytes))
    {
      assert LE(1, value / 256) == [value / 256 % 256] + LE(0, value / 256 / 256);
      assert LE(2, value) == [value % 256] + LE(1, value / 256);
      bytes := bytes + [value % 256];
      bytes := bytes + [value / 256 % 256];
    }

    method WriteU32(value: U32)
      modifies this
      ensures bytes == Emit(VNum(4, value), old(bytes))
    {
      WriteShifted(4, value);
    }

    /** A container size or index cast to 32 bits. */
    method WriteTruncated(value: nat)
      modifies this
      ensures bytes == Emit(VNum(4, value), old(bytes))
    {
      LETruncates(value);
      WriteU32(value % COUNT_RANGE);
    }

    method WriteU64(value: U64)
      modifies this
      ensures bytes == Emit(VNum(8, value), old(bytes))
    {
      WriteShifted(8, value);
    }

    /** The shift loop of the wide writers: `rest` is the value shifted right by `shift` bits. */
    method WriteShifted(width: nat, value: nat)
      modifies this
      ensures bytes == old(bytes) + LE(width, value)
    {
      var shift, rest := 0, value;
      while shift < 8 * width
        invariant 0 <= shift <= 8 * width && shift % 8 == 0
        invariant bytes + LE(width - shift / 8, rest) == old(bytes) + LE(width, value)
      {
        ghost var left := width - shift / 8;
        assert LE(left, rest) == [rest % 256] + LE(left - 1, rest / 256);
        bytes := bytes + [rest % 256];
        rest := rest / 256;
        shift := shift + 8;
      }
    }

    method WriteI32(value: I32)
      modifies this
      ensures bytes == Emit(VNum(4, Bits(value)), old(bytes))
    {
      WriteU32(Bits(value));
    }

    method WriteF32(value: F32)
      modifies this
      ensures bytes == Emit(VNum(4, value), old(bytes))
    {
      WriteU32(value);
    }

    method WriteString(value: Bytes) returns (r: Outcome)
      modifies this
      ensures r.Done? <==> |value| <= MAX_STRING
      ensures bytes == if r.Done? then Emit(VStr(value), old(bytes)) else old(bytes)
    {
      if |value| > MAX_STRING {
        return Thrown;
      }
      WriteU16(|value|);
      bytes := bytes + value;
      r := Done;
    }
  }

  class ByteReader {
    const bytes: Bytes
    var offset: nat

    ghost predicate Valid()
      reads this
    {
      offset <= |bytes|
    }

    constructor (bytes: Bytes)
      ensures Valid() && offset == 0 && this.bytes == bytes
    {
      this.bytes := bytes;
      offset := 0;
    }

    predicate Has(n: nat)
      reads this
    {
      offset + n <= |bytes|
    }

    predicate AtEnd()
      reads this
    {
      offset == |bytes|
    }

    /** A read of format `f` that began at `from` has just ended, with this outcome. */
    ghost predicate Took(f: Fmt, from: nat, ok: bool, v: Val)
      reads this
    {
      && Valid()
      && from <= offset
      && if ok then Dec(f, bytes, from) == Item(v, offset) else Dec(f, bytes, from).NoItem?
    }

    /** The same for `count` values of format `f`, read one after the other. */
    ghost predicate TookTimes(f: Fmt, from: nat, count: nat, ok: bool, body: Val)
      reads this
    {
      && Valid()
      && from <= offset
      && if ok then DecTimes(f, count, bytes, from) == Item(body, offset) else DecTimes(f, count, bytes, from).NoItem?
    }

    method ReadU8() returns (ok: bool, value: U8)
      requires Valid()
      modifies this`offset
      ensures Took(FU8(), old(offset), ok, VNum(1, value))
      ensures ok <==> old(offset) + 1 <= |bytes|
    {
      if !Has(1) {
        return false, 0;
      }
      ok, value := true, bytes[offset];
      assert LEAt(bytes, offset + 1, 0) == 0;
      offset := offset + 1;
    }

    method ReadBool() returns (ok: bool, value: bool)
      requires Valid()
      modifies this`offset
      ensures Took(FBool, old(offset), ok, VBool(value))
    {
      var raw;
      ok, raw := ReadU8();
      value := raw != 0;
      assert ok ==> LEAt(bytes, old(offset) + 1, 0) == 0;
    }

    method ReadU16() returns (ok: bool, value: U16)
      requires Valid()
      modifies this`offset
      ensures Took(FU16(), old(offset), ok, VNum(2, value))
      ensures ok <==> old(offset) + 2 <= |bytes|
    {
      if !Has(2) {
        return false, 0;
      }
      var b0: int, b1: int := bytes[offset], bytes[offset + 1];
      assert LEAt(bytes, offset + 1, 1) == b1 + 256 * LEAt(bytes, offset + 2, 0);
      ok, value := true, b0 + b1 * 0x100;
      offset := offset + 2;
    }

    method ReadU32() returns (ok: bool, value: U32)
      requires Valid()
      modifies this`offset
      ensures Took(FU32(), old(offset), ok, VNum(4, value))
    {
      if !Has(4) {
        return false, 0;
      }
      var b0: int, b1: int := bytes[offset], bytes[offset + 1];
      var b2: int, b3: int := bytes[offset + 2], bytes[offset + 3];
      assert LEAt(bytes, offset + 3, 1) == b3 + 256 * LEAt(bytes, offset + 4, 0);
      assert LEAt(bytes, offset + 2, 2) == b2 + 256 * b3;
      assert LEAt(bytes, offset + 1, 3) == b1 + 256 * (b2 + 256 * b3);
      ok, value := true, b0 + b1 * 0x100 + b2 * 0x1_0000 + b3 * 0x100_0000;
      offset := offset + 4;
    }

    method ReadU64() returns (ok: bool, value: U64)
      requires Valid()
      modifies this`offset
      ensures Took(FU64(), old(offset), ok, VNum(8, value))
    {
      if !Has(8) {
        return false, 0;
      }
      ghost var from := offset;
      LEAtInRange(bytes, from, 8);
      RangeOfWord();
      var sum: nat, scale: nat, shift := 0, 1, 0;
      while shift < 64
        invariant 0 <= shift <= 64 && shift % 8 == 0 && offset == from + shift / 8 && Valid()
        invariant WithScaled(sum, scale, LEAt(bytes, offset, 8 - shift / 8)) == LEAt(bytes, from, 8)
      {
        var byte: nat := bytes[offset];
        ScaledStep(sum, scale, byte, LEAt(bytes, offset + 1, 7 - shift / 8));
        sum := sum + scale * byte;
        scale := scale * 256;
        offset := offset + 1;
        shift := shift + 8;
      }
      assert LEAt(bytes, offset, 0) == 0;
      ok, value := true, sum;
    }

    method ReadI32() returns (ok: bool, value: I32)
      requires Valid()
      modifies this`offset
      ensures Took(FU32(), old(offset), ok, VNum(4, Bits(value)))
    {
      var raw: int;
      ok, raw := ReadU32();
      value := if raw < 0x8000_0000 then raw else raw - 0x1_0000_0000;
    }

    method ReadF32() returns (ok: bool, value: F32)
      requires Valid()
      modifies this`offset
      ensures Took(FU32(), old(offset), ok, VNum(4, value))
    {
      ok, value := ReadU32();
    }

    method ReadString() returns (ok: bool, value: Bytes)
      requires Valid()
      modifies this`offset
      ensures Took(FStr, old(offset), ok, VStr(value))
    {
      var size;
      ok, size := ReadU16();
      if ok {
        LEAtInRange(bytes, old(offset), 2);
      }
      if !ok || !Has(size) {
        return false, [];
      }
      value := bytes[offset..offset + size];
      offset := offset + size;
    }

    /** One byte, rejected above `max`. */
    method ReadEnum(max: U8) returns (ok: bool, value: U8)
      requires Valid()
      modifies this`offset
      ensures Took(FEnum(max), old(offset), ok, VNum(1, value))
    {
      ok, value := ReadU8();
      assert ok ==> LEAt(bytes, old(offset) + 1, 0) == 0;
      if ok && value > max {
        ok := false;
      }
    }

    /** A list count, rejected above `max`. */
    method ReadCount(max: U32) returns (ok: bool, count: U32)
      requires Valid()
      modifies this`offset
      ensures Took(FNum(4, 0, max), old(offset), ok, VNum(4, count))
    {
      ok, count := ReadU32();
      if ok && count > max {
        ok := false;
      }
    }
  }

  function WithScaled(sum: nat, scale: nat, rest: nat): nat {
    sum + scale * rest
  }

  lemma ScaledStep(sum: nat, scale: nat, byte: nat, rest: nat)
    ensures WithScaled(sum + scale * byte, scale * 256, rest) == WithScaled(sum, scale, byte + 256 * rest)
  {
    assert scale * (byte + 256 * rest) == scale * byte + scale * (256 * rest);
    assert scale * (256 * rest) == (scale * 256) * rest;
  }

  lemma RangeOfWord()
    ensures Range(8) == 0x1_0000_0000_0000_0000
  {
    assert Range(4) == 0x1_0000_0000;
  }
}
