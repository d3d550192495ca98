/**
 * The persistence framework's data source, seen as the sequence of tagged values that
 * AG_WriteString, AG_WriteUint32 and M_WriteReal append and that AG_CopyString,
 * AG_ReadUint32 and M_ReadReal consume, front to back.
 */
module DataSource {
  import opened Wrappers

  /** A real number of the geometry library, carried as an opaque token: nothing here does
      arithmetic on it, it is only written and read back. */
  type Real = real

  /** A Uint32 as the number it denotes. */
  newtype u32 = x: int | 0 <= x < 0x1_0000_0000

  /** The C `int` fields that travel as Uint32. */
  newtype int32 = x: int | -0x8000_0000 <= x < 0x8000_0000

  datatype Value = Str(s: string) | U32(n: u32) | Flt(r: Real)

  type Stream = seq<Value>

  /** A value taken off the front of a stream, with what is left. */
  datatype Read<T> = Read(value: T, rest: Stream)

  /** The C string that AG_CopyString leaves in a buffer of `size` bytes: at most
      size - 1 characters, then the terminator. */
  function Clip(s: string, size: nat): (r: string)
    requires size > 0
    ensures |r| < size
    ensures r <= s
    ensures |s| < size ==> r == s
    ensures |s| >= size ==> |r| == size - 1 && r == s[..size - 1]
  {
    if |s| < size then s else s[..size - 1]
  }

  /** A string fits its buffer when it leaves room for the terminator. */
  predicate Fits(s: string, size: nat) {
    |s| < size
  }

  /** `r` is the longest prefix of `s` that fits a buffer of `size` bytes. */
  predicate ClippedFrom(r: string, s: string, size: nat) {
    r <= s && |r| == (if |s| < size then |s| else size - 1)
  }

  /** Taking one value off the front of the suffix from `k`. */
  lemma Advance(ds: Stream, k: nat)
    requires k < |ds|
    ensures ds[k..][0] == ds[k] && ds[k..][1..] == ds[k + 1..]
  {
  }

  function ReadString(ds: Stream, size: nat): (r: Option<Read<string>>)
    requires size > 0
    ensures r.Some? <==> |ds| > 0 && ds[0].Str?
    ensures r.Some? ==> r.value == Read(Clip(ds[0].s, size), ds[1..])
  {
    if |ds| > 0 && ds[0].Str? then Some(Read(Clip(ds[0].s, size), ds[1..])) else None
  }

  function ReadU32(ds: Stream): (r: Option<Read<u32>>)
    ensures r.Some? <==> |ds| > 0 && ds[0].U32?
    ensures r.Some? ==> r.value == Read(ds[0].n, ds[1..])
  {
    if |ds| > 0 && ds[0].U32? then Some(Read(ds[0].n, ds[1..])) else None
  }

  function ReadReal(ds: Stream): (r: Option<Read<Real>>)
    ensures r.Some? <==> |ds| > 0 && ds[0].Flt?
    ensures r.Some? ==> r.value == Read(ds[0].r, ds[1..])
  {
    if |ds| > 0 && ds[0].Flt? then Some(Read(ds[0].r, ds[1..])) else None
  }

  /** The C conversion of an `int` argument to the Uint32 parameter of AG_WriteUint32:
      the value modulo 2^32. */
  function IntToU32(i: int32): (w: u32)
    ensures i >= 0 ==> w as int == i as int
    ensures i < 0 ==> w as int == i as int + 0x1_0000_0000
  {
    ((i as int) % 0x1_0000_0000) as u32
  }

  /** The `(int)` cast applied to AG_ReadUint32's result. C leaves values of 2^31 and
      above implementation-defined; this is the two's-complement reading every platform
      the program targets uses. */
  function U32ToInt(w: u32): (i: int32)
    ensures w < 0x8000_0000 ==> i as int == w as int
    ensures w >= 0x8000_0000 ==> i as int == w as int - 0x1_0000_0000
  {
    if w < 0x8000_0000 then (w as int) as int32 else (w as int - 0x1_0000_0000) as int32
  }

  /** An `int` written as Uint32 and cast back is the same `int`, for every 32-bit value
      under two's complement. */
  lemma IntThroughU32(i: int32)
    ensures U32ToInt(IntToU32(i)) == i
  {
  }

  /** For the non-negative range the round trip needs no implementation-defined cast:
      the Uint32 carries the value itself. */
  lemma NonNegativeIntThroughU32(i: int32)
    requires i >= 0
    ensures IntToU32(i) as int == i as int
    ensures U32ToInt(IntToU32(i)) == i
  {
  }
}
