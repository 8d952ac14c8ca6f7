/** The part of the graph-ts library surface that the event emitter uses. The library's
    conversions are not visible here, so they are carried as a record of function values
    whose internals nothing in the model depends on. */
module GraphTs {

  newtype Byte = b: int | 0 <= b < 256

  /** `Bytes`: a variable-length byte string. */
  type Bytes = seq<Byte>

  /** `Address` is a `Bytes` subclass in the library. */
  type Address = Bytes

  /** `BigInt`: an arbitrary-precision integer. */
  type BigInt = int

  /** The signed 32-bit integers that `i32` holds. */
  newtype I32 = x: int | -0x8000_0000 <= x < 0x8000_0000

  /** The library conversions the emitter calls, left uninterpreted:
      - `hexBytes(n)` is `Bytes.fromHexString(n.toHexString())`;
      - `fromUTF8(s)` is `Bytes.fromUTF8(s)`;
      - `fromI32(x)` is `Bytes.fromI32(x)`;
      - `toHex(b)` is `b.toHex()`;
      - `toI32(n)` is the narrowing `n.toI32()`. */
  datatype Library = Library(
    hexBytes: BigInt -> Bytes,
    fromUTF8: string -> Bytes,
    fromI32: I32 -> Bytes,
    toHex: Bytes -> string,
    toI32: BigInt -> I32)

  /** `b.concatI32(x)`: the bytes of `b` followed by the library's encoding of `x`. */
  function ConcatI32(lib: Library, b: Bytes, x: I32): (r: Bytes)
    ensures |b| <= |r| && r[..|b|] == b
  {
    b + lib.fromI32(x)
  }
}
