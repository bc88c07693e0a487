/** Bytes, failure-compatible wrappers and the 16/32-bit unsigned encodings
    shared by the FDX frame builder, the Modbus client and the bridge. */
module Bytes {

  /** One octet of a datagram or of a struct-packed buffer. */
  type Byte = x: int | 0 <= x < 0x100

  datatype Option<+T> = None | Some(value: T)

  datatype Result<+T, +E> = Success(value: T) | Failure(error: E)

  /** The outcome of a call that returns nothing but may raise. */
  datatype Outcome<+E> = Pass | Fail(error: E)

  /** Byte order of a 16-bit word: the scripts pass the strings 'big' and 'little'. */
  datatype ByteOrder = Big | Little

  /** Every string other than 'big' selects little-endian, as the `== 'big'` tests do. */
  function ByteOrderOf(name: string): (order: ByteOrder)
    ensures order == Big <==> name == "big"
  {
    if name == "big" then Big else Little
  }

  predicate IsU16(x: int) { 0 <= x < 0x1_0000 }

  predicate IsU32(x: int) { 0 <= x < 0x1_0000_0000 }

  /** The unsigned value of the two bytes `b0 b1` read in `order` (struct's `H`). */
  function WordValue(b0: Byte, b1: Byte, order: ByteOrder): (x: int)
    ensures IsU16(x)
  {
    match order
    case Big => b0 * 0x100 + b1
    case Little => b1 * 0x100 + b0
  }

  /** `x.to_bytes(2, order)` / `struct.pack('>H' or '<H', x)` for a value that fits. */
  function Word(x: int, order: ByteOrder): (b: seq<Byte>)
    requires IsU16(x)
    ensures |b| == 2 && WordValue(b[0], b[1], order) == x
  {
    match order
    case Big => [x / 0x100, x % 0x100]
    case Little => [x % 0x100, x / 0x100]
  }

  /** Word and WordValue are inverse bijections between 0..0xFFFF and byte pairs. */
  lemma WordOfWordValue(b0: Byte, b1: Byte, order: ByteOrder)
    ensures Word(WordValue(b0, b1, order), order) == [b0, b1]
  {
    var x := WordValue(b0, b1, order);
    match order
    case Big =>
      assert x / 0x100 == b0 && x % 0x100 == b1;
    case Little =>
      assert x / 0x100 == b1 && x % 0x100 == b0;
  }

  /** The big-endian 16-bit field at offset `i` of a buffer. */
  function U16At(b: seq<Byte>, i: nat): int
    requires i + 1 < |b|
  {
    WordValue(b[i], b[i + 1], Big)
  }

  /** `x.to_bytes(4, 'big')` for a value that fits. */
  function BeU32(x: int): (b: seq<Byte>)
    requires IsU32(x)
    ensures |b| == 4
    ensures (b[0] as int) * 0x100_0000 + (b[1] as int) * 0x1_0000 + (b[2] as int) * 0x100 + b[3] == x
  {
    var hi := x / 0x1_0000;
    var lo := x % 0x1_0000;
    Word(hi, Big) + Word(lo, Big)
  }
}
