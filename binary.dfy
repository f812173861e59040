/**
 * Bytes and "binary strings": the JavaScript idiom of one character per
 * byte used to feed `btoa` and to read the output of `atob`.
 */
module Binary {

  newtype byte = x: int | 0 <= x < 256

  /** One character per byte, `String.fromCharCode(bytes[i])` for each `i`. */
  function BinaryString(bytes: seq<byte>): (s: string)
    ensures |s| == |bytes|
    ensures forall i :: 0 <= i < |bytes| ==> s[i] as int == bytes[i] as int
  {
    seq(|bytes|, i requires 0 <= i < |bytes| => (bytes[i] as int) as char)
  }

  /**
   * The byte a `Uint8Array` stores for `s.charCodeAt(i)`: the code taken
   * modulo 256 (every character `atob` produces is below 256 already).
   */
  function CodeUnitByte(c: char): (b: byte)
    ensures (c as int) < 256 ==> b as int == c as int
  {
    ((c as int) % 256) as byte
  }

  /** The bytes a `Uint8Array` holds after copying `charCodeAt` of each character. */
  function CharCodeBytes(s: string): (bytes: seq<byte>)
    ensures |bytes| == |s|
  {
    seq(|s|, i requires 0 <= i < |s| => CodeUnitByte(s[i]))
  }

  /** Reading a binary string back gives the bytes it was built from. */
  lemma CharCodesOfBinaryString(bytes: seq<byte>)
    ensures CharCodeBytes(BinaryString(bytes)) == bytes
  {
  }
}
