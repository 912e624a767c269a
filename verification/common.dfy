/** Option and Result, the two shapes Go expresses with a nil pointer and an `error` return. */
module Wrappers {

  /** A value that may be absent (a nil pointer in Go). */
  datatype Option<+T> = None | Some(value: T)

  /** A value or the error that replaced it (Go's `(value, err)` pair). */
  datatype Result<+T, +E> = Success(value: T) | Failure(error: E)
}

/** Go's `[]byte` and byte strings. */
module Bytes {

  type byte = x: int | 0 <= x < 256

  /** The byte of an ASCII character. */
  function Ascii(c: char): (b: byte)
    requires c as int < 128
    ensures b as char == c
  {
    c as int
  }

  /** The bytes of an ASCII string, as Go's `[]byte(s)` gives them. */
  function AsciiBytes(s: string): (b: seq<byte>)
    requires forall i :: 0 <= i < |s| ==> s[i] as int < 128
    ensures |b| == |s|
    ensures forall i :: 0 <= i < |s| ==> b[i] as char == s[i]
  {
    if s == [] then [] else [Ascii(s[0])] + AsciiBytes(s[1..])
  }
}
