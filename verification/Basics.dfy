// Machine types and the small result types every other module uses.
//
// A C++ char is a byte: here a Dafny char whose code is below 256, so that the
// string literals of the source can be written as they are.

module Basics {
  const INT64_MAX: int := 0x7FFF_FFFF_FFFF_FFFF
  const INT64_MIN: int := -0x8000_0000_0000_0000
  const TWO_63: int := 0x8000_0000_0000_0000
  const TWO_64: int := 0x1_0000_0000_0000_0000

  type int64 = x: int | -0x8000_0000_0000_0000 <= x < 0x8000_0000_0000_0000
  type uint64 = x: int | 0 <= x < 0x1_0000_0000_0000_0000

  type byte = c: char | c as int < 256
  type bytes = seq<byte>

  datatype Option<+T> = None | Some(value: T)

  // The exception classes the modelled code throws.
  datatype Exception =
    | InvalidArgument
    | OverflowError
    | UnderflowError
    | DomainError
    | OutOfRange
    | LogicError

  datatype Result<+T> = Ok(value: T) | Throw(error: Exception)

  // What a loop that returns at the first match finds: the first position whose
  // element passes the test, or the length.
  function FirstIndex<T>(s: seq<T>, test: T -> bool): (i: nat)
    ensures i <= |s|
    ensures i < |s| ==> test(s[i])
    ensures forall j :: 0 <= j < i ==> !test(s[j])
  {
    if s == [] || test(s[0]) then 0 else 1 + FirstIndex(s[1..], test)
  }

  // static_cast<int64_t>(uint64_t) and back: both wrap modulo 2^64.
  function ToSigned(x: uint64): (r: int64)
  {
    if x < TWO_63 then x else x - TWO_64
  }

  function ToUnsigned(x: int64): (r: uint64)
  {
    if x >= 0 then x else x + TWO_64
  }

  // static_cast<char>(x) for x already in the byte range.
  function Chr(x: int): (c: byte)
    requires 0 <= x < 256
    ensures c as int == x
  {
    x as char
  }
}
