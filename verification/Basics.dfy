/**
 Types and functions every module uses.
 */
module Basics {

  type Byte = n: nat | n < 256

  const U32_LIMIT: nat := 0x1_0000_0000

  type Word32 = n: nat | n < U32_LIMIT

  datatype Option<T> = None | Some(value: T)

  datatype Result<T, E> = Ok(value: T) | Err(error: E)

  /** Key epochs: zero is plaintext, and the rest are 15-bit numbers. */
  const PLAINTEXT: nat := 0
  const MAX_EPOCH: nat := 0x7FFF

  function Min(a: nat, b: nat): nat {
    if a < b then a else b
  }

  function Max(a: nat, b: nat): nat {
    if a < b then b else a
  }
}
