/** Shared types. */
module Common {
  datatype Option<+T> = None | Some(value: T)

  type Byte = b: int | 0 <= b < 256

  /** The index `k` places after `start` around a ring of `size` places. */
  function RingIndex(start: nat, k: nat, size: nat): (i: nat)
    requires start < size && k < size
    ensures i < size
  {
    if start + k < size then start + k else start + k - size
  }
}
