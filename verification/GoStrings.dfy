/** Go strings are byte sequences: `len` and slicing count bytes, not characters. */
module GoStrings {
  type Bytes = seq<bv8>

  datatype Option<+T> = None | Some(value: T)

  const SLASH: bv8 := 0x2F
  const DASH: Bytes := [0x2D]
  const DOT: Bytes := [0x2E]
  const DOTDOT: Bytes := [0x2E, 0x2E]

  /** The path segment the jailer puts between the chroot base and the VM id. */
  const FIRECRACKER: Bytes := [0x66, 0x69, 0x72, 0x65, 0x63, 0x72, 0x61, 0x63, 0x6B, 0x65, 0x72]

  /** A single ordinary path segment: what every VM id is taken to be. */
  predicate Ordinary(id: Bytes) {
    id != [] && id != DOT && id != DOTDOT && SLASH !in id
  }
}
