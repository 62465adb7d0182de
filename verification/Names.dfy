// The names of nodes and ports: two 64-bit integers, drawn at random.

module Names {
  type uint64 = x: int | 0 <= x < 0x1_0000_0000_0000_0000

  datatype Name = Name(v1: uint64, v2: uint64)

  /** The name a default-constructed node name or port name has; it stands for none. */
  const NONE: Name := Name(0, 0)
}
