/** The vocabulary shared by every part of the model. */
module Types {

  datatype Option<+T> = None | Some(value: T)

  type uint8 = x: int | 0 <= x < 0x100
  type uint16 = x: int | 0 <= x < 0x1_0000
  type uint32 = x: int | 0 <= x < 0x1_0000_0000
  type uint64 = x: int | 0 <= x < 0x1_0000_0000_0000_0000

  const MAX_UNITS: nat := 8
  const MAX_INFLIGHT: nat := 16
  const MAX_SG_ENTRIES: nat := 64

  /** The opaque pointer handed to AddBuf and returned by GetBuf: always the
      address of a request header.  Every slot of every unit has a header of its
      own; discovery allocates one for each call. */
  datatype Cookie = RequestBuffer(unit: nat, slot: nat) | DiscoveryBuffer(call: nat)

  /** A scatter-gather entry (struct vring_sg). */
  datatype Sg = Sg(addr: uint32, len: uint32)
}
