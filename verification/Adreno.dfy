/** Device-wide definitions shared by the A3xx and A5xx ringbuffer code. */
module Adreno {
  import opened Words

  const CMD_IDENTIFIER: u32 := 0x2EEDFACE
  const CMD_INTERNAL_IDENTIFIER: u32 := 0x2EEDD00D
  const CONTEXT_TO_MEM_IDENTIFIER: u32 := 0x2EADBEEF
  const START_IB_IDENTIFIER: u32 := 0x2EADEABE
  const END_IB_IDENTIFIER: u32 := 0x2ABEDEAD
  const CACHE_FLUSH_TS: u32 := 4
  const EVENT_INTERRUPT: u32 := 0x8000_0000
  const MEMSTORE_MAX: nat := 813
  const MEMSTORE_GLOBAL: nat := 0

  // Byte offsets inside a memstore slot and inside a ring's scratch shadow.
  const SOPTIMESTAMP: nat := 0
  const EOPTIMESTAMP: nat := 8
  const REF_WAIT_TS: nat := 24
  const CURRENT_CONTEXT: nat := 32
  const SHADOW_TTBR0: nat := 16

  /** Device-wide facts the streams depend on. */
  datatype Gpu = Gpu(memstore: u64, scratch: u64, preemption: bool, waitMemWrites: bool, wideCounter: bool,
                     defaultPagetable: Pagetable)

  datatype Pagetable = Pagetable(name: u32, ttbr0: u64)
  datatype Context = Context(id: u32, flags: u32, pagetable: Pagetable)

  /** What a stream needs to know of its ringbuffer. */
  datatype Ring = Ring(id: nat, record: u64)

  /** An indirect buffer of profiling commands; the address 0 means none. */
  datatype ProfileIb = ProfileIb(addr: u64, dwords: u32)

  const NoProfile := ProfileIb(0, 0)

  // What the ringbuffer operations return.
  datatype Status = Ok | NoEntry | Proto | NoSpace

  const NOTPROTECTED: u32 := 1

  predicate IsNotProtected(flags: u32) { flags % 2 == 1 }
  predicate IsWfi(flags: u32) { (flags / 2) % 2 == 1 }
  predicate IsSecure(flags: u32) { (flags / 8) % 2 == 1 }
  predicate IsSkip(flags: u32) { (flags / 16) % 2 == 1 }
  predicate IsUserProfile(flags: u32) { (flags / 32) % 2 == 1 }
  predicate IsKernelProfile(flags: u32) { (flags / 64) % 2 == 1 }
  predicate IsPreamble(flags: u32) { (flags / 128) % 2 == 1 }

  function MemstoreAddr(gpu: Gpu, slot: nat, field: nat): u64 {
    Add64(gpu.memstore, slot * 40 + field)
  }

  function RingMemstoreAddr(gpu: Gpu, rb: Ring, field: nat): u64 {
    MemstoreAddr(gpu, rb.id + MEMSTORE_MAX, field)
  }

  function ScratchTtbr0Addr(gpu: Gpu, ring: nat): u64 {
    Add64(gpu.scratch, ring * 32 + SHADOW_TTBR0)
  }

  // ---------------------------------------------------------- the IB list

  datatype IbNode = IbNode(addr: u64, size: u64, priv: u32, flags: u32)

  // MEMOBJ_SKIP, or a context-switch preamble in a submission without F_PREAMBLE.
  predicate IsSkipped(ib: IbNode, flags: u32) {
    (ib.priv / 2) % 2 == 1 || ((ib.flags / 2) % 2 == 1 && !IsPreamble(flags))
  }

  function ListedIbs(ibs: seq<IbNode>, flags: u32): seq<IbNode> {
    if IsSkip(flags) then [] else ibs
  }

  // ------------------------------------------------------- a context switch

  // Pagetables are compared by identity; a ring without an active context has none.
  predicate NeedsTable(gpu: Gpu, active: Option<Context>, ctx: Context) {
    (active.None? || active.value.pagetable != ctx.pagetable) && ctx.pagetable != gpu.defaultPagetable
  }
}
