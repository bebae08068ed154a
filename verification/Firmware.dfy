/**
  The GPMU firmware containers: length-prefixed blocks with a header of id/value
  pairs, and the opcode stream of a register sequence.
 */
module Firmware {
  import opened Words

  const GPMU_FIRMWARE_ID: u32 := 2
  const GPMU_SEQUENCE_ID: u32 := 3
  const GPMU_INST_RAM_SIZE: u32 := 0xFFF
  const HEADER_MAJOR: u32 := 1
  const HEADER_SEQUENCE: u32 := 5
  const MAX_HEADER_SIZE: u32 := 10
  const LM_SEQUENCE_ID: u32 := 1
  const MAX_SEQUENCE_ID: u32 := 3

  // ----------------------------------------------------------- block headers

  // A field that names an older major version than the driver needs; 0 is no version.
  predicate Outdated(data: seq<u32>, at: nat, major: u32)
    requires at + 1 < |data|
  {
    data[at] == HEADER_MAJOR && major > data[at + 1] && data[at + 1] != 0
  }

  predicate HeaderSized(data: seq<u32>, at: nat, remain: u32)
    requires at < |data|
  {
    data[at] <= MAX_HEADER_SIZE && data[at] < remain && data[at] % 2 == 0 && data[at] != 0
  }

  // A header the driver takes: `remain` dwords of its block start at `at`.
  predicate HeaderOk(data: seq<u32>, at: nat, remain: u32, id: u32, major: u32)
    requires 1 <= remain ==> at + remain <= |data|
    requires at < |data|
  {
    && HeaderSized(data, at, remain)
    && (id == GPMU_SEQUENCE_ID ==> data[at + 1] == HEADER_SEQUENCE && data[at + 2] < MAX_SEQUENCE_ID)
    && forall i :: 0 <= i < data[at] / 2 && (id == GPMU_SEQUENCE_ID ==> i != 0)
        ==> !Outdated(data, at + 1 + 2 * i, major)
  }

  /** _read_fw2_block_header(); true is success. */
  method ReadBlockHeader(data: seq<u32>, at: nat, remain: u32, id: u32, major: u32) returns (ok: bool)
    requires 1 <= remain ==> at + remain <= |data|
    requires at < |data|
    ensures ok == HeaderOk(data, at, remain, id, major)
  {
    var i: nat := 1;
    var headerSize := data[at];
    if headerSize > MAX_HEADER_SIZE || headerSize >= remain || headerSize % 2 != 0 || headerSize == 0 {
      return false;
    }
    if id == GPMU_SEQUENCE_ID {
      if data[at + i] != HEADER_SEQUENCE || data[at + i + 1] >= MAX_SEQUENCE_ID {
        return false;
      }
      i := i + 2;
    }
    ghost var first := i / 2;
    while i < headerSize
      invariant i % 2 == 1 && 1 <= i <= headerSize + 1 && first <= i / 2
      invariant forall k :: first <= k < i / 2 ==> !Outdated(data, at + 1 + 2 * k, major)
    {
      assert i == 1 + 2 * (i / 2);
      if data[at + i] == HEADER_MAJOR {
        if major > data[at + i + 1] && data[at + i + 1] != 0 {
          assert Outdated(data, at + 1 + 2 * (i / 2), major);
          return false;
        }
      }
      i := i + 2;
    }
    ok := true;
  }

  // A header is its size and that many words in pairs.
  function PairKey(data: seq<u32>, at: nat, k: nat): u32
    requires at + 2 * k + 1 < |data|
  {
    data[at + 2 * k + 1]
  }

  function PairValue(data: seq<u32>, at: nat, k: nat): u32
    requires at + 2 * k + 2 < |data|
  {
    data[at + 2 * k + 2]
  }

  /**
    In terms of its pairs: a header has one to five of them, all inside the block, the first of a sequence's header
    names
    one of three sequences, and no other pair may name a major version that is not 0 and older than the driver's.
   */
  lemma HeaderTerms(data: seq<u32>, at: nat, remain: u32, id: u32, major: u32)
    requires at < |data| && (1 <= remain ==> at + remain <= |data|)
    ensures var n, first := data[at] / 2, if id == 3 then 1 else 0;
      HeaderOk(data, at, remain, id, major) <==>
        && data[at] == 2 * n && 1 <= n <= 5 && 2 * n < remain
        && (id == 3 ==> PairKey(data, at, 0) == 5 && PairValue(data, at, 0) < 3)
        && forall k | first <= k < n ::
             PairKey(data, at, k) == 1 ==> PairValue(data, at, k) == 0 || PairValue(data, at, k) >= major
  {
    var n := data[at] / 2;
    if HeaderSized(data, at, remain) {
      forall k | 0 <= k < n
        ensures Outdated(data, at + 1 + 2 * k, major)
            <==> PairKey(data, at, k) == 1 && !(PairValue(data, at, k) == 0 || PairValue(data, at, k) >= major)
      {
      }
      var first := if id == 3 then 1 else 0;
      if forall k | first <= k < n ::
        PairKey(data, at, k) == 1 ==> PairValue(data, at, k) == 0 || PairValue(data, at, k) >= major {
        forall i | 0 <= i < data[at] / 2 && (id == GPMU_SEQUENCE_ID ==> i != 0)
          ensures !Outdated(data, at + 1 + 2 * i, major)
        {
          assert PairKey(data, at, i) == data[at + 2 * i + 1];
        }
      } else {
        var k :| first <= k < n && PairKey(data, at, k) == 1 && PairValue(data, at, k) != 0
            && PairValue(data, at, k) < major;
        assert Outdated(data, at + 1 + 2 * k, major);
      }
    }
  }

  /** What a driver takes, a driver that asks for an older version takes too. */
  lemma NewerTaken(data: seq<u32>, at: nat, remain: u32, id: u32, major: u32, older: u32)
    requires at < |data| && (1 <= remain ==> at + remain <= |data|)
    requires HeaderOk(data, at, remain, id, major) && older <= major
    ensures HeaderOk(data, at, remain, id, older)
  {
    hide Outdated;
    forall i | 0 <= i < data[at] / 2 && (id == GPMU_SEQUENCE_ID ==> i != 0)
      ensures !Outdated(data, at + 1 + 2 * i, older)
    {
      OutdatedLess(data, at + 1 + 2 * i, major, older);
    }
  }

  lemma OutdatedLess(data: seq<u32>, at: nat, major: u32, older: u32)
    requires at + 1 < |data| && older <= major
    ensures Outdated(data, at, older) ==> Outdated(data, at, major)
  {
  }

  // ------------------------------------------------------ the GPMU microcode

  /** A run of dwords inside a file. */
  datatype Slice = Slice(start: nat, count: u32) {
    predicate Within(data: seq<u32>) {
      start + count <= |data|
    }
  }

  /** What became of a microcode file: its code, an error, or a refusal the caller takes for success. */
  datatype Microcode = Code(slice: Slice) | Invalid | Ignored

  function LoadMicrocode(data: seq<u32>, major: u32): Microcode
    requires 1 <= |data| < TWO_32
  {
    if data[0] >= |data| || data[0] < 2 || data[1] != GPMU_FIRMWARE_ID then Ignored
    else if !HeaderOk(data, 2, data[0] - 2, GPMU_FIRMWARE_ID, major) then Invalid
    else if data[0] - data[2] - 2 > GPMU_INST_RAM_SIZE then Ignored
    else Code(Slice(data[2] + 3, data[0] - data[2] - 2))
  }

  /** _load_gpmu_firmware() up to the commands it builds from the slice. */
  method LoadGpmuFirmware(data: seq<u32>, major: u32) returns (microcode: Microcode)
    requires 1 <= |data| < TWO_32
    ensures microcode == LoadMicrocode(data, major)
  {
    if data[0] >= |data| || data[0] < 2 {
      return Ignored;
    }
    if data[1] != GPMU_FIRMWARE_ID {
      return Ignored;
    }
    var ok := ReadBlockHeader(data, 2, data[0] - 2, GPMU_FIRMWARE_ID, major);
    if !ok {
      return Invalid;
    }
    if data[2] > data[0] - 2 {
      return Ignored;
    }
    var slice := Slice(data[2] + 3, data[0] - data[2] - 2);
    if slice.count > GPMU_INST_RAM_SIZE {
      return Ignored;
    }
    microcode := Code(slice);
  }

  /**
    The microcode of an accepted file is the whole of its block behind the header: inside the file, never empty, and it
    fits the RAM.
   */
  lemma MicrocodeExact(data: seq<u32>, major: u32)
    requires 1 <= |data| < TWO_32 && LoadMicrocode(data, major).Code?
    ensures var s := LoadMicrocode(data, major).slice;
            && s.Within(data) && 1 <= s.count <= GPMU_INST_RAM_SIZE
            && s.start == 2 + 1 + data[2] && s.start + s.count == data[0] + 1
  {
  }

  // The file starts with a complete block of microcode.
  predicate Framed(data: seq<u32>)
    requires |data| >= 1
  {
    2 <= data[0] < |data| && data[1] == GPMU_FIRMWARE_ID
  }

  predicate HeaderGood(data: seq<u32>, major: u32)
    requires |data| >= 1 && Framed(data)
  {
    HeaderOk(data, 2, data[0] - 2, GPMU_FIRMWARE_ID, major)
  }

  /**
    The return value is no sign of what was loaded: a file is taken exactly if it is framed, its header good and
    its code no larger than the RAM; one that is not reports success exactly if it is unframed or its header is good.
   */
  lemma RejectedAsSuccess(data: seq<u32>, major: u32)
    requires 1 <= |data| < TWO_32
    ensures var m := LoadMicrocode(data, major);
            && (m.Code? <==> Framed(data) && HeaderGood(data, major) && data[0] - data[2] - 2 <= GPMU_INST_RAM_SIZE)
            && (!m.Code? ==> (LoadStatus(m) == 0 <==> !Framed(data) || HeaderGood(data, major)))
            && LoadStatus(m) in {0, -22}
  {
  }

  /** Two dwords of code behind a header with a version: taken by a driver of that version, refused by a newer one. */
  lemma SmallFirmware(code: u32, more: u32)
    ensures LoadMicrocode([6, 2, 2, 1, 5, code, more], 5) == Code(Slice(5, 2))
    ensures LoadMicrocode([6, 2, 2, 1, 5, code, more], 6) == Invalid
    ensures LoadMicrocode([6, 3, 2, 1, 5, code, more], 5) == LoadMicrocode([7, 2, 2, 1, 5, code, more], 5) == Ignored
  {
    assert Outdated([6, 2, 2, 1, 5, code, more], 2 + 1 + 2 * 0, 6);
  }

  /** The RAM takes 4095 dwords. */
  lemma RamSize(data: seq<u32>, major: u32)
    requires 1 <= |data| < TWO_32 && Framed(data) && HeaderGood(data, major)
    ensures LoadMicrocode(data, major).Code? <==> data[0] - data[2] <= 2 + 4095
  {
  }

  const EINVAL: int := 22

  function LoadStatus(m: Microcode): int {
    if m.Invalid? then -EINVAL else 0
  }

  /** A file of each kind: a block of no size, one longer than the file, and a sound one too long for the RAM. */
  lemma RejectedFiles(major: u32)
    ensures forall data: seq<u32> | data in [[0], [9], [0x1004, 2, 2, 3, 0] + seq(0x1000, i => 0)] ::
      1 <= |data| < TWO_32 && !LoadMicrocode(data, major).Code? && LoadStatus(LoadMicrocode(data, major)) == 0
  {
    var long: seq<u32> := [0x1004, 2, 2, 3, 0] + seq(0x1000, i => 0);
    assert long[..5] == [0x1004, 2, 2, 3, 0];
    assert long[0] == 0x1004 && long[1] == 2 && long[2] == 2 && long[3] == 3 && long[4] == 0;
    RejectedAsSuccess(long, major);
  }

  // ------------------------------------------------------ the register file

  // A block at `at` that the walk steps over.
  predicate BlockOk(data: seq<u32>, at: nat, major: u32)
    requires at < |data| < TWO_32
  {
    && at + data[at] < |data| && data[at] >= 5 && data[at + 1] == GPMU_SEQUENCE_ID
    && (data[at + 4] == LM_SEQUENCE_ID ==> HeaderOk(data, at + 2, data[at] - 2, GPMU_SEQUENCE_ID, major))
  }

  function BlockSlice(data: seq<u32>, at: nat): Slice
    requires at + 2 < |data| && data[at + 2] as int + 2 <= data[at] as int
  {
    Slice(at + data[at + 2] + 3, data[at] - data[at + 2] - 2)
  }

  // The walk from `at` on: whether it reaches the end, and the last LM sequence on its way.
  function Walk(data: seq<u32>, at: nat, major: u32, lm: Option<Slice>): (bool, Option<Slice>)
    requires at <= |data| < TWO_32
    decreases |data| - at
  {
    if at == |data| then (true, lm)
    else if !BlockOk(data, at, major) then (false, lm)
    else Walk(data, at + data[at] + 1, major, if data[at + 4] == LM_SEQUENCE_ID then Some(BlockSlice(data, at)) else lm)
  }

  /** _load_regfile() on a file's dwords: whether the file is kept, and the sequence that is saved. */
  method LoadRegfile(data: seq<u32>, major: u32, saved: Option<Slice>) returns (kept: bool, lm: Option<Slice>)
    requires |data| < TWO_32
    ensures |data| < 6 ==> !kept && lm == saved
    ensures |data| >= 6 ==>
      var (ended, last) := Walk(data, 0, major, saved); lm == last && (kept <==> ended && last.Some?)
  {
    lm := saved;
    if |data| < 6 {
      return false, lm;
    }
    var total: nat := 0;
    while total < |data|
      invariant total <= |data|
      invariant Walk(data, 0, major, saved) == Walk(data, total, major, lm)
    {
      var size := data[total];
      if total + size >= |data| || size < 5 {
        return false, lm;
      }
      if data[total + 1] != GPMU_SEQUENCE_ID {
        return false, lm;
      }
      if data[total + 4] == LM_SEQUENCE_ID {
        var ok := ReadBlockHeader(data, total + 2, size - 2, GPMU_SEQUENCE_ID, major);
        if !ok {
          return false, lm;
        }
        if data[total + 2] > size - 2 {
          return false, lm;
        }
        lm := Some(Slice(total + data[total + 2] + 3, size - data[total + 2] - 2));
      }
      total := total + size + 1;
    }
    kept := lm.Some?;
  }

  // Where blocks start, if the file from `at` to `end` is nothing but well-formed blocks.
  ghost predicate Partition(data: seq<u32>, at: nat, starts: seq<nat>, end: nat, major: u32)
    requires at <= |data| < TWO_32
    decreases |starts|
  {
    if |starts| == 0 then at == end
    else
      && starts[0] == at < |data| && BlockOk(data, at, major)
      && Partition(data, at + data[at] + 1, starts[1..], end, major)
  }

  // The walk gets to `end`: to the end of the file, or to a block it does not take.
  ghost predicate StopsAt(data: seq<u32>, end: nat, major: u32)
    requires |data| < TWO_32
  {
    end == |data| || (end < |data| && !BlockOk(data, end, major))
  }

  // The last LM block among `starts`, and its slice.
  ghost predicate LastLm(data: seq<u32>, starts: seq<nat>, i: nat) {
    && i < |starts|
    && (forall k :: 0 <= k < |starts| ==> starts[k] + 4 < |data|)
    && data[starts[i] + 4] == LM_SEQUENCE_ID
    && forall k :: i < k < |starts| ==> data[starts[k] + 4] != LM_SEQUENCE_ID
  }

  lemma {:induction false} PartitionBlocks(data: seq<u32>, at: nat, starts: seq<nat>, end: nat, major: u32)
    requires at <= |data| < TWO_32 && Partition(data, at, starts, end, major)
    ensures forall k :: 0 <= k < |starts| ==> starts[k] + 4 < |data| && BlockOk(data, starts[k], major)
    decreases |starts|
  {
    hide HeaderOk;
    if |starts| != 0 {
      PartitionBlocks(data, at + data[at] + 1, starts[1..], end, major);
      forall k | 0 <= k < |starts| ensures starts[k] + 4 < |data| && BlockOk(data, starts[k], major) {
        if k != 0 {
          assert starts[k] == starts[1..][k - 1];
        }
      }
    }
  }

  lemma {:induction false} PartitionWalks(data: seq<u32>, at: nat, starts: seq<nat>, end: nat, major: u32,
      lm: Option<Slice>)
    requires at <= |data| < TWO_32 && Partition(data, at, starts, end, major) && StopsAt(data, end, major)
    ensures Walk(data, at, major, lm) == (end == |data|, LastSlice(data, starts, lm))
    decreases |starts|
  {
    hide HeaderOk;
    if |starts| != 0 {
      BlockSaves(data, at, major);
      PartitionWalks(data, at + data[at] + 1, starts[1..], end, major,
                     if data[at + 4] == LM_SEQUENCE_ID then Some(BlockSlice(data, at)) else lm);
    }
  }

  predicate SavesFrom(data: seq<u32>, at: nat) {
    at + 4 < |data| && (data[at + 4] == LM_SEQUENCE_ID ==> data[at + 2] as int + 2 <= data[at] as int)
  }

  function LastSlice(data: seq<u32>, starts: seq<nat>, lm: Option<Slice>): Option<Slice>
    decreases |starts|
  {
    if |starts| == 0 then lm
    else
      var at := starts[0];
      LastSlice(data, starts[1..],
                if SavesFrom(data, at) && data[at + 4] == LM_SEQUENCE_ID then Some(BlockSlice(data, at)) else lm)
  }

  lemma {:induction false} LastSliceIs(data: seq<u32>, starts: seq<nat>, lm: Option<Slice>, i: nat)
    requires forall k :: 0 <= k < |starts| ==> starts[k] + 4 < |data| && SavesFrom(data, starts[k])
    requires i <= |starts| && forall k :: i < k < |starts| ==> data[starts[k] + 4] != LM_SEQUENCE_ID
    ensures i < |starts| && data[starts[i] + 4] == LM_SEQUENCE_ID ==>
      data[starts[i] + 2] as int + 2 <= data[starts[i]] as int
          && LastSlice(data, starts, lm) == Some(BlockSlice(data, starts[i]))
    ensures (forall k :: 0 <= k < |starts| ==> data[starts[k] + 4] != LM_SEQUENCE_ID)
        ==> LastSlice(data, starts, lm) == lm
    decreases |starts|
  {
    hide BlockSlice;
    if i < |starts| {
      assert SavesFrom(data, starts[i]);
    }
    if |starts| != 0 {
      var at, rest := starts[0], starts[1..];
      assert SavesFrom(data, at);
      var next := if data[at + 4] == LM_SEQUENCE_ID then Some(BlockSlice(data, at)) else lm;
      assert forall k :: 0 <= k < |rest| ==> rest[k] == starts[k + 1];
      LastSliceIs(data, rest, next, if i == 0 then 0 else i - 1);
    }
  }

  lemma {:induction false} WalkPartitions(data: seq<u32>, at: nat, major: u32) returns (starts: seq<nat>, end: nat)
    requires at <= |data| < TWO_32
    ensures Partition(data, at, starts, end, major) && StopsAt(data, end, major)
    decreases |data| - at
  {
    hide HeaderOk;
    if at == |data| || !BlockOk(data, at, major) {
      starts, end := [], at;
    } else {
      var rest;
      rest, end := WalkPartitions(data, at + data[at] + 1, major);
      starts := [at] + rest;
      assert starts[1..] == rest;
    }
  }

  lemma {:induction false} FindLastLm(data: seq<u32>, starts: seq<nat>, n: nat) returns (i: nat)
    requires n <= |starts| && forall k :: 0 <= k < |starts| ==> starts[k] + 4 < |data|
    requires forall k :: n <= k < |starts| ==> data[starts[k] + 4] != LM_SEQUENCE_ID
    ensures LastLm(data, starts, i)
        || (i == |starts| && forall k :: 0 <= k < |starts| ==> data[starts[k] + 4] != LM_SEQUENCE_ID)
  {
    if n == 0 {
      i := |starts|;
    } else if data[starts[n - 1] + 4] == LM_SEQUENCE_ID {
      i := n - 1;
    } else {
      i := FindLastLm(data, starts, n - 1);
    }
  }

  // Up to `end` the file is well-formed blocks, the last LM block among them at `at`.
  ghost predicate LmBlock(data: seq<u32>, at: nat, end: nat, major: u32)
    requires |data| < TWO_32
  {
    exists starts, i :: Partition(data, 0, starts, end, major) && LastLm(data, starts, i) && starts[i] == at
  }

  /**
    A register file is kept exactly if its dwords are a sequence of well-formed blocks with an LM
    block among them; what is saved is then the last LM block behind its header, inside the file and not empty.
   */
  lemma RegfileExact(data: seq<u32>, major: u32)
    requires |data| < TWO_32
    ensures var (ended, lm) := Walk(data, 0, major, None);
            && (ended && lm.Some? <==> exists at :: LmBlock(data, at, |data|, major))
            && (ended && lm.Some? ==> exists at :: LmBlock(data, at, |data|, major) && SavedFrom(data, at, lm.value))
  {
    var end := WalkSaves(data, major);
    hide Walk, LmBlock, SavedFrom, BlockOk;
    if at :| LmBlock(data, at, |data|, major) {
      LmBlockWalks(data, at, |data|, major);
    }
  }

  /**
    A refused file leaves a saved sequence behind exactly if an LM block stands among the well-formed blocks in front
    of the first one that is not; it is then a part of that file, which has been released.
   */
  lemma RefusedKeepsSequence(data: seq<u32>, major: u32)
    requires |data| < TWO_32
    ensures var (ended, lm) := Walk(data, 0, major, None);
            && (!ended && lm.Some? <==>
                  exists at: nat, end: nat :: end < |data| && !BlockOk(data, end, major)
                      && LmBlock(data, at, end, major))
            && (!ended && lm.Some? ==>
                  exists at: nat, end: nat :: end < |data| && !BlockOk(data, end, major)
                      && LmBlock(data, at, end, major)
                                    && SavedFrom(data, at, lm.value))
  {
    var end := WalkSaves(data, major);
    hide Walk, LmBlock, SavedFrom, BlockOk;
    if at: nat, bad: nat :| bad < |data| && !BlockOk(data, bad, major) && LmBlock(data, at, bad, major) {
      LmBlockWalks(data, at, bad, major);
    }
  }

  // What the walk saves, wherever it stops.
  lemma WalkSaves(data: seq<u32>, major: u32) returns (end: nat)
    requires |data| < TWO_32
    ensures var (ended, lm) := Walk(data, 0, major, None);
            && StopsAt(data, end, major) && (ended <==> end == |data|)
            && (lm.Some? ==> exists at :: LmBlock(data, at, end, major) && SavedFrom(data, at, lm.value))
  {
    hide BlockOk, Walk, Partition, LastSlice;
    var starts;
    starts, end := WalkPartitions(data, 0, major);
    var i := LastOf(data, starts, end, major);
    var lm := Walk(data, 0, major, None).1;
    if lm.Some? {
      SavedSlice(data, starts[i], major);
      assert LmBlock(data, starts[i], end, major) && SavedFrom(data, starts[i], lm.value);
    }
  }

  lemma LmBlockWalks(data: seq<u32>, at: nat, end: nat, major: u32)
    requires |data| < TWO_32 && LmBlock(data, at, end, major) && StopsAt(data, end, major)
    ensures var (ended, lm) := Walk(data, 0, major, None); (ended <==> end == |data|) && lm.Some?
  {
    hide BlockOk, Walk, Partition, LastSlice;
    var starts, i :| Partition(data, 0, starts, end, major) && LastLm(data, starts, i) && starts[i] == at;
    var _ := LastOf(data, starts, end, major);
  }

  lemma LastOf(data: seq<u32>, starts: seq<nat>, end: nat, major: u32) returns (i: nat)
    requires |data| < TWO_32 && Partition(data, 0, starts, end, major) && StopsAt(data, end, major)
    ensures forall k :: 0 <= k < |starts| ==> starts[k] + 4 < |data| && BlockOk(data, starts[k], major)
    ensures var (ended, lm) := Walk(data, 0, major, None);
            && (ended <==> end == |data|)
            && (lm.Some? <==> i < |starts|) && (lm.Some? <==> exists k :: LastLm(data, starts, k))
            && (lm.Some? ==>
                  LastLm(data, starts, i) && SavesFrom(data, starts[i]) && lm == Some(BlockSlice(data, starts[i])))
  {
    PartitionBlocks(data, 0, starts, end, major);
    forall k | 0 <= k < |starts| ensures SavesFrom(data, starts[k]) {
      BlockSaves(data, starts[k], major);
    }
    hide BlockOk, Walk, Partition, LastSlice, SavesFrom, StopsAt;
    PartitionWalks(data, 0, starts, end, major, None);
    i := FindLastLm(data, starts, |starts|);
    LastSliceIs(data, starts, None, i);
  }

  /** An LM block and then one dword too many: refused, with a saved sequence. */
  lemma RefusedWithSequence()
    ensures var (ended, lm) := Walk([5, 3, 2, 5, 1, 0, 0], 0, 1, None); !ended && lm == Some(Slice(5, 1))
  {
  }

  /**
    The smallest register file, one LM block with one dword of code, and what a change of one dword does to it: the next
    sequence is stepped over, another kind of block, a block too small or one too long for the file is refused.
   */
  lemma SmallRegfiles(code: u32)
    ensures Walk([5, 3, 2, 5, 1, code], 0, 1, None) == (true, Some(Slice(5, 1)))
    ensures Walk([5, 3, 2, 5, 2, code], 0, 1, None) == (true, None)
    ensures Walk([5, 2, 2, 5, 1, code], 0, 1, None) == Walk([4, 3, 2, 5, 1, code], 0, 1, None)
         == Walk([6, 3, 2, 5, 1, code], 0, 1, None) == Walk([5, 3, 2, 4, 1, code], 0, 1, None)
         == Walk([5, 3, 4, 5, 1, code], 0, 1, None) == (false, None)
  {
  }

  lemma BlockSaves(data: seq<u32>, at: nat, major: u32)
    requires at < |data| < TWO_32 && BlockOk(data, at, major)
    ensures SavesFrom(data, at)
  {
  }

  // `s` is the block at `at` from behind its header to its end.
  ghost predicate SavedFrom(data: seq<u32>, at: nat, s: Slice) {
    && at + 2 < |data| && s.Within(data) && s.count >= 1
    && s.start == at + 2 + 1 + data[at + 2] && s.start + s.count == at + data[at] + 1
  }

  lemma SavedSlice(data: seq<u32>, at: nat, major: u32)
    requires at + 4 < |data| < TWO_32 && BlockOk(data, at, major) && data[at + 4] == LM_SEQUENCE_ID
    ensures data[at + 2] as int + 2 <= data[at] as int && SavedFrom(data, at, BlockSlice(data, at))
  {
  }

  // --------------------------------------------------- the register sequence

  /** An instruction of a register sequence. */
  datatype Instruction = Write32(reg: u64, value: u32) | Write64(reg: u64, wide: u64) | Delay(usec: u32)

  /** What executing one does: registers and values are cut to 32 bits. */
  datatype Act = RegWrite(reg: u32, value: u32) | Wait(usec: u32)

  function Perform(i: Instruction): Act {
    match i
    case Write32(reg, value) => RegWrite(Lo(reg), value)
    case Write64(reg, wide) => RegWrite(Lo(reg), Lo(wide))
    case Delay(usec) => Wait(usec)
  }

  function EncodeInstruction(i: Instruction): seq<u32> {
    match i
    case Write32(reg, value) => [1, Lo(reg), Hi(reg), value]
    case Write64(reg, wide) => [2, Lo(reg), Hi(reg), Lo(wide), Hi(wide)]
    case Delay(usec) => [3, usec]
  }

  function EncodeSequence(prog: seq<Instruction>): seq<u32> {
    if |prog| == 0 then [] else EncodeInstruction(prog[0]) + EncodeSequence(prog[1..])
  }

  // The instruction at the front, if it is one of the three and complete.
  function First(ws: seq<u32>): Option<Instruction> {
    if |ws| >= 4 && ws[0] == 1 then Some(Write32(Join(ws[1], ws[2]), ws[3]))
    else if |ws| >= 5 && ws[0] == 2 then Some(Write64(Join(ws[1], ws[2]), Join(ws[3], ws[4])))
    else if |ws| >= 2 && ws[0] == 3 then Some(Delay(ws[1]))
    else None
  }

  lemma FirstEncodes(ws: seq<u32>)
    requires First(ws).Some?
    ensures var code := EncodeInstruction(First(ws).value); code <= ws && 2 <= |code|
  {
  }

  lemma EncodeFirst(i: Instruction, ws: seq<u32>)
    ensures First(EncodeInstruction(i) + ws) == Some(i)
  {
    match i
    case Write32(reg, value) => JoinSplit(reg);
    case Write64(reg, wide) =>
      JoinSplit(reg);
      JoinSplit(wide);
    case Delay(usec) =>
  }

  // The longest well-formed prefix.
  function Decode(ws: seq<u32>): seq<Instruction> {
    match First(ws)
    case None => []
    case Some(i) => FirstEncodes(ws); [i] + Decode(ws[|EncodeInstruction(i)|..])
  }

  function Performed(prog: seq<Instruction>): (acts: seq<Act>)
    ensures |acts| == |prog| && forall k | 0 <= k < |prog| :: acts[k] == Perform(prog[k])
  {
    seq(|prog|, k requires 0 <= k < |prog| => Perform(prog[k]))
  }

  /** What an instruction asks for, in the widths it is written in. */
  datatype Wish = WriteWish(reg: u64, value: u64) | WaitWish(usec: u32)

  function Wished(i: Instruction): Wish {
    match i
    case Write32(reg, value) => WriteWish(reg, value)
    case Write64(reg, wide) => WriteWish(reg, wide)
    case Delay(usec) => WaitWish(usec)
  }

  function Granted(act: Act): Wish {
    match act
    case RegWrite(reg, value) => WriteWish(reg, value)
    case Wait(usec) => WaitWish(usec)
  }

  // The words of the instruction that hold the upper halves are zero.
  predicate NoUpperHalf(i: Instruction) {
    match i
    case Write32(reg, _) => Hi(reg) == 0
    case Write64(reg, wide) => Hi(reg) == 0 && Hi(wide) == 0
    case Delay(_) => true
  }

  lemma GrantedExactly(i: Instruction)
    ensures Granted(Perform(i)) == Wished(i) <==> NoUpperHalf(i)
  {
    hide Lo, Hi;
    if i.Write32? || i.Write64? {
      LowHalf(i.reg);
    }
    if i.Write64? {
      LowHalf(i.wide);
    }
  }

  lemma LowHalf(x: u64)
    ensures Lo(x) == x <==> Hi(x) == 0
  {
  }

  /**
    Executing a sequence has the effect it is written for if and only if no register and no value of it has an upper
    half.
   */
  lemma FullEffect(prog: seq<Instruction>)
    ensures (forall k | 0 <= k < |prog| :: Granted(Performed(prog)[k]) == Wished(prog[k]))
       <==> (forall k | 0 <= k < |prog| :: NoUpperHalf(prog[k]))
  {
    hide Granted, Wished, NoUpperHalf, Perform;
    forall k | 0 <= k < |prog| ensures Granted(Performed(prog)[k]) == Wished(prog[k]) <==> NoUpperHalf(prog[k]) {
      GrantedExactly(prog[k]);
    }
  }

  /** A complete sequence that writes 0 where it asks for the value 2^32. */
  lemma UpperHalfLost()
    ensures var ws := [2, 0x10, 0, 0, 1];
            && EncodeSequence(Decode(ws)) == ws
            && Performed(Decode(ws)) == [RegWrite(0x10, 0)] && Wished(Decode(ws)[0]) == WriteWish(0x10, TWO_32)
  {
    var ws := [2, 0x10, 0, 0, 1];
    var i := Write64(0x10, TWO_32);
    assert First(ws) == Some(i) && EncodeInstruction(i) == ws && ws[5..] == [];
    assert Decode([]) == [] && Decode(ws) == [i] + [];
    assert EncodeSequence([i]) == ws + EncodeSequence([i][1..]);
  }

  lemma {:induction false} DecodeThen(prog: seq<Instruction>, ws: seq<u32>)
    ensures Decode(EncodeSequence(prog) + ws) == prog + Decode(ws)
  {
    hide First, EncodeInstruction;
    if |prog| == 0 {
      assert EncodeSequence(prog) + ws == ws;
    } else {
      var rest := EncodeSequence(prog[1..]) + ws;
      assert EncodeSequence(prog) + ws == EncodeInstruction(prog[0]) + rest;
      EncodeFirst(prog[0], rest);
      assert (EncodeInstruction(prog[0]) + rest)[|EncodeInstruction(prog[0])|..] == rest;
      DecodeThen(prog[1..], ws);
    }
  }

  /** The decoder takes back exactly what was encoded, and stops where no instruction starts. */
  lemma {:induction false} DecodePrefix(ws: seq<u32>)
    ensures var code := EncodeSequence(Decode(ws)); code <= ws && First(ws[|code|..]) == None
    decreases |ws|
  {
    hide First, EncodeInstruction;
    if First(ws).Some? {
      FirstEncodes(ws);
      var i := First(ws).value;
      var n := |EncodeInstruction(i)|;
      DecodePrefix(ws[n..]);
      var code := EncodeSequence(Decode(ws[n..]));
      assert Decode(ws)[0] == i && Decode(ws)[1..] == Decode(ws[n..]);
      assert EncodeSequence(Decode(ws)) == EncodeInstruction(i) + code;
      assert ws == EncodeInstruction(i) + ws[n..];
      assert ws[n + |code|..] == ws[n..][|code|..];
    }
  }

  /** No other instructions encode to the same words: a sequence means one thing. */
  lemma EncodingUnique(prog: seq<Instruction>, js: seq<Instruction>)
    requires EncodeSequence(prog) == EncodeSequence(js)
    ensures prog == js
  {
    DecodeThen(prog, []);
    DecodeThen(js, []);
    assert EncodeSequence(prog) + [] == EncodeSequence(js) + [];
    assert First([]) == None;
    assert prog + [] == prog && js + [] == js;
  }

  /** _execute_reg_sequence(): false is -EINVAL. */
  method ExecuteRegSequence(opcode: seq<u32>) returns (ok: bool, acts: seq<Act>)
    ensures acts == Performed(Decode(opcode))
    ensures ok <==> EncodeSequence(Decode(opcode)) == opcode
    ensures ok <==> exists prog :: EncodeSequence(prog) == opcode
  {
    hide First, Decode, EncodeSequence, EncodeInstruction, Perform;
    acts := [];
    var cur: nat := 0;
    ghost var done: seq<Instruction> := [];
    assert opcode[0..] == opcode && done + Decode(opcode) == Decode(opcode);
    while cur < |opcode|
      invariant cur <= |opcode|
      invariant Decode(opcode) == done + Decode(opcode[cur..])
      invariant EncodeSequence(Decode(opcode)) == opcode <==> EncodeSequence(Decode(opcode[cur..])) == opcode[cur..]
      invariant acts == Performed(done)
    {
      var ws := opcode[cur..];
      DecodeStep(ws);
      DecodePrefix(ws);
      var step: nat;
      var act;
      if opcode[cur] == 1 && |opcode| - cur >= 4 {
        act, step := RegWrite(opcode[cur + 1], opcode[cur + 3]), 4;
      } else if opcode[cur] == 2 && |opcode| - cur >= 5 {
        act, step := RegWrite(opcode[cur + 1], opcode[cur + 3]), 5;
      } else if opcode[cur] == 3 && |opcode| - cur >= 2 {
        act, step := Wait(opcode[cur + 1]), 2;
      } else {
        assert Performed(done + []) == Performed(done);
        Accepts(opcode);
        return false, acts;
      }
      assert opcode[cur + step..] == ws[step..];
      assert Steps(ws, step, act);
      NextDone(done, ws, step, act);
      done := done + [First(ws).value];
      acts := acts + [act];
      cur := cur + step;
    }
    DecodeStep([]);
    assert opcode[cur..] == [] && done + [] == done;
    Accepts(opcode);
    ok := true;
  }

  lemma NextDone(done: seq<Instruction>, ws: seq<u32>, n: nat, act: Act)
    requires n <= |ws| && Steps(ws, n, act)
    ensures First(ws).Some? && done + Decode(ws) == (done + [First(ws).value]) + Decode(ws[n..])
    ensures Performed(done + [First(ws).value]) == Performed(done) + [act]
  {
    hide First, Decode, EncodeSequence, EncodeInstruction, Perform, Performed;
    PerformedOn(done, First(ws).value);
    PutBehind(done, First(ws).value, Decode(ws[n..]));
  }

  lemma PerformedOn(prog: seq<Instruction>, i: Instruction)
    ensures Performed(prog + [i]) == Performed(prog) + [Perform(i)]
  {
    hide Perform;
  }

  lemma PutBehind(prog: seq<Instruction>, i: Instruction, rest: seq<Instruction>)
    ensures prog + ([i] + rest) == (prog + [i]) + rest
  {
  }

  // One step of the interpreter, in the decoder's terms.
  lemma DecodeStep(ws: seq<u32>)
    ensures |ws| == 0 ==> Decode(ws) == [] && EncodeSequence([]) == []
    ensures |ws| > 0 ==>
      if ws[0] == 1 && |ws| >= 4 then Steps(ws, 4, RegWrite(ws[1], ws[3]))
      else if ws[0] == 2 && |ws| >= 5 then Steps(ws, 5, RegWrite(ws[1], ws[3]))
      else if ws[0] == 3 && |ws| >= 2 then Steps(ws, 2, Wait(ws[1]))
      else Decode(ws) == [] && EncodeSequence(Decode(ws)) != ws
  {
    FirstActs(ws);
    hide First, EncodeInstruction, Perform;
    DecodeUnfold(ws);
  }

  lemma FirstActs(ws: seq<u32>)
    ensures |ws| == 0 ==> First(ws) == None
    ensures |ws| > 0 ==>
      if ws[0] == 1 && |ws| >= 4 then FirstIs(ws, 4, RegWrite(ws[1], ws[3]))
      else if ws[0] == 2 && |ws| >= 5 then FirstIs(ws, 5, RegWrite(ws[1], ws[3]))
      else if ws[0] == 3 && |ws| >= 2 then FirstIs(ws, 2, Wait(ws[1]))
      else First(ws) == None
  {
  }

  ghost predicate FirstIs(ws: seq<u32>, n: nat, act: Act) {
    First(ws).Some? && Perform(First(ws).value) == act && |EncodeInstruction(First(ws).value)| == n
  }

  lemma DecodeUnfold(ws: seq<u32>)
    ensures First(ws).None? ==> Decode(ws) == [] && EncodeSequence([]) == []
    ensures First(ws).Some? ==>
      var n := |EncodeInstruction(First(ws).value)|;
      && n <= |ws| && Decode(ws) == [First(ws).value] + Decode(ws[n..])
      && (EncodeSequence(Decode(ws)) == ws <==> EncodeSequence(Decode(ws[n..])) == ws[n..])
  {
    if First(ws).Some? {
      FirstEncodes(ws);
      var i := First(ws).value;
      var n := |EncodeInstruction(i)|;
      var rest := Decode(ws[n..]);
      assert Decode(ws) == [i] + rest;
      hide First, EncodeInstruction, Decode;
      EncodeCons(i, rest);
      assert ws == EncodeInstruction(i) + ws[n..];
      SamePrefix(EncodeInstruction(i), EncodeSequence(rest), ws[n..]);
    }
  }

  lemma EncodeCons(i: Instruction, rest: seq<Instruction>)
    ensures EncodeSequence([i] + rest) == EncodeInstruction(i) + EncodeSequence(rest)
  {
    hide EncodeInstruction;
    assert ([i] + rest)[1..] == rest;
  }

  lemma SamePrefix(xs: seq<u32>, ys: seq<u32>, zs: seq<u32>)
    ensures xs + ys == xs + zs <==> ys == zs
  {
    assert ys == (xs + ys)[|xs|..] && zs == (xs + zs)[|xs|..];
  }

  ghost predicate Steps(ws: seq<u32>, n: nat, act: Act)
    requires n <= |ws|
  {
    && First(ws).Some? && Perform(First(ws).value) == act
    && Decode(ws) == [First(ws).value] + Decode(ws[n..])
    && (EncodeSequence(Decode(ws)) == ws <==> EncodeSequence(Decode(ws[n..])) == ws[n..])
  }

  lemma Accepts(ws: seq<u32>)
    ensures EncodeSequence(Decode(ws)) == ws <==> exists prog :: EncodeSequence(prog) == ws
  {
    if prog :| EncodeSequence(prog) == ws {
      DecodeThen(prog, []);
      assert EncodeSequence(prog) + [] == ws && First([]) == None;
      assert prog + [] == prog;
    }
  }
}
