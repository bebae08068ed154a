/**
  The A5xx crash dumper: the script the driver builds for it, what the command
  processor does when it runs the script, and the readers of the data buffer.
 */
module CrashDump {
  import opened Words

  const BANKS: nat := 4
  const READ_SEL: u32 := 0xBC00
  const APERTURE: u32 := 0xA000

  /** A span of registers, both ends included. */
  datatype Span = Span(start: u32, end: u32) {
    // REG_PAIR_COUNT()
    function Count(): nat
      requires start <= end
    {
      end - start + 1
    }
  }

  datatype Block = Block(statetype: u32, sz: u32)
  datatype Bank = Bank(ahbaddr: u32, statetype: u32, size: u32)

  /** The tables a script is built from. */
  datatype Tables = Tables(main: seq<Span>, gpmu: seq<Span>, blocks: seq<Block>, banks: seq<Bank>)

  // `gpmu` is empty on a GPU without one. A count fits below the write bit, a register number above bit 44, a state
  // type in the selector.
  predicate Tabular(t: Tables) {
    GoodSpans(t.main) && GoodSpans(t.gpmu) && GoodBlocks(t.blocks) && GoodBanks(t.banks)
  }

  predicate GoodSpans(spans: seq<Span>) {
    forall s <- spans :: s.start <= s.end && s.end < 0x10_0000
  }

  predicate GoodBlocks(blocks: seq<Block>) {
    forall b <- blocks :: b.sz < 0x20_0000 && b.statetype < 0x100_0000
  }

  predicate GoodBanks(banks: seq<Bank>) {
    forall b <- banks :: b.size < 0x20_0000 && b.statetype < 0x100_0000
  }

  // ------------------------------------------------------------- the commands

  /** One entry of the script: write a value to a register, or read `count` dwords from one on into memory. */
  datatype Command = Select(reg: u32, value: u64) | Capture(dest: u64, reg: u32, count: u32)

  predicate Encodable(c: Command) {
    c.reg < 0x10_0000 && (c.Capture? ==> c.count < 0x20_0000)
  }

  function EncodeCommand(c: Command): seq<u64>
    requires Encodable(c)
  {
    match c
    case Select(reg, value) => [value, reg * 0x1000_0000_0000 + 0x20_0000 + 1]
    case Capture(dest, reg, count) => [dest, reg * 0x1000_0000_0000 + count]
  }

  function Encode(cs: seq<Command>): seq<u64>
    requires forall c <- cs :: Encodable(c)
  {
    if |cs| == 0 then [] else EncodeCommand(cs[0]) + Encode(cs[1..])
  }

  // A pair of qwords: what bit 21 of the second says it is.
  function ReadPair(first: u64, second: u64): Option<Command> {
    var reg, low := second / 0x1000_0000_0000, second % 0x1000_0000_0000;
    if (low / 0x20_0000) % 2 == 1 then Some(Select(reg, first))
    else if low < 0x20_0000 then Some(Capture(first, reg, low))
    else None
  }

  // The command processor reads pairs of qwords up to a pair of zeros.
  function Decode(ws: seq<u64>): Option<seq<Command>> {
    if |ws| < 2 then None
    else if ws[0] == 0 && ws[1] == 0 then Some([])
    else
      match Decode(ws[2..])
      case None => None
      case Some(rest) =>
        match ReadPair(ws[0], ws[1])
        case None => None
        case Some(c) => Some([c] + rest)
  }

  predicate Terminal(c: Command) {
    c.Capture? && c.dest == 0 && c.reg == 0 && c.count == 0
  }

  lemma {:induction false} DecodeEncode(cs: seq<Command>)
    requires forall c <- cs :: Encodable(c) && !Terminal(c)
    ensures Decode(Encode(cs) + [0, 0]) == Some(cs)
  {
    if |cs| == 0 {
      assert Encode(cs) + [0, 0] == [0, 0];
    } else {
      DecodeEncode(cs[1..]);
      var ws := Encode(cs) + [0, 0];
      assert Encodable(cs[0]) && !Terminal(cs[0]);
      assert |EncodeCommand(cs[0])| == 2;
      assert ws == EncodeCommand(cs[0]) + (Encode(cs[1..]) + [0, 0]);
      assert ws[2..] == Encode(cs[1..]) + [0, 0];
      hide Decode, EncodeCommand, Encodable, Terminal;
      DecodeFirst(cs[0], ws);
      assert [cs[0]] + cs[1..] == cs;
    }
  }

  lemma FieldsReadBack(c: Command)
    requires Encodable(c)
    ensures var w := EncodeCommand(c)[1];
            && w / 0x1000_0000_0000 == c.reg
            && (c.Select? ==> w % 0x1000_0000_0000 == 0x20_0001)
            && (c.Capture? ==> w % 0x1000_0000_0000 == c.count)
  {
  }

  lemma PairReadsBack(c: Command)
    requires Encodable(c)
    ensures |EncodeCommand(c)| == 2 && ReadPair(EncodeCommand(c)[0], EncodeCommand(c)[1]) == Some(c)
  {
    FieldsReadBack(c);
    assert EncodeCommand(c)[0] == if c.Select? then c.value else c.dest;
    hide EncodeCommand;
  }

  lemma ZeroPair(c: Command)
    requires Encodable(c) && EncodeCommand(c) == [0, 0]
    ensures Terminal(c)
  {
    hide EncodeCommand, ReadPair, Encodable;
    PairReadsBack(c);
    ReadNothing();
  }

  lemma ReadNothing()
    ensures ReadPair(0, 0) == Some(Capture(0, 0, 0))
  {
  }

  lemma DecodeFirst(c: Command, ws: seq<u64>)
    requires Encodable(c) && !Terminal(c) && |ws| >= 2 && ws[..2] == EncodeCommand(c)
    ensures Decode(ws) == match Decode(ws[2..]) case None => None case Some(rest) => Some([c] + rest)
  {
    hide EncodeCommand, ReadPair, Terminal, Encodable;
    PairReadsBack(c);
    assert ws[0] == ws[..2][0] && ws[1] == ws[..2][1];
    if ws[0] == 0 && ws[1] == 0 {
      assert EncodeCommand(c) == [0, 0];
      ZeroPair(c);
    }
  }

  // ------------------------------------------------------------- the layout

  /** A capture in the order the script makes them, with what is selected in front of it. */
  datatype Item = Item(select: Option<u64>, reg: u32, count: u32)

  predicate Valid(item: Item) {
    item.reg < 0x10_0000 && item.count < 0x20_0000
  }

  predicate AllValid(items: seq<Item>) {
    forall item <- items :: Valid(item)
  }

  function SpanItem(s: Span): Item
    requires s.start <= s.end && s.end < 0x10_0000
  {
    Item(None, s.start, s.Count())
  }

  function BlockItem(b: Block, j: nat): Item
    requires b.statetype < 0x100_0000 && j < BANKS
  {
    Item(Some(b.statetype * 0x100 + j), APERTURE, b.sz)
  }

  function BankItem(b: Bank): Item
    requires b.statetype < 0x100_0000
  {
    Item(Some(b.statetype * 0x100), APERTURE, b.size)
  }

  function SpanItems(spans: seq<Span>): (items: seq<Item>)
    requires GoodSpans(spans)
    ensures |items| == |spans| && forall i | 0 <= i < |spans| :: items[i] == SpanItem(spans[i])
  {
    seq(|spans|, i requires 0 <= i < |spans| => SpanItem(spans[i]))
  }

  function BlockItems(blocks: seq<Block>): (items: seq<Item>)
    requires GoodBlocks(blocks)
    ensures |items| == BANKS * |blocks|
    ensures forall i, j | 0 <= i < |blocks| && 0 <= j < BANKS :: items[BANKS * i + j] == BlockItem(blocks[i], j)
  {
    seq(BANKS * |blocks|, k requires 0 <= k < BANKS * |blocks| => BlockItem(blocks[k / BANKS], k % BANKS))
  }

  function BankItems(banks: seq<Bank>): (items: seq<Item>)
    requires GoodBanks(banks)
    ensures |items| == |banks| && forall i | 0 <= i < |banks| :: items[i] == BankItem(banks[i])
  {
    seq(|banks|, i requires 0 <= i < |banks| => BankItem(banks[i]))
  }

  function Items(t: Tables): (items: seq<Item>)
    requires Tabular(t)
    ensures AllValid(items)
  {
    SpanItems(t.main + t.gpmu) + BlockItems(t.blocks) + BankItems(t.banks)
  }

  // Dwords the captures of `items` take.
  function Total(items: seq<Item>): nat {
    if |items| == 0 then 0 else items[0].count + Total(items[1..])
  }

  lemma {:induction false} TotalConcat(xs: seq<Item>, ys: seq<Item>)
    ensures Total(xs + ys) == Total(xs) + Total(ys)
  {
    if |xs| == 0 {
      assert xs + ys == ys;
    } else {
      TotalConcat(xs[1..], ys);
      assert (xs + ys)[1..] == xs[1..] + ys;
    }
  }

  lemma TotalUpTo(items: seq<Item>, i: nat)
    requires i < |items|
    ensures Total(items[..i + 1]) == Total(items[..i]) + items[i].count && Total(items[..i + 1]) <= Total(items)
  {
    hide *;
    CutAt(items, i);
    OneItem(items[i]);
    TotalConcat(items[..i], [items[i]]);
    TotalConcat(items[..i + 1], items[i + 1..]);
  }

  lemma CutAt(items: seq<Item>, i: nat)
    requires i < |items|
    ensures items[..i] + [items[i]] == items[..i + 1] && items[..i + 1] + items[i + 1..] == items
  {
  }

  function Emit(item: Item, dest: u64): (cs: seq<Command>)
    requires Valid(item)
    ensures forall c <- cs :: Encodable(c)
  {
    (if item.select.Some? then [Select(READ_SEL, item.select.value)] else []) + [Capture(dest, item.reg, item.count)]
  }

  // The script for `items`, their data from `dest` on.
  function Script(items: seq<Item>, dest: nat): (cs: seq<Command>)
    requires AllValid(items)
    requires dest + 4 * Total(items) < TWO_64
    ensures forall c <- cs :: Encodable(c)
  {
    if |items| == 0 then []
    else Emit(items[0], dest) + Script(items[1..], dest + 4 * items[0].count)
  }

  function Qwords(item: Item): nat {
    if item.select.Some? then 4 else 2
  }

  function ScriptQwords(items: seq<Item>): nat {
    if |items| == 0 then 0 else Qwords(items[0]) + ScriptQwords(items[1..])
  }

  lemma {:induction false} EncodeConcat(xs: seq<Command>, ys: seq<Command>)
    requires (forall c <- xs :: Encodable(c)) && (forall c <- ys :: Encodable(c))
    ensures (forall c <- xs + ys :: Encodable(c)) && Encode(xs + ys) == Encode(xs) + Encode(ys)
  {
    hide Encodable, EncodeCommand;
    if |xs| == 0 {
      assert xs + ys == ys;
    } else {
      EncodeConcat(xs[1..], ys);
      assert (xs + ys)[1..] == xs[1..] + ys;
    }
  }

  lemma EmitSize(item: Item, dest: u64)
    requires Valid(item)
    ensures |Encode(Emit(item, dest))| == Qwords(item)
  {
    var cs := Emit(item, dest);
    assert cs == [cs[0]] + cs[1..];
    if item.select.Some? {
      assert cs[1..][0] == cs[1] && cs[1..][1..] == [];
      assert Encode(cs[1..]) == EncodeCommand(cs[1]) + Encode([]);
    } else {
      assert cs[1..] == [];
    }
  }

  lemma {:induction false} ScriptSize(items: seq<Item>, dest: nat)
    requires AllValid(items) && dest + 4 * Total(items) < TWO_64
    ensures |Encode(Script(items, dest))| == ScriptQwords(items)
    decreases |items|
  {
    hide Valid, Encodable, EncodeCommand, Emit, Encode;
    if |items| == 0 {
      NothingEncoded();
    } else {
      ScriptSize(items[1..], dest + 4 * items[0].count);
      EncodeConcat(Emit(items[0], dest), Script(items[1..], dest + 4 * items[0].count));
      EmitSize(items[0], dest);
    }
  }

  lemma NothingEncoded()
    ensures Encode([]) == []
  {
  }

  /**
    The qwords of an entry: a span's own two; for each of a shader block's four banks the selector and then the
    aperture; the same once for a bank.
   */
  lemma EntryWords(s: Span, b: Block, j: nat, k: Bank, dest: u64)
    requires s.start <= s.end < 0x10_0000 && b.sz < 0x20_0000 && b.statetype < 0x100_0000 && j < 4
    requires k.size < 0x20_0000 && k.statetype < 0x100_0000
    ensures Encode(Emit(SpanItem(s), dest)) == [dest, s.start * 0x1000_0000_0000 + (s.end - s.start + 1)]
    ensures Encode(Emit(BlockItem(b, j), dest)) ==
      [b.statetype * 0x100 + j, 0xBC00 * 0x1000_0000_0000 + 0x20_0001, dest, 0xA000 * 0x1000_0000_0000 + b.sz]
    ensures Encode(Emit(BankItem(k), dest)) ==
      [k.statetype * 0x100, 0xBC00 * 0x1000_0000_0000 + 0x20_0001, dest, 0xA000 * 0x1000_0000_0000 + k.size]
  {
    OneWords(Capture(dest, s.start, s.Count()));
    var p := Select(READ_SEL, b.statetype * 0x100 + j);
    var q := Select(READ_SEL, k.statetype * 0x100);
    TwoWords(p, Capture(dest, APERTURE, b.sz));
    TwoWords(q, Capture(dest, APERTURE, k.size));
    assert Emit(BlockItem(b, j), dest) == [p, Capture(dest, APERTURE, b.sz)];
    assert Emit(BankItem(k), dest) == [q, Capture(dest, APERTURE, k.size)];
  }

  lemma OneWords(c: Command)
    requires Encodable(c)
    ensures Encode([c]) == EncodeCommand(c)
  {
    hide EncodeCommand, Encodable;
    assert [c][1..] == [];
    NothingEncoded();
  }

  lemma TwoWords(c: Command, d: Command)
    requires Encodable(c) && Encodable(d)
    ensures Encode([c, d]) == EncodeCommand(c) + EncodeCommand(d)
  {
    hide EncodeCommand, Encodable;
    OneWords(d);
    assert [c, d][1..] == [d];
  }

  lemma ItemCount(t: Tables)
    requires Tabular(t)
    ensures |Items(t)| == |t.main| + |t.gpmu| + 4 * |t.blocks| + |t.banks|
  {
  }

  // ----------------------------------------------------------- running it

  // What a register reads as under a selector value.
  type Registers = (u64, int) -> u32

  function Read(read: Registers, select: u64, reg: int, count: nat): (data: seq<u32>)
    ensures |data| == count && forall i | 0 <= i < count :: data[i] == read(select, reg + i)
  {
    seq(count, i => read(select, reg + i))
  }

  // Dwords written to memory from `dest` on.
  function Overlay(mem: map<int, u32>, dest: int, data: seq<u32>): map<int, u32>
    decreases |data|
  {
    if |data| == 0 then mem else Overlay(mem[dest := data[0]], dest + 4, data[1..])
  }

  function Execute(cs: seq<Command>, read: Registers, select: u64, mem: map<int, u32>): map<int, u32>
    decreases |cs|
  {
    if |cs| == 0 then mem
    else
      match cs[0]
      case Select(reg, value) => Execute(cs[1..], read, if reg == READ_SEL then value else select, mem)
      case Capture(dest, reg, count) =>
          Execute(cs[1..], read, select, Overlay(mem, dest, Read(read, select, reg, count)))
  }

  function SelectAfter(item: Item, select: u64): u64 {
    if item.select.Some? then item.select.value else select
  }

  // What ends up in the data buffer: the captures, one after the other.
  function Captured(items: seq<Item>, read: Registers, select: u64): (data: seq<u32>)
    ensures |data| == Total(items)
    decreases |items|
  {
    if |items| == 0 then []
    else
      var sel := SelectAfter(items[0], select);
      Read(read, sel, items[0].reg, items[0].count) + Captured(items[1..], read, sel)
  }

  lemma {:induction false} OverlayConcat(mem: map<int, u32>, dest: int, xs: seq<u32>, ys: seq<u32>)
    ensures Overlay(mem, dest, xs + ys) == Overlay(Overlay(mem, dest, xs), dest + 4 * |xs|, ys)
    decreases |xs|
  {
    if |xs| == 0 {
      assert xs + ys == ys;
    } else {
      assert (xs + ys)[1..] == xs[1..] + ys;
      OverlayConcat(mem[dest := xs[0]], dest + 4, xs[1..], ys);
    }
  }

  // Overlay() writes its data and nothing else.
  lemma {:induction false} OverlayAt(mem: map<int, u32>, dest: int, data: seq<u32>)
    ensures var r := Overlay(mem, dest, data);
            && (forall k | 0 <= k < |data| :: dest + 4 * k in r && r[dest + 4 * k] == data[k])
            && (forall a | a < dest || dest + 4 * |data| <= a ::
                  (a in r <==> a in mem) && (a in mem ==> a in r && r[a] == mem[a]))
    decreases |data|
  {
    if |data| != 0 {
      OverlayAt(mem[dest := data[0]], dest + 4, data[1..]);
      var r := Overlay(mem, dest, data);
      forall k | 0 <= k < |data| ensures dest + 4 * k in r && r[dest + 4 * k] == data[k] {
        if k != 0 {
          assert data[k] == data[1..][k - 1] && dest + 4 * k == dest + 4 + 4 * (k - 1);
        }
      }
    }
  }

  lemma EmitExecutes(item: Item, dest: u64, cs: seq<Command>, read: Registers, select: u64, mem: map<int, u32>)
    requires Valid(item)
    ensures var sel := SelectAfter(item, select);
            Execute(Emit(item, dest) + cs, read, select, mem)
            == Execute(cs, read, sel, Overlay(mem, dest, Read(read, sel, item.reg, item.count)))
  {
    hide Overlay;
    var all := Emit(item, dest) + cs;
    if item.select.Some? {
      assert all[1..] == [Capture(dest, item.reg, item.count)] + cs;
      assert all[1..][1..] == cs;
    } else {
      assert all[1..] == cs;
    }
  }

  /**
    Running the script fills the buffer from `dest` on with the captures, without gap or overlap, and touches nothing
    else.
   */
  lemma {:induction false} ScriptExecutes(items: seq<Item>, dest: nat, read: Registers, select: u64, mem: map<int, u32>)
    requires AllValid(items) && dest + 4 * Total(items) < TWO_64
    ensures Execute(Script(items, dest), read, select, mem) == Overlay(mem, dest, Captured(items, read, select))
    decreases |items|
  {
    hide Valid, Emit, Overlay, Execute, Read;
    if |items| == 0 {
      ExecuteNothing(read, select, mem, dest);
    } else {
      var item, sel := items[0], SelectAfter(items[0], select);
      var data := Read(read, sel, item.reg, item.count);
      var rest := Script(items[1..], dest + 4 * item.count);
      EmitExecutes(item, dest, rest, read, select, mem);
      ScriptExecutes(items[1..], dest + 4 * item.count, read, sel, Overlay(mem, dest, data));
      OverlayConcat(mem, dest, data, Captured(items[1..], read, sel));
    }
  }

  lemma ExecuteNothing(read: Registers, select: u64, mem: map<int, u32>, dest: int)
    ensures Execute([], read, select, mem) == mem == Overlay(mem, dest, [])
  {
  }

  lemma {:induction false} NoneTerminal(items: seq<Item>, dest: nat)
    requires AllValid(items) && 0 < dest && dest + 4 * Total(items) < TWO_64
    ensures forall c <- Script(items, dest) :: Encodable(c) && !Terminal(c)
    decreases |items|
  {
    hide Valid, Encodable;
    if |items| != 0 {
      NoneTerminal(items[1..], dest + 4 * items[0].count);
    }
  }

  /** From the qwords in memory: what the command processor decodes and runs is the layout. */
  lemma DumpFillsBuffer(t: Tables, base: nat, read: Registers, select: u64, mem: map<int, u32>)
    requires Tabular(t) && 0 < base && base + 4 * Total(Items(t)) < TWO_64
    ensures var decoded := Decode(Encode(Script(Items(t), base)) + [0, 0]);
            && decoded.Some?
            && Execute(decoded.value, read, select, mem) == Overlay(mem, base, Captured(Items(t), read, select))
  {
    hide Tabular, Items, Script, Encode, Decode, Execute, Overlay, Captured, Encodable, Terminal;
    NoneTerminal(Items(t), base);
    DecodeEncode(Script(Items(t), base));
    ScriptExecutes(Items(t), base, read, select, mem);
  }

  // ------------------------------------------------------------ the readers

  lemma {:induction false} CapturedConcat(xs: seq<Item>, ys: seq<Item>, read: Registers, select: u64)
    ensures Captured(xs + ys, read, select) == Captured(xs, read, select) + Captured(ys, read, LastSelect(xs, select))
    decreases |xs|
  {
    hide Read;
    if |xs| == 0 {
      assert xs + ys == ys;
    } else {
      assert (xs + ys)[1..] == xs[1..] + ys;
      CapturedConcat(xs[1..], ys, read, SelectAfter(xs[0], select));
    }
  }

  function LastSelect(items: seq<Item>, select: u64): u64
    decreases |items|
  {
    if |items| == 0 then select else LastSelect(items[1..], SelectAfter(items[0], select))
  }

  /** The data of capture `i` lies where the captures in front of it end. */
  lemma CaptureAt(items: seq<Item>, read: Registers, select: u64, i: nat)
    requires i < |items|
    ensures var at, data := Total(items[..i]), Captured(items, read, select);
            && at + items[i].count <= |data|
            && data[at..at + items[i].count]
               == Read(read, SelectAfter(items[i], LastSelect(items[..i], select)), items[i].reg, items[i].count)
  {
    hide Read, Total;
    var front, back := items[..i], items[i + 1..];
    var sel := LastSelect(front, select);
    CapturedConcat(front, [items[i]] + back, read, select);
    assert front + ([items[i]] + back) == items;
    assert ([items[i]] + back)[1..] == back;
    var here, rest := Read(read, SelectAfter(items[i], sel), items[i].reg, items[i].count),
                      Captured(back, read, SelectAfter(items[i], sel));
    assert Captured([items[i]] + back, read, sel) == here + rest;
    var data := Captured(items, read, select);
    assert data == Captured(front, read, select) + (here + rest);
    var at := |Captured(front, read, select)|;
    assert data[at..at + items[i].count] == here;
  }

  /** Two captures never share a dword, and together they are the whole buffer. */
  lemma CapturesTile(items: seq<Item>, i: nat, j: nat)
    requires i < j < |items|
    ensures Total(items[..i]) + items[i].count <= Total(items[..j])
    ensures Total(items[..i + 1]) == Total(items[..i]) + items[i].count
    ensures Total(items[..0]) == 0 && Total(items[..|items|]) == Total(items)
  {
    TotalUpTo(items, i);
    assert items[..j][..i + 1] == items[..i + 1];
    assert items[..|items|] == items;
    if i + 1 < j {
      TotalConcat(items[..i + 1], items[i + 1..j]);
      assert items[..i + 1] + items[i + 1..j] == items[..j];
    }
  }

  // ---------------------------------------------------- the driver's loops

  function U32(x: nat): u32 {
    x % TWO_32
  }

  method SizeSpans(spans: seq<Span>, script: u32, data: u32) returns (scriptSize: u32, dataSize: u32)
    requires GoodSpans(spans)
    ensures scriptSize == U32(script + 8 * ScriptQwords(SpanItems(spans)))
        && dataSize == U32(data + 4 * Total(SpanItems(spans)))
  {
    hide U32, Total, ScriptQwords;
    ghost var items := SpanItems(spans);
    scriptSize := U32(script + |spans| * 16);
    SpanQwords(items);
    TotalOfNone(data);
    dataSize := data;
    assert items[..0] == [];
    for j := 0 to |spans|
      invariant dataSize == U32(data + 4 * Total(items[..j]))
    {
      TotalUpTo(items, j);
      assert spans[j] in spans;
      Accumulate(dataSize, data + 4 * Total(items[..j]), 4 * items[j].count);
      dataSize := U32(dataSize + spans[j].Count() * 4);
    }
    assert items[..|spans|] == items;
  }

  method SizeBlocks(blocks: seq<Block>, script: u32, data: u32) returns (scriptSize: u32, dataSize: u32)
    requires GoodBlocks(blocks)
    ensures scriptSize == U32(script + 8 * ScriptQwords(BlockItems(blocks)))
        && dataSize == U32(data + 4 * Total(BlockItems(blocks)))
  {
    hide U32, Total, ScriptQwords;
    ghost var items := BlockItems(blocks);
    scriptSize, dataSize := script, data;
    SelectQwords(items);
    TotalOfNone(script);
    TotalOfNone(data);
    assert items[..0] == [];
    for i := 0 to |blocks|
      invariant scriptSize == U32(script + 32 * BANKS * i)
      invariant dataSize == U32(data + 4 * Total(items[..BANKS * i]))
    {
      BlockTotal(blocks, i);
      assert blocks[i] in blocks;
      Accumulate(scriptSize, script + 32 * BANKS * i, 32 * BANKS);
      Accumulate(dataSize, data + 4 * Total(items[..BANKS * i]), blocks[i].sz * 4 * BANKS);
      scriptSize := U32(scriptSize + 32 * BANKS);
      dataSize := U32(dataSize + blocks[i].sz * 4 * BANKS);
    }
    assert items[..BANKS * |blocks|] == items;
  }

  method SizeBanks(banks: seq<Bank>, script: u32, data: u32) returns (scriptSize: u32, dataSize: u32)
    requires GoodBanks(banks)
    ensures scriptSize == U32(script + 8 * ScriptQwords(BankItems(banks)))
        && dataSize == U32(data + 4 * Total(BankItems(banks)))
  {
    hide U32, Total, ScriptQwords;
    ghost var items := BankItems(banks);
    scriptSize, dataSize := script, data;
    SelectQwords(items);
    TotalOfNone(script);
    TotalOfNone(data);
    assert items[..0] == [];
    for i := 0 to |banks|
      invariant scriptSize == U32(script + 32 * i)
      invariant dataSize == U32(data + 4 * Total(items[..i]))
    {
      assert banks[i] in banks;
      TotalUpTo(items, i);
      Accumulate(scriptSize, script + 32 * i, 32);
      Accumulate(dataSize, data + 4 * Total(items[..i]), banks[i].size * 4);
      scriptSize := U32(scriptSize + 32);
      dataSize := U32(dataSize + banks[i].size * 4);
    }
    assert items[..|banks|] == items;
  }

  lemma TotalOfNone(x: u32)
    ensures Total([]) == 0 && U32(x) == x
  {
  }

  /** The first pass: sizes of the script and of the data in bytes, in 32 bits. */
  method Sizes(t: Tables) returns (scriptSize: u32, dataSize: u32)
    requires Tabular(t)
    ensures scriptSize == U32(8 * ScriptQwords(Items(t))) && dataSize == U32(4 * Total(Items(t)))
  {
    hide Valid, U32, Total, ScriptQwords;
    ghost var a, b, c, d := SpanItems(t.main), SpanItems(t.gpmu), BlockItems(t.blocks), BankItems(t.banks);
    assert SpanItems(t.main + t.gpmu) == a + b;
    TotalOfNone(0);
    scriptSize, dataSize := SizeSpans(t.main, 0, 0);
    var script, data := SizeSpans(t.gpmu, scriptSize, dataSize);
    Accumulate(scriptSize, 8 * ScriptQwords(a), 8 * ScriptQwords(b));
    Accumulate(dataSize, 4 * Total(a), 4 * Total(b));
    scriptSize, dataSize := SizeBlocks(t.blocks, script, data);
    Accumulate(script, 8 * ScriptQwords(a) + 8 * ScriptQwords(b), 8 * ScriptQwords(c));
    Accumulate(data, 4 * Total(a) + 4 * Total(b), 4 * Total(c));
    script, data := SizeBanks(t.banks, scriptSize, dataSize);
    Accumulate(scriptSize, 8 * ScriptQwords(a) + 8 * ScriptQwords(b) + 8 * ScriptQwords(c), 8 * ScriptQwords(d));
    Accumulate(dataSize, 4 * Total(a) + 4 * Total(b) + 4 * Total(c), 4 * Total(d));
    scriptSize, dataSize := script, data;
    TotalConcat(a, b);
    TotalConcat(a + b, c);
    TotalConcat(a + b + c, d);
    QwordsConcat(a, b);
    QwordsConcat(a + b, c);
    QwordsConcat(a + b + c, d);
  }

  lemma Accumulate(sum: u32, total: nat, x: nat)
    requires sum == U32(total)
    ensures U32(sum + x) == U32(total + x) && U32(sum + U32(x)) == U32(total + x)
  {
  }

  lemma {:induction false} SpanQwords(items: seq<Item>)
    requires forall item <- items :: item.select.None?
    ensures ScriptQwords(items) == 2 * |items|
  {
    if |items| != 0 {
      SpanQwords(items[1..]);
    }
  }

  lemma {:induction false} SelectQwords(items: seq<Item>)
    requires forall item <- items :: item.select.Some?
    ensures ScriptQwords(items) == 4 * |items|
  {
    if |items| != 0 {
      SelectQwords(items[1..]);
    }
  }

  lemma {:induction false} QwordsConcat(xs: seq<Item>, ys: seq<Item>)
    ensures ScriptQwords(xs + ys) == ScriptQwords(xs) + ScriptQwords(ys)
  {
    if |xs| == 0 {
      assert xs + ys == ys;
    } else {
      QwordsConcat(xs[1..], ys);
      assert (xs + ys)[1..] == xs[1..] + ys;
    }
  }

  // A block's four banks.
  lemma BlockTotal(blocks: seq<Block>, i: nat)
    requires GoodBlocks(blocks) && i < |blocks|
    ensures var items := BlockItems(blocks);
            BANKS * i + BANKS <= |items|
                && Total(items[..BANKS * i + BANKS]) == Total(items[..BANKS * i]) + blocks[i].sz * BANKS
  {
    var items := BlockItems(blocks);
    assert blocks[i] in blocks;
    TotalUpTo(items, BANKS * i);
    TotalUpTo(items, BANKS * i + 1);
    TotalUpTo(items, BANKS * i + 2);
    TotalUpTo(items, BANKS * i + 3);
    assert items[BANKS * i + 0] == BlockItem(blocks[i], 0) && items[BANKS * i + 1] == BlockItem(blocks[i], 1);
    assert items[BANKS * i + 2] == BlockItem(blocks[i], 2) && items[BANKS * i + 3] == BlockItem(blocks[i], 3);
  }

  lemma ScriptFirst(first: Item, rest: seq<Item>, dest: nat)
    requires Valid(first) && AllValid(rest) && dest + 4 * (first.count + Total(rest)) < TWO_64
    ensures Total([first] + rest) == first.count + Total(rest)
    ensures Script([first] + rest, dest) == Emit(first, dest) + Script(rest, dest + 4 * first.count)
  {
    hide Valid, Emit, Encodable;
    assert ([first] + rest)[1..] == rest;
  }

  lemma ValidParts(xs: seq<Item>, ys: seq<Item>)
    ensures AllValid(xs + ys) <==> AllValid(xs) && AllValid(ys)
  {
    hide Valid;
    assert forall item <- xs :: item in xs + ys;
    assert forall item <- ys :: item in xs + ys;
  }

  lemma {:induction false} ScriptConcat(xs: seq<Item>, ys: seq<Item>, dest: nat)
    requires AllValid(xs + ys) && dest + 4 * Total(xs + ys) < TWO_64
    ensures AllValid(xs) && AllValid(ys) && Total(xs + ys) == Total(xs) + Total(ys)
    ensures Script(xs + ys, dest) == Script(xs, dest) + Script(ys, dest + 4 * Total(xs))
    decreases |xs|
  {
    hide *;
    ValidParts(xs, ys);
    TotalConcat(xs, ys);
    if |xs| == 0 {
      NoScript(ys, dest);
      assert xs == [];
    } else {
      FirstApart(xs, ys);
      ValidParts(xs[1..], ys);
      TotalConcat(xs[1..], ys);
      ScriptConcat(xs[1..], ys, dest + 4 * xs[0].count);
      ScriptStep(xs[0], xs[1..], ys, dest);
    }
  }

  lemma NoScript(ys: seq<Item>, dest: nat)
    requires AllValid(ys) && dest + 4 * Total(ys) < TWO_64
    ensures [] + ys == ys && Total([]) == 0 && AllValid([]) && Script([], dest) == []
    ensures Script(ys, dest) == [] + Script(ys, dest)
  {
  }

  lemma Uncons(xs: seq<Item>, ys: seq<Item>)
    requires |xs| != 0
    ensures xs == [xs[0]] + xs[1..] && xs + ys == [xs[0]] + (xs[1..] + ys)
  {
  }

  lemma OneItem(item: Item)
    ensures Total([item]) == item.count && (AllValid([item]) <==> Valid(item))
  {
    hide Valid;
  }

  lemma FirstApart(xs: seq<Item>, ys: seq<Item>)
    requires AllValid(xs + ys) && |xs| != 0
    ensures Valid(xs[0]) && AllValid(xs[1..]) && AllValid(xs[1..] + ys)
    ensures xs == [xs[0]] + xs[1..] && xs + ys == [xs[0]] + (xs[1..] + ys)
    ensures Total(xs) == xs[0].count + Total(xs[1..])
  {
    hide *;
    Uncons(xs, ys);
    OneItem(xs[0]);
    ValidParts([xs[0]], xs[1..] + ys);
    ValidParts(xs[1..], ys);
    TotalConcat([xs[0]], xs[1..]);
  }

  lemma ScriptStep(first: Item, rest: seq<Item>, ys: seq<Item>, dest: nat)
    requires Valid(first) && AllValid(rest) && AllValid(ys) && AllValid(rest + ys)
    requires Total(rest + ys) == Total(rest) + Total(ys) && dest + 4 * (first.count + Total(rest + ys)) < TWO_64
    requires var next := dest + 4 * first.count;
             Script(rest + ys, next) == Script(rest, next) + Script(ys, next + 4 * Total(rest))
    ensures AllValid([first] + rest) && AllValid([first] + (rest + ys))
    ensures Total([first] + rest) == first.count + Total(rest)
        && Total([first] + (rest + ys)) == first.count + Total(rest + ys)
    ensures Script([first] + (rest + ys), dest)
        == Script([first] + rest, dest) + Script(ys, dest + 4 * (first.count + Total(rest)))
  {
    hide Valid, AllValid, Emit, Encodable, Script, Total;
    OneItem(first);
    ValidParts([first], rest);
    ValidParts([first], rest + ys);
    ScriptFirst(first, rest + ys, dest);
    ScriptFirst(first, rest, dest);
    Associates(Emit(first, dest), Script(rest, dest + 4 * first.count),
        Script(ys, dest + 4 * (first.count + Total(rest))));
  }

  lemma Associates(xs: seq<Command>, ys: seq<Command>, zs: seq<Command>)
    ensures xs + (ys + zs) == (xs + ys) + zs
  {
  }

  // The script up to an item, and the item's own commands.
  lemma ScriptUpTo(items: seq<Item>, dest: nat, i: nat)
    requires AllValid(items) && dest + 4 * Total(items) < TWO_64 && i < |items|
    ensures Total(items[..i]) <= Total(items[..i + 1]) <= Total(items)
    ensures Encode(Script(items[..i + 1], dest))
        == Encode(Script(items[..i], dest)) + Encode(Emit(items[i], dest + 4 * Total(items[..i])))
  {
    hide Valid, Emit, Encodable, Encode, Total;
    TotalUpTo(items, i);
    assert items[..i] + [items[i]] == items[..i + 1];
    ScriptConcat(items[..i], [items[i]], dest);
    ScriptSingle(items[i], dest + 4 * Total(items[..i]));
    EncodeConcat(Script(items[..i], dest), Emit(items[i], dest + 4 * Total(items[..i])));
  }

  lemma ScriptSingle(item: Item, dest: nat)
    requires Valid(item) && dest + 4 * item.count < TWO_64
    ensures Total([item]) == item.count && Script([item], dest) == Emit(item, dest)
  {
    assert [item][1..] == [];
    assert Script([item][1..], dest + 4 * item.count) == [];
  }

  lemma EncodeEmit(item: Item, dest: u64)
    requires Valid(item)
    ensures Encode(Emit(item, dest)) ==
      (if item.select.Some? then EncodeCommand(Select(READ_SEL, item.select.value)) else [])
      + EncodeCommand(Capture(dest, item.reg, item.count))
  {
    hide EncodeCommand;
    var cs := Emit(item, dest);
    if item.select.Some? {
      assert cs[1..][0] == cs[1] && cs[1..][1..] == [];
      assert Encode(cs[1..]) == EncodeCommand(cs[1]) + Encode([]);
    } else {
      assert cs[1..] == [];
    }
  }

  // What stands in the script, and how far the data have come, after `i` items.
  ghost predicate Built(script: array<u64>, items: seq<Item>, base: nat, i: nat, at: nat, offset: nat)
    reads script
  {
    && AllValid(items) && base + 4 * Total(items) < TWO_64 && i <= |items|
    && ScriptQwords(items) + 2 <= script.Length && at == ScriptQwords(items[..i]) <= ScriptQwords(items)
    && offset == 4 * Total(items[..i]) <= 4 * Total(items)
    && script[..at] == Encode(Script(items[..i], base))
  }

  lemma NothingBuilt(script: array<u64>, items: seq<Item>, base: nat)
    requires AllValid(items) && base + 4 * Total(items) < TWO_64 && ScriptQwords(items) + 2 <= script.Length
    ensures Built(script, items, base, 0, 0, 0)
  {
    assert items[..0] == [];
    assert script[..0] == [];
  }

  // One capture: *ptr++ = ... twice or four times.
  method PutItem(script: array<u64>, ghost items: seq<Item>, ghost i: nat, base: nat, at: nat, offset: nat, item: Item)
    returns (next: nat, nextOffset: nat)
    requires Built(script, items, base, i, at, offset) && i < |items| && items[i] == item
    modifies script
    ensures Built(script, items, base, i + 1, next, nextOffset)
  {
    hide Valid, Encode, EncodeCommand, Script, Total, ScriptQwords, Emit, Encodable;
    next := at;
    assert item in items;
    ItemFits(items, i);
    ScriptUpTo(items, base, i);
    TotalUpTo(items, i);
    EncodeEmit(item, base + offset);
    ghost var done := script[..at];
    if item.select.Some? {
      SelectPair(item.select.value);
      ghost var select := EncodeCommand(Select(READ_SEL, item.select.value));
      script[next] := item.select.value;
      script[next + 1] := READ_SEL * 0x1000_0000_0000 + 0x20_0000 + 1;
      next := next + 2;
      assert script[..next] == done + select;
      done := done + select;
    }
    CapturePair(base + offset, item);
    script[next] := base + offset;
    script[next + 1] := item.reg * 0x1000_0000_0000 + item.count;
    next := next + 2;
    assert script[..next] == done + EncodeCommand(Capture(base + offset, item.reg, item.count));
    nextOffset := offset + item.count * 4;
  }

  lemma SelectPair(value: u64)
    ensures Encodable(Select(READ_SEL, value))
    ensures EncodeCommand(Select(READ_SEL, value)) == [value, READ_SEL * 0x1000_0000_0000 + 0x20_0000 + 1]
  {
  }

  lemma CapturePair(dest: u64, item: Item)
    requires Valid(item)
    ensures Encodable(Capture(dest, item.reg, item.count)) && item.reg * 0x1000_0000_0000 + item.count < TWO_64
    ensures EncodeCommand(Capture(dest, item.reg, item.count)) == [dest, item.reg * 0x1000_0000_0000 + item.count]
  {
  }

  lemma ItemFits(items: seq<Item>, i: nat)
    requires i < |items|
    ensures ScriptQwords(items[..i + 1]) == ScriptQwords(items[..i]) + Qwords(items[i]) <= ScriptQwords(items)
  {
    hide Qwords, ScriptQwords;
    QwordsConcat(items[..i], [items[i]]);
    QwordsConcat(items[..i + 1], items[i + 1..]);
    assert items[..i] + [items[i]] == items[..i + 1] && items[..i + 1] + items[i + 1..] == items;
    QwordsOfOne(items[i]);
  }

  lemma QwordsOfOne(item: Item)
    ensures ScriptQwords([item]) == Qwords(item)
  {
  }

  /** The offset a table entry is given: where the data of item `i` starts. */
  ghost predicate OffsetOf(items: seq<Item>, i: nat, offset: u64) {
    i <= |items| && offset == 4 * Total(items[..i])
  }

  // Which entries of the layout belong to which table.
  ghost predicate SpansAt(items: seq<Item>, from: nat, spans: seq<Span>)
    requires GoodSpans(spans)
  {
    from + |spans| <= |items| && forall j | 0 <= j < |spans| :: items[from + j] == SpanItem(spans[j])
  }

  ghost predicate BlocksAt(items: seq<Item>, from: nat, blocks: seq<Block>)
    requires GoodBlocks(blocks)
  {
    && from + BANKS * |blocks| <= |items|
    && forall i, j | 0 <= i < |blocks| && 0 <= j < BANKS :: items[from + (BANKS * i + j)] == BlockItem(blocks[i], j)
  }

  ghost predicate BanksAt(items: seq<Item>, from: nat, banks: seq<Bank>)
    requires GoodBanks(banks)
  {
    from + |banks| <= |items| && forall i | 0 <= i < |banks| :: items[from + i] == BankItem(banks[i])
  }

  method PutSpans(script: array<u64>, ghost items: seq<Item>, ghost from: nat, base: nat, at: nat, offset: nat,
      spans: seq<Span>)
    returns (next: nat, nextOffset: nat)
    requires Built(script, items, base, from, at, offset) && GoodSpans(spans)
    requires SpansAt(items, from, spans)
    modifies script
    ensures Built(script, items, base, from + |spans|, next, nextOffset)
  {
    hide Built;
    next, nextOffset := at, offset;
    for j := 0 to |spans|
      invariant Built(script, items, base, from + j, next, nextOffset)
    {
      assert spans[j] in spans;
      next, nextOffset := PutItem(script, items, from + j, base, next, nextOffset, SpanItem(spans[j]));
    }
  }

  // _a5xx_crashdump_init_shader()
  method PutBlock(script: array<u64>, ghost items: seq<Item>, ghost from: nat, base: nat, at: nat, offset: nat,
      block: Block, offsets: array<u64>, i: nat)
    returns (next: nat, nextOffset: nat)
    requires Built(script, items, base, from, at, offset) && from + BANKS <= |items|
    requires block.sz < 0x20_0000 && block.statetype < 0x100_0000 && i < offsets.Length && script != offsets
    requires forall j | 0 <= j < BANKS :: items[from + j] == BlockItem(block, j)
    modifies script, offsets
    ensures Built(script, items, base, from + BANKS, next, nextOffset)
    ensures offsets[i] == offset && forall k :: 0 <= k < offsets.Length && k != i ==> offsets[k] == old(offsets[k])
  {
    BuiltOffset(script, items, base, from, at, offset);
    hide Built;
    next, nextOffset := at, offset;
    for j := 0 to BANKS
      invariant Built(script, items, base, from + j, next, nextOffset)
      invariant j == 0 ==> nextOffset == offset
      invariant j > 0 ==> offsets[i] == offset
      invariant forall k :: 0 <= k < offsets.Length && k != i ==> offsets[k] == old(offsets[k])
    {
      next, nextOffset := PutItem(script, items, from + j, base, next, nextOffset, BlockItem(block, j));
      if j == 0 {
        offsets[i] := offset;
      }
    }
  }

  lemma BuiltOffset(script: array<u64>, items: seq<Item>, base: nat, i: nat, at: nat, offset: nat)
    requires Built(script, items, base, i, at, offset)
    ensures offset < TWO_64 && OffsetOf(items, i, offset)
  {
  }

  method PutBlocks(script: array<u64>, ghost items: seq<Item>, ghost from: nat, base: nat, at: nat, offset: nat,
      blocks: seq<Block>, offsets: array<u64>)
    returns (next: nat, nextOffset: nat)
    requires Built(script, items, base, from, at, offset) && GoodBlocks(blocks)
    requires offsets.Length == |blocks| && script != offsets
    requires BlocksAt(items, from, blocks)
    modifies script, offsets
    ensures Built(script, items, base, from + BANKS * |blocks|, next, nextOffset)
    ensures forall i :: 0 <= i < |blocks| ==> OffsetOf(items, from + BANKS * i, offsets[i])
  {
    hide Built, OffsetOf;
    next, nextOffset := at, offset;
    for i := 0 to |blocks|
      invariant Built(script, items, base, from + BANKS * i, next, nextOffset)
      invariant forall k :: 0 <= k < i ==> OffsetOf(items, from + BANKS * k, offsets[k])
    {
      assert blocks[i] in blocks;
      BuiltOffset(script, items, base, from + BANKS * i, next, nextOffset);
      forall j | 0 <= j < BANKS ensures items[from + BANKS * i + j] == BlockItem(blocks[i], j) {
        assert items[from + (BANKS * i + j)] == BlockItem(blocks[i], j);
      }
      next, nextOffset := PutBlock(script, items, from + BANKS * i, base, next, nextOffset, blocks[i], offsets, i);
    }
  }

  // _a5xx_crashdump_init_hlsq(), over the table
  method PutBanks(script: array<u64>, ghost items: seq<Item>, ghost from: nat, base: nat, at: nat, offset: nat,
      banks: seq<Bank>, offsets: array<u64>)
    returns (next: nat, nextOffset: nat)
    requires Built(script, items, base, from, at, offset) && GoodBanks(banks)
    requires offsets.Length == |banks| && script != offsets
    requires BanksAt(items, from, banks)
    modifies script, offsets
    ensures Built(script, items, base, from + |banks|, next, nextOffset)
    ensures forall i :: 0 <= i < |banks| ==> OffsetOf(items, from + i, offsets[i])
  {
    hide Built, OffsetOf;
    next, nextOffset := at, offset;
    for i := 0 to |banks|
      invariant Built(script, items, base, from + i, next, nextOffset)
      invariant forall k :: 0 <= k < i ==> OffsetOf(items, from + k, offsets[k])
    {
      assert banks[i] in banks;
      BuiltOffset(script, items, base, from + i, next, nextOffset);
      offsets[i] := nextOffset;
      next, nextOffset := PutItem(script, items, from + i, base, next, nextOffset, BankItem(banks[i]));
    }
  }

  // The two zero qwords behind the last capture.
  method Terminate(script: array<u64>, ghost items: seq<Item>, base: nat, at: nat, offset: nat) returns (qwords: nat)
    requires Built(script, items, base, |items|, at, offset)
    modifies script
    ensures AllValid(items) && base + 4 * Total(items) < TWO_64
    ensures offset == 4 * Total(items) && qwords == ScriptQwords(items) + 2 <= script.Length
    ensures script[..qwords] == Encode(Script(items, base)) + [0, 0]
  {
    AllBuilt(script, items, base, at, offset);
    assert base + 4 * Total(items) < TWO_64;
    hide Built, Encode, Script, Total, ScriptQwords, Valid;
    ghost var done := script[..at];
    script[at] := 0;
    script[at + 1] := 0;
    assert script[..at + 2] == done + [0, 0];
    qwords := at + 2;
  }

  /**
    The second pass: the script is the encoded layout with its two zero qwords, it takes the bytes the
    first pass counted, and every table entry is given the offset of its data.
   */
  method Build(t: Tables, base: nat, script: array<u64>, blockOffsets: array<u64>, bankOffsets: array<u64>)
      returns (qwords: nat, dataSize: nat)
    requires Tabular(t) && base + 4 * Total(Items(t)) < TWO_64 && ScriptQwords(Items(t)) + 2 <= script.Length
    requires blockOffsets.Length == |t.blocks| && bankOffsets.Length == |t.banks|
    requires script != blockOffsets && script != bankOffsets && blockOffsets != bankOffsets
    modifies script, blockOffsets, bankOffsets
    ensures qwords == ScriptQwords(Items(t)) + 2 && script[..qwords] == Encode(Script(Items(t), base)) + [0, 0]
    ensures dataSize == 4 * Total(Items(t))
    ensures forall i :: 0 <= i < |t.blocks| ==> OffsetOf(Items(t), |t.main| + |t.gpmu| + BANKS * i, blockOffsets[i])
    ensures forall i :: 0 <= i < |t.banks| ==>
      OffsetOf(Items(t), |t.main| + |t.gpmu| + BANKS * |t.blocks| + i, bankOffsets[i])
  {
    hide *;
    ghost var items := Items(t);
    ghost var s, b := |t.main| + |t.gpmu|, BANKS * |t.blocks|;
    ItemsAt(t);
    NothingBuilt(script, items, base);
    var next, offset := PutSpans(script, items, 0, base, 0, 0, t.main);
    next, offset := PutSpans(script, items, |t.main|, base, next, offset, t.gpmu);
    next, offset := PutBlocks(script, items, s, base, next, offset, t.blocks, blockOffsets);
    next, offset := PutBanks(script, items, s + b, base, next, offset, t.banks, bankOffsets);
    qwords := Terminate(script, items, base, next, offset);
    dataSize := offset;
  }

  lemma AllBuilt(script: array<u64>, items: seq<Item>, base: nat, at: nat, offset: nat)
    requires Built(script, items, base, |items|, at, offset)
    ensures at == ScriptQwords(items) && at + 2 <= script.Length && offset == 4 * Total(items)
    ensures AllValid(items) && script[..at] == Encode(Script(items, base))
  {
    assert items[..|items|] == items;
  }

  // Where each table's items stand among the others'.
  lemma SpansWithin(before: seq<Span>, spans: seq<Span>, rest: seq<Item>)
    requires GoodSpans(before) && GoodSpans(spans)
    ensures GoodSpans(before + spans)
    ensures SpansAt(SpanItems(before + spans) + rest, 0, before)
        && SpansAt(SpanItems(before + spans) + rest, |before|, spans)
  {
    hide SpanItem;
  }

  lemma BlocksWithin(front: seq<Item>, blocks: seq<Block>, rest: seq<Item>)
    requires GoodBlocks(blocks)
    ensures BlocksAt(front + BlockItems(blocks) + rest, |front|, blocks)
  {
    hide BlockItem;
    var own := BlockItems(blocks);
    forall i, j | 0 <= i < |blocks| && 0 <= j < BANKS
      ensures (front + own + rest)[|front| + (BANKS * i + j)] == BlockItem(blocks[i], j)
    {
      assert own[BANKS * i + j] == BlockItem(blocks[i], j);
    }
  }

  lemma BanksWithin(front: seq<Item>, banks: seq<Bank>)
    requires GoodBanks(banks)
    ensures BanksAt(front + BankItems(banks), |front|, banks)
  {
    hide BankItem;
  }

  lemma ItemsAt(t: Tables)
    requires Tabular(t)
    ensures var items, s := Items(t), |t.main| + |t.gpmu|;
            && GoodSpans(t.main) && GoodSpans(t.gpmu) && GoodBlocks(t.blocks) && GoodBanks(t.banks)
            && |items| == s + BANKS * |t.blocks| + |t.banks|
            && SpansAt(items, 0, t.main) && SpansAt(items, |t.main|, t.gpmu)
            && BlocksAt(items, s, t.blocks) && BanksAt(items, s + BANKS * |t.blocks|, t.banks)
  {
    assert GoodSpans(t.main + t.gpmu);
    var spans, blocks, banks := SpanItems(t.main + t.gpmu), BlockItems(t.blocks), BankItems(t.banks);
    assert Items(t) == spans + blocks + banks == spans + (blocks + banks);
    hide Items, Valid, SpansAt, BlocksAt, BanksAt, GoodSpans, GoodBlocks, GoodBanks;
    SpansWithin(t.main, t.gpmu, blocks + banks);
    BlocksWithin(spans, t.blocks, banks);
    BanksWithin(spans + blocks, t.banks);
  }

  // ------------------------------------------------------ reading it back

  const HEADER_BYTES: nat := 4

  // How many of the spans fit into `remain` bytes of pairs, from the first on.
  function Fitting(spans: seq<Span>, remain: nat): (n: nat)
    requires GoodSpans(spans)
    ensures n <= |spans|
  {
    if |spans| == 0 || remain < spans[0].Count() * 8 then 0
    else 1 + Fitting(spans[1..], remain - spans[0].Count() * 8)
  }

  /**
    The spans that fit are as many as there is room for: eight bytes a register, and the next span would be too much.
   */
  lemma {:induction false} FittingIsMost(spans: seq<Span>, remain: nat)
    requires GoodSpans(spans)
    ensures var n := Fitting(spans, remain);
            && GoodSpans(spans[..n]) && 8 * Total(SpanItems(spans[..n])) <= remain
            && (n < |spans| ==> GoodSpans(spans[..n + 1]) && 8 * Total(SpanItems(spans[..n + 1])) > remain)
    decreases |spans|
  {
    hide Total, SpanItems;
    var n := Fitting(spans, remain);
    SpanOfNone();
    assert spans[..0] == [];
    if |spans| != 0 {
      FirstSpan(spans, 1);
      assert spans[1..][..0] == [];
      if n != 0 {
        FittingIsMost(spans[1..], remain - spans[0].Count() * 8);
        FirstSpan(spans, n);
      }
      if 0 < n < |spans| {
        FirstSpan(spans, n + 1);
      }
    }
  }

  lemma FirstSpan(spans: seq<Span>, n: nat)
    requires GoodSpans(spans) && 1 <= n <= |spans|
    ensures GoodSpans(spans[..n]) && GoodSpans(spans[1..]) && GoodSpans(spans[1..][..n - 1])
    ensures Total(SpanItems(spans[..n])) == spans[0].Count() + Total(SpanItems(spans[1..][..n - 1]))
  {
    hide Total;
    SpanTotal(spans[..n]);
    assert spans[..n][1..] == spans[1..][..n - 1];
  }

  // Each register of the spans with the next dword of `src`.
  function Paired(spans: seq<Span>, src: seq<u32>): seq<(u32, u32)>
    requires GoodSpans(spans) && Total(SpanItems(spans)) <= |src|
  {
    if |spans| == 0 then []
    else
      SpanTotal(spans);
      PairSpan(spans[0], src) + Paired(spans[1..], src[spans[0].Count()..])
  }

  function PairSpan(s: Span, src: seq<u32>): seq<(u32, u32)>
    requires s.start <= s.end && s.end < 0x10_0000 && s.Count() <= |src|
  {
    seq(s.Count(), i requires 0 <= i < s.Count() => (s.start + i, src[i]))
  }

  lemma SpanTotal(spans: seq<Span>)
    requires GoodSpans(spans) && |spans| != 0
    ensures Total(SpanItems(spans)) == spans[0].Count() + Total(SpanItems(spans[1..]))
    ensures GoodSpans(spans[1..])
  {
    assert SpanItems(spans)[1..] == SpanItems(spans[1..]);
  }

  // Every register of the spans, in order, with its own value.
  function RegistersOf(spans: seq<Span>, read: Registers, select: u64): seq<(u32, u32)>
    requires GoodSpans(spans)
    decreases |spans|
  {
    if |spans| == 0 then []
    else
      OwnRegisters(spans[0], read, select) + RegistersOf(spans[1..], read, select)
  }

  function OwnRegisters(s: Span, read: Registers, select: u64): seq<(u32, u32)>
    requires s.start <= s.end && s.end < 0x10_0000
  {
    seq(s.Count(), i requires 0 <= i < s.Count() => (s.start + i, read(select, s.start + i)))
  }

  lemma PairsOwn(s: Span, src: seq<u32>, read: Registers, select: u64)
    requires s.start <= s.end && s.end < 0x10_0000 && Read(read, select, s.start, s.Count()) <= src
    ensures s.Count() <= |src| && PairSpan(s, src) == OwnRegisters(s, read, select)
  {
    var own := Read(read, select, s.start, s.Count());
    forall i | 0 <= i < s.Count() ensures src[i] == read(select, s.start + i) {
      assert src[i] == own[i];
    }
  }

  lemma CapturedFirst(spans: seq<Span>, read: Registers, select: u64)
    requires GoodSpans(spans) && |spans| != 0
    ensures GoodSpans(spans[1..])
    ensures Captured(SpanItems(spans), read, select)
         == Read(read, select, spans[0].start, spans[0].Count()) + Captured(SpanItems(spans[1..]), read, select)
  {
    hide Read, Total;
    assert SpanItems(spans)[1..] == SpanItems(spans[1..]);
  }

  // A prefix in two parts.
  lemma PrefixParts(xs: seq<u32>, ys: seq<u32>, src: seq<u32>)
    requires xs + ys <= src
    ensures xs <= src && |xs| <= |src| && ys <= src[|xs|..]
  {
    assert src == (xs + ys) + src[|xs| + |ys|..];
  }

  lemma PairedFirst(spans: seq<Span>, src: seq<u32>)
    requires GoodSpans(spans) && |spans| != 0 && Total(SpanItems(spans)) <= |src|
    ensures var c := spans[0].Count();
            && GoodSpans(spans[1..]) && c <= |src| && Total(SpanItems(spans)) == c + Total(SpanItems(spans[1..]))
            && Paired(spans, src) == PairSpan(spans[0], src) + Paired(spans[1..], src[c..])
  {
    hide Total, PairSpan;
    SpanTotal(spans);
  }

  lemma {:induction false} PairedWithOwn(spans: seq<Span>, n: nat, src: seq<u32>, read: Registers, select: u64)
    requires GoodSpans(spans) && n <= |spans| && Captured(SpanItems(spans), read, select) <= src
    ensures Total(SpanItems(spans[..n])) <= |src| && GoodSpans(spans[..n])
    ensures Paired(spans[..n], src) == RegistersOf(spans[..n], read, select)
    decreases |spans|
  {
    SpanPrefix(spans, n);
    if n == 0 {
      PairedNone(src);
      assert spans[..n] == [];
    } else {
      var first, rest := spans[0], spans[1..];
      assert spans[..n][1..] == rest[..n - 1] && spans[..n][0] == first;
      assert RegistersOf(spans[..n], read, select)
          == OwnRegisters(first, read, select) + RegistersOf(rest[..n - 1], read, select);
      hide Total, PairSpan, Captured, Paired, RegistersOf, OwnRegisters;
      CapturedFirst(spans, read, select);
      PrefixParts(Read(read, select, first.start, first.Count()), Captured(SpanItems(rest), read, select), src);
      PairedWithOwn(rest, n - 1, src[first.Count()..], read, select);
      PairedFirst(spans[..n], src);
      PairsOwn(first, src, read, select);
    }
  }

  lemma SpanPrefix(spans: seq<Span>, n: nat)
    requires GoodSpans(spans) && n <= |spans|
    ensures GoodSpans(spans[..n]) && Total(SpanItems(spans[..n])) <= Total(SpanItems(spans))
  {
    TotalConcat(SpanItems(spans)[..n], SpanItems(spans)[n..]);
    assert SpanItems(spans) == SpanItems(spans)[..n] + SpanItems(spans)[n..];
    assert SpanItems(spans[..n]) == SpanItems(spans)[..n];
  }

  // The pairs of all spans, from their first on.
  lemma {:induction false} PairedSnoc(spans: seq<Span>, n: nat, src: seq<u32>)
    requires GoodSpans(spans) && n < |spans| && Total(SpanItems(spans)) <= |src|
    ensures var at := Total(SpanItems(spans[..n]));
            && GoodSpans(spans[..n]) && GoodSpans(spans[..n + 1])
            && at + spans[n].Count() == Total(SpanItems(spans[..n + 1])) <= Total(SpanItems(spans))
            && Paired(spans[..n + 1], src) == Paired(spans[..n], src) + PairSpan(spans[n], src[at..])
    decreases |spans|
  {
    hide Total, PairSpan, Paired;
    SpanPrefix(spans, n);
    SpanPrefix(spans, n + 1);
    SpanTotal(spans);
    PairedFirst(spans[..n + 1], src);
    assert spans[..n + 1][1..] == spans[1..][..n];
    if n == 0 {
      assert spans[..0] == [] && spans[1..][..0] == [] && src[0..] == src;
      SpanOfNone();
      PairedNone(src);
      PairedNone(src[spans[0].Count()..]);
    } else {
      var c := spans[0].Count();
      PairedFirst(spans[..n], src);
      assert spans[..n][1..] == spans[1..][..n - 1];
      PairedSnoc(spans[1..], n - 1, src[c..]);
      var at := Total(SpanItems(spans[1..][..n - 1]));
      assert src[c..][at..] == src[c + at..];
    }
  }

  lemma {:induction false} PairedSize(spans: seq<Span>, src: seq<u32>)
    requires GoodSpans(spans) && Total(SpanItems(spans)) <= |src|
    ensures |Paired(spans, src)| == Total(SpanItems(spans))
    decreases |spans|
  {
    if |spans| != 0 {
      hide Total, Paired;
      PairedFirst(spans, src);
      PairedSize(spans[1..], src[spans[0].Count()..]);
    }
  }

  lemma PairedNone(src: seq<u32>)
    ensures GoodSpans([]) && Total(SpanItems([])) <= |src| && Paired([], src) == []
  {
  }

  lemma SpanOfNone()
    ensures Total(SpanItems([])) == 0
  {
  }

  lemma FittingFrom(spans: seq<Span>, j: nat, left: nat)
    requires GoodSpans(spans) && j < |spans|
    ensures spans[j].start <= spans[j].end && spans[j].end < 0x10_0000
    ensures GoodSpans(spans[j..]) && GoodSpans(spans[j + 1..])
    ensures var need := spans[j].Count() * 8;
      Fitting(spans[j..], left) == if left < need then 0 else 1 + Fitting(spans[j + 1..], left - need)
  {
    assert spans[j] in spans && spans[j..][0] == spans[j] && spans[j..][1..] == spans[j + 1..];
  }

  // The inner loop: one pair for each register of a span.
  method CopySpan(sofar: seq<(u32, u32)>, s: Span, src: seq<u32>, from: nat) returns (out: seq<(u32, u32)>, next: nat)
    requires s.start <= s.end && s.end < 0x10_0000 && from + s.Count() <= |src|
    ensures out == sofar + PairSpan(s, src[from..]) && next == from + s.Count()
  {
    out, next := sofar, from;
    ghost var pairs := PairSpan(s, src[from..]);
    for k := s.start to s.end + 1
      invariant next == from + (k - s.start) && out == sofar + pairs[..k - s.start]
    {
      assert pairs[k - s.start] == (k, src[next]);
      out := out + [(k, src[next])];
      next := next + 1;
    }
    assert pairs[..s.end + 1 - s.start] == pairs;
  }

  /**
    a5xx_snapshot_registers(): the spans that fit, each register with the next captured dword, and the bytes the section
    takes: a count of four bytes and eight bytes a register, never more than there are, nothing left out that would fit.
   */
  method SnapshotRegisters(spans: seq<Span>, src: seq<u32>, remain: nat)
    returns (out: seq<(u32, u32)>, bytes: nat)
    requires GoodSpans(spans) && Total(SpanItems(spans)) <= |src|
    ensures var n := if remain < HEADER_BYTES then 0 else Fitting(spans, remain - HEADER_BYTES);
            GoodSpans(spans[..n]) && Total(SpanItems(spans[..n])) <= |src| && out == Paired(spans[..n], src)
            && (n < |spans| && remain >= 4 ==>
                  GoodSpans(spans[..n + 1]) && 4 + 8 * Total(SpanItems(spans[..n + 1])) > remain)
    ensures bytes == (if remain < 4 then 0 else 4 + 8 * |out|) && bytes <= remain
  {
    hide Total, SpanItems, PairSpan, Paired, Fitting, GoodSpans;
    out, bytes := [], 0;
    assert Paired([], src) == [] by { PairedNone(src); }
    SpanPrefix(spans, 0);
    SpanOfNone();
    assert spans[..0] == [] && spans[0..] == spans;
    if remain < HEADER_BYTES {
      return;
    }
    var left: nat, next: nat := remain - HEADER_BYTES, 0;
    FittingIsMost(spans, left);
    for j := 0 to |spans|
      invariant GoodSpans(spans[..j]) && GoodSpans(spans[j..])
      invariant next == Total(SpanItems(spans[..j])) <= |src| && out == Paired(spans[..j], src)
      invariant Fitting(spans, remain - HEADER_BYTES) == j + Fitting(spans[j..], left)
    {
      var s := spans[j];
      FittingFrom(spans, j, left);
      if left < s.Count() * 8 {
        PairedSize(spans[..j], src);
        return out, HEADER_BYTES + 8 * |out|;
      }
      left := left - s.Count() * 8;
      PairedSnoc(spans, j, src);
      out, next := CopySpan(out, s, src, next);
    }
    assert spans[..|spans|] == spans;
    PairedSize(spans, src);
    bytes := HEADER_BYTES + 8 * |out|;
  }

  /** Every register of the main list comes back with its own value, as far as the section has room. */
  lemma RegistersReadBack(t: Tables, read: Registers, select: u64, n: nat)
    requires Tabular(t) && n <= |t.main|
    ensures var src := Captured(Items(t), read, select);
            && GoodSpans(t.main[..n]) && Total(SpanItems(t.main[..n])) <= |src|
            && Paired(t.main[..n], src) == RegistersOf(t.main[..n], read, select)
  {
    var rest := Items(t)[|t.main|..];
    assert Items(t)[..|t.main|] == SpanItems(t.main);
    assert Items(t) == SpanItems(t.main) + rest;
    hide Captured, Items, Paired, RegistersOf;
    CapturedConcat(SpanItems(t.main), rest, read, select);
    PairedWithOwn(t.main, n, Captured(Items(t), read, select), read, select);
  }

  /** Of a list of spans each register from the first to the last of a span comes back, with its value, and no other. */
  lemma {:induction false} RegistersAre(spans: seq<Span>, read: Registers, select: u64, r: u32, v: u32)
    requires GoodSpans(spans)
    ensures (r, v) in RegistersOf(spans, read, select) <==>
      v == read(select, r) && exists s <- spans :: s.start <= r <= s.end
    decreases |spans|
  {
    if |spans| != 0 {
      RegistersAre(spans[1..], read, select, r, v);
      OwnAre(spans[0], read, select, r, v);
      assert forall s :: s in spans <==> s == spans[0] || s in spans[1..];
      hide OwnRegisters;
    }
  }

  lemma OwnAre(s: Span, read: Registers, select: u64, r: u32, v: u32)
    requires s.start <= s.end && s.end < 0x10_0000
    ensures (r, v) in OwnRegisters(s, read, select) <==> v == read(select, r) && s.start <= r <= s.end
  {
    var own := OwnRegisters(s, read, select);
    if s.start <= r <= s.end {
      assert own[r - s.start] == (r, read(select, r));
    }
  }

  /** get_hlsq_registers() */
  method GetHlsqRegisters(bank: Bank, offset: nat, src: seq<u32>) returns (out: seq<(u32, u32)>)
    requires offset % 4 == 0 && offset / 4 + bank.size <= |src|
    ensures |out| == bank.size
    ensures forall i :: 0 <= i < bank.size ==> out[i] == (U32(bank.ahbaddr + i), src[offset / 4 + i])
  {
    hide U32;
    out := [];
    for i := 0 to bank.size
      invariant |out| == i && forall k :: 0 <= k < i ==> out[k] == (U32(bank.ahbaddr + k), src[offset / 4 + k])
    {
      out := out + [(U32(bank.ahbaddr + i), src[offset / 4 + i])];
    }
  }

  /** At the offset a table entry was given lie its own registers, read under its own selector. */
  lemma HlsqReadsBack(t: Tables, i: nat, offset: u64, read: Registers, select: u64)
    requires Tabular(t) && i < |t.banks| && OffsetOf(Items(t), |t.main| + |t.gpmu| + BANKS * |t.blocks| + i, offset)
    ensures var src, b := Captured(Items(t), read, select), t.banks[i];
            && offset % 4 == 0 && offset / 4 + b.size <= |src|
            && src[offset / 4..offset / 4 + b.size] == Read(read, b.statetype * 0x100, APERTURE, b.size)
  {
    hide Items, Captured, Read, OffsetOf, Total;
    ItemsAt(t);
    var at, b := |t.main| + |t.gpmu| + BANKS * |t.blocks| + i, t.banks[i];
    assert b in t.banks && Items(t)[at] == BankItem(b);
    SliceReads(Items(t), at, offset, read, select);
  }

  /** Likewise for every bank of a shader block, where the script put it; the stored offset is that of bank 0. */
  lemma ShaderReadsBack(t: Tables, i: nat, j: nat, offset: u64, read: Registers, select: u64)
    requires Tabular(t) && i < |t.blocks| && j < BANKS
        && OffsetOf(Items(t), |t.main| + |t.gpmu| + (BANKS * i + j), offset)
    ensures var src, b := Captured(Items(t), read, select), t.blocks[i];
            && offset % 4 == 0 && offset / 4 + b.sz <= |src|
            && src[offset / 4..offset / 4 + b.sz] == Read(read, b.statetype * 0x100 + j, APERTURE, b.sz)
  {
    hide Items, Captured, Read, OffsetOf, Total;
    ItemsAt(t);
    var at, b := |t.main| + |t.gpmu| + (BANKS * i + j), t.blocks[i];
    assert b in t.blocks && Items(t)[at] == BlockItem(b, j);
    SliceReads(Items(t), at, offset, read, select);
  }

  lemma SliceReads(items: seq<Item>, at: nat, offset: u64, read: Registers, select: u64)
    requires at < |items| && items[at].select.Some? && OffsetOf(items, at, offset)
    ensures var src, item := Captured(items, read, select), items[at];
            && offset % 4 == 0 && offset / 4 + item.count <= |src|
            && src[offset / 4..offset / 4 + item.count] == Read(read, item.select.value, item.reg, item.count)
  {
    hide Captured, Total, LastSelect, Read;
    CaptureAt(items, read, select, at);
    assert offset == 4 * Total(items[..at]);
  }

  /** The reader of the shader banks finds bank 0; it finds a later one exactly if the bank is empty. */
  lemma ShaderBankOffsets(t: Tables, i: nat, j: nat, offset: u64)
    requires Tabular(t) && i < |t.blocks| && j < BANKS && OffsetOf(Items(t), |t.main| + |t.gpmu| + BANKS * i, offset)
    ensures var at, sz := |t.main| + |t.gpmu| + BANKS * i + j, t.blocks[i].sz;
            at <= |Items(t)| && (offset + j * sz == 4 * Total(Items(t)[..at]) <==> j == 0 || sz == 0)
  {
    hide Items, Total;
    ItemsAt(t);
    var items, from, block := Items(t), |t.main| + |t.gpmu| + BANKS * i, t.blocks[i];
    assert block in t.blocks;
    assert items[|t.main| + |t.gpmu| + (BANKS * i + 0)] == BlockItem(block, 0);
    assert items[|t.main| + |t.gpmu| + (BANKS * i + 1)] == BlockItem(block, 1);
    assert items[|t.main| + |t.gpmu| + (BANKS * i + 2)] == BlockItem(block, 2);
    hide *;
    BankTotal(items, from, j, block.sz);
  }

  lemma BankTotal(items: seq<Item>, from: nat, j: nat, sz: nat)
    requires j < BANKS && from + BANKS <= |items|
    requires items[from].count == sz && items[from + 1].count == sz && items[from + 2].count == sz
    ensures Total(items[..from + j]) == Total(items[..from]) + j * sz
  {
    hide Total;
    TotalUpTo(items, from);
    TotalUpTo(items, from + 1);
    TotalUpTo(items, from + 2);
  }
}
