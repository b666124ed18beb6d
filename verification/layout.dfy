/** Offsets, checked sizes and packed words of the shared region
    (`src/protocol/layout.rs`, `src/protocol/region.rs`). `usize` is 64 bits wide. */
module Layout {
  import opened Words

  const HEADER_SIZE: nat := 128
  const TOPIC_ENTRY_SIZE: nat := 128
  const RING_ENTRY_SIZE: nat := 16
  const BLOCK_DATA_OFFSET: nat := 8
  const NO_BLOCK: nat := 0xFFFF_FFFF
  const SEQ_WRITING: nat := 0xFFFF_FFFF_FFFF_FFFF
  const PINNED_WRITER_ACTIVE: nat := 0xFFFF_FFFF

  datatype Config = Config(maxTopics: nat, blockCount: nat, blockSize: nat, ringDepth: nat)

  /** What `Publisher::create` demands of a configuration of `u32` fields. */
  predicate ValidConfig(c: Config) {
    && 0 < c.maxTopics < U32
    && 0 < c.blockCount < U32
    && BLOCK_DATA_OFFSET + 1 <= c.blockSize < U32
    && c.ringDepth < U32
    && IsPowerOfTwo(c.ringDepth)
  }

  // ---- usize arithmetic ----

  function CheckedMul(a: nat, b: nat): Option<nat> {
    if a * b < U64 then Some(a * b) else None
  }

  function CheckedAdd(a: nat, b: nat): Option<nat> {
    if a + b < U64 then Some(a + b) else None
  }

  function WrappingMul(a: nat, b: nat): nat { (a * b) % U64 }

  function WrappingAdd(a: nat, b: nat): nat { (a + b) % U64 }

  // ---- offsets ----

  function TopicEntryOff(idx: nat): nat {
    WrappingAdd(HEADER_SIZE, WrappingMul(idx, TOPIC_ENTRY_SIZE))
  }

  function RingBase(c: Config): nat {
    WrappingAdd(HEADER_SIZE, WrappingMul(c.maxTopics, TOPIC_ENTRY_SIZE))
  }

  function RingEntryOff(c: Config, topic: nat, slot: nat): nat {
    WrappingAdd(
      WrappingAdd(RingBase(c), WrappingMul(WrappingMul(topic, c.ringDepth), RING_ENTRY_SIZE)),
      WrappingMul(slot, RING_ENTRY_SIZE))
  }

  function BlockPoolOffsetChecked(c: Config): Option<nat> {
    match CheckedMul(c.maxTopics, c.ringDepth)
    case None => None
    case Some(slots) =>
      match CheckedMul(slots, RING_ENTRY_SIZE)
      case None => None
      case Some(ringSize) => CheckedAdd(RingBase(c), ringSize)
  }

  function BlockPoolOffset(c: Config): nat {
    WrappingAdd(RingBase(c), WrappingMul(WrappingMul(c.maxTopics, c.ringDepth), RING_ENTRY_SIZE))
  }

  function RegionSizeChecked(c: Config): Option<nat> {
    match BlockPoolOffsetChecked(c)
    case None => None
    case Some(poolOff) =>
      match CheckedMul(c.blockCount, c.blockSize)
      case None => None
      case Some(poolSize) => CheckedAdd(poolOff, poolSize)
  }

  function BlockOff(c: Config, idx: nat): nat {
    WrappingAdd(BlockPoolOffset(c), WrappingMul(idx, c.blockSize))
  }

  // ---- every addressable object of the region ----

  datatype Part = Header | TopicEntry(idx: nat) | RingEntry(topic: nat, slot: nat) | Block(idx: nat)

  predicate ValidPart(c: Config, p: Part) {
    match p
    case Header => true
    case TopicEntry(i) => i < c.maxTopics
    case RingEntry(t, s) => t < c.maxTopics && s < c.ringDepth
    case Block(b) => b < c.blockCount
  }

  function Start(c: Config, p: Part): nat {
    match p
    case Header => 0
    case TopicEntry(i) => TopicEntryOff(i)
    case RingEntry(t, s) => RingEntryOff(c, t, s)
    case Block(b) => BlockOff(c, b)
  }

  function Length(c: Config, p: Part): nat {
    match p
    case Header => HEADER_SIZE
    case TopicEntry(_) => TOPIC_ENTRY_SIZE
    case RingEntry(_, _) => RING_ENTRY_SIZE
    case Block(_) => c.blockSize
  }

  /** Row-major indices are injective and fill exactly `rows * cols` cells. */
  lemma RowMajor(row: nat, col: nat, rows: nat, cols: nat)
    requires row < rows && col < cols
    ensures row * cols + col + 1 <= rows * cols
  {
    MulGap(row, rows, cols);
  }

  lemma RowMajorOrder(r1: nat, c1: nat, r2: nat, c2: nat, cols: nat)
    requires c1 < cols && c2 < cols && (r1 < r2 || (r1 == r2 && c1 < c2))
    ensures r1 * cols + c1 < r2 * cols + c2
  {
    if r1 < r2 {
      MulGap(r1, r2, cols);
    }
  }

  /** The checked and the unchecked pool offset agree, and both are the exact sum, whenever the
      region size computation succeeds. */
  lemma PoolOffsetsAgree(c: Config)
    requires ValidConfig(c) && RegionSizeChecked(c).Some?
    ensures BlockPoolOffsetChecked(c) == Some(BlockPoolOffset(c))
    ensures RingBase(c) == HEADER_SIZE + c.maxTopics * TOPIC_ENTRY_SIZE
    ensures BlockPoolOffset(c) == RingBase(c) + c.maxTopics * c.ringDepth * RING_ENTRY_SIZE
    ensures RegionSizeChecked(c).value == BlockPoolOffset(c) + c.blockCount * c.blockSize
  {
    RingBaseExact(c);
    CheckedSum(RingBase(c), c.maxTopics, c.ringDepth);
  }

  /** The checked pool offset exists exactly if header, topic entries and rings fit 64 bits. */
  lemma PoolOffsetExists(c: Config)
    requires ValidConfig(c)
    ensures var off := 128 + c.maxTopics * 128 + c.maxTopics * c.ringDepth * 16;
            BlockPoolOffsetChecked(c) == if off < U64 then Some(off) else None
  {
    RingBaseExact(c);
    var slots := c.maxTopics * c.ringDepth;
    assert CheckedMul(c.maxTopics, c.ringDepth) == if slots < U64 then Some(slots) else None;
  }

  /** The checked region size exists exactly if the whole region fits 64 bits, and is its size. */
  lemma RegionSizeExists(c: Config)
    requires ValidConfig(c)
    ensures var size := 128 + c.maxTopics * 128 + c.maxTopics * c.ringDepth * 16 + c.blockCount * c.blockSize;
            RegionSizeChecked(c) == if size < U64 then Some(size) else None
  {
    PoolOffsetExists(c);
    var pool := c.blockCount * c.blockSize;
    assert CheckedMul(c.blockCount, c.blockSize) == if pool < U64 then Some(pool) else None;
  }

  lemma RingBaseExact(c: Config)
    requires ValidConfig(c)
    ensures RingBase(c) == HEADER_SIZE + c.maxTopics * TOPIC_ENTRY_SIZE
  {
  }

  lemma CheckedSum(base: nat, rows: nat, cols: nat)
    ensures rows * cols < U64 && rows * cols * RING_ENTRY_SIZE < U64
            && base + rows * cols * RING_ENTRY_SIZE < U64
            ==> WrappingAdd(base, WrappingMul(WrappingMul(rows, cols), RING_ENTRY_SIZE))
                == base + rows * cols * RING_ENTRY_SIZE
  {
    CheckedCells(base, rows * cols);
  }

  lemma CheckedCells(base: nat, cells: nat)
    ensures cells < U64 && cells * RING_ENTRY_SIZE < U64 && base + cells * RING_ENTRY_SIZE < U64
            ==> WrappingAdd(base, WrappingMul(cells % U64, RING_ENTRY_SIZE)) == base + cells * RING_ENTRY_SIZE
  {
  }

  lemma RowOffset(base: nat, t: nat, s: nat, rows: nat, cols: nat)
    requires t < rows && s < cols && base + rows * cols * RING_ENTRY_SIZE < U64
    ensures WrappingAdd(WrappingAdd(base, WrappingMul(WrappingMul(t, cols), RING_ENTRY_SIZE)),
                        WrappingMul(s, RING_ENTRY_SIZE))
         == base + (t * cols + s) * RING_ENTRY_SIZE
         <= base + rows * cols * RING_ENTRY_SIZE - RING_ENTRY_SIZE
  {
    assert t * cols + s + 1 <= rows * cols by { RowMajor(t, s, rows, cols); }
    CellOffset(base, t * cols, s, rows * cols);
  }

  lemma CellOffset(base: nat, row: nat, s: nat, all: nat)
    requires row + s + 1 <= all && base + all * RING_ENTRY_SIZE < U64
    ensures row % U64 == row
    ensures WrappingAdd(WrappingAdd(base, WrappingMul(row, RING_ENTRY_SIZE)), WrappingMul(s, RING_ENTRY_SIZE))
         == base + (row + s) * RING_ENTRY_SIZE <= base + all * RING_ENTRY_SIZE - RING_ENTRY_SIZE
  {
  }

  lemma RingEntryExact(c: Config, t: nat, s: nat)
    requires ValidConfig(c) && RegionSizeChecked(c).Some?
    requires t < c.maxTopics && s < c.ringDepth
    ensures RingEntryOff(c, t, s) == RingBase(c) + (t * c.ringDepth + s) * RING_ENTRY_SIZE
    ensures RingBase(c) <= RingEntryOff(c, t, s) && RingEntryOff(c, t, s) + RING_ENTRY_SIZE <= BlockPoolOffset(c)
  {
    PoolOffsetsAgree(c);
    RowOffset(RingBase(c), t, s, c.maxTopics, c.ringDepth);
  }

  lemma BlockExact(c: Config, b: nat)
    requires ValidConfig(c) && RegionSizeChecked(c).Some?
    requires b < c.blockCount
    ensures BlockOff(c, b) == BlockPoolOffset(c) + b * c.blockSize
    ensures BlockPoolOffset(c) <= BlockOff(c, b) && BlockOff(c, b) + c.blockSize <= RegionSizeChecked(c).value
  {
    PoolOffsetsAgree(c);
    MulGap(b, c.blockCount, c.blockSize);
    NoWrap(BlockPoolOffset(c), b * c.blockSize, c.blockCount * c.blockSize);
  }

  lemma NoWrap(base: nat, off: nat, all: nat)
    requires off <= all && base + all < U64
    ensures (base + off % U64) % U64 == base + off
  {
  }

  lemma SectionOrder(c: Config)
    requires ValidConfig(c) && RegionSizeChecked(c).Some?
    ensures RingBase(c) == HEADER_SIZE + c.maxTopics * TOPIC_ENTRY_SIZE
    ensures RingBase(c) <= BlockPoolOffset(c) <= RegionSizeChecked(c).value < U64
  {
    PoolOffsetsAgree(c);
  }

  /** First and last-plus-one byte of the section holding an object's kind. */
  function SectionStart(c: Config, p: Part): nat {
    match p
    case Header => 0
    case TopicEntry(_) => HEADER_SIZE
    case RingEntry(_, _) => RingBase(c)
    case Block(_) => BlockPoolOffset(c)
  }

  function SectionEnd(c: Config, p: Part): nat
    requires RegionSizeChecked(c).Some?
  {
    match p
    case Header => HEADER_SIZE
    case TopicEntry(_) => RingBase(c)
    case RingEntry(_, _) => BlockPoolOffset(c)
    case Block(_) => RegionSizeChecked(c).value
  }

  lemma PartInSection(c: Config, p: Part)
    requires ValidConfig(c) && RegionSizeChecked(c).Some?
    requires ValidPart(c, p)
    ensures SectionStart(c, p) <= Start(c, p) && Start(c, p) + Length(c, p) <= SectionEnd(c, p)
  {
    match p
    case Header =>
    case TopicEntry(i) =>
      TopicInSection(c, i);
    case RingEntry(t, s) =>
      RingEntryExact(c, t, s);
    case Block(b) =>
      BlockExact(c, b);
  }

  lemma TopicInSection(c: Config, i: nat)
    requires ValidConfig(c) && RegionSizeChecked(c).Some? && i < c.maxTopics
    ensures HEADER_SIZE <= TopicEntryOff(i) && TopicEntryOff(i) + TOPIC_ENTRY_SIZE <= RingBase(c)
  {
    SectionOrder(c);
    TopicEntryExact(i);
  }

  lemma TopicEntryExact(i: nat)
    requires i < U32
    ensures TopicEntryOff(i) == HEADER_SIZE + i * TOPIC_ENTRY_SIZE
  {
  }

  /** No computed offset wraps, and every object lies inside the region. */
  lemma PartsInside(c: Config, p: Part)
    requires ValidConfig(c) && RegionSizeChecked(c).Some?
    requires ValidPart(c, p)
    ensures Start(c, p) + Length(c, p) <= RegionSizeChecked(c).value < U64
  {
    SectionOrder(c);
    PartInSection(c, p);
  }

  /** Position of an object in address order: by kind, then by index. */
  ghost predicate Before(p: Part, q: Part) {
    match (p, q)
    case (Header, _) => !q.Header?
    case (TopicEntry(i), TopicEntry(j)) => i < j
    case (TopicEntry(_), RingEntry(_, _)) => true
    case (TopicEntry(_), Block(_)) => true
    case (RingEntry(t, s), RingEntry(t', s')) => t < t' || (t == t' && s < s')
    case (RingEntry(_, _), Block(_)) => true
    case (Block(i), Block(j)) => i < j
    case _ => false
  }

  lemma BeforeEndsFirst(c: Config, p: Part, q: Part)
    requires ValidConfig(c) && RegionSizeChecked(c).Some?
    requires ValidPart(c, p) && ValidPart(c, q) && Before(p, q)
    ensures Start(c, p) + Length(c, p) <= Start(c, q)
  {
    if p.TopicEntry? && q.TopicEntry? {
      TopicEntryExact(p.idx);
      TopicEntryExact(q.idx);
    } else if p.RingEntry? && q.RingEntry? {
      RingEntriesApart(c, p.topic, p.slot, q.topic, q.slot);
    } else if p.Block? {
      BlocksApart(c, p.idx, q.idx);
    } else {
      SectionOrder(c);
      PartInSection(c, p);
      PartInSection(c, q);
    }
  }

  lemma BlocksApart(c: Config, b: nat, b': nat)
    requires ValidConfig(c) && RegionSizeChecked(c).Some? && b < b' < c.blockCount
    ensures BlockOff(c, b) + c.blockSize <= BlockOff(c, b')
  {
    BlockExact(c, b);
    BlockExact(c, b');
    MulGap(b, b', c.blockSize);
  }

  lemma RingEntriesApart(c: Config, t: nat, s: nat, t': nat, s': nat)
    requires ValidConfig(c) && RegionSizeChecked(c).Some?
    requires t < c.maxTopics && s < c.ringDepth && t' < c.maxTopics && s' < c.ringDepth
    requires t < t' || (t == t' && s < s')
    ensures RingEntryOff(c, t, s) + RING_ENTRY_SIZE <= RingEntryOff(c, t', s')
  {
    RingEntryExact(c, t, s);
    RingEntryExact(c, t', s');
    RowMajorOrder(t, s, t', s', c.ringDepth);
  }

  /** Header, topic entries, ring entries and blocks never overlap. */
  lemma PartsDisjoint(c: Config, p: Part, q: Part)
    requires ValidConfig(c) && RegionSizeChecked(c).Some?
    requires ValidPart(c, p) && ValidPart(c, q) && p != q
    ensures Start(c, p) + Length(c, p) <= Start(c, q) || Start(c, q) + Length(c, q) <= Start(c, p)
  {
    if Before(p, q) {
      BeforeEndsFirst(c, p, q);
    } else {
      BeforeEndsFirst(c, q, p);
    }
  }

  // ---- the Treiber head word ----

  function Pack(gen: nat, idx: nat): nat
    requires gen < U32 && idx < U32
  {
    BitOr((gen * U32) % U64, idx)
  }

  function Unpack(val: nat): (nat, nat) {
    ((val / U32) % U32, val % U32)
  }

  lemma PackExact(gen: nat, idx: nat)
    requires gen < U32 && idx < U32
    ensures Pack(gen, idx) == gen * U32 + idx
    ensures Unpack(Pack(gen, idx)) == (gen, idx)
  {
    HighHalf(gen, idx);
    assert (gen * U32) % U64 == gen * U32;
    UnpackExact(gen, idx);
  }

  lemma HighHalf(gen: nat, idx: nat)
    requires idx < U32
    ensures BitOr(gen * U32, idx) == gen * U32 + idx
  {
    Pow2Of32();
    ShiftIs(gen, 32);
    OrDisjoint(gen, idx, 32);
  }

  /** Comparing packed head words is comparing (generation, index) pairs. */
  lemma PackInjective(gen: nat, idx: nat, gen': nat, idx': nat)
    requires gen < U32 && idx < U32 && gen' < U32 && idx' < U32
    ensures Pack(gen, idx) == Pack(gen', idx') <==> gen == gen' && idx == idx'
  {
    PackExact(gen, idx);
    PackExact(gen', idx');
  }

  lemma UnpackExact(gen: nat, idx: nat)
    requires gen < U32 && idx < U32
    ensures Unpack(gen * U32 + idx) == (gen, idx)
  {
  }

  // ---- uri_hash ----

  type Bytes = seq<Byte>
  newtype Byte = x: int | 0 <= x < 256

  const FNV_OFFSET: nat := 0xcbf2_9ce4_8422_2325
  const FNV_PRIME: nat := 0x0100_0000_01b3

  /** FNV-1a, folded from the left over the bytes. */
  function Fnv1a(uri: Bytes): nat {
    if uri == [] then FNV_OFFSET
    else (BitXor(Fnv1a(uri[..|uri| - 1]), uri[|uri| - 1] as nat) * FNV_PRIME) % U64
  }

  /** The inverse of the prime modulo 2^64. */
  const FNV_PRIME_INVERSE: nat := 0xce96_5057_aff6_957b

  /** The hash before the last byte, recovered from the hash and that byte. */
  function UnFold(h: nat, b: Byte): nat { BitXor((h * FNV_PRIME_INVERSE) % U64, b as nat) }

  lemma PrimeInverts(x: nat)
    requires x < U64
    ensures (((x * FNV_PRIME) % U64) * FNV_PRIME_INVERSE) % U64 == x
  {
    var y := x * FNV_PRIME;
    var q, r := y / U64, y % U64;
    var k := (FNV_PRIME * FNV_PRIME_INVERSE - 1) / U64;
    assert FNV_PRIME * FNV_PRIME_INVERSE == k * U64 + 1;
    assert r * FNV_PRIME_INVERSE == (x * k - q * FNV_PRIME_INVERSE) * U64 + x;
    ResidueIs(r * FNV_PRIME_INVERSE, x * k - q * FNV_PRIME_INVERSE, x);
  }

  lemma ResidueIs(n: nat, q: int, r: nat)
    requires n == q * U64 + r && r < U64
    ensures n % U64 == r
  {
  }

  lemma FoldBound(uri: Bytes)
    ensures Fnv1a(uri) < U64
  {
  }

  /** Each byte can be folded back out: the hash and the last byte give the hash of the text before. */
  lemma FoldBack(uri: Bytes, b: Byte)
    ensures UnFold(Fnv1a(uri + [b]), b) == Fnv1a(uri)
  {
    FoldBound(uri);
    var h := Fnv1a(uri);
    assert (uri + [b])[..|uri|] == uri;
    XorBound(h, b as nat);
    PrimeInverts(BitXor(h, b as nat));
    XorTwice(h, b as nat);
  }

  /** Known hashes: the empty text and "a". */
  lemma KnownHashes()
    ensures Fnv1a([]) == 0xcbf2_9ce4_8422_2325
    ensures Fnv1a([0x61]) == 0xaf63_dc4c_8601_ec8c
  {
    OneByte(0x61);
    XorLow(0xcb_f29c_e484_2223, 0x25, 0x61);
    SmallXor();
    LiteralProduct();
  }

  lemma OneByte(b: Byte)
    ensures Fnv1a([b]) == (BitXor(FNV_OFFSET, b as nat) * FNV_PRIME) % U64
  {
    assert [b][..0] == [];
  }

  lemma SmallXor()
    ensures BitXor(0x25, 0x61) == 0x44
  {
  }

  lemma LiteralProduct()
    ensures (0xcbf2_9ce4_8422_2344 * FNV_PRIME) % U64 == 0xaf63_dc4c_8601_ec8c
  {
  }

  lemma XorLow(hi: nat, x: nat, y: nat)
    requires x < 256 && y < 256
    ensures BitXor(hi * 256 + x, y) == hi * 256 + BitXor(x, y)
  {
    assert Pow2(8) == 256;
    ShiftIs(hi, 8);
    XorHigh(hi, x, y, 8);
  }

  method UriHash(uri: Bytes) returns (h: nat)
    ensures h == Fnv1a(uri) && h < U64
  {
    h := FNV_OFFSET;
    for i := 0 to |uri|
      invariant h == Fnv1a(uri[..i]) && h < U64
    {
      assert uri[..i + 1][..i] == uri[..i];
      h := BitXor(h, uri[i] as nat);
      h := (h * FNV_PRIME) % U64;
    }
    assert uri[..|uri|] == uri;
  }
}
