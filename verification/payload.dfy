/** Payloads: the buffer of a `Loan` (`src/platform/loan.rs`) and the typed reads of a `Sample`
    (`src/platform/subscription.rs`).

    A plain-data value is the sequence of its bytes. Addresses matter only for alignment. The
    capacity of a block is below 2^32, as its size is a `u32`. */
module Payload {
  import opened Words
  import opened Layout

  const STREAM_THRESHOLD: nat := 2_097_152
  const COUNT_SIZE: nat := 4

  /** A plain-data type: its size and alignment. */
  datatype Pod = Pod(size: nat, align: nat)

  /** `len` bytes of a published block, mapped at `addr`. */
  datatype Sample = Sample(addr: nat, bytes: Bytes)

  datatype Written = Ok(n: nat) | DataTooLarge(size: nat, capacity: nat) | WriteZero

  predicate IsPod(t: Pod) { 0 < t.align }

  predicate AllOf(entries: seq<Bytes>, t: Pod) {
    forall k :: 0 <= k < |entries| ==> |entries[k]| == t.size
  }

  // ---- little-endian counts ----

  function LeBytes(n: nat): (b: Bytes)
    requires n < U32
    ensures |b| == COUNT_SIZE
  {
    [(n % 256) as Byte, ((n / 0x100) % 256) as Byte, ((n / 0x1_0000) % 256) as Byte, (n / 0x100_0000) as Byte]
  }

  function LeValue(b: Bytes): nat
    requires |b| == COUNT_SIZE
  {
    b[0] as nat + 0x100 * (b[1] as nat) + 0x1_0000 * (b[2] as nat) + 0x100_0000 * (b[3] as nat)
  }

  lemma CountRoundTrip(n: nat)
    requires n < U32
    ensures LeValue(LeBytes(n)) == n
  {
    var a, b := n / 0x100, n / 0x1_0000;
    assert n == 0x100 * a + n % 256;
    assert a == 0x100 * (a / 256) + a % 256 && a / 256 == b;
    assert b == 0x100 * (b / 256) + b % 256 && b / 256 == n / 0x100_0000;
  }

  /** Least significant byte first. */
  lemma LeBytesAre(n: nat, k: nat)
    requires n < U32 && k < COUNT_SIZE
    ensures LeBytes(n)[k] as nat == (n / Pow2(8 * k)) % 256
  {
    assert Pow2(8) == 256;
    Pow2Sum(8, 8);
    Pow2Sum(16, 8);
    if k == 3 { assert (n / 0x100_0000) % 256 == n / 0x100_0000; }
  }

  // ---- arrays of entries ----

  function Flatten(entries: seq<Bytes>): Bytes {
    if entries == [] then [] else Flatten(entries[..|entries| - 1]) + entries[|entries| - 1]
  }

  /** The first `count` entries of `size` bytes. */
  function Split(bytes: Bytes, size: nat, count: nat): seq<Bytes>
    requires count * size <= |bytes|
  {
    if count == 0 then []
    else
      MulStep(count - 1, size);
      Split(bytes, size, count - 1) + [bytes[(count - 1) * size..(count - 1) * size + size]]
  }

  lemma MulStep(n: nat, size: nat)
    ensures (n + 1) * size == n * size + size
  {
  }

  lemma {:induction false} FlattenLength(entries: seq<Bytes>, t: Pod)
    requires AllOf(entries, t)
    ensures |Flatten(entries)| == |entries| * t.size
  {
    if entries != [] {
      FlattenLength(entries[..|entries| - 1], t);
      MulStep(|entries| - 1, t.size);
    }
  }

  lemma {:induction false} SplitPrefix(bytes: Bytes, more: Bytes, size: nat, count: nat)
    requires count * size <= |bytes|
    ensures Split(bytes + more, size, count) == Split(bytes, size, count)
  {
    if count > 0 {
      MulStep(count - 1, size);
      SplitPrefix(bytes, more, size, count - 1);
      var a := (count - 1) * size;
      assert (bytes + more)[a..a + size] == bytes[a..a + size];
    }
  }

  lemma {:induction false} SplitFlatten(entries: seq<Bytes>, t: Pod)
    requires AllOf(entries, t) && |Flatten(entries)| == |entries| * t.size
    ensures Split(Flatten(entries), t.size, |entries|) == entries
  {
    if entries != [] {
      var n := |entries| - 1;
      var front := Flatten(entries[..n]);
      FlattenLength(entries[..n], t);
      SplitFlatten(entries[..n], t);
      MulStep(n, t.size);
      SplitPrefix(front, entries[n], t.size, n);
      assert Flatten(entries)[n * t.size..n * t.size + t.size] == entries[n];
      assert entries == entries[..n] + [entries[n]];
    }
  }

  lemma {:induction false} SplitLength(bytes: Bytes, size: nat, count: nat)
    requires count * size <= |bytes|
    ensures |Split(bytes, size, count)| == count
  {
    if count > 0 {
      MulStep(count - 1, size);
      SplitLength(bytes, size, count - 1);
    }
  }

  lemma {:induction false} SplitAt(bytes: Bytes, size: nat, count: nat, k: nat)
    requires count * size <= |bytes| && k < count
    ensures |Split(bytes, size, count)| == count && k * size + size <= |bytes|
    ensures Split(bytes, size, count)[k] == bytes[k * size..k * size + size]
  {
    MulStep(count - 1, size);
    MulGap(k, count, size);
    SplitLength(bytes, size, count);
    if k < count - 1 {
      SplitLength(bytes, size, count - 1);
      SplitAt(bytes, size, count - 1, k);
    }
  }

  // ---- reading ----

  function ReadHeader(s: Sample, t: Pod): Option<Bytes>
    requires IsPod(t)
  {
    if |s.bytes| < t.size || s.addr % t.align != 0 then None else Some(s.bytes[..t.size])
  }

  /** `usize` multiplication. */
  function Mul64(a: nat, b: nat): nat { (a * b) % U64 }

  function ReadArray(s: Sample, t: Pod, e: Pod): Option<seq<Bytes>>
    requires IsPod(e)
  {
    var len := |s.bytes|;
    if len < t.size + COUNT_SIZE then None
    else
      var count := LeValue(s.bytes[len - COUNT_SIZE..]);
      if t.size + Mul64(count, e.size) + COUNT_SIZE != len || (s.addr + t.size) % e.align != 0 then None
      else if count * e.size <= len - t.size then Some(Split(s.bytes[t.size..], e.size, count))
      else None
  }

  // ---- writing ----

  /** What `write_structured` puts in the block: header, entries, entry count. */
  function Structured(header: Bytes, entries: seq<Bytes>): Bytes {
    header + Flatten(entries) + LeBytes(|entries| % U32)
  }

  class Loan {
    const addr: nat
    const data: array<Byte>
    var len: nat

    ghost predicate Valid()
      reads this
    {
      len <= data.Length < U32
    }

    /** The bytes a subscriber will see. */
    ghost function Contents(): Bytes
      requires Valid()
      reads this, data
    {
      data[..len]
    }

    constructor (address: nat, block: array<Byte>)
      requires block.Length < U32
      ensures Valid() && addr == address && data == block && len == 0
    {
      addr, data, len := address, block, 0;
    }

    method SetData(bytes: Bytes) returns (r: Written)
      requires Valid()
      modifies this`len, data
      ensures Valid()
      ensures if |bytes| > data.Length then r == DataTooLarge(|bytes|, data.Length) && Contents() == old(Contents())
              else r == Ok(|bytes|) && Contents() == bytes
      ensures data[len..] == old(data[..])[len..]
    {
      if |bytes| > data.Length { return DataTooLarge(|bytes|, data.Length); }
      if |bytes| >= STREAM_THRESHOLD {
        NontemporalCopy(bytes, data, addr);
      } else {
        CopyBytes(bytes, data, 0);
      }
      len := |bytes|;
      r := Ok(|bytes|);
    }

    method SetLen(n: nat) returns (r: Written)
      requires Valid()
      modifies this`len
      ensures Valid()
      ensures if n > data.Length then r == DataTooLarge(n, data.Length) && Contents() == old(Contents())
              else r == Ok(n) && Contents() == data[..n]
    {
      if n > data.Length { return DataTooLarge(n, data.Length); }
      len := n;
      r := Ok(n);
    }

    method WriteStructured(header: Bytes, entries: seq<Bytes>, e: Pod) returns (r: Written)
      requires Valid() && AllOf(entries, e)
      modifies this`len, data
      ensures Valid()
      ensures var total := |header| + |entries| * e.size + COUNT_SIZE;
              if total > data.Length then
                r == DataTooLarge(total, data.Length) && len == old(len) && data[..] == old(data[..])
              else r == Ok(total) && Contents() == Structured(header, entries)
    {
      var arraySize := |entries| * e.size;
      var total := |header| + arraySize + COUNT_SIZE;
      FlattenLength(entries, e);
      if total > data.Length { return DataTooLarge(total, data.Length); }
      CopyBytes(header, data, 0);
      if entries != [] { CopyBytes(Flatten(entries), data, |header|); }
      CopyBytes(LeBytes(|entries| % U32), data, |header| + arraySize);
      assert data[..total] == Structured(header, entries);
      r := SetLen(total);
    }

    /** Appends what fits. */
    method Write(buf: Bytes) returns (r: Written)
      requires Valid()
      modifies this`len, data
      ensures Valid()
      ensures var n := if |buf| < data.Length - old(len) then |buf| else data.Length - old(len);
              && Contents() == old(Contents()) + buf[..n]
              && r == (if n == 0 && buf != [] then WriteZero else Ok(n))
    {
      var remaining := data.Length - len;
      if remaining == 0 && buf != [] { return WriteZero; }
      var n := if |buf| < remaining then |buf| else remaining;
      CopyBytes(buf[..n], data, len);
      len := len + n;
      r := Ok(n);
    }
  }

  // ---- copying ----

  /** `bytes` placed over `target` at `at`. */
  function Overlay(target: Bytes, at: nat, bytes: Bytes): (r: Bytes)
    requires at + |bytes| <= |target|
    ensures |r| == |target|
  {
    target[..at] + bytes + target[at + |bytes|..]
  }

  method CopyBytes(src: Bytes, dst: array<Byte>, at: nat)
    requires at + |src| <= dst.Length
    modifies dst
    ensures dst[..] == Overlay(old(dst[..]), at, src)
  {
    forall k | 0 <= k < |src| { dst[at + k] := src[k]; }
  }

  /** A 16-byte streaming store: the destination must be 16-byte aligned. */
  method StreamStore(chunk: Bytes, dst: array<Byte>, addr: nat, at: nat)
    requires |chunk| == 16 && at + 16 <= dst.Length && (addr + at) % 16 == 0
    modifies dst
    ensures dst[..] == Overlay(old(dst[..]), at, chunk)
  {
    CopyBytes(chunk, dst, at);
  }

  /** Head, aligned 16-byte chunks and tail together are one plain copy, for every length and
      every destination alignment. */
  method NontemporalCopy(src: Bytes, dst: array<Byte>, addr: nat)
    requires |src| <= dst.Length
    modifies dst
    ensures dst[..] == Overlay(old(dst[..]), 0, src)
  {
    ghost var target := dst[..];
    var len := |src|;
    var offset := CopyHead(src, dst, addr);
    while offset + 16 <= len
      invariant offset <= len
      invariant offset + 16 <= len ==> (addr + offset) % 16 == 0
      invariant dst[..] == Overlay(target, 0, src[..offset])
    {
      StreamStore(src[offset..offset + 16], dst, addr, offset);
      OverlayNext(target, src, offset, offset + 16);
      offset := offset + 16;
    }
    if offset < len {
      CopyBytes(src[offset..], dst, offset);
      OverlayNext(target, src, offset, len);
    }
    assert src[..len] == src;
  }

  /** Copies up to the first 16-byte boundary of the destination. */
  method CopyHead(src: Bytes, dst: array<Byte>, addr: nat) returns (offset: nat)
    requires |src| <= dst.Length
    modifies dst
    ensures offset <= |src| && (offset < |src| ==> (addr + offset) % 16 == 0)
    ensures dst[..] == Overlay(old(dst[..]), 0, src[..offset])
  {
    offset := (16 - addr % 16) % 16;
    Aligned(addr);
    if offset > |src| { offset := |src|; }
    if offset > 0 { CopyBytes(src[..offset], dst, 0); }
  }

  lemma Aligned(addr: nat)
    ensures (addr + (16 - addr % 16) % 16) % 16 == 0
  {
  }

  /** Two adjacent pieces of a copy are one. */
  lemma OverlayNext(target: Bytes, src: Bytes, a: nat, b: nat)
    requires a <= b <= |src| <= |target|
    ensures Overlay(Overlay(target, 0, src[..a]), a, src[a..b]) == Overlay(target, 0, src[..b])
  {
    assert src[..b] == src[..a] + src[a..b];
  }

  // ---- what is read, whoever wrote it ----

  /** A header is read exactly if the sample is long enough and aligned, and is its first bytes. */
  lemma ReadHeaderExact(s: Sample, t: Pod)
    requires IsPod(t)
    ensures ReadHeader(s, t).Some? <==> t.size <= |s.bytes| && s.addr % t.align == 0
    ensures ReadHeader(s, t).Some? ==> ReadHeader(s, t).value + s.bytes[t.size..] == s.bytes
  {
  }

  /** The entry count in the last four bytes. */
  function StoredCount(s: Sample): nat
    requires COUNT_SIZE <= |s.bytes|
  {
    LeValue(s.bytes[|s.bytes| - COUNT_SIZE..])
  }

  /** Header, as many entries as the stored count says, and the count fill the sample, and the
      entries are aligned. */
  predicate WellFormed(s: Sample, t: Pod, e: Pod)
    requires IsPod(e)
  {
    && t.size + COUNT_SIZE <= |s.bytes|
    && t.size + StoredCount(s) * e.size + COUNT_SIZE == |s.bytes|
    && (s.addr + t.size) % e.align == 0
  }

  /** An array is read exactly from a well-formed sample, and entry `k` is then its bytes at `k` entry
      sizes behind the header. */
  lemma ReadArrayExact(s: Sample, t: Pod, e: Pod)
    requires IsPod(e) && |s.bytes| < U64
    ensures ReadArray(s, t, e).Some? <==> WellFormed(s, t, e)
    ensures ReadArray(s, t, e).Some? ==> COUNT_SIZE <= |s.bytes| && EntriesAre(s, t, e, ReadArray(s, t, e).value)
  {
    if WellFormed(s, t, e) { ReadWellFormed(s, t, e); } else { ReadMalformed(s, t, e); }
  }

  lemma ReadWellFormed(s: Sample, t: Pod, e: Pod)
    requires IsPod(e) && |s.bytes| < U64 && WellFormed(s, t, e)
    ensures ReadArray(s, t, e).Some? && EntriesAre(s, t, e, ReadArray(s, t, e).value)
  {
    var count, tail := StoredCount(s), s.bytes[t.size..];
    ReadCounted(s, t, e, tail, count);
    SplitIsEntries(s, t, e, tail, count);
  }

  lemma SplitIsEntries(s: Sample, t: Pod, e: Pod, tail: Bytes, count: nat)
    requires COUNT_SIZE <= |s.bytes| && count == StoredCount(s) && t.size <= |s.bytes| && tail == s.bytes[t.size..]
    requires count * e.size <= |tail|
    ensures EntriesAre(s, t, e, Split(tail, e.size, count))
  {
    SplitLength(tail, e.size, count);
    forall k | 0 <= k < count ensures EntryIs(s, t, e, k, Split(tail, e.size, count)[k]) {
      SplitAt(tail, e.size, count, k);
      SliceOfTail(s.bytes, t.size, k * e.size, e.size);
    }
  }

  lemma SliceOfTail(b: Bytes, skip: nat, at: nat, n: nat)
    requires skip + at + n <= |b|
    ensures b[skip..][at..at + n] == b[skip + at..skip + at + n]
  {
  }

  lemma ReadMalformed(s: Sample, t: Pod, e: Pod)
    requires IsPod(e) && |s.bytes| < U64 && !WellFormed(s, t, e)
    ensures ReadArray(s, t, e).None?
  {
    if t.size + COUNT_SIZE <= |s.bytes| && t.size + StoredCount(s) * e.size + COUNT_SIZE != |s.bytes| {
      WrongCount(StoredCount(s) * e.size, |s.bytes| - t.size);
    }
  }

  predicate EntriesAre(s: Sample, t: Pod, e: Pod, entries: seq<Bytes>)
    requires COUNT_SIZE <= |s.bytes|
  {
    |entries| == StoredCount(s) && forall k :: 0 <= k < |entries| ==> EntryIs(s, t, e, k, entries[k])
  }

  predicate EntryIs(s: Sample, t: Pod, e: Pod, k: nat, entry: Bytes) {
    var from := t.size + k * e.size;
    from + e.size <= |s.bytes| && entry == s.bytes[from..from + e.size]
  }

  /** A product that only matches after wrapping is too large for the sample. */
  lemma WrongCount(size: nat, room: nat)
    requires size + COUNT_SIZE != room && room < U64
    ensures size % U64 + COUNT_SIZE == room ==> size > room
  {
  }

  /** Where `write_structured` puts entry `k`. */
  lemma EntryAt(header: Bytes, entries: seq<Bytes>, e: Pod, k: nat)
    requires AllOf(entries, e) && k < |entries|
    ensures EntryIs(Sample(0, Structured(header, entries)), Pod(|header|, 1), e, k, entries[k])
  {
    FlattenLength(entries, e);
    SplitFlatten(entries, e);
    SplitAt(Flatten(entries), e.size, |entries|, k);
    SliceOfMiddle(header, Flatten(entries), LeBytes(|entries| % U32), k * e.size, e.size);
  }

  lemma SliceOfMiddle(a: Bytes, b: Bytes, c: Bytes, at: nat, n: nat)
    requires at + n <= |b|
    ensures (a + b + c)[|a| + at..|a| + at + n] == b[at..at + n]
  {
  }

  // ---- round trip ----

  /** Reading the header back succeeds exactly when the mapping is aligned for its type. */
  lemma HeaderRoundTrip(addr: nat, header: Bytes, t: Pod, entries: seq<Bytes>)
    requires IsPod(t) && |header| == t.size
    ensures ReadHeader(Sample(addr, Structured(header, entries)), t) == Some(header) <==> addr % t.align == 0
  {
    assert Structured(header, entries)[..t.size] == header;
  }

  /** What the reader sees of a structured payload. */
  lemma Parts(header: Bytes, entries: seq<Bytes>, e: Pod) returns (tail: Bytes)
    requires AllOf(entries, e)
    ensures var b := Structured(header, entries);
            && |b| == |header| + |entries| * e.size + COUNT_SIZE && |tail| == COUNT_SIZE
            && LeValue(b[|b| - COUNT_SIZE..]) == |entries| % U32 && b[|header|..] == Flatten(entries) + tail
  {
    FlattenLength(entries, e);
    var b := Structured(header, entries);
    tail := LeBytes(|entries| % U32);
    assert b[|b| - COUNT_SIZE..] == tail;
    CountRoundTrip(|entries| % U32);
  }

  lemma SplitBack(entries: seq<Bytes>, e: Pod, tail: Bytes)
    requires AllOf(entries, e) && |entries| * e.size <= |Flatten(entries) + tail|
    ensures Split(Flatten(entries) + tail, e.size, |entries|) == entries
  {
    FlattenLength(entries, e);
    SplitFlatten(entries, e);
    SplitPrefix(Flatten(entries), tail, e.size, |entries|);
  }

  /** Reading the entries back returns them exactly when the array is aligned for its type and
      their number fits the stored 32-bit count; the latter can only fail for zero-sized entries. */
  lemma ArrayRoundTrip(addr: nat, header: Bytes, t: Pod, entries: seq<Bytes>, e: Pod)
    requires IsPod(t) && IsPod(e) && |header| == t.size && AllOf(entries, e)
    requires t.size + |entries| * e.size + COUNT_SIZE < U32
    ensures ReadArray(Sample(addr, Structured(header, entries)), t, e) == Some(entries) <==>
            (addr + t.size) % e.align == 0 && (0 < e.size || |entries| < U32)
  {
    var tail := Parts(header, entries, e);
    FlattenLength(entries, e);
    var s := Sample(addr, Structured(header, entries));
    assert Holds(s, t, entries, e, tail);
    if 0 < e.size || |entries| < U32 {
      ReadFitting(s, t, entries, e, tail);
    } else {
      ReadTruncated(s, t, entries, e, tail);
    }
  }

  /** A structured payload as the reader finds it: entries, then their number. */
  predicate Holds(s: Sample, t: Pod, entries: seq<Bytes>, e: Pod, tail: Bytes) {
    && IsPod(e) && AllOf(entries, e) && |tail| == COUNT_SIZE && |entries| * e.size + COUNT_SIZE < U32
    && t.size <= |s.bytes| && s.bytes[t.size..] == Flatten(entries) + tail
    && |Flatten(entries)| == |entries| * e.size && LeValue(s.bytes[|s.bytes| - COUNT_SIZE..]) == |entries| % U32
  }

  lemma ReadFitting(s: Sample, t: Pod, entries: seq<Bytes>, e: Pod, tail: Bytes)
    requires Holds(s, t, entries, e, tail) && (0 < e.size || |entries| < U32)
    ensures ReadArray(s, t, e) == if (s.addr + t.size) % e.align == 0 then Some(entries) else None
  {
    CountFits(|entries|, e.size);
    ReadCounted(s, t, e, Flatten(entries) + tail, |entries|);
    SplitBack(entries, e, tail);
  }

  lemma ReadTruncated(s: Sample, t: Pod, entries: seq<Bytes>, e: Pod, tail: Bytes)
    requires Holds(s, t, entries, e, tail) && e.size == 0 && |entries| >= U32
    ensures ReadArray(s, t, e) != Some(entries)
  {
    ReadCounted(s, t, e, Flatten(entries) + tail, |entries| % U32);
    SplitLength(Flatten(entries) + tail, 0, |entries| % U32);
  }

  /** A sample whose count matches its size reads as that many entries, if aligned. */
  lemma ReadCounted(s: Sample, t: Pod, e: Pod, tail: Bytes, count: nat)
    requires IsPod(e) && t.size <= |s.bytes| && s.bytes[t.size..] == tail && count * e.size + COUNT_SIZE == |tail| < U64
    requires LeValue(s.bytes[|s.bytes| - COUNT_SIZE..]) == count
    ensures ReadArray(s, t, e) == if (s.addr + t.size) % e.align == 0 then Some(Split(tail, e.size, count)) else None
  {
    assert Mul64(count, e.size) == count * e.size;
  }

  lemma CountFits(n: nat, size: nat)
    requires n * size < U32 && (0 < size || n < U32)
    ensures n < U32 && Mul64(n, size) == n * size
  {
    if 0 < size { MulLe(1, size, n); }
  }

  /** Zero-sized entries: their number is cut to 32 bits, and the reader accepts that number. */
  lemma ZeroSizedCount(addr: nat, header: Bytes, t: Pod, entries: seq<Bytes>, e: Pod)
    requires IsPod(e) && |header| == t.size && AllOf(entries, e) && e.size == 0 && (addr + t.size) % e.align == 0
    ensures var r := ReadArray(Sample(addr, Structured(header, entries)), t, e); r.Some? && |r.value| == |entries| % U32
  {
    var tail := Parts(header, entries, e);
    FlattenLength(entries, e);
    var s := Sample(addr, Structured(header, entries));
    ReadCounted(s, t, e, Flatten(entries) + tail, |entries| % U32);
    SplitLength(Flatten(entries) + tail, 0, |entries| % U32);
  }

  /** 2^32 unit entries read back as none. */
  lemma ZeroSizedEntriesAreLost(entries: seq<Bytes>, unit: Pod)
    requires unit == Pod(0, 1) && AllOf(entries, unit) && |entries| == U32
    ensures ReadArray(Sample(0, Structured([], entries)), unit, unit) == Some([])
  {
    ZeroSizedCount(0, [], unit, entries, unit);
  }
}
