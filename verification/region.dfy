/** The region, its publishers and its streams as objects: whole calls of `Publisher`, `Loan`,
    `Stream` and `Sample`. Shared memory is an object of arrays; a ghost `run` of the step
    protocol ends in the state the arrays show, so every call is a sequence of protocol steps
    and everything proved about runs holds of the objects.

    Inside one call nobody else moves; interleavings are the subject of `Ring`. The pool is
    used through whole push and pop (`FreeList`). */
module Shm {
  import opened Words
  import opened Layout
  import opened Ring
  import opened RingInv
  import opened RingSafety
  import opened RingOps

  // ---- shared memory ----

  ghost function FreshState(depth: nat, creatorTopic: seq<bool>, writeSeq: seq<nat>, refcount: seq<nat>,
                            bytes: seq<Bytes>, pool: seq<nat>): State
  {
    var ring := seq(depth, _ => Entry(0, NO_BLOCK, 0));
    State(depth, 0, creatorTopic, seq(|creatorTopic|, _ => ring), writeSeq, refcount, bytes, pool,
          [Pub(true, [], NO_BLOCK, [], Ready)], [], [], map[], {}, {})
  }

  class Region {
    const depth: nat
    const capacity: nat
    const refcount: array<nat>
    const writeSeq: array<nat>
    const rings: array2<Entry>
    const bytes: array<Bytes>
    var free: seq<nat>
    ghost var run: seq<State>

    ghost function Now(): State
      requires run != []
      reads this
    {
      End(run)
    }

    /** The arrays show state `s`. */
    ghost predicate Shows(s: State)
      reads this, refcount, writeSeq, rings, bytes
    {
      && s.depth == depth && s.capacity == capacity && s.free == free
      && s.refcount == refcount[..] && s.writeSeq == writeSeq[..] && s.bytes == bytes[..]
      && ShowsRings(s.rings)
    }

    ghost predicate ShowsRings(r: seq<seq<Entry>>)
      reads rings
    {
      && |r| == rings.Length0 && rings.Length1 == depth
      && (forall t :: 0 <= t < |r| ==> |r[t]| == depth)
      && (forall t, i :: 0 <= t < |r| && 0 <= i < depth ==> r[t][i] == rings[t, i])
    }

    ghost predicate Valid()
      reads this, refcount, writeSeq, rings, bytes
    {
      IsPowerOfTwo(depth) && refcount != writeSeq && Run(run) && Shows(Now())
    }

    /** A created region: empty rings, zero refcounts, every block free. */
    constructor (ringDepth: nat, blockCapacity: nat, creatorTopic: seq<bool>, blockCount: nat)
      requires IsPowerOfTwo(ringDepth) && blockCount <= NO_BLOCK
      ensures Valid() && |run| == 1 && depth == ringDepth && refcount.Length == blockCount
      ensures Now().creatorTopic == creatorTopic
      ensures fresh(refcount) && fresh(writeSeq) && fresh(rings) && fresh(bytes)
    {
      var pool: seq<nat>, i := [], 0;
      while i < blockCount
        invariant i <= blockCount && pool == FreshPool(i)
      {
        pool := [i] + pool;
        i := i + 1;
      }
      depth := ringDepth;
      capacity := blockCapacity;
      refcount := new nat[blockCount](_ => 0);
      writeSeq := new nat[|creatorTopic|](_ => 0);
      rings := new Entry[|creatorTopic|, ringDepth]((_, _) => Entry(0, NO_BLOCK, 0));
      var zero: Bytes := seq(blockCapacity, _ => 0);
      bytes := new Bytes[blockCount](_ => zero);
      free := pool;
      new;
      ghost var s := FreshState(ringDepth, creatorTopic, writeSeq[..], refcount[..], bytes[..], pool);
      run := [s.(capacity := blockCapacity)];
    }

    /** Frees every block of the list, in order, passing over empty places. */
    method FreeAll(blocks: seq<nat>)
      modifies this`free
      ensures free == old(free) + Present(blocks)
    {
      for k := 0 to |blocks|
        invariant free == old(free) + Present(blocks[..k])
      {
        assert blocks[..k + 1][..k] == blocks[..k];
        if blocks[k] != NO_BLOCK { free := free + [blocks[k]]; }
      }
      assert blocks[..|blocks|] == blocks;
    }

    /** `release_block`: drop one reference; the last one frees the block. */
    method ReleaseBlock(block: nat, ghost k: nat)
      requires Valid() && k < |Now().samples| && Now().samples[k].status.Held? && Now().samples[k].block == block
      modifies this, refcount
      ensures Valid() && old(run) <= run
      ensures Dropping(old(Now()), k) && Now() == Dropped(old(Now()), k)
    {
      HeldIsCounted(run, k);
      var prev := refcount[block];
      refcount[block] := prev - 1;
      if prev == 1 { free := free + [block]; }
      run := DropPhase(run, k);
    }
  }

  // ---- publishers ----

  class Publisher {
    const region: Region
    const creator: bool
    const blockCache: array<nat>
    var cacheLen: nat
    var recycled: nat
    var pinnedBlocks: seq<nat>    // by topic
    ghost const id: nat

    ghost function Me(): Pub
      requires region.run != [] && id < |region.Now().pubs|
      reads this, region
    {
      region.Now().pubs[id]
    }

    ghost predicate Valid()
      reads this, blockCache, region, region.refcount, region.writeSeq, region.rings, region.bytes
    {
      && region.Valid() && id < |region.Now().pubs|
      && blockCache.Length == CACHE_SIZE && cacheLen <= CACHE_SIZE
      && blockCache != region.refcount && blockCache != region.writeSeq
      && Me().creator == creator && Me().recycled == recycled
      && |pinnedBlocks| == region.writeSeq.Length && Me().pinned == Present(pinnedBlocks)
      && Me().cache == blockCache[..cacheLen]
    }

    /** The publisher that created the region. */
    constructor Create(memory: Region)
      requires memory.Valid() && |memory.run| == 1
      ensures Valid() && region == memory && creator && id == 0 && Me().pc.Ready? && fresh(blockCache)
    {
      region, creator, id := memory, true, 0;
      blockCache := new nat[CACHE_SIZE];
      cacheLen, recycled, pinnedBlocks := 0, NO_BLOCK, seq(memory.writeSeq.Length, _ => NO_BLOCK);
      NonePresent(memory.writeSeq.Length);
    }

    /** A further publisher that opens it. */
    constructor Open(memory: Region)
      requires memory.Valid()
      modifies memory
      ensures Valid() && region == memory && !creator && Me().pc.Ready? && fresh(blockCache)
      ensures region.run == old(memory.run) + [Apply(old(memory.Now()), Action.Open)]
    {
      region, creator, id := memory, false, |memory.Now().pubs|;
      blockCache := new nat[CACHE_SIZE];
      cacheLen, recycled, pinnedBlocks := 0, NO_BLOCK, seq(memory.writeSeq.Length, _ => NO_BLOCK);
      NonePresent(memory.writeSeq.Length);
      new;
      memory.run := Extend(memory.run, Action.Open);
    }

    /** `alloc_cached`: a block unless recycle slot, cache and pool are all empty. */
    method AllocCached() returns (r: Option<nat>)
      requires Valid() && Me().pc.Ready?
      modifies this`cacheLen, this`recycled, blockCache, region
      ensures Valid() && old(region.run) <= region.run
      ensures r.Some? <==> HasBlock(old(region.Now()), id)
      ensures r.Some? ==> region.Now() == Allocated(old(region.Now()), id) && Me().pc == Loaned(r.value, 0)
      ensures r.None? ==> region.Now() == old(region.Now())
    {
      ghost var s := region.Now();
      if recycled != NO_BLOCK {
        var idx := recycled;
        recycled := NO_BLOCK;
        region.run := Extend(region.run, Allocate(id, TakeRecycled));
        return Some(idx);
      }
      if cacheLen > 0 {
        cacheLen := cacheLen - 1;
        region.run := Extend(region.run, Allocate(id, TakeCached));
        return Some(blockCache[cacheLen]);
      }
      r := Refill();
    }

    method Refill() returns (r: Option<nat>)
      requires Valid() && Me().pc.Ready? && recycled == NO_BLOCK && cacheLen == 0
      modifies this`cacheLen, this`recycled, blockCache, region
      ensures Valid() && old(region.run) <= region.run
      ensures r.Some? <==> old(region.free) != []
      ensures r.Some? ==> region.Now() == Allocated(old(region.Now()), id) && Me().pc == Loaned(r.value, 0)
      ensures r.None? ==> region.Now() == old(region.Now())
    {
      ghost var s := region.Now();
      region.run := StartStep(region.run, id);
      FillCache(s);
      r := TakeFilled(s);
    }

    method TakeFilled(ghost s: State) returns (r: Option<nat>)
      requires Valid() && recycled == NO_BLOCK && id < |s.pubs| && s.pubs[id].recycled == NO_BLOCK
      requires s.pubs[id].pc.Ready? && s.pubs[id].cache == []
      requires cacheLen == (if |s.free| < CACHE_SIZE then |s.free| else CACHE_SIZE)
      requires region.Now() == Refilled(s, id, cacheLen)
      modifies this`cacheLen, region
      ensures Valid() && old(region.run) <= region.run
      ensures r.Some? <==> s.free != []
      ensures r.Some? ==> region.Now() == Allocated(s, id) && Me().pc == Loaned(r.value, 0)
      ensures r.None? ==> region.Now() == s
    {
      if cacheLen > 0 {
        var idx := TakeLast(s);
        r := Some(idx);
      } else {
        region.run := GiveUpStep(region.run, s, id);
        r := None;
      }
    }

    method TakeLast(ghost s: State) returns (idx: nat)
      requires Valid() && HasBlock(s, id) && s.pubs[id].recycled == NO_BLOCK && s.pubs[id].cache == [] && 0 < cacheLen
      requires cacheLen == (if |s.free| < CACHE_SIZE then |s.free| else CACHE_SIZE)
      requires region.Now() == Refilled(s, id, cacheLen)
      modifies this`cacheLen, region
      ensures Valid() && old(region.run) <= region.run
      ensures region.Now() == Allocated(s, id) && Me().pc == Loaned(idx, 0)
    {
      cacheLen := cacheLen - 1;
      region.run := TakeStep(region.run, s, id, cacheLen + 1);
      idx := blockCache[cacheLen];
    }

    method FillCache(ghost s: State)
      requires Valid() && recycled == NO_BLOCK && id < |s.pubs| && cacheLen == 0 && region.Now() == Refilled(s, id, 0)
      modifies this`cacheLen, blockCache, region
      ensures Valid() && old(region.run) <= region.run
      ensures cacheLen == (if |s.free| < CACHE_SIZE then |s.free| else CACHE_SIZE)
      ensures region.Now() == Refilled(s, id, cacheLen)
    {
      while cacheLen < blockCache.Length && region.free != []
        invariant Valid() && old(region.run) <= region.run
        invariant cacheLen <= |s.free| && region.Now() == Refilled(s, id, cacheLen)
        decreases blockCache.Length - cacheLen
      {
        PopInto(s);
      }
    }

    /** Pop one block of the pool into the cache. */
    method PopInto(ghost s: State)
      requires Valid() && recycled == NO_BLOCK && id < |s.pubs| && cacheLen < CACHE_SIZE && cacheLen < |s.free|
      requires region.Now() == Refilled(s, id, cacheLen)
      modifies this`cacheLen, blockCache, region
      ensures Valid() && old(region.run) <= region.run && cacheLen == old(cacheLen) + 1
      ensures region.Now() == Refilled(s, id, cacheLen)
    {
      var top := |region.free| - 1;
      blockCache[cacheLen] := region.free[top];
      region.free := region.free[..top];
      region.run := RefillStep(region.run, s, id, cacheLen);
      cacheLen := cacheLen + 1;
    }

    // ---- the loan ----

    /** Writing the payload and its length touches nothing but the loaned block. */
    method WriteLoan(block: nat, data: Bytes, len: nat)
      requires Valid() && Me().pc.Loaned? && Me().pc.block == block && len <= |data| == region.capacity
      modifies region, region.bytes
      ensures Valid() && old(region.run) <= region.run
      ensures block < |old(region.Now()).bytes|
      ensures var s := old(region.Now());
              region.Now() == PubTo(s.(bytes := s.bytes[block := data]), id, Loaned(block, len))
    {
      LoanIsBlock(region.run, id);
      region.bytes[block] := data;
      region.run := Extend(region.run, UseLoan(id, Write(data)));
      region.run := Extend(region.run, UseLoan(id, SetLen(len)));
    }

    /** The block part of `loan_pinned`: the topic's block if it has one, otherwise a new one that
        is kept for the topic from now on. */
    method PinnedBlock(t: nat) returns (r: Option<nat>)
      requires Valid() && Me().pc.Ready? && t < |pinnedBlocks|
      modifies this, blockCache, region
      ensures Valid() && old(region.run) <= region.run && Me().pc.Ready?
      ensures r.Some? <==> old(pinnedBlocks)[t] != NO_BLOCK || HasBlock(old(region.Now()), id)
      ensures old(pinnedBlocks)[t] != NO_BLOCK ==> r == Some(old(pinnedBlocks)[t]) && region.Now() == old(region.Now())
      ensures pinnedBlocks == if r.Some? then old(pinnedBlocks)[t := r.value] else old(pinnedBlocks)
      ensures r.Some? && old(pinnedBlocks)[t] == NO_BLOCK ==>
                Allocated(old(region.Now()), id).pubs[id].pc == Loaned(r.value, 0)
    {
      if pinnedBlocks[t] != NO_BLOCK { return Some(pinnedBlocks[t]); }
      r := AllocCached();
      if r.Some? { PinBlock(r.value, t); }
    }

    method PinBlock(block: nat, t: nat)
      requires Valid() && Me().pc.Loaned? && Me().pc.block == block && t < |pinnedBlocks| && pinnedBlocks[t] == NO_BLOCK
      modifies this`pinnedBlocks, region
      ensures Valid() && old(region.run) <= region.run
      ensures pinnedBlocks == old(pinnedBlocks)[t := block]
      ensures region.Now() == PutPub(old(region.Now()), id, old(Me()).(pinned := Present(pinnedBlocks), pc := Ready))
    {
      LoanIsBlock(region.run, id);
      PresentPut(pinnedBlocks, t, block);
      ghost var at := |Present(pinnedBlocks[..t])|;
      pinnedBlocks := pinnedBlocks[t := block];
      region.run := Extend(region.run, UseLoan(id, Pin(at)));
    }

    /** Dropping an unpublished loan returns its block to the pool. */
    method DropLoan(block: nat)
      requires Valid() && Me().pc.Loaned? && Me().pc.block == block
      modifies region
      ensures Valid() && old(region.run) <= region.run
      ensures region.Now() == PubTo(old(region.Now()).(free := old(region.free) + [block]), id, Ready)
    {
      region.free := region.free + [block];
      region.run := Extend(region.run, UseLoan(id, LoanStep.DropLoan));
    }

    /** `Drop`: every block the publisher kept goes back to the pool. */
    method Drop()
      requires Valid() && Me().pc.Ready?
      modifies this, region
      ensures Valid() && old(region.run) <= region.run
      ensures region.Now() == Retired(old(region.Now()), id)
    {
      CacheIsPresent(region.run, id);
      ReturnBlocks();
      region.run := RetirePhase(region.run, id);
    }

    method ReturnBlocks()
      requires cacheLen <= blockCache.Length
      modifies this`cacheLen, this`recycled, this`pinnedBlocks, region`free
      ensures region.free ==
              old(region.free + Present(pinnedBlocks) + Single(recycled) + Present(blockCache[..cacheLen]))
      ensures cacheLen == 0 && recycled == NO_BLOCK
      ensures |pinnedBlocks| == |old(pinnedBlocks)| && Present(pinnedBlocks) == []
    {
      region.FreeAll(pinnedBlocks);
      if recycled != NO_BLOCK { region.free := region.free + [recycled]; }
      region.FreeAll(blockCache[..cacheLen]);
      NonePresent(|pinnedBlocks|);
      cacheLen, recycled, pinnedBlocks := 0, NO_BLOCK, seq(|pinnedBlocks|, _ => NO_BLOCK);
    }

    /** `commit_to_ring`: the loaned block becomes message `write_seq + 1` of the topic, in its
        slot with refcount 1; the displaced block loses one reference and is recycled if that
        was the last. With no commit in progress on the topic the exchange of an opened publisher
        succeeds at once, like the creator's store. */
    method CommitToRing(block: nat, len: nat, t: nat)
      requires Valid() && Loaning(region.Now(), id, t) && Me().pc == Loaned(block, len) && NoCommit(region.Now(), t)
      modifies this, region, region.refcount, region.writeSeq, region.rings
      ensures Valid() && old(region.run) <= region.run
      ensures IsCommitted(old(region.Now()), region.Now(), id, t)
    {
      ghost var s := region.Now();
      CommitReady(region.run, id, t);
      var q := region.writeSeq[t] + 1;
      var slot := BitAnd(q, region.depth - 1);
      MaskIsModulo(q, region.depth);
      ClaimAndMark(t, q, slot);
      var prior := FillAndClose(block, len, t, q, slot);
      ReleaseDisplaced(prior);
    }

    method ClaimAndMark(t: nat, q: nat, slot: nat)
      requires Valid() && Loaning(region.Now(), id, t) && NoCommit(region.Now(), t)
      requires q == region.writeSeq[t] + 1 && slot == q % region.depth
      modifies region, region.writeSeq, region.rings
      ensures Valid() && old(region.run) <= region.run
      ensures region.Now() == Marking(old(region.Now()), id, t)
    {
      region.writeSeq[t] := q;
      region.rings[t, slot] := region.rings[t, slot].(seqNo := SEQ_WRITING);
      region.run := MarkPhase(region.run, id, t);
    }

    method FillAndClose(block: nat, len: nat, t: nat, q: nat, slot: nat) returns (prior: nat)
      requires Valid() && Filling(region.Now(), id) && Me().pc.job == Job(block, len, t, q) && slot == q % region.depth
      modifies region, region.refcount, region.rings
      ensures Valid() && old(region.run) <= region.run
      ensures region.Now() == Filled(old(region.Now()), id) && Me().pc == Closed(prior)
    {
      prior := region.rings[t, slot].block;
      region.refcount[block] := 1;
      region.rings[t, slot] := region.rings[t, slot].(block := block);
      region.rings[t, slot] := region.rings[t, slot].(len := len);
      region.rings[t, slot] := region.rings[t, slot].(seqNo := q);
      region.run := FillPhase(region.run, id);
    }

    method ReleaseDisplaced(prior: nat)
      requires Valid() && Releasing(region.Now(), id) && Me().pc == Closed(prior)
      modifies this`recycled, region, region.refcount
      ensures Valid() && old(region.run) <= region.run
      ensures region.Now() == Released(old(region.Now()), id)
    {
      region.run := ReleasePhase(region.run, id);
      if prior != NO_BLOCK && prior < region.refcount.Length {
        var prev := region.refcount[prior];
        region.refcount[prior] := prev - 1;
        if prev == 1 {
          var displaced := recycled;
          recycled := prior;
          if displaced != NO_BLOCK { region.free := region.free + [displaced]; }
        }
      }
    }
  }

  // ---- streams ----

  datatype SlotRead = SlotRead(seqNo: nat, block: nat, len: nat)

  class Stream {
    const region: Region
    const topic: nat
    var lastSeq: nat
    ghost const id: nat

    ghost function Me(): Ring.Stream
      requires region.run != [] && id < |region.Now().streams|
      reads this, region
    {
      region.Now().streams[id]
    }

    ghost predicate Valid()
      reads this, region, region.refcount, region.writeSeq, region.rings, region.bytes
    {
      region.Valid() && id < |region.Now().streams| && Me().topic == topic && Me().lastSeq == lastSeq
    }

    /** `subscribe`: starts at the newest sequence. */
    constructor (memory: Region, t: nat)
      requires memory.Valid() && TopicOk(memory.Now(), t)
      modifies memory
      ensures Valid() && region == memory && topic == t && lastSeq == memory.writeSeq[t] && Me().pc.Waiting?
      ensures region.run == old(memory.run) + [Apply(old(memory.Now()), Subscribe(t))]
    {
      region, topic, id := memory, t, |memory.Now().streams|;
      lastSeq := memory.writeSeq[t];
      new;
      memory.run := Extend(memory.run, Subscribe(t));
    }

    /** `try_recv`: the first sequence of the window whose slot shows it, with a reference taken. */
    method TryRecv() returns (r: Option<SlotRead>)
      requires Valid() && Me().pc.Waiting?
      modifies this`lastSeq, region, region.refcount
      ensures Valid() && old(region.run) <= region.run
      ensures IsReceived(old(region.Now()), region.Now(), id, r)
    {
      StreamFacts(region.run, id);
      ghost var s := region.Now();
      var current := region.writeSeq[topic];
      if current <= lastSeq { return None; }
      var start := lastSeq + 1;
      var from := if current - start >= region.depth then current - region.depth + 1 else start;
      region.run := Extend(region.run, Scan(id, BeginScan));
      r := ScanWindow(s, from, current);
    }

    method ScanWindow(ghost s: State, from: nat, current: nat) returns (r: Option<SlotRead>)
      requires Valid() && Shape(s) && id < |s.streams| && TopicOk(s, topic) && s.streams[id].pc.Waiting?
      requires 0 < from <= current < SEQ_WRITING && s.streams[id].topic == topic
      requires region.Now() == StreamTo(s, id, Scanning(current, from))
      modifies this`lastSeq, region, region.refcount
      ensures Valid() && old(region.run) <= region.run
      ensures ReceivedAt(s, region.Now(), id, FirstShown(s, topic, from, current), r)
    {
      var seqNo := from;
      while seqNo <= current
        invariant from <= seqNo <= current + 1 && Valid() && old(region.run) <= region.run
        invariant region.Now() == StreamTo(s, id, if seqNo <= current then Scanning(current, seqNo) else Waiting)
        invariant FirstShown(s, topic, from, current) == FirstShown(s, topic, seqNo, current)
      {
        r := TryReadSlot(s, seqNo, current);
        if r.Some? { return; }
        seqNo := seqNo + 1;
      }
      assert s.streams[id := s.streams[id].(pc := Waiting)] == s.streams;
      r := None;
    }

    /** `try_read_slot_raw`. Nothing moves inside one call, so its second sequence check, which
        `Ring` models, agrees with the first. */
    method TryReadSlot(ghost s: State, seqNo: nat, current: nat) returns (r: Option<SlotRead>)
      requires Valid() && Shape(s) && id < |s.streams| && TopicOk(s, topic) && s.streams[id].topic == topic
      requires 0 < seqNo <= current < SEQ_WRITING && region.Now() == StreamTo(s, id, Scanning(current, seqNo))
      modifies this`lastSeq, region, region.refcount
      ensures Valid() && old(region.run) <= region.run
      ensures r.Some? <==> Shown(s, Key(topic, seqNo))
      ensures r.Some? ==> ReceivedAt(s, region.Now(), id, Some(seqNo), r)
      ensures r.None? ==> region.Now() == StreamTo(s, id, NextScan(current, seqNo))
    {
      var slot := BitAnd(seqNo, region.depth - 1);
      MaskIsModulo(seqNo, region.depth);
      var e := region.rings[topic, slot];
      if Shown(region.Now(), Key(topic, seqNo)) { ShownFacts(region.run, Key(topic, seqNo)); }
      if e.seqNo != seqNo || e.block == NO_BLOCK || e.block >= region.refcount.Length || e.len > region.capacity
         || region.refcount[e.block] == 0
      {
        region.run := MissStep(region.run, id, seqNo, current);
        return None;
      }
      region.run := AcquirePhase(region.run, id, seqNo, current);
      region.refcount[e.block] := region.refcount[e.block] + 1;
      lastSeq := seqNo;
      assert region.Now().streams == s.streams[id := region.Now().streams[id]];
      r := Some(SlotRead(seqNo, e.block, e.len));
    }
  }

  /** A call that returned `r` having found sequence `found`. */
  ghost predicate ReceivedAt(s: State, s': State, i: nat, found: Option<nat>, r: Option<SlotRead>)
    requires Shape(s) && i < |s.streams| && TopicOk(s, s.streams[i].topic)
  {
    match found
    case None => r == None && s' == s
    case Some(q) =>
      var e := Slot(s.rings, s.depth, s.streams[i].topic, q);
      e.block < |s.refcount| && r == Some(SlotRead(q, e.block, e.len)) && s' == Received(s, i, q)
  }

  ghost predicate IsReceived(s: State, s': State, i: nat, r: Option<SlotRead>) {
    Shape(s) && i < |s.streams| && TopicOk(s, s.streams[i].topic) && ReceivedAt(s, s', i, Found(s, i), r)
  }

  // ---- lists of blocks with empty places ----

  function Present(blocks: seq<nat>): seq<nat> {
    if blocks == [] then [] else Present(blocks[..|blocks| - 1]) + Single(blocks[|blocks| - 1])
  }

  lemma {:induction false} NonePresent(n: nat)
    ensures Present(seq(n, _ => NO_BLOCK)) == []
  {
    if n > 0 {
      NonePresent(n - 1);
      assert seq(n, _ => NO_BLOCK)[..n - 1] == seq(n - 1, _ => NO_BLOCK);
    }
  }

  lemma {:induction false} AllPresent(blocks: seq<nat>)
    requires forall i :: 0 <= i < |blocks| ==> blocks[i] != NO_BLOCK
    ensures Present(blocks) == blocks
  {
    if blocks != [] { AllPresent(blocks[..|blocks| - 1]); }
  }

  lemma {:induction false} PresentConcat(xs: seq<nat>, ys: seq<nat>)
    ensures Present(xs + ys) == Present(xs) + Present(ys)
    decreases |ys|
  {
    if ys == [] {
      assert xs + ys == xs;
    } else {
      PresentConcat(xs, ys[..|ys| - 1]);
      assert (xs + ys)[..|xs + ys| - 1] == xs + ys[..|ys| - 1];
    }
  }

  /** Filling an empty place inserts the block in topic order. */
  lemma PresentPut(xs: seq<nat>, t: nat, b: nat)
    requires t < |xs| && xs[t] == NO_BLOCK && b != NO_BLOCK
    ensures var at := |Present(xs[..t])|; at <= |Present(xs)| && Present(xs[t := b]) == Insert(Present(xs), at, b)
  {
    var before, after := xs[..t], xs[t + 1..];
    SplitAt(xs, t, NO_BLOCK);
    SplitAt(xs[t := b], t, b);
    assert xs[t := b][..t] == before && xs[t := b][t + 1..] == after;
    PresentAround(before, NO_BLOCK, after);
    PresentAround(before, b, after);
    InsertBetween(Present(before), b, Present(after));
  }

  lemma SplitAt(xs: seq<nat>, t: nat, x: nat)
    requires t < |xs| && xs[t] == x
    ensures xs == xs[..t] + [x] + xs[t + 1..]
  {
  }

  lemma InsertBetween(xs: seq<nat>, x: nat, ys: seq<nat>)
    ensures xs + [x] + ys == Insert(xs + [] + ys, |xs|, x)
  {
    assert (xs + [] + ys)[..|xs|] == xs && (xs + [] + ys)[|xs|..] == ys;
  }

  lemma PresentAround(before: seq<nat>, x: nat, after: seq<nat>)
    ensures Present(before + [x] + after) == Present(before) + Single(x) + Present(after)
  {
    PresentConcat(before + [x], after);
    assert (before + [x])[..|before|] == before;
  }

  lemma CacheIsPresent(run: seq<State>, p: nat)
    requires Run(run) && p < |End(run).pubs|
    ensures Present(End(run).pubs[p].cache) == End(run).pubs[p].cache
  {
    EveryRunKeepsInv(run, |run| - 1);
    assert PubOk(End(run), End(run).pubs[p]);
    AllPresent(End(run).pubs[p].cache);
  }

  /** The whole effect of a commit. */
  ghost predicate IsCommitted(s: State, s': State, p: nat, t: nat) {
    && Loaning(s, p, t) && Filling(Marking(s, p, t), p) && Releasing(Filled(Marking(s, p, t), p), p)
    && s' == Released(Filled(Marking(s, p, t), p), p)
  }

  /** What a commit publishes, and what it leaves alone. */
  lemma CommitPublishes(s: State, s': State, p: nat, t: nat)
    requires Shape(s) && IsCommitted(s, s', p, t)
    ensures var q, loan := s.writeSeq[t] + 1, s.pubs[p].pc;
            && TopicOk(s', t) && Slot(s'.rings, s'.depth, t, q) == Entry(q, loan.block, loan.len)
            && s'.log == s.log[Key(t, q) := Message(loan.block, loan.len, s.bytes[loan.block])]
            && s'.writeSeq == s.writeSeq[t := q]
    ensures Shape(s') && s'.bytes == s.bytes && s'.streams == s.streams && s'.samples == s.samples
    ensures |s'.pubs| == |s.pubs| && s'.pubs[p].pc.Ready?
    ensures forall o :: 0 <= o < |s.pubs| && o != p ==> s'.pubs[o] == s.pubs[o]
  {
  }

  /** The block a commit displaced, if nobody else held it, is the next one this publisher loans. */
  lemma RecycledIsNext(s: State, s': State, p: nat, t: nat)
    requires Shape(s) && IsCommitted(s, s', p, t)
    requires var prior := Slot(s.rings, s.depth, t, s.writeSeq[t] + 1).block;
             prior < |s.refcount| && prior != s.pubs[p].pc.block && s.refcount[prior] == 1
    ensures HasBlock(s', p)
    ensures Allocated(s', p).pubs[p].pc == Loaned(Slot(s.rings, s.depth, t, s.writeSeq[t] + 1).block, 0)
  {
    assert Marking(s, p, t).pubs[p].pc.job.seqNo == s.writeSeq[t] + 1;
  }

  /** Publish, then receive: a stream that had caught up gets exactly the committed block, length
      and bytes next. */
  lemma CommitThenReceive(s: State, s': State, p: nat, t: nat, i: nat)
    requires Shape(s) && IsCommitted(s, s', p, t)
    requires i < |s.streams| && s.streams[i].topic == t && s.streams[i].lastSeq == s.writeSeq[t]
    ensures Shape(s') && i < |s'.streams| && TopicOk(s', s'.streams[i].topic)
    ensures var q, loan := s.writeSeq[t] + 1, s.pubs[p].pc;
            forall s'', r :: ReceivedAt(s', s'', i, Found(s', i), r) ==>
              && r == Some(SlotRead(q, loan.block, loan.len))
              && s''.samples == s.samples + [Sample(t, q, loan.block, loan.len, Held)]
              && s''.bytes == s.bytes
  {
    CommitPublishes(s, s', p, t);
    var q := s.writeSeq[t] + 1;
    assert Shown(s', Key(t, q));
    assert FirstShown(s', t, q, q) == Some(q);
    assert Found(s', i) == Some(q);
  }

  lemma LoanIsBlock(run: seq<State>, p: nat)
    requires Run(run) && p < |End(run).pubs| && End(run).pubs[p].pc.Loaned?
    ensures End(run).pubs[p].pc.block < |End(run).bytes| <= NO_BLOCK
  {
    EveryRunKeepsInv(run, |run| - 1);
    assert PubOk(End(run), End(run).pubs[p]);
  }

  lemma CommitReady(run: seq<State>, p: nat, t: nat)
    requires Run(run) && Loaning(End(run), p, t) && NoCommit(End(run), t)
    ensures Filling(Marking(End(run), p, t), p) && Releasing(Filled(Marking(End(run), p, t), p), p)
  {
    var s := End(run);
    LoanIsBlock(run, p);
    EveryRunKeepsInv(run, |run| - 1);
    var marked := MarkPhase(run, p, t);
    var closed := FillPhase(marked, p);
    ClosedIsCounted(closed, p);
  }

  lemma ClosedIsCounted(run: seq<State>, p: nat)
    requires Run(run) && p < |End(run).pubs| && End(run).pubs[p].pc.Closed?
    ensures Releasing(End(run), p)
  {
    EveryRunKeepsInv(run, |run| - 1);
    NoPartyIsStuck(End(run));
  }
}
