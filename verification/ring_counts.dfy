/** Reference counts and ownership of blocks in the ring protocol.

    `Refs` counts who may read a block: ring slots naming it, tentative and returned stream
    references, and a committing publisher's new or replaced block. `Owns` counts the places
    a block rests in while nobody references it. */
module RingCounts {
  import opened Layout
  import opened Sums
  import opened Ring

  function Eq(x: nat, b: nat): nat { if x == b then 1 else 0 }

  function Is(b: nat): nat -> nat { (x: nat) => Eq(x, b) }

  /** A block in the hands of a publisher, not counted by its refcount. */
  function LoanBlock(pc: PubPc): nat {
    if pc.Loaned? || pc.Unreferenced? || pc.Displaced? then pc.block
    else if pc.Claimed? || pc.Observed? || pc.Marked? || pc.OldRead? then pc.job.block
    else NO_BLOCK
  }

  /** The in-flight new block: counted, but no slot names it yet. */
  function NewRef(pc: PubPc): nat { if pc.Counted? then pc.job.block else NO_BLOCK }

  /** The in-flight replaced block: still counted, but no slot names it any more. */
  function OldRef(pc: PubPc): nat { if pc.Named? || pc.Sized? || pc.Closed? then pc.prior else NO_BLOCK }

  function SlotRef(b: nat): Entry -> nat { (e: Entry) => Eq(e.block, b) }

  function RingRef(b: nat): seq<Entry> -> nat { (r: seq<Entry>) => Sum(r, SlotRef(b)) }

  function PubRef(b: nat): Pub -> nat { (pub: Pub) => Eq(NewRef(pub.pc), b) + Eq(OldRef(pub.pc), b) }

  function PubOwn(b: nat): Pub -> nat {
    (pub: Pub) => Sum(pub.cache, Is(b)) + Sum(pub.pinned, Is(b)) + Eq(pub.recycled, b) + Eq(LoanBlock(pub.pc), b)
  }

  function StreamRefBlock(pc: StreamPc): nat { if pc.Tentative? || pc.Undo? then pc.block else NO_BLOCK }

  function StreamRef(b: nat): Stream -> nat { (st: Stream) => Eq(StreamRefBlock(st.pc), b) }

  function StreamOwn(b: nat): Stream -> nat {
    (st: Stream) => Eq(if st.pc.UndoFree? then st.pc.block else NO_BLOCK, b)
  }

  function SampleRef(b: nat): Sample -> nat { (sm: Sample) => if sm.status.Held? then Eq(sm.block, b) else 0 }

  function SampleOwn(b: nat): Sample -> nat { (sm: Sample) => if sm.status.Freeing? then Eq(sm.block, b) else 0 }

  function Refs(s: State, b: nat): nat {
    Sum(s.rings, RingRef(b)) + Sum(s.pubs, PubRef(b)) + Sum(s.streams, StreamRef(b)) + Sum(s.samples, SampleRef(b))
  }

  function Owns(s: State, b: nat): nat {
    Sum(s.free, Is(b)) + Sum(s.pubs, PubOwn(b)) + Sum(s.streams, StreamOwn(b)) + Sum(s.samples, SampleOwn(b))
  }

  /** The refcount is exact, and an unreferenced block rests in exactly one place. */
  predicate CountOk(s: State, b: nat)
    requires b < |s.refcount|
  {
    s.refcount[b] == Refs(s, b) && Owns(s, b) == Eq(s.refcount[b], 0)
  }

  predicate CountsOk(s: State) {
    forall b :: 0 <= b < |s.refcount| ==> CountOk(s, b)
  }

  // ---- how one update moves the counts ----

  lemma PubDelta(s: State, p: nat, pub: Pub, b: nat)
    requires p < |s.pubs|
    ensures Refs(PutPub(s, p, pub), b) + PubRef(b)(s.pubs[p]) == Refs(s, b) + PubRef(b)(pub)
    ensures Owns(PutPub(s, p, pub), b) + PubOwn(b)(s.pubs[p]) == Owns(s, b) + PubOwn(b)(pub)
  {
    SumUpdate(s.pubs, p, pub, PubRef(b));
    SumUpdate(s.pubs, p, pub, PubOwn(b));
  }

  lemma StreamDelta(s: State, i: nat, st: Stream, b: nat)
    requires i < |s.streams|
    ensures Refs(s.(streams := s.streams[i := st]), b) + StreamRef(b)(s.streams[i]) == Refs(s, b) + StreamRef(b)(st)
    ensures Owns(s.(streams := s.streams[i := st]), b) + StreamOwn(b)(s.streams[i]) == Owns(s, b) + StreamOwn(b)(st)
  {
    SumUpdate(s.streams, i, st, StreamRef(b));
    SumUpdate(s.streams, i, st, StreamOwn(b));
  }

  lemma SampleDelta(s: State, k: nat, sm: Sample, b: nat)
    requires k < |s.samples|
    ensures Refs(s.(samples := s.samples[k := sm]), b) + SampleRef(b)(s.samples[k]) == Refs(s, b) + SampleRef(b)(sm)
    ensures Owns(s.(samples := s.samples[k := sm]), b) + SampleOwn(b)(s.samples[k]) == Owns(s, b) + SampleOwn(b)(sm)
  {
    SumUpdate(s.samples, k, sm, SampleRef(b));
    SumUpdate(s.samples, k, sm, SampleOwn(b));
  }

  lemma EntryDelta(s: State, t: nat, q: nat, e: Entry, b: nat)
    requires TopicOk(s, t)
    ensures Refs(PutEntry(s, t, q, e), b) + Eq(Slot(s.rings, s.depth, t, q).block, b) == Refs(s, b) + Eq(e.block, b)
    ensures Owns(PutEntry(s, t, q, e), b) == Owns(s, b)
  {
    SumUpdate(s.rings, t, s.rings[t][q % s.depth := e], RingRef(b));
    SumUpdate(s.rings[t], q % s.depth, e, SlotRef(b));
  }

  lemma FreeDelta(s: State, x: nat, b: nat)
    ensures Owns(s.(free := s.free + [x]), b) == Owns(s, b) + Eq(x, b)
    ensures Refs(s.(free := s.free + [x]), b) == Refs(s, b)
  {
    SumAppend(s.free, x, Is(b));
  }

  lemma PopDelta(s: State, b: nat)
    requires s.free != []
    ensures Owns(s.(free := DropLast(s.free)), b) + Eq(Last(s.free), b) == Owns(s, b)
    ensures Refs(s.(free := DropLast(s.free)), b) == Refs(s, b)
  {
  }

  /** A counted holder of a block shows in the totals. */
  lemma SlotCounts(s: State, t: nat, q: nat, b: nat)
    requires TopicOk(s, t) && Slot(s.rings, s.depth, t, q).block == b
    ensures Refs(s, b) >= 1
  {
    SumAtLeast(s.rings[t], q % s.depth, SlotRef(b));
    SumAtLeast(s.rings, t, RingRef(b));
  }

  lemma PubCounts(s: State, p: nat, b: nat)
    requires p < |s.pubs|
    ensures Refs(s, b) >= PubRef(b)(s.pubs[p]) && Owns(s, b) >= PubOwn(b)(s.pubs[p])
  {
    SumAtLeast(s.pubs, p, PubRef(b));
    SumAtLeast(s.pubs, p, PubOwn(b));
  }

  lemma StreamCounts(s: State, i: nat, b: nat)
    requires i < |s.streams|
    ensures Refs(s, b) >= StreamRef(b)(s.streams[i]) && Owns(s, b) >= StreamOwn(b)(s.streams[i])
  {
    SumAtLeast(s.streams, i, StreamRef(b));
    SumAtLeast(s.streams, i, StreamOwn(b));
  }

  lemma SampleCounts(s: State, k: nat, b: nat)
    requires k < |s.samples|
    ensures Refs(s, b) >= SampleRef(b)(s.samples[k]) && Owns(s, b) >= SampleOwn(b)(s.samples[k])
  {
    SumAtLeast(s.samples, k, SampleRef(b));
    SumAtLeast(s.samples, k, SampleOwn(b));
  }

  // ---- every step keeps the counts ----

  lemma OpenCounts(s: State)
    requires CountsOk(s) && |s.refcount| <= NO_BLOCK
    ensures CountsOk(Apply(s, Open))
  {
    var pub := Pub(false, [], NO_BLOCK, [], Ready);
    forall b | 0 <= b < |s.refcount| ensures CountOk(Apply(s, Open), b) {
      assert CountOk(s, b);
      SumAppend(s.pubs, pub, PubRef(b));
      SumAppend(s.pubs, pub, PubOwn(b));
    }
  }

  lemma JoinCount(s: State, st: Stream, b: nat)
    requires b < |s.refcount| <= NO_BLOCK && CountOk(s, b) && st.pc.Waiting?
    ensures CountOk(s.(streams := s.streams + [st]), b)
  {
    SumAppend(s.streams, st, StreamRef(b));
    SumAppend(s.streams, st, StreamOwn(b));
  }

  lemma SubscribeCounts(s: State, t: nat)
    requires CountsOk(s) && |s.refcount| <= NO_BLOCK && TopicOk(s, t)
    ensures CountsOk(Apply(s, Subscribe(t)))
  {
    var st := Stream(t, s.writeSeq[t], [], Waiting);
    forall b | 0 <= b < |s.refcount| ensures CountOk(s.(streams := s.streams + [st]), b) { JoinCount(s, st, b); }
  }

  /** A step of one publisher that neither gains nor loses a block. */
  lemma PubNeutral(s: State, p: nat, pub: Pub)
    requires CountsOk(s) && p < |s.pubs|
    requires forall b :: 0 <= b < |s.refcount| ==>
               PubRef(b)(pub) == PubRef(b)(s.pubs[p]) && PubOwn(b)(pub) == PubOwn(b)(s.pubs[p])
    ensures CountsOk(PutPub(s, p, pub))
  {
    forall b | 0 <= b < |s.refcount| ensures CountOk(PutPub(s, p, pub), b) {
      assert CountOk(s, b);
      PubDelta(s, p, pub, b);
    }
  }

  lemma StreamNeutral(s: State, i: nat, pc: StreamPc)
    requires CountsOk(s) && i < |s.streams| && |s.refcount| <= NO_BLOCK
    requires StreamRefBlock(pc) == StreamRefBlock(s.streams[i].pc) && !pc.UndoFree? && !s.streams[i].pc.UndoFree?
    ensures CountsOk(StreamTo(s, i, pc))
  {
    forall b | 0 <= b < |s.refcount| ensures CountOk(StreamTo(s, i, pc), b) {
      assert CountOk(s, b);
      StreamDelta(s, i, s.streams[i].(pc := pc), b);
    }
  }

  lemma RefillCounts(s: State, p: nat)
    requires CountsOk(s) && AllocEnabled(s, p, RefillOne)
    ensures CountsOk(ApplyAlloc(s, p, RefillOne))
  {
    var pub := s.pubs[p];
    var s1 := s.(free := DropLast(s.free));
    forall b | 0 <= b < |s.refcount| ensures CountOk(ApplyAlloc(s, p, RefillOne), b) {
      assert CountOk(s, b);
      PopDelta(s, b);
      PubDelta(s1, p, pub.(cache := pub.cache + [Last(s.free)]), b);
      SumAppend(pub.cache, Last(s.free), Is(b));
    }
  }

  lemma AllocCounts(s: State, p: nat, a: AllocStep)
    requires CountsOk(s) && AllocEnabled(s, p, a) && |s.refcount| <= NO_BLOCK
    ensures CountsOk(ApplyAlloc(s, p, a))
  {
    if a.RefillOne? {
      RefillCounts(s, p);
    } else {
      PubNeutral(s, p, ApplyAlloc(s, p, a).pubs[p]);
    }
  }

  lemma LoanCounts(s: State, p: nat, a: LoanStep)
    requires CountsOk(s) && LoanEnabled(s, p, a) && |s.refcount| <= NO_BLOCK
    ensures CountsOk(ApplyLoan(s, p, a))
  {
    var pub := s.pubs[p];
    var s' := ApplyLoan(s, p, a);
    match a
    case Write(_) =>
      forall b | 0 <= b < |s.refcount| ensures CountOk(s', b) { assert CountOk(s, b); }
    case SetLen(_) => PubNeutral(s, p, s'.pubs[p]);
    case DropLoan => PushCounts(s, p, s'.pubs[p], pub.pc.block);
    case Pin(at) =>
      forall b | 0 <= b < |s.refcount|
        ensures PubRef(b)(s'.pubs[p]) == PubRef(b)(pub) && PubOwn(b)(s'.pubs[p]) == PubOwn(b)(pub)
      {
        SumInsert(pub.pinned, at, pub.pc.block, Is(b));
      }
      PubNeutral(s, p, s'.pubs[p]);
  }

  /** A publisher gives one block it owns back to the free list. */
  lemma PushCounts(s: State, p: nat, pub: Pub, x: nat)
    requires CountsOk(s) && p < |s.pubs|
    requires forall b :: 0 <= b < |s.refcount| ==>
               PubRef(b)(pub) == PubRef(b)(s.pubs[p]) && PubOwn(b)(pub) + Eq(x, b) == PubOwn(b)(s.pubs[p])
    ensures CountsOk(PutPub(s.(free := s.free + [x]), p, pub))
  {
    var s1 := s.(free := s.free + [x]);
    forall b | 0 <= b < |s.refcount| ensures CountOk(PutPub(s1, p, pub), b) {
      assert CountOk(s, b);
      FreeDelta(s, x, b);
      PubDelta(s1, p, pub, b);
    }
  }

  lemma ClaimCounts(s: State, p: nat, t: nat, a: ClaimStep)
    requires CountsOk(s) && ClaimEnabled(s, p, t, a)
    ensures CountsOk(ApplyClaim(s, p, t, a))
  {
    var s' := ApplyClaim(s, p, t, a);
    forall b | 0 <= b < |s.refcount| ensures CountOk(s', b) {
      assert CountOk(s, b);
      PubDelta(s, p, s'.pubs[p], b);
    }
  }

  /** A publisher step that rewrites a slot without changing which block it names. */
  lemma EntryNeutral(s: State, t: nat, q: nat, e: Entry, p: nat, pub: Pub)
    requires CountsOk(s) && p < |s.pubs| && TopicOk(s, t) && e.block == Slot(s.rings, s.depth, t, q).block
    requires forall b :: 0 <= b < |s.refcount| ==>
               PubRef(b)(pub) == PubRef(b)(s.pubs[p]) && PubOwn(b)(pub) == PubOwn(b)(s.pubs[p])
    ensures CountsOk(PutPub(PutEntry(s, t, q, e), p, pub))
  {
    var s1 := PutEntry(s, t, q, e);
    forall b | 0 <= b < |s.refcount| ensures CountOk(s1, b) {
      assert CountOk(s, b);
      EntryDelta(s, t, q, e, b);
    }
    PubNeutral(s1, p, pub);
  }

  /** Only the histories differ. */
  lemma SameCounts(s: State, s': State)
    requires CountsOk(s) && s'.rings == s.rings && s'.pubs == s.pubs && s'.streams == s.streams
    requires s'.samples == s.samples && s'.free == s.free && s'.refcount == s.refcount
    ensures CountsOk(s')
  {
    forall b | 0 <= b < |s.refcount| ensures CountOk(s', b) { assert CountOk(s, b); }
  }

  lemma MarkCounts(s: State, p: nat, a: MarkStep)
    requires CountsOk(s) && MarkEnabled(s, p, a)
    ensures CountsOk(ApplyMark(s, p, a))
  {
    var s' := ApplyMark(s, p, a);
    var job := s.pubs[p].pc.job;
    if s'.rings == s.rings && !s'.pubs[p].pc.Marked? {
      PubNeutral(s, p, s'.pubs[p]);
      SameCounts(PutPub(s, p, s'.pubs[p]), s');
    } else {
      var e := Slot(s.rings, s.depth, job.topic, job.seqNo).(seqNo := SEQ_WRITING);
      EntryNeutral(s, job.topic, job.seqNo, e, p, s'.pubs[p]);
      SameCounts(PutPub(PutEntry(s, job.topic, job.seqNo, e), p, s'.pubs[p]), s');
    }
  }

  /** The loaned block is unreferenced before its count is set, and has one reference after. */
  lemma SetOneCount(s: State, p: nat, pub: Pub, b: nat)
    requires p < |s.pubs| && s.pubs[p].pc.OldRead? && |s.refcount| <= NO_BLOCK
    requires pub == s.pubs[p].(pc := Counted(s.pubs[p].pc.job, s.pubs[p].pc.prior))
    requires var x := s.pubs[p].pc.job.block; x < |s.refcount| && CountOk(s, x) && b < |s.refcount| && CountOk(s, b)
    ensures CountOk(PutPub(PutCount(s, s.pubs[p].pc.job.block, 1), p, pub), b)
  {
    var x := s.pubs[p].pc.job.block;
    PubCounts(s, p, x);
    PubDelta(PutCount(s, x, 1), p, pub, b);
  }

  lemma SetCountCounts(s: State, p: nat)
    requires CountsOk(s) && FillEnabled(s, p, SetCount) && |s.refcount| <= NO_BLOCK
    ensures CountsOk(ApplyFill(s, p, SetCount))
  {
    var pub := s.pubs[p].(pc := Counted(s.pubs[p].pc.job, s.pubs[p].pc.prior));
    var s' := PutPub(PutCount(s, s.pubs[p].pc.job.block, 1), p, pub);
    forall b | 0 <= b < |s.refcount| ensures CountOk(s', b) { SetOneCount(s, p, pub, b); }
  }

  lemma WriteBlockCounts(s: State, p: nat)
    requires CountsOk(s) && FillEnabled(s, p, WriteBlock) && |s.refcount| <= NO_BLOCK
    requires Slot(s.rings, s.depth, s.pubs[p].pc.job.topic, s.pubs[p].pc.job.seqNo).block == s.pubs[p].pc.prior
    ensures CountsOk(ApplyFill(s, p, WriteBlock))
  {
    var job := s.pubs[p].pc.job;
    var e := Slot(s.rings, s.depth, job.topic, job.seqNo).(block := job.block);
    var pub := s.pubs[p].(pc := Named(job, s.pubs[p].pc.prior));
    forall b | 0 <= b < |s.refcount| ensures CountOk(PutPub(PutEntry(s, job.topic, job.seqNo, e), p, pub), b) {
      NameCount(s, p, job, e, pub, b);
    }
  }

  /** The slot now names the new block; the publisher holds the replaced one. */
  lemma NameCount(s: State, p: nat, job: Job, e: Entry, pub: Pub, b: nat)
    requires TopicOk(s, job.topic)
    requires p < |s.pubs| && s.pubs[p].pc == Counted(job, Slot(s.rings, s.depth, job.topic, job.seqNo).block)
    requires e.block == job.block && pub == s.pubs[p].(pc := Named(job, s.pubs[p].pc.prior))
    requires b < |s.refcount| <= NO_BLOCK && CountOk(s, b)
    ensures CountOk(PutPub(PutEntry(s, job.topic, job.seqNo, e), p, pub), b)
  {
    EntryDelta(s, job.topic, job.seqNo, e, b);
    PubDelta(PutEntry(s, job.topic, job.seqNo, e), p, pub, b);
  }

  lemma FillCounts(s: State, p: nat, a: FillStep)
    requires CountsOk(s) && FillEnabled(s, p, a) && (a.ReadOld? || a.WriteLen? || a.Close?)
    ensures CountsOk(ApplyFill(s, p, a))
  {
    var s' := ApplyFill(s, p, a);
    var job := s.pubs[p].pc.job;
    if a.ReadOld? {
      PubNeutral(s, p, s'.pubs[p]);
    } else {
      var e := Slot(s.rings, s.depth, job.topic, job.seqNo);
      var e' := if a.WriteLen? then e.(len := job.len) else e.(seqNo := job.seqNo);
      EntryNeutral(s, job.topic, job.seqNo, e', p, s'.pubs[p]);
      SameCounts(PutPub(PutEntry(s, job.topic, job.seqNo, e'), p, s'.pubs[p]), s');
    }
  }

  lemma ReleaseOldCounts(s: State, p: nat)
    requires CountsOk(s) && ReleaseEnabled(s, p, ReleaseOld) && |s.refcount| <= NO_BLOCK
    ensures CountsOk(ApplyRelease(s, p, ReleaseOld))
  {
    var s' := ApplyRelease(s, p, ReleaseOld);
    var x := s.pubs[p].pc.prior;
    if x >= |s.refcount| {
      PubNeutral(s, p, s'.pubs[p]);
    } else {
      forall b | 0 <= b < |s.refcount| ensures CountOk(s', b) {
        assert CountOk(s, b);
        PubDelta(PutCount(s, x, s.refcount[x] - 1), p, s'.pubs[p], b);
      }
    }
  }

  lemma ReleaseCounts(s: State, p: nat, a: ReleaseStep)
    requires CountsOk(s) && ReleaseEnabled(s, p, a) && |s.refcount| <= NO_BLOCK
    ensures CountsOk(ApplyRelease(s, p, a))
  {
    var s' := ApplyRelease(s, p, a);
    match a
    case ReleaseOld => ReleaseOldCounts(s, p);
    case Recycle => PubNeutral(s, p, s'.pubs[p]);
    case FreeDisplaced => PushCounts(s, p, s'.pubs[p], s.pubs[p].pc.block);
  }

  lemma RetireCounts(s: State, p: nat, a: RetireStep)
    requires CountsOk(s) && RetireEnabled(s, p, a) && |s.refcount| <= NO_BLOCK
    ensures CountsOk(ApplyRetire(s, p, a))
  {
    var pub := s.pubs[p];
    var pub' := ApplyRetire(s, p, a).pubs[p];
    match a
    case Retire => PubNeutral(s, p, pub');
    case RetirePinned =>
      forall b: nat ensures Sum(pub.pinned, Is(b)) == Eq(pub.pinned[0], b) + Sum(pub'.pinned, Is(b)) {
        SumFirst(pub.pinned, Is(b));
      }
      PushCounts(s, p, pub', pub.pinned[0]);
    case RetireRecycled => PushCounts(s, p, pub', pub.recycled);
    case RetireCached =>
      forall b: nat ensures Sum(pub.cache, Is(b)) == Eq(pub.cache[0], b) + Sum(pub'.cache, Is(b)) {
        SumFirst(pub.cache, Is(b));
      }
      PushCounts(s, p, pub', pub.cache[0]);
  }

  lemma ScanCounts(s: State, i: nat, a: ScanStep)
    requires CountsOk(s) && ScanEnabled(s, i, a) && |s.refcount| <= NO_BLOCK
    ensures CountsOk(ApplyScan(s, i, a))
  {
    var s' := ApplyScan(s, i, a);
    if s' != s {
      StreamNeutral(s, i, s'.streams[i].pc);
    }
  }

  lemma AcquireCounts(s: State, i: nat)
    requires CountsOk(s) && RefEnabled(s, i, Acquire) && |s.refcount| <= NO_BLOCK
    requires s.streams[i].pc.count > 0
    ensures CountsOk(ApplyRef(s, i, Acquire))
  {
    var s' := ApplyRef(s, i, Acquire);
    var pc := s.streams[i].pc;
    if s.refcount[pc.block] == pc.count {
      forall b | 0 <= b < |s.refcount| ensures CountOk(s', b) {
        assert CountOk(s, b);
        StreamDelta(PutCount(s, pc.block, pc.count + 1), i, s'.streams[i], b);
      }
    } else {
      StreamNeutral(s, i, s'.streams[i].pc);
    }
  }

  lemma RecheckCounts(s: State, i: nat)
    requires CountsOk(s) && RefEnabled(s, i, Recheck) && |s.refcount| <= NO_BLOCK
    ensures CountsOk(ApplyRef(s, i, Recheck))
  {
    var s' := ApplyRef(s, i, Recheck);
    var st := s.streams[i];
    if Slot(s.rings, s.depth, st.topic, st.pc.seqNo).seqNo == st.pc.seqNo {
      var sm := Sample(st.topic, st.pc.seqNo, st.pc.block, st.pc.len, Held);
      forall b | 0 <= b < |s.refcount| ensures CountOk(s', b) {
        assert CountOk(s, b);
        StreamDelta(s, i, s'.streams[i], b);
        SumAppend(s.samples, sm, SampleRef(b));
        SumAppend(s.samples, sm, SampleOwn(b));
      }
    } else {
      StreamNeutral(s, i, s'.streams[i].pc);
    }
  }

  lemma UnacquireCounts(s: State, i: nat)
    requires CountsOk(s) && RefEnabled(s, i, Unacquire) && |s.refcount| <= NO_BLOCK
    ensures CountsOk(ApplyRef(s, i, Unacquire))
  {
    var s' := ApplyRef(s, i, Unacquire);
    var x := s.streams[i].pc.block;
    forall b | 0 <= b < |s.refcount| ensures CountOk(s', b) {
      assert CountOk(s, b);
      StreamDelta(PutCount(s, x, s.refcount[x] - 1), i, s'.streams[i], b);
    }
  }

  lemma UndoPushCounts(s: State, i: nat)
    requires CountsOk(s) && RefEnabled(s, i, UndoPush) && |s.refcount| <= NO_BLOCK
    ensures CountsOk(ApplyRef(s, i, UndoPush))
  {
    var s' := ApplyRef(s, i, UndoPush);
    var x := s.streams[i].pc.block;
    forall b | 0 <= b < |s.refcount| ensures CountOk(s', b) {
      assert CountOk(s, b);
      FreeDelta(s, x, b);
      StreamDelta(s.(free := s.free + [x]), i, s'.streams[i], b);
    }
  }

  lemma SampleStepCounts(s: State, k: nat, a: SampleStep)
    requires CountsOk(s) && SampleEnabled(s, k, a)
    ensures CountsOk(ApplySample(s, k, a))
  {
    var s' := ApplySample(s, k, a);
    var x := s.samples[k].block;
    forall b | 0 <= b < |s.refcount| ensures CountOk(s', b) {
      assert CountOk(s, b);
      if a.DropSample? {
        SampleDelta(PutCount(s, x, s.refcount[x] - 1), k, s'.samples[k], b);
      } else {
        FreeDelta(s, x, b);
        SampleDelta(s.(free := s.free + [x]), k, s'.samples[k], b);
      }
    }
  }
}
