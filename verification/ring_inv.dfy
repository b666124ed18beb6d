/** The inductive invariant of the ring protocol. */
module RingInv {
  import opened Layout
  import opened Sums
  import opened Ring
  import opened RingCounts

  predicate Shape(s: State) {
    && 0 < s.depth && |s.writeSeq| == |s.rings| == |s.creatorTopic|
    && (forall t :: 0 <= t < |s.rings| ==> |s.rings[t]| == s.depth)
    && (forall t :: 0 <= t < |s.writeSeq| ==> s.writeSeq[t] < SEQ_WRITING)
    && |s.bytes| == |s.refcount| <= NO_BLOCK
  }

  predicate BlockOk(s: State, x: nat) { x == NO_BLOCK || x < |s.refcount| }

  predicate AllBlocks(s: State, xs: seq<nat>) { forall i :: 0 <= i < |xs| ==> xs[i] < |s.refcount| }

  /** What (topic, sequence) carried is what the slot or sample shows now. */
  predicate Carries(s: State, k: Key, block: nat, len: nat) {
    && k in s.log && block < |s.bytes|
    && s.log[k] == Message(block, len, s.bytes[block])
  }

  // ---- ring slots: a closed slot shows the message of its sequence ----

  predicate EntryOk(s: State, t: nat, i: nat, e: Entry)
    requires 0 < s.depth
  {
    && BlockOk(s, e.block) && e.len <= s.capacity && e.seqNo <= SEQ_WRITING
    && (e.block != NO_BLOCK ==> t < |s.writeSeq| && s.writeSeq[t] > 0)
    && (0 < e.seqNo < SEQ_WRITING ==> e.seqNo % s.depth == i && Carries(s, Key(t, e.seqNo), e.block, e.len))
  }

  predicate EntriesOk(s: State)
    requires 0 < s.depth
  {
    forall t, i :: 0 <= t < |s.rings| && 0 <= i < |s.rings[t]| ==> EntryOk(s, t, i, s.rings[t][i])
  }

  // ---- samples ----

  predicate SampleOk(s: State, sm: Sample) {
    && sm.block < |s.refcount|
    && (sm.status.Held? ==> Carries(s, Key(sm.topic, sm.seqNo), sm.block, sm.len))
  }

  predicate SamplesOk(s: State) {
    forall k :: 0 <= k < |s.samples| ==> SampleOk(s, s.samples[k])
  }

  // ---- histories ----

  predicate KeyOk(s: State, k: Key) {
    k.topic < |s.writeSeq| && 0 < k.seqNo <= s.writeSeq[k.topic]
  }

  predicate LogOk(s: State) {
    && (forall k :: k in s.log ==> KeyOk(s, k) && k !in s.skipped)
    && (forall k :: k in s.skipped ==> KeyOk(s, k))
  }

  // ---- publishers ----

  predicate PoolOk(s: State, pub: Pub) {
    && |pub.cache| <= CACHE_SIZE && AllBlocks(s, pub.cache) && AllBlocks(s, pub.pinned) && BlockOk(s, pub.recycled)
    && (pub.pc.Loaned? ==> pub.pc.block < |s.refcount| && pub.pc.len <= s.capacity)
    && (pub.pc.Unreferenced? || pub.pc.Displaced? ==> pub.pc.block < |s.refcount|)
    && (pub.pc.Closed? ==> BlockOk(s, pub.pc.prior))
    && (pub.pc.Refilling? ==> pub.recycled == NO_BLOCK)
  }

  /** A claim in flight is unpublished and, on a creator topic, the newest. */
  predicate JobOk(s: State, pub: Pub, job: Job) {
    && job.block < |s.refcount| && job.len <= s.capacity
    && KeyOk(s, Key(job.topic, job.seqNo)) && job.topic < |s.creatorTopic|
    && Key(job.topic, job.seqNo) !in s.log && Key(job.topic, job.seqNo) !in s.skipped
    && pub.creator == s.creatorTopic[job.topic]
    && (pub.creator ==> job.seqNo == s.writeSeq[job.topic])
  }

  /** A writing publisher finds its slot as it left it. */
  predicate WritingOk(s: State, pc: PubPc)
    requires Writing(pc) && Shape(s) && pc.job.topic < |s.rings|
  {
    var e := Slot(s.rings, s.depth, pc.job.topic, pc.job.seqNo);
    && e.seqNo == SEQ_WRITING
    && (!pc.Marked? ==> BlockOk(s, pc.prior))
    && (pc.OldRead? || pc.Counted? ==> e.block == pc.prior)
    && (pc.Named? || pc.Sized? ==> e.block == pc.job.block)
    && (pc.Sized? ==> e.len == pc.job.len)
  }

  predicate PubOk(s: State, pub: Pub)
    requires Shape(s)
  {
    && PoolOk(s, pub)
    && (HasJob(pub.pc) ==> JobOk(s, pub, pub.pc.job))
    && (pub.pc.Observed? ==> pub.pc.current != SEQ_WRITING)
    && (Writing(pub.pc) ==> WritingOk(s, pub.pc))
  }

  predicate PubsOk(s: State)
    requires Shape(s)
  {
    forall p :: 0 <= p < |s.pubs| ==> PubOk(s, s.pubs[p])
  }

  /** Claims are distinct, written slots are distinct, and there is one creator. */
  predicate Apart(s: State, a: Pub, b: Pub)
    requires 0 < s.depth
  {
    && !(a.creator && b.creator)
    && (HasJob(a.pc) && HasJob(b.pc) && a.pc.job.topic == b.pc.job.topic ==>
          && a.pc.job.seqNo != b.pc.job.seqNo
          && (Writing(a.pc) && Writing(b.pc) ==> a.pc.job.seqNo % s.depth != b.pc.job.seqNo % s.depth))
  }

  predicate PubsApart(s: State)
    requires 0 < s.depth
  {
    forall p, q :: 0 <= p < |s.pubs| && 0 <= q < |s.pubs| && p != q ==> Apart(s, s.pubs[p], s.pubs[q])
  }

  // ---- streams ----

  /** What a stream read from its slot is stale, or is what the slot still shows. */
  predicate SeenOk(s: State, st: Stream)
    requires Shape(s) && st.topic < |s.rings| && !st.pc.Waiting?
  {
    var pc := st.pc;
    var e := Slot(s.rings, s.depth, st.topic, pc.seqNo);
    && (!pc.Scanning? ==> Key(st.topic, pc.seqNo) in s.log)
    && (pc.GotBlock? || pc.GotLen? || pc.GotCount? || pc.Tentative? ==> e.seqNo == pc.seqNo ==> pc.block == e.block)
    && (pc.GotLen? || pc.GotCount? || pc.Tentative? ==> e.seqNo == pc.seqNo ==> pc.len == e.len)
    && (pc.GotLen? || pc.GotCount? || pc.Tentative? || pc.Undo? || pc.UndoFree? ==> pc.block < |s.refcount|)
    && (pc.GotCount? ==> pc.count > 0)
  }

  predicate StreamOk(s: State, st: Stream)
    requires Shape(s)
  {
    && st.topic < |s.rings| && st.lastSeq <= s.writeSeq[st.topic]
    && Increasing(st.delivered) && (forall i :: 0 <= i < |st.delivered| ==> st.delivered[i] <= st.lastSeq)
    && (!st.pc.Waiting? ==> st.lastSeq < st.pc.seqNo <= st.pc.current <= s.writeSeq[st.topic] && SeenOk(s, st))
  }

  predicate StreamsOk(s: State)
    requires Shape(s)
  {
    forall i :: 0 <= i < |s.streams| ==> StreamOk(s, s.streams[i])
  }

  // ---- the window of the last `depth` sequences ----

  predicate InFlight(s: State, k: Key) {
    exists p :: 0 <= p < |s.pubs| && HasJob(s.pubs[p].pc) && Key(s.pubs[p].pc.job.topic, s.pubs[p].pc.job.seqNo) == k
  }

  predicate InWindow(s: State, k: Key) { KeyOk(s, k) && s.writeSeq[k.topic] < k.seqNo + s.depth }

  predicate Shown(s: State, k: Key)
    requires Shape(s)
  {
    k.topic < |s.rings| && Slot(s.rings, s.depth, k.topic, k.seqNo).seqNo == k.seqNo
  }

  /** Each recent sequence is shown by its slot, still in flight, pinned, or was overtaken. */
  ghost predicate WindowOk(s: State)
    requires Shape(s)
  {
    forall k :: InWindow(s, k) ==> Shown(s, k) || InFlight(s, k) || k in s.skipped || k in s.overtaken
  }

  /** Overtaking happens only on topics of opened publishers, to published sequences, for good. */
  predicate OvertakenOk(s: State)
    requires Shape(s)
  {
    forall k :: k in s.overtaken ==>
      k in s.log && k.topic < |s.creatorTopic| && !s.creatorTopic[k.topic] && !Shown(s, k)
  }

  predicate Basic(s: State) {
    && Shape(s) && AllBlocks(s, s.free) && EntriesOk(s) && SamplesOk(s) && LogOk(s)
  }

  ghost predicate Inv(s: State) {
    && Basic(s) && PubsOk(s) && PubsApart(s) && StreamsOk(s) && WindowOk(s) && OvertakenOk(s) && CountsOk(s)
  }
}
