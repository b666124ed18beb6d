/** The block pool and the refcounted seqlock rings, one step per atomic access
    (`Region::commit_to_ring`, `Stream::try_recv`, `release_block`, `Publisher::alloc_cached`,
    `Publisher::drop`).

    Any number of publishers and subscribers join and interleave. The free list is used
    through atomic push and pop, which is what `FreeList.StepsRefineStack` justifies; its top
    is the last element of `free`.

    History variables: `log` holds what was published under each (topic, sequence),
    `skipped` the sequences a pinned publish consumed without touching the ring, `overtaken`
    the published sequences that an older claim displaced, `Stream.delivered` the sequences a
    stream has returned. */
module Ring {
  import opened Layout

  const CACHE_SIZE: nat := 8

  datatype Entry = Entry(seqNo: nat, block: nat, len: nat)

  datatype Key = Key(topic: nat, seqNo: nat)

  datatype Message = Message(block: nat, len: nat, bytes: Bytes)

  /** One commit: the loaned block, its length, and the claimed sequence of a topic. */
  datatype Job = Job(block: nat, len: nat, topic: nat, seqNo: nat)

  datatype PubPc =
    | Ready
    | Refilling                          // alloc_cached is popping blocks into the cache
    | Loaned(block: nat, len: nat)
    | Claimed(job: Job)                  // write_seq.fetch_add done
    | Observed(job: Job, current: nat)   // the slot's sequence word loaded, not SEQ_WRITING
    | Marked(job: Job)                   // the slot's sequence word is SEQ_WRITING
    | OldRead(job: Job, prior: nat)
    | Counted(job: Job, prior: nat)        // new block's refcount stored
    | Named(job: Job, prior: nat)          // new block index stored
    | Sized(job: Job, prior: nat)          // new length stored
    | Closed(prior: nat)                   // sequence word stored; the old block is still counted
    | Unreferenced(block: nat)           // the old block's refcount reached zero
    | Displaced(block: nat)              // previous content of the recycle slot
    | Retiring                           // Publisher::drop

  datatype Pub = Pub(creator: bool, cache: seq<nat>, recycled: nat, pinned: seq<nat>, pc: PubPc)

  datatype StreamPc =
    | Waiting
    | Scanning(current: nat, seqNo: nat)
    | Matched(current: nat, seqNo: nat)                              // seqlock check 1 passed
    | GotBlock(current: nat, seqNo: nat, block: nat)
    | GotLen(current: nat, seqNo: nat, block: nat, len: nat)
    | GotCount(current: nat, seqNo: nat, block: nat, len: nat, count: nat)
    | Tentative(current: nat, seqNo: nat, block: nat, len: nat)      // refcount incremented
    | Undo(current: nat, seqNo: nat, block: nat)                     // seqlock check 2 failed
    | UndoFree(current: nat, seqNo: nat, block: nat)                 // and that was the last reference

  datatype Stream = Stream(topic: nat, lastSeq: nat, delivered: seq<nat>, pc: StreamPc)

  datatype Status = Held | Freeing | Gone

  datatype Sample = Sample(topic: nat, seqNo: nat, block: nat, len: nat, status: Status)

  datatype State = State(
    depth: nat,                 // ring_depth
    capacity: nat,              // data bytes per block
    creatorTopic: seq<bool>,    // topics published by the creator; the others by opened publishers
    rings: seq<seq<Entry>>,
    writeSeq: seq<nat>,
    refcount: seq<nat>,
    bytes: seq<Bytes>,
    free: seq<nat>,
    pubs: seq<Pub>,
    streams: seq<Stream>,
    samples: seq<Sample>,
    log: map<Key, Message>,
    skipped: set<Key>,
    overtaken: set<Key>)

  // Publisher::alloc_cached
  datatype AllocStep = TakeRecycled | TakeCached | StartRefill | RefillOne | Exhausted

  // the loan
  datatype LoanStep = Write(data: Bytes) | SetLen(len: nat) | DropLoan | Pin(at: nat)   // place in topic order

  // Region::commit_to_ring and commit_pinned
  datatype ClaimStep = Claim | ClaimPinned
  datatype MarkStep = StoreMark | Observe | CasMark | MarkRetry      // retry: weak exchange failed
  datatype FillStep = ReadOld | SetCount | WriteBlock | WriteLen | Close
  datatype ReleaseStep = ReleaseOld | Recycle | FreeDisplaced

  // Publisher::drop
  datatype RetireStep = Retire | RetirePinned | RetireRecycled | RetireCached

  // Stream::try_recv
  datatype ScanStep = BeginScan | Check | ReadBlock | ReadLen | LoadCount
  datatype RefStep = Acquire | AcquireRetry | Recheck | Unacquire | UndoPush

  // Sample::drop
  datatype SampleStep = DropSample | FreeSample

  datatype Action =
    | Open
    | Subscribe(topic: nat)
    | Allocate(p: nat, alloc: AllocStep)
    | UseLoan(p: nat, loan: LoanStep)
    | ClaimSeq(p: nat, topic: nat, claim: ClaimStep)
    | MarkEntry(p: nat, mark: MarkStep)
    | FillEntry(p: nat, fill: FillStep)
    | Release(p: nat, release: ReleaseStep)
    | RetirePub(p: nat, retire: RetireStep)
    | Scan(i: nat, scan: ScanStep)
    | Reference(i: nat, ref: RefStep)
    | EndSample(k: nat, end: SampleStep)
    | TakePinned(i: nat, seqNo: nat)

  // ---- the slot of a sequence ----

  predicate TopicOk(s: State, t: nat) {
    t < |s.rings| && t < |s.writeSeq| && t < |s.creatorTopic| && 0 < s.depth == |s.rings[t]|
  }

  function Slot(rings: seq<seq<Entry>>, depth: nat, t: nat, q: nat): Entry
    requires t < |rings| && 0 < depth == |rings[t]|
  {
    rings[t][q % depth]
  }

  function PutSlot(rings: seq<seq<Entry>>, depth: nat, t: nat, q: nat, e: Entry): seq<seq<Entry>>
    requires t < |rings| && 0 < depth == |rings[t]|
  {
    rings[t := rings[t][q % depth := e]]
  }

  // ---- updates of one component ----

  function PutPub(s: State, p: nat, pub: Pub): State
    requires p < |s.pubs|
  {
    s.(pubs := s.pubs[p := pub])
  }

  function PubTo(s: State, p: nat, pc: PubPc): State
    requires p < |s.pubs|
  {
    PutPub(s, p, s.pubs[p].(pc := pc))
  }

  function StreamTo(s: State, i: nat, pc: StreamPc): State
    requires i < |s.streams|
  {
    s.(streams := s.streams[i := s.streams[i].(pc := pc)])
  }

  function SampleTo(s: State, k: nat, status: Status): State
    requires k < |s.samples|
  {
    s.(samples := s.samples[k := s.samples[k].(status := status)])
  }

  function PutCount(s: State, b: nat, n: nat): State
    requires b < |s.refcount|
  {
    s.(refcount := s.refcount[b := n])
  }

  function PutEntry(s: State, t: nat, q: nat, e: Entry): State
    requires TopicOk(s, t)
  {
    s.(rings := PutSlot(s.rings, s.depth, t, q, e))
  }

  function DropLast<T>(xs: seq<T>): seq<T>
    requires xs != []
  {
    xs[..|xs| - 1]
  }

  function Last<T>(xs: seq<T>): T
    requires xs != []
  {
    xs[|xs| - 1]
  }

  function Insert<T>(xs: seq<T>, at: nat, x: T): seq<T>
    requires at <= |xs|
  {
    xs[..at] + [x] + xs[at..]
  }

  // ---- publisher steps ----

  predicate HasJob(pc: PubPc) {
    pc.Claimed? || pc.Observed? || pc.Marked? || pc.OldRead? || pc.Counted? || pc.Named? || pc.Sized?
  }

  /** Between marking the slot and storing its sequence. */
  predicate Writing(pc: PubPc) {
    pc.Marked? || pc.OldRead? || pc.Counted? || pc.Named? || pc.Sized?
  }

  predicate JobSlotOk(s: State, pc: PubPc) {
    HasJob(pc) && TopicOk(s, pc.job.topic)
  }

  predicate AllocEnabled(s: State, p: nat, a: AllocStep) {
    p < |s.pubs| &&
    var pub := s.pubs[p];
    match a
    case TakeRecycled => pub.pc.Ready? && pub.recycled != NO_BLOCK
    case TakeCached =>
      && pub.cache != []
      && ((pub.pc.Ready? && pub.recycled == NO_BLOCK)
          || (pub.pc.Refilling? && (|pub.cache| == CACHE_SIZE || s.free == [])))
    case StartRefill => pub.pc.Ready? && pub.recycled == NO_BLOCK && pub.cache == []
    case RefillOne => pub.pc.Refilling? && |pub.cache| < CACHE_SIZE && s.free != []
    case Exhausted => pub.pc.Refilling? && pub.cache == [] && s.free == []
  }

  function ApplyAlloc(s: State, p: nat, a: AllocStep): State
    requires AllocEnabled(s, p, a)
  {
    var pub := s.pubs[p];
    match a
    case TakeRecycled => PutPub(s, p, pub.(recycled := NO_BLOCK, pc := Loaned(pub.recycled, 0)))
    case TakeCached => PutPub(s, p, pub.(cache := DropLast(pub.cache), pc := Loaned(Last(pub.cache), 0)))
    case StartRefill => PubTo(s, p, Refilling)
    case RefillOne => PutPub(s.(free := DropLast(s.free)), p, pub.(cache := pub.cache + [Last(s.free)]))
    case Exhausted => PubTo(s, p, Ready)
  }

  predicate LoanEnabled(s: State, p: nat, a: LoanStep) {
    && p < |s.pubs| && s.pubs[p].pc.Loaned?
    && (a.Write? ==> s.pubs[p].pc.block < |s.bytes| && |a.data| == s.capacity)
    && (a.SetLen? ==> a.len <= s.capacity)
    && (a.Pin? ==> a.at <= |s.pubs[p].pinned|)
  }

  function ApplyLoan(s: State, p: nat, a: LoanStep): State
    requires LoanEnabled(s, p, a)
  {
    var pub := s.pubs[p];
    match a
    case Write(data) => s.(bytes := s.bytes[pub.pc.block := data])
    case SetLen(len) => PubTo(s, p, Loaned(pub.pc.block, len))
    case DropLoan => PubTo(s.(free := s.free + [pub.pc.block]), p, Ready)
    case Pin(at) => PutPub(s, p, pub.(pinned := Insert(pub.pinned, at, pub.pc.block), pc := Ready))
  }

  /** A topic is published by the creator alone or by opened publishers alone, and its
      sequences stay below the SEQ_WRITING sentinel. */
  predicate MayClaim(s: State, p: nat, t: nat) {
    p < |s.pubs| && TopicOk(s, t) && s.creatorTopic[t] == s.pubs[p].creator && s.writeSeq[t] + 1 < SEQ_WRITING
  }

  predicate ClaimEnabled(s: State, p: nat, t: nat, a: ClaimStep) {
    && MayClaim(s, p, t)
    && (if a.Claim? then s.pubs[p].pc.Loaned? else s.pubs[p].pc.Ready?)
  }

  function ApplyClaim(s: State, p: nat, t: nat, a: ClaimStep): State
    requires ClaimEnabled(s, p, t, a)
  {
    var q := s.writeSeq[t] + 1;
    var bumped := s.(writeSeq := s.writeSeq[t := q]);
    match a
    case Claim => PubTo(bumped, p, Claimed(Job(s.pubs[p].pc.block, s.pubs[p].pc.len, t, q)))
    case ClaimPinned => bumped.(skipped := s.skipped + {Key(t, q)})
  }

  /** Published sequences that job `q` of topic `t` displaces although they are newer. */
  function Overtaken(t: nat, q: nat, current: nat): set<Key> {
    if q < current < SEQ_WRITING then {Key(t, current)} else {}
  }

  function MarkSlot(s: State, p: nat, job: Job): State
    requires p < |s.pubs| && TopicOk(s, job.topic)
  {
    var e := Slot(s.rings, s.depth, job.topic, job.seqNo);
    PubTo(PutEntry(s, job.topic, job.seqNo, e.(seqNo := SEQ_WRITING)), p, Marked(job))
    .(overtaken := s.overtaken + Overtaken(job.topic, job.seqNo, e.seqNo))
  }

  predicate MarkEnabled(s: State, p: nat, a: MarkStep) {
    p < |s.pubs| &&
    var pub := s.pubs[p];
    match a
    case StoreMark => pub.creator && pub.pc.Claimed? && JobSlotOk(s, pub.pc)
    case Observe => !pub.creator && pub.pc.Claimed? && JobSlotOk(s, pub.pc)
    case CasMark => !pub.creator && pub.pc.Observed? && JobSlotOk(s, pub.pc)
    case MarkRetry => !pub.creator && pub.pc.Observed? && JobSlotOk(s, pub.pc)
  }

  function ApplyMark(s: State, p: nat, a: MarkStep): State
    requires MarkEnabled(s, p, a)
  {
    var pc := s.pubs[p].pc;
    var job := pc.job;
    var e := Slot(s.rings, s.depth, job.topic, job.seqNo);
    match a
    case StoreMark => MarkSlot(s, p, job)
    case Observe => if e.seqNo == SEQ_WRITING then s else PubTo(s, p, Observed(job, e.seqNo))
    case CasMark => if e.seqNo == pc.current then MarkSlot(s, p, job) else PubTo(s, p, Claimed(job))
    case MarkRetry => PubTo(s, p, Claimed(job))
  }

  predicate FillEnabled(s: State, p: nat, a: FillStep) {
    p < |s.pubs| &&
    var pc := s.pubs[p].pc;
    match a
    case ReadOld => pc.Marked? && JobSlotOk(s, pc)
    case SetCount => pc.OldRead? && pc.job.block < |s.refcount|
    case WriteBlock => pc.Counted? && JobSlotOk(s, pc)
    case WriteLen => pc.Named? && JobSlotOk(s, pc)
    case Close => pc.Sized? && JobSlotOk(s, pc) && pc.job.block < |s.bytes|
  }

  function ApplyFill(s: State, p: nat, a: FillStep): State
    requires FillEnabled(s, p, a)
  {
    var pc := s.pubs[p].pc;
    var job := pc.job;
    match a
    case ReadOld => PubTo(s, p, OldRead(job, Slot(s.rings, s.depth, job.topic, job.seqNo).block))
    case SetCount => PubTo(PutCount(s, job.block, 1), p, Counted(job, pc.prior))
    case WriteBlock =>
      var e := Slot(s.rings, s.depth, job.topic, job.seqNo);
      PubTo(PutEntry(s, job.topic, job.seqNo, e.(block := job.block)), p, Named(job, pc.prior))
    case WriteLen =>
      var e := Slot(s.rings, s.depth, job.topic, job.seqNo);
      PubTo(PutEntry(s, job.topic, job.seqNo, e.(len := job.len)), p, Sized(job, pc.prior))
    case Close =>
      var e := Slot(s.rings, s.depth, job.topic, job.seqNo);
      PubTo(PutEntry(s, job.topic, job.seqNo, e.(seqNo := job.seqNo)), p, Closed(pc.prior))
      .(log := s.log[Key(job.topic, job.seqNo) := Message(job.block, job.len, s.bytes[job.block])])
  }

  predicate ReleaseEnabled(s: State, p: nat, a: ReleaseStep) {
    p < |s.pubs| &&
    var pc := s.pubs[p].pc;
    match a
    case ReleaseOld => pc.Closed? && (pc.prior < |s.refcount| ==> s.refcount[pc.prior] > 0)
    case Recycle => pc.Unreferenced?
    case FreeDisplaced => pc.Displaced?
  }

  function ApplyRelease(s: State, p: nat, a: ReleaseStep): State
    requires ReleaseEnabled(s, p, a)
  {
    var pub := s.pubs[p];
    match a
    case ReleaseOld =>
      var prior := pub.pc.prior;
      if prior == NO_BLOCK || prior >= |s.refcount| then PubTo(s, p, Ready)
      else
        var prev := s.refcount[prior];
        PubTo(PutCount(s, prior, prev - 1), p, if prev == 1 then Unreferenced(prior) else Ready)
    case Recycle =>
      PutPub(s, p, pub.(recycled := pub.pc.block,
                        pc := if pub.recycled == NO_BLOCK then Ready else Displaced(pub.recycled)))
    case FreeDisplaced => PubTo(s.(free := s.free + [pub.pc.block]), p, Ready)
  }

  predicate RetireEnabled(s: State, p: nat, a: RetireStep) {
    p < |s.pubs| &&
    var pub := s.pubs[p];
    match a
    case Retire => pub.pc.Ready?
    case RetirePinned => pub.pc.Retiring? && pub.pinned != []
    case RetireRecycled => pub.pc.Retiring? && pub.pinned == [] && pub.recycled != NO_BLOCK
    case RetireCached => pub.pc.Retiring? && pub.pinned == [] && pub.recycled == NO_BLOCK && pub.cache != []
  }

  function ApplyRetire(s: State, p: nat, a: RetireStep): State
    requires RetireEnabled(s, p, a)
  {
    var pub := s.pubs[p];
    match a
    case Retire => PubTo(s, p, Retiring)
    case RetirePinned =>
      PutPub(s.(free := s.free + [pub.pinned[0]]), p, pub.(pinned := pub.pinned[1..]))
    case RetireRecycled => PutPub(s.(free := s.free + [pub.recycled]), p, pub.(recycled := NO_BLOCK))
    case RetireCached =>
      PutPub(s.(free := s.free + [pub.cache[0]]), p, pub.(cache := pub.cache[1..]))
  }

  // ---- stream steps ----

  /** The scan window: from the next unread sequence, but never more than `depth` back. */
  function ScanStart(current: nat, lastSeq: nat, depth: nat): nat
    requires lastSeq < current && 0 < depth
  {
    if current - (lastSeq + 1) >= depth then current - depth + 1 else lastSeq + 1
  }

  /** Give up on one slot and move to the next sequence of the window. */
  function NextScan(current: nat, seqNo: nat): StreamPc {
    if seqNo < current then Scanning(current, seqNo + 1) else Waiting
  }

  predicate ScanEnabled(s: State, i: nat, a: ScanStep) {
    && i < |s.streams| && TopicOk(s, s.streams[i].topic)
    && var pc := s.streams[i].pc;
       match a
       case BeginScan => pc.Waiting?
       case Check => pc.Scanning?
       case ReadBlock => pc.Matched?
       case ReadLen => pc.GotBlock?
       case LoadCount => pc.GotLen? && pc.block < |s.refcount|
  }

  function ApplyScan(s: State, i: nat, a: ScanStep): State
    requires ScanEnabled(s, i, a)
  {
    var st := s.streams[i];
    var pc := st.pc;
    match a
    case BeginScan =>
      var current := s.writeSeq[st.topic];
      if current <= st.lastSeq then s
      else StreamTo(s, i, Scanning(current, ScanStart(current, st.lastSeq, s.depth)))
    case Check =>
      var e := Slot(s.rings, s.depth, st.topic, pc.seqNo);
      StreamTo(s, i, if e.seqNo == pc.seqNo then Matched(pc.current, pc.seqNo) else NextScan(pc.current, pc.seqNo))
    case ReadBlock =>
      StreamTo(s, i, GotBlock(pc.current, pc.seqNo, Slot(s.rings, s.depth, st.topic, pc.seqNo).block))
    case ReadLen =>
      var len := Slot(s.rings, s.depth, st.topic, pc.seqNo).len;
      StreamTo(s, i,
        if pc.block == NO_BLOCK || pc.block >= |s.refcount| || len > s.capacity then NextScan(pc.current, pc.seqNo)
        else GotLen(pc.current, pc.seqNo, pc.block, len))
    case LoadCount =>
      var count := s.refcount[pc.block];
      StreamTo(s, i, if count == 0 then NextScan(pc.current, pc.seqNo)
                     else GotCount(pc.current, pc.seqNo, pc.block, pc.len, count))
  }

  predicate RefEnabled(s: State, i: nat, a: RefStep) {
    && i < |s.streams| && TopicOk(s, s.streams[i].topic)
    && var pc := s.streams[i].pc;
       match a
       case Acquire => pc.GotCount? && pc.block < |s.refcount|
       case AcquireRetry => pc.GotCount?
       case Recheck => pc.Tentative?
       case Unacquire => pc.Undo? && pc.block < |s.refcount| && s.refcount[pc.block] > 0
       case UndoPush => pc.UndoFree?
  }

  function ApplyRef(s: State, i: nat, a: RefStep): State
    requires RefEnabled(s, i, a)
  {
    var st := s.streams[i];
    var pc := st.pc;
    match a
    case Acquire =>
      if s.refcount[pc.block] == pc.count
      then StreamTo(PutCount(s, pc.block, pc.count + 1), i, Tentative(pc.current, pc.seqNo, pc.block, pc.len))
      else StreamTo(s, i, GotLen(pc.current, pc.seqNo, pc.block, pc.len))
    case AcquireRetry => StreamTo(s, i, GotLen(pc.current, pc.seqNo, pc.block, pc.len))
    case Recheck =>
      if Slot(s.rings, s.depth, st.topic, pc.seqNo).seqNo == pc.seqNo
      then s.(streams := s.streams[i := Stream(st.topic, pc.seqNo, st.delivered + [pc.seqNo], Waiting)],
              samples := s.samples + [Sample(st.topic, pc.seqNo, pc.block, pc.len, Held)])
      else StreamTo(s, i, Undo(pc.current, pc.seqNo, pc.block))
    case Unacquire =>
      var prev := s.refcount[pc.block];
      StreamTo(PutCount(s, pc.block, prev - 1), i,
        if prev == 1 then UndoFree(pc.current, pc.seqNo, pc.block) else NextScan(pc.current, pc.seqNo))
    case UndoPush =>
      StreamTo(s.(free := s.free + [pc.block]), i, NextScan(pc.current, pc.seqNo))
  }

  /** A pinned receive on the same stream returned sequence `q`: it only moves `last_seq`
      (`Pinned` models the rest of it). */
  predicate PinnedEnabled(s: State, i: nat, q: nat) {
    && i < |s.streams| && TopicOk(s, s.streams[i].topic) && s.streams[i].pc.Waiting?
    && s.streams[i].lastSeq < q && Key(s.streams[i].topic, q) in s.skipped
  }

  predicate SampleEnabled(s: State, k: nat, a: SampleStep) {
    k < |s.samples| &&
    var sm := s.samples[k];
    if a.DropSample? then sm.status.Held? && sm.block < |s.refcount| && s.refcount[sm.block] > 0
    else sm.status.Freeing?
  }

  function ApplySample(s: State, k: nat, a: SampleStep): State
    requires SampleEnabled(s, k, a)
  {
    var sm := s.samples[k];
    match a
    case DropSample =>
      var prev := s.refcount[sm.block];
      SampleTo(PutCount(s, sm.block, prev - 1), k, if prev == 1 then Freeing else Gone)
    case FreeSample => SampleTo(s.(free := s.free + [sm.block]), k, Gone)
  }

  // ---- the transition system ----

  predicate Enabled(s: State, a: Action) {
    match a
    case Open => true
    case Subscribe(t) => TopicOk(s, t)
    case Allocate(p, x) => AllocEnabled(s, p, x)
    case UseLoan(p, x) => LoanEnabled(s, p, x)
    case ClaimSeq(p, t, x) => ClaimEnabled(s, p, t, x)
    case MarkEntry(p, x) => MarkEnabled(s, p, x)
    case FillEntry(p, x) => FillEnabled(s, p, x)
    case Release(p, x) => ReleaseEnabled(s, p, x)
    case RetirePub(p, x) => RetireEnabled(s, p, x)
    case Scan(i, x) => ScanEnabled(s, i, x)
    case Reference(i, x) => RefEnabled(s, i, x)
    case EndSample(k, x) => SampleEnabled(s, k, x)
    case TakePinned(i, q) => PinnedEnabled(s, i, q)
  }

  function Apply(s: State, a: Action): State
    requires Enabled(s, a)
  {
    match a
    case Open => s.(pubs := s.pubs + [Pub(false, [], NO_BLOCK, [], Ready)])
    case Subscribe(t) => s.(streams := s.streams + [Stream(t, s.writeSeq[t], [], Waiting)])
    case Allocate(p, x) => ApplyAlloc(s, p, x)
    case UseLoan(p, x) => ApplyLoan(s, p, x)
    case ClaimSeq(p, t, x) => ApplyClaim(s, p, t, x)
    case MarkEntry(p, x) => ApplyMark(s, p, x)
    case FillEntry(p, x) => ApplyFill(s, p, x)
    case Release(p, x) => ApplyRelease(s, p, x)
    case RetirePub(p, x) => ApplyRetire(s, p, x)
    case Scan(i, x) => ApplyScan(s, i, x)
    case Reference(i, x) => ApplyRef(s, i, x)
    case EndSample(k, x) => ApplySample(s, k, x)
    case TakePinned(i, q) => s.(streams := s.streams[i := s.streams[i].(lastSeq := q)])
  }

  /** The pool as `init_free_list` links it: block 0 on top. */
  function FreshPool(n: nat): seq<nat> {
    if n == 0 then [] else [n - 1] + FreshPool(n - 1)
  }

  /** A freshly created region: all blocks free, empty rings, the creator as only publisher. */
  predicate Init(s: State) {
    && 0 < s.depth
    && |s.writeSeq| == |s.rings| == |s.creatorTopic|
    && (forall t :: 0 <= t < |s.rings| ==> |s.rings[t]| == s.depth && s.writeSeq[t] == 0)
    && (forall t, i :: 0 <= t < |s.rings| && 0 <= i < s.depth ==> s.rings[t][i] == Entry(0, NO_BLOCK, 0))
    && |s.bytes| == |s.refcount| <= NO_BLOCK
    && (forall b :: 0 <= b < |s.refcount| ==> s.refcount[b] == 0 && |s.bytes[b]| == s.capacity)
    && s.free == FreshPool(|s.refcount|)
    && s.pubs == [Pub(true, [], NO_BLOCK, [], Ready)]
    && s.streams == [] && s.samples == [] && s.log == map[] && s.skipped == {} && s.overtaken == {}
  }

  ghost predicate Step(s: State, s': State) {
    exists a :: Enabled(s, a) && s' == Apply(s, a)
  }

  ghost predicate StepAt(run: seq<State>, i: nat)
    requires 0 < i < |run|
  {
    Step(run[i - 1], run[i])
  }

  ghost predicate Run(run: seq<State>) {
    && run != [] && Init(run[0])
    && forall i :: 0 < i < |run| ==> StepAt(run, i)
  }
}
