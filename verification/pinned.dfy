/** Pinned publish on one topic, one step per atomic access (`Publisher::loan_pinned`,
    `PinnedLoan::publish` and drop, `Region::commit_pinned`, `Stream::try_recv_pinned`,
    `PinnedGuard` drop).

    One publisher and any number of readers. Assumptions, as guards of the steps: sequences stay
    below 2^32 and fewer than 2^32 - 1 readers are registered at once. Ring publishes, other topics
    and other publishers appear as `Elsewhere` steps, which may write any block but the pinned one.

    The publisher may be dropped at any time between loans. That frees the pinned block without
    looking at the readers, and once the pool hands it out again others may write it. */
module Pinned {
  import opened Words
  import opened Layout
  import opened Sums

  /** The pinned seqlock word, unpacked (`Layout.PackInjective`). */
  datatype Pin = Pin(seqNo: nat, len: nat)

  datatype Message = Message(len: nat, bytes: Bytes)

  datatype PubPc =
    | Idle
    | Writing(len: nat, dirty: bool)      // sentinel set
    | Claimed(seqNo: nat, len: nat)       // write_seq advanced
    | Stored                              // pinned word stored, sentinel still set
    | Gone                                // the publisher was dropped

  datatype ReaderPc =
    | Waiting
    | GotPin(pin: Pin)
    | GotBlock(pin: Pin, block: nat)
    | GotCount(pin: Pin, block: nat, count: nat)
    | Registered(pin: Pin, block: nat)    // reader count incremented
    | Leaving(pin: Pin)                   // recheck failed

  datatype Reader = Reader(lastSeq: nat, pc: ReaderPc)

  /** A guard, and the stream that took it. */
  datatype Guard = Guard(reader: nat, seqNo: nat, len: nat, block: nat, live: bool)

  /** Whose the pinned block is. */
  datatype Owner = Unassigned | Pinning | Pooled | Reused

  datatype State = State(
    capacity: nat,
    mem: seq<Bytes>,          // payload of every block
    block: nat,               // TE_PINNED_BLOCK
    owner: Owner,
    readers: nat,             // TE_PINNED_READERS
    pin: Pin,                 // TE_PINNED_SEQ
    writeSeq: nat,
    pub: PubPc,
    streams: seq<Reader>,
    guards: seq<Guard>,
    spoiled: bool,            // a written loan was dropped since the last publish
    log: map<nat, Message>)   // what was published under each sequence

  datatype PubStep =
    | Assign(block: nat) | TryLoan | Write(data: Bytes) | SetLen(len: nat) | DropLoan
    | Claim | Store | Clear | DropPublisher

  datatype ReadStep = LoadPin | LoadBlock | LoadCount | Enter | Retry | Recheck | Leave

  datatype Action =
    | Publish(pub: PubStep)
    | Join(lastSeq: nat)
    | Read(i: nat, read: ReadStep)
    | DropGuard(k: nat)
    | TakeRing(i: nat, seqNo: nat)                     // a receive from the ring on the same stream
    | Reuse                                            // the pool hands the freed block out again
    | Elsewhere(bump: bool, other: nat, data: Bytes)   // another claim on the topic, or another block written

  // ---- publisher ----

  predicate PubEnabled(s: State, a: PubStep) {
    match a
    case Assign(b) => s.pub.Idle? && s.owner.Unassigned? && b < |s.mem| && b != NO_BLOCK
    case TryLoan => s.pub.Idle? && s.owner.Pinning?
    case Write(data) => s.pub.Writing? && s.block < |s.mem| && |data| == s.capacity
    case SetLen(len) => s.pub.Writing? && len <= s.capacity
    case DropLoan => s.pub.Writing?
    case Claim => s.pub.Writing? && s.writeSeq + 1 < U32
    case Store => s.pub.Claimed? && s.block < |s.mem|
    case Clear => s.pub.Stored?
    case DropPublisher => s.pub.Idle?
  }

  function ApplyPub(s: State, a: PubStep): State
    requires PubEnabled(s, a)
  {
    match a
    case Assign(b) => s.(owner := Pinning, block := b)
    case TryLoan => if s.readers == 0 then s.(readers := PINNED_WRITER_ACTIVE, pub := Writing(0, false)) else s
    case Write(data) => s.(mem := s.mem[s.block := data], pub := Writing(s.pub.len, true))
    case SetLen(len) => s.(pub := Writing(len, s.pub.dirty))
    case DropLoan => s.(readers := 0, pub := Idle, spoiled := s.spoiled || s.pub.dirty)
    case Claim => s.(writeSeq := s.writeSeq + 1, pub := Claimed(s.writeSeq + 1, s.pub.len))
    case Store =>
      s.(pin := Pin(s.pub.seqNo % U32, s.pub.len), pub := Stored, spoiled := false,
         log := s.log[s.pub.seqNo := Message(s.pub.len, s.mem[s.block])])
    case Clear => s.(readers := 0, pub := Idle)
    case DropPublisher => s.(owner := if s.owner.Pinning? then Pooled else s.owner, pub := Gone)
  }

  // ---- readers ----

  predicate ReadEnabled(s: State, i: nat, a: ReadStep) {
    i < |s.streams| &&
    var pc := s.streams[i].pc;
    match a
    case LoadPin => pc.Waiting?
    case LoadBlock => pc.GotPin?
    case LoadCount => pc.GotBlock?
    case Enter => pc.GotCount? && pc.count + 1 < PINNED_WRITER_ACTIVE
    case Retry => pc.GotCount?
    case Recheck => pc.Registered?
    case Leave => pc.Leaving? && s.readers > 0
  }

  function ReaderTo(s: State, i: nat, pc: ReaderPc): State
    requires i < |s.streams|
  {
    s.(streams := s.streams[i := s.streams[i].(pc := pc)])
  }

  function ApplyRead(s: State, i: nat, a: ReadStep): State
    requires ReadEnabled(s, i, a)
  {
    var pc := s.streams[i].pc;
    match a
    case LoadPin =>
      if s.pin == Pin(0, 0) || s.pin.seqNo <= s.streams[i].lastSeq then s else ReaderTo(s, i, GotPin(s.pin))
    case LoadBlock =>
      ReaderTo(s, i, if s.block == NO_BLOCK || s.block >= |s.mem| then Waiting else GotBlock(pc.pin, s.block))
    case LoadCount =>
      ReaderTo(s, i, if s.readers == PINNED_WRITER_ACTIVE then Waiting else GotCount(pc.pin, pc.block, s.readers))
    case Enter =>
      if s.readers == pc.count then ReaderTo(s.(readers := pc.count + 1), i, Registered(pc.pin, pc.block))
      else ReaderTo(s, i, GotBlock(pc.pin, pc.block))
    case Retry => ReaderTo(s, i, GotBlock(pc.pin, pc.block))
    case Recheck =>
      if s.pin == pc.pin then
        s.(streams := s.streams[i := Reader(pc.pin.seqNo, Waiting)],
           guards := s.guards + [Guard(i, pc.pin.seqNo, pc.pin.len, pc.block, true)])
      else ReaderTo(s, i, Leaving(pc.pin))
    case Leave => ReaderTo(s.(readers := s.readers - 1), i, Waiting)
  }

  // ---- the transition system ----

  /** Block `other` may be loaned to somebody else. */
  predicate MayWrite(s: State, other: nat) { other != s.block || s.owner.Unassigned? || s.owner.Reused? }

  predicate Enabled(s: State, a: Action) {
    match a
    case Publish(x) => PubEnabled(s, x)
    case Join(_) => true
    case Read(i, x) => ReadEnabled(s, i, x)
    case DropGuard(k) => k < |s.guards| && s.guards[k].live && s.readers > 0
    case TakeRing(i, q) => i < |s.streams| && s.streams[i].pc.Waiting? && s.streams[i].lastSeq < q <= s.writeSeq
    case Reuse => s.owner.Pooled?
    case Elsewhere(bump, other, data) =>
      if bump then s.writeSeq + 1 < U32 else other < |s.mem| && MayWrite(s, other) && |data| == s.capacity
  }

  function Apply(s: State, a: Action): State
    requires Enabled(s, a)
  {
    match a
    case Publish(x) => ApplyPub(s, x)
    case Join(lastSeq) => s.(streams := s.streams + [Reader(lastSeq, Waiting)])
    case Read(i, x) => ApplyRead(s, i, x)
    case DropGuard(k) => s.(readers := s.readers - 1, guards := s.guards[k := s.guards[k].(live := false)])
    case TakeRing(i, q) => s.(streams := s.streams[i := Reader(q, Waiting)])
    case Reuse => s.(owner := Reused)
    case Elsewhere(bump, other, data) =>
      if bump then s.(writeSeq := s.writeSeq + 1) else s.(mem := s.mem[other := data])
  }

  predicate Init(s: State) {
    && |s.mem| <= NO_BLOCK && (forall b :: 0 <= b < |s.mem| ==> |s.mem[b]| == s.capacity)
    && s.owner.Unassigned? && s.readers == 0 && s.pin == Pin(0, 0) && s.writeSeq == 0
    && s.pub.Idle? && s.streams == [] && s.guards == [] && !s.spoiled && s.log == map[]
  }

  ghost predicate Step(s: State, s': State) { exists a :: Enabled(s, a) && s' == Apply(s, a) }

  ghost predicate StepAt(run: seq<State>, i: nat)
    requires 0 < i < |run|
  {
    Step(run[i - 1], run[i])
  }

  ghost predicate Run(run: seq<State>) {
    run != [] && Init(run[0]) && forall i :: 0 < i < |run| ==> StepAt(run, i)
  }

  // ---- invariant ----

  function InReader(r: Reader): nat { if r.pc.Registered? || r.pc.Leaving? then 1 else 0 }

  function InGuard(g: Guard): nat { if g.live then 1 else 0 }

  /** How many readers are registered right now. */
  function Inside(s: State): nat { Sum(s.streams, InReader) + Sum(s.guards, InGuard) }

  predicate WriterActive(pub: PubPc) { !pub.Idle? && !pub.Gone? }

  /** The reader word is the sentinel exactly while a writer is active, and then nobody is
      registered; otherwise it is the number of registered readers. */
  predicate Exclusion(s: State) {
    && s.readers == (if WriterActive(s.pub) then PINNED_WRITER_ACTIVE else Inside(s))
    && (WriterActive(s.pub) ==> Inside(s) == 0)
    && Inside(s) < PINNED_WRITER_ACTIVE
  }

  predicate LogOk(s: State) {
    && (forall q :: q in s.log ==> 0 < q <= s.writeSeq) && s.writeSeq < U32
    && (s.pub.Claimed? ==> s.pub.seqNo !in s.log && 0 < s.pub.seqNo <= s.writeSeq)
  }

  /** The block is owned as the publisher's state says. */
  predicate OwnerOk(s: State) {
    && |s.mem| <= NO_BLOCK && (forall b :: 0 <= b < |s.mem| ==> |s.mem[b]| == s.capacity)
    && (!s.owner.Unassigned? ==> s.block < |s.mem|)
    && (WriterActive(s.pub) ==> s.owner.Pinning?)
    && (s.owner.Pooled? || s.owner.Reused? ==> s.pub.Gone?)
    && (s.pin != Pin(0, 0) ==> !s.owner.Unassigned? && s.pin.seqNo in s.log)
    && (s.pub.Stored? ==> s.pin != Pin(0, 0))
    && s.pin.len <= s.capacity && (s.pub.Writing? || s.pub.Claimed? ==> s.pub.len <= s.capacity)
  }

  /** No writer has touched the block since the last publish, and it has no other user. */
  predicate Intact(s: State) {
    && s.pin != Pin(0, 0) && !s.spoiled && !s.owner.Reused?
    && (s.pub.Idle? || s.pub.Gone? || s.pub.Stored? || (s.pub.Writing? && !s.pub.dirty))
  }

  /** An intact block holds what was published under the pinned sequence. */
  predicate Content(s: State)
    requires OwnerOk(s)
  {
    Intact(s) ==> s.log[s.pin.seqNo] == Message(s.pin.len, s.mem[s.block])
  }

  predicate ReaderOk(s: State, r: Reader) {
    && (r.pc.GotPin? || r.pc.GotBlock? || r.pc.GotCount? || r.pc.Registered? ==>
          r.pc.pin != Pin(0, 0) && !s.owner.Unassigned?)
    && (r.pc.GotBlock? || r.pc.GotCount? || r.pc.Registered? ==> r.pc.block == s.block)
    && (r.pc.GotCount? ==> r.pc.count != PINNED_WRITER_ACTIVE)
  }

  /** A live guard shows the current pinned word and the pinned block. */
  predicate GuardOk(s: State, g: Guard) {
    g.live ==> s.pin == Pin(g.seqNo, g.len) != Pin(0, 0) && g.block == s.block
  }

  predicate Parties(s: State) {
    && (forall i :: 0 <= i < |s.streams| ==> ReaderOk(s, s.streams[i]))
    && (forall k :: 0 <= k < |s.guards| ==> GuardOk(s, s.guards[k]))
  }

  predicate Inv(s: State) { Exclusion(s) && LogOk(s) && OwnerOk(s) && Content(s) && Parties(s) }

  lemma InitInv(s: State)
    requires Init(s)
    ensures Inv(s)
  {
  }

  // ---- preservation: publisher ----

  lemma NobodyInside(s: State)
    requires Inside(s) == 0
    ensures forall i :: 0 <= i < |s.streams| ==> InReader(s.streams[i]) == 0
    ensures forall k :: 0 <= k < |s.guards| ==> !s.guards[k].live
  {
    forall i | 0 <= i < |s.streams| ensures InReader(s.streams[i]) == 0 { SumAtLeast(s.streams, i, InReader); }
    forall k | 0 <= k < |s.guards| ensures !s.guards[k].live { SumAtLeast(s.guards, k, InGuard); }
  }

  lemma PubOwner(s: State, a: PubStep)
    requires LogOk(s) && OwnerOk(s) && PubEnabled(s, a)
    ensures LogOk(ApplyPub(s, a)) && OwnerOk(ApplyPub(s, a))
  {
    if a.Store? { assert s.pub.seqNo % U32 == s.pub.seqNo; }
  }

  lemma PubContent(s: State, a: PubStep)
    requires LogOk(s) && OwnerOk(s) && Content(s) && PubEnabled(s, a) && OwnerOk(ApplyPub(s, a))
    ensures Content(ApplyPub(s, a))
  {
    if a.Store? { assert s.pub.seqNo % U32 == s.pub.seqNo; }
  }

  /** Readers and guards stay right when the pinned block stays, and the pinned word too unless
      nobody is registered. */
  lemma SameParties(s: State, s': State)
    requires Parties(s) && s'.streams == s.streams && s'.guards == s.guards
    requires s'.block == s.block || s.owner.Unassigned?
    requires s'.owner.Unassigned? ==> s.owner.Unassigned?
    requires s.owner.Unassigned? ==> s.pin == Pin(0, 0)
    requires s'.pin == s.pin || forall k :: 0 <= k < |s.guards| ==> !s.guards[k].live
    ensures Parties(s')
  {
    forall i | 0 <= i < |s'.streams| ensures ReaderOk(s', s'.streams[i]) { assert ReaderOk(s, s.streams[i]); }
    forall k | 0 <= k < |s'.guards| ensures GuardOk(s', s'.guards[k]) { assert GuardOk(s, s.guards[k]); }
  }

  lemma PubKeeps(s: State, a: PubStep)
    requires Inv(s) && PubEnabled(s, a)
    ensures Inv(ApplyPub(s, a))
  {
    PubOwner(s, a);
    PubContent(s, a);
    if WriterActive(s.pub) { NobodyInside(s); }
    SameParties(s, ApplyPub(s, a));
  }

  // ---- preservation: readers ----

  lemma ReaderDelta(s: State, i: nat, r: Reader)
    requires i < |s.streams|
    ensures Sum(s.streams[i := r], InReader) + InReader(s.streams[i]) == Sum(s.streams, InReader) + InReader(r)
    ensures Inside(s) >= InReader(s.streams[i])
  {
    SumUpdate(s.streams, i, r, InReader);
    SumAtLeast(s.streams, i, InReader);
  }

  /** A step that leaves the registration of its reader alone. */
  lemma NeutralExclusion(s: State, i: nat, r: Reader)
    requires Exclusion(s) && i < |s.streams| && InReader(r) == InReader(s.streams[i])
    ensures Exclusion(s.(streams := s.streams[i := r]))
  {
    ReaderDelta(s, i, r);
  }

  lemma EnterExclusion(s: State, i: nat, r: Reader)
    requires Exclusion(s) && i < |s.streams| && InReader(s.streams[i]) == 0 && InReader(r) == 1
    requires s.readers != PINNED_WRITER_ACTIVE && s.readers + 1 < PINNED_WRITER_ACTIVE
    ensures Exclusion(s.(readers := s.readers + 1, streams := s.streams[i := r]))
  {
    ReaderDelta(s, i, r);
  }

  lemma LeaveExclusion(s: State, i: nat, r: Reader)
    requires Exclusion(s) && i < |s.streams| && InReader(s.streams[i]) == 1 && InReader(r) == 0 && s.readers > 0
    ensures Exclusion(s.(readers := s.readers - 1, streams := s.streams[i := r]))
  {
    ReaderDelta(s, i, r);
  }

  lemma GuardExclusion(s: State, i: nat, r: Reader, g: Guard)
    requires Exclusion(s) && i < |s.streams| && InReader(s.streams[i]) == 1 && InReader(r) == 0 && g.live
    ensures Exclusion(s.(streams := s.streams[i := r], guards := s.guards + [g]))
  {
    ReaderDelta(s, i, r);
    SumAppend(s.guards, g, InGuard);
  }

  lemma ReadExclusion(s: State, i: nat, a: ReadStep)
    requires Exclusion(s) && ReadEnabled(s, i, a) && ReaderOk(s, s.streams[i])
    ensures Exclusion(ApplyRead(s, i, a))
  {
    var r := ApplyRead(s, i, a).streams[i];
    var pc := s.streams[i].pc;
    if a.Enter? && s.readers == pc.count {
      EnterExclusion(s, i, r);
    } else if a.Leave? {
      LeaveExclusion(s, i, r);
    } else if a.Recheck? && s.pin == pc.pin {
      GuardExclusion(s, i, r, Guard(i, pc.pin.seqNo, pc.pin.len, pc.block, true));
    } else {
      NeutralExclusion(s, i, r);
      assert a.LoadPin? && ApplyRead(s, i, a) == s ==> s.streams[i := r] == s.streams;
    }
  }

  lemma ReadReader(s: State, i: nat, a: ReadStep)
    requires OwnerOk(s) && ReadEnabled(s, i, a) && ReaderOk(s, s.streams[i])
    ensures ReaderOk(s, ApplyRead(s, i, a).streams[i])
  {
  }

  lemma ReadParties(s: State, i: nat, a: ReadStep)
    requires OwnerOk(s) && Parties(s) && ReadEnabled(s, i, a)
    ensures Parties(ApplyRead(s, i, a))
  {
    var s' := ApplyRead(s, i, a);
    assert ReaderOk(s, s.streams[i]);
    ReadReader(s, i, a);
    forall j | 0 <= j < |s'.streams| ensures ReaderOk(s', s'.streams[j]) {
      assert ReaderOk(s, if j == i then s'.streams[i] else s.streams[j]);
    }
    forall k | 0 <= k < |s'.guards| ensures GuardOk(s', s'.guards[k]) {
      if k < |s.guards| { assert GuardOk(s, s.guards[k]); }
    }
  }

  /** A reader's step leaves everything but the reader word, the streams and the guards alone. */
  lemma ReadFrame(s: State, i: nat, a: ReadStep)
    requires ReadEnabled(s, i, a)
    ensures var s' := ApplyRead(s, i, a); s' == s.(readers := s'.readers, streams := s'.streams, guards := s'.guards)
  {
  }

  lemma ReadKeeps(s: State, i: nat, a: ReadStep)
    requires Inv(s) && ReadEnabled(s, i, a)
    ensures Inv(ApplyRead(s, i, a))
  {
    assert ReaderOk(s, s.streams[i]);
    ReadExclusion(s, i, a);
    ReadParties(s, i, a);
    ReadFrame(s, i, a);
  }

  // ---- preservation: the rest ----

  lemma DropKeeps(s: State, k: nat)
    requires Inv(s) && Enabled(s, DropGuard(k))
    ensures Inv(Apply(s, DropGuard(k)))
  {
    var s' := Apply(s, DropGuard(k));
    SumUpdate(s.guards, k, s'.guards[k], InGuard);
    SumAtLeast(s.guards, k, InGuard);
    forall j | 0 <= j < |s'.streams| ensures ReaderOk(s', s'.streams[j]) { assert ReaderOk(s, s.streams[j]); }
    forall j | 0 <= j < |s'.guards| ensures GuardOk(s', s'.guards[j]) { assert GuardOk(s, s.guards[j]); }
  }

  lemma JoinKeeps(s: State, lastSeq: nat)
    requires Inv(s)
    ensures Inv(Apply(s, Join(lastSeq)))
  {
    var s' := Apply(s, Join(lastSeq));
    SumAppend(s.streams, Reader(lastSeq, Waiting), InReader);
    forall j | 0 <= j < |s'.streams| ensures ReaderOk(s', s'.streams[j]) {
      if j < |s.streams| { assert ReaderOk(s, s.streams[j]); }
    }
    forall j | 0 <= j < |s'.guards| ensures GuardOk(s', s'.guards[j]) { assert GuardOk(s, s.guards[j]); }
  }

  lemma TakeRingKeeps(s: State, i: nat, q: nat)
    requires Inv(s) && Enabled(s, TakeRing(i, q))
    ensures Inv(Apply(s, TakeRing(i, q)))
  {
    var s' := Apply(s, TakeRing(i, q));
    NeutralExclusion(s, i, Reader(q, Waiting));
    forall j | 0 <= j < |s'.streams| ensures ReaderOk(s', s'.streams[j]) { assert ReaderOk(s, s.streams[j]); }
    forall j | 0 <= j < |s'.guards| ensures GuardOk(s', s'.guards[j]) { assert GuardOk(s, s.guards[j]); }
  }

  lemma ElsewhereKeeps(s: State, a: Action)
    requires Inv(s) && Enabled(s, a) && (a.Elsewhere? || a.Reuse?)
    ensures Inv(Apply(s, a))
  {
    SameParties(s, Apply(s, a));
  }

  lemma StepKeeps(s: State, a: Action)
    requires Inv(s) && Enabled(s, a)
    ensures Inv(Apply(s, a))
  {
    match a
    case Publish(x) => PubKeeps(s, x);
    case Read(i, x) => ReadKeeps(s, i, x);
    case DropGuard(k) => DropKeeps(s, k);
    case Join(lastSeq) => JoinKeeps(s, lastSeq);
    case TakeRing(i, q) => TakeRingKeeps(s, i, q);
    case Reuse => ElsewhereKeeps(s, a);
    case Elsewhere(_, _, _) => ElsewhereKeeps(s, a);
  }

  lemma AnyStepKeeps(s: State, s': State)
    requires Inv(s) && Step(s, s')
    ensures Inv(s')
  {
    var a :| Enabled(s, a) && s' == Apply(s, a);
    StepKeeps(s, a);
  }

  lemma {:induction false} EveryRunKeepsInv(run: seq<State>, n: nat)
    requires Run(run) && n < |run|
    ensures Inv(run[n])
  {
    if n == 0 {
      InitInv(run[0]);
    } else {
      EveryRunKeepsInv(run, n - 1);
      assert StepAt(run, n);
      AnyStepKeeps(run[n - 1], run[n]);
    }
  }

  // ---- main results ----

  /** In every interleaving the reader word is the sentinel exactly when a writer is active, and
      then no reader is registered; otherwise it counts the registered readers. */
  lemma WriterExcludesReaders(run: seq<State>, n: nat)
    requires Run(run) && n < |run|
    ensures var s := run[n];
            && (s.readers == PINNED_WRITER_ACTIVE <==> WriterActive(s.pub))
            && (WriterActive(s.pub) ==> Inside(s) == 0)
            && (!WriterActive(s.pub) ==> s.readers == Inside(s))
  {
    EveryRunKeepsInv(run, n);
  }

  /** Decrements of the reader word never meet zero or the sentinel. */
  lemma LeavingIsSafe(s: State)
    requires Inv(s)
    ensures forall i :: 0 <= i < |s.streams| && s.streams[i].pc.Leaving? ==>
                          ReadEnabled(s, i, Leave) && !WriterActive(s.pub)
    ensures forall k :: 0 <= k < |s.guards| && s.guards[k].live ==> Enabled(s, DropGuard(k)) && !WriterActive(s.pub)
  {
    forall i | 0 <= i < |s.streams| && s.streams[i].pc.Leaving?
      ensures ReadEnabled(s, i, Leave) && !WriterActive(s.pub) { SumAtLeast(s.streams, i, InReader); }
    forall k | 0 <= k < |s.guards| && s.guards[k].live
      ensures Enabled(s, DropGuard(k)) && !WriterActive(s.pub) { SumAtLeast(s.guards, k, InGuard); }
  }

  /** What stays along a run: published messages, guards and their block, and a block once reused. */
  predicate Grows(s: State, s': State) {
    && (forall q :: q in s.log ==> q in s'.log && s'.log[q] == s.log[q])
    && |s.guards| <= |s'.guards| && |s.mem| == |s'.mem|
    && (forall k :: 0 <= k < |s.guards| ==>
          s'.guards[k] == s.guards[k].(live := s'.guards[k].live) && (s'.guards[k].live ==> s.guards[k].live))
    && (s.owner.Reused? ==> s'.owner.Reused?)
  }

  lemma PubGrows(s: State, a: PubStep)
    requires LogOk(s) && PubEnabled(s, a)
    ensures Grows(s, ApplyPub(s, a))
  {
  }

  lemma ReadGrows(s: State, i: nat, a: ReadStep)
    requires ReadEnabled(s, i, a)
    ensures Grows(s, ApplyRead(s, i, a))
  {
  }

  lemma AnyStepGrows(s: State, s': State)
    requires LogOk(s) && Step(s, s')
    ensures Grows(s, s')
  {
    var a :| Enabled(s, a) && s' == Apply(s, a);
    match a
    case Publish(x) => PubGrows(s, x);
    case Read(i, x) => ReadGrows(s, i, x);
    case _ =>
  }

  lemma GrowsTransitive(a: State, b: State, c: State)
    requires Grows(a, b) && Grows(b, c)
    ensures Grows(a, c)
  {
  }

  lemma {:induction false} RunGrows(run: seq<State>, m: nat, n: nat)
    requires Run(run) && m <= n < |run|
    ensures Grows(run[m], run[n])
    decreases n - m
  {
    if m < n {
      RunGrows(run, m, n - 1);
      EveryRunKeepsInv(run, n - 1);
      assert StepAt(run, n);
      AnyStepGrows(run[n - 1], run[n]);
      GrowsTransitive(run[m], run[n - 1], run[n]);
    }
  }

  /** With a live guard there is no writer, so only another user of the block can change it. */
  lemma GuardedBlock(s: State, k: nat)
    requires Inv(s) && k < |s.guards| && s.guards[k].live
    ensures !WriterActive(s.pub) && s.guards[k].block == s.block < |s.mem|
    ensures s.pin == Pin(s.guards[k].seqNo, s.guards[k].len) && s.guards[k].len <= |s.mem[s.block]| == s.capacity
  {
    SumAtLeast(s.guards, k, InGuard);
    assert GuardOk(s, s.guards[k]);
  }

  /** The bytes a guard shows. */
  function Shows(s: State, g: Guard): Bytes {
    if g.block < |s.mem| && g.len <= |s.mem[g.block]| then s.mem[g.block][..g.len] else []
  }

  /** In a reachable state with a live guard that is not empty, some step changes the bytes the
      guard shows exactly if the block was freed by the drop of its publisher and handed out again. */
  lemma GuardChangesExactlyAfterReuse(s: State, k: nat)
    requires Inv(s) && k < |s.guards| && s.guards[k].live && 0 < s.guards[k].len
    ensures (exists s' :: Step(s, s') && Shows(s', s.guards[k]) != Shows(s, s.guards[k])) <==> s.owner.Reused?
  {
    GuardedBlock(s, k);
    if s.owner.Reused? {
      var s' := OtherWrite(s, k);
    } else {
      forall s' | Step(s, s') ensures Shows(s', s.guards[k]) == Shows(s, s.guards[k]) { QuietStep(s, s'); }
    }
  }

  lemma OtherWrite(s: State, k: nat) returns (s': State)
    requires Inv(s) && k < |s.guards| && s.guards[k].live && 0 < s.guards[k].len && s.owner.Reused?
    ensures var a := Elsewhere(false, s.block, Other(s.mem[s.block])); Enabled(s, a) && s' == Apply(s, a) && Step(s, s')
    ensures s'.guards == s.guards && Shows(s', s.guards[k]) != Shows(s, s.guards[k])
  {
    GuardedBlock(s, k);
    var a := Elsewhere(false, s.block, Other(s.mem[s.block]));
    s' := Apply(s, a);
    assert Step(s, s');
    assert Shows(s', s.guards[k])[0] != Shows(s, s.guards[k])[0];
  }

  lemma IdlePub(s: State, a: PubStep)
    requires PubEnabled(s, a) && !WriterActive(s.pub)
    ensures var s' := ApplyPub(s, a); s'.mem == s.mem && s'.pin == s.pin && s'.spoiled == s.spoiled
  {
  }

  /** With no writer active the pinned word stays, and so does a block nobody else may use. */
  lemma QuietStep(s: State, s': State)
    requires Step(s, s') && !WriterActive(s.pub)
    ensures s'.pin == s.pin && s'.spoiled == s.spoiled && |s'.mem| == |s.mem|
    ensures !MayWrite(s, s.block) && s.block < |s.mem| ==> s'.mem[s.block] == s.mem[s.block]
  {
    var a :| Enabled(s, a) && s' == Apply(s, a);
    match a
    case Publish(x) => IdlePub(s, x);
    case Read(i, x) => ReadFrame(s, i, x);
    case _ =>
  }

  function Other(b: Bytes): (r: Bytes)
    requires b != []
    ensures |r| == |b| && r[0] != b[0]
  {
    var x: Byte := if b[0] == 0 then 1 else 0;
    [x] + b[1..]
  }

  lemma {:induction false} GuardedBytesStay(run: seq<State>, m: nat, n: nat, k: nat)
    requires Run(run) && m <= n < |run| && k < |run[m].guards| && k < |run[n].guards| && run[n].guards[k].live
    requires !run[n].owner.Reused?
    ensures var b := run[n].guards[k].block;
            run[n].guards[k] == run[m].guards[k] && b < |run[m].mem| == |run[n].mem| && run[n].mem[b] == run[m].mem[b]
    ensures run[m].pin == run[n].pin && run[m].spoiled == run[n].spoiled
    decreases n - m
  {
    EveryRunKeepsInv(run, n);
    GuardedBlock(run[n], k);
    if m < n {
      RunGrows(run, m, n - 1);
      RunGrows(run, n - 1, n);
      GuardedBytesStay(run, m, n - 1, k);
      EveryRunKeepsInv(run, n - 1);
      GuardedBlock(run[n - 1], k);
      assert StepAt(run, n);
      QuietStep(run[n - 1], run[n]);
    }
  }

  /** Until its block is handed out again after the drop of the publisher, a guard's bytes and
      length stay fixed for its whole life; and they are those of the publish whose sequence it
      recorded, unless a written loan had been dropped unpublished since. */
  lemma GuardStaysFixed(run: seq<State>, m: nat, n: nat, k: nat)
    requires Run(run) && m <= n < |run| && k < |run[m].guards| && k < |run[n].guards| && run[n].guards[k].live
    requires !run[n].owner.Reused?
    ensures var g := run[n].guards[k];
            && g == run[m].guards[k] && g.block < |run[m].mem| && g.block < |run[n].mem|
            && run[n].mem[g.block] == run[m].mem[g.block]
            && g.seqNo in run[m].log
            && (!run[m].spoiled ==> run[m].log[g.seqNo] == Message(g.len, run[n].mem[g.block]))
  {
    GuardedBytesStay(run, m, n, k);
    RunGrows(run, m, n);
    EveryRunKeepsInv(run, m);
    GuardedBlock(run[m], k);
  }

  /** In particular while the publisher is there. */
  lemma GuardIsSafeWhilePublisherLives(run: seq<State>, n: nat)
    requires Run(run) && n < |run| && !run[n].pub.Gone?
    ensures !run[n].owner.Reused? && !run[n].owner.Pooled?
  {
    EveryRunKeepsInv(run, n);
  }

  // ---- order: what a stream takes, and when it takes nothing ----

  predicate HasPin(pc: ReaderPc) { !pc.Waiting? }

  /** A loaded word is newer than what the stream took and no newer than the current one; once it was
      found replaced, it stays replaced. */
  predicate PinSeen(s: State, r: Reader) {
    HasPin(r.pc) ==>
      && r.lastSeq < r.pc.pin.seqNo <= s.pin.seqNo
      && (r.pc.pin.seqNo == s.pin.seqNo ==> r.pc.pin == s.pin && !r.pc.Leaving?)
  }

  predicate GuardsOrdered(s: State) {
    && (forall k :: 0 <= k < |s.guards| ==>
          s.guards[k].reader < |s.streams| && s.guards[k].seqNo <= s.streams[s.guards[k].reader].lastSeq)
    && (forall j, k :: 0 <= j < k < |s.guards| && s.guards[j].reader == s.guards[k].reader ==>
          s.guards[j].seqNo < s.guards[k].seqNo)
  }

  /** Publishes have increasing sequences. */
  predicate PinsOrdered(s: State) {
    s.pin.seqNo <= s.writeSeq && (s.pub.Claimed? ==> s.pin.seqNo < s.pub.seqNo)
  }

  predicate Ordered(s: State) {
    PinsOrdered(s) && GuardsOrdered(s) && forall i :: 0 <= i < |s.streams| ==> PinSeen(s, s.streams[i])
  }

  lemma PubOrder(s: State, a: PubStep)
    requires Inv(s) && Ordered(s) && PubEnabled(s, a)
    ensures Ordered(ApplyPub(s, a))
  {
    var s' := ApplyPub(s, a);
    if a.Store? { assert s.pub.seqNo % U32 == s.pub.seqNo; }
    forall i | 0 <= i < |s'.streams| ensures PinSeen(s', s'.streams[i]) { assert PinSeen(s, s.streams[i]); }
  }

  lemma ReadPins(s: State, i: nat, a: ReadStep)
    requires Ordered(s) && ReadEnabled(s, i, a)
    ensures PinSeen(s, ApplyRead(s, i, a).streams[i])
  {
    assert PinSeen(s, s.streams[i]);
  }

  /** The guard just taken is newer than every guard its stream took before. */
  lemma RecheckOrder(s: State, i: nat)
    requires Ordered(s) && ReadEnabled(s, i, Recheck) && s.pin == s.streams[i].pc.pin
    ensures GuardsOrdered(ApplyRead(s, i, Recheck))
  {
    assert PinSeen(s, s.streams[i]);
  }

  lemma ReadOrder(s: State, i: nat, a: ReadStep)
    requires Ordered(s) && ReadEnabled(s, i, a)
    ensures Ordered(ApplyRead(s, i, a))
  {
    var s' := ApplyRead(s, i, a);
    ReadFrame(s, i, a);
    ReadPins(s, i, a);
    if a.Recheck? && s.pin == s.streams[i].pc.pin { RecheckOrder(s, i); }
    forall j | 0 <= j < |s'.streams| ensures PinSeen(s', s'.streams[j]) {
      assert PinSeen(s, if j == i then s'.streams[i] else s.streams[j]);
    }
  }

  lemma OtherOrder(s: State, a: Action)
    requires Ordered(s) && Enabled(s, a) && !a.Publish? && !a.Read?
    ensures Ordered(Apply(s, a))
  {
    var s' := Apply(s, a);
    forall j | 0 <= j < |s'.streams| ensures PinSeen(s', s'.streams[j]) {
      if j < |s.streams| { assert PinSeen(s, s.streams[j]); }
    }
  }

  lemma NextOrder(run: seq<State>, n: nat)
    requires Run(run) && 0 < n < |run| && Ordered(run[n - 1])
    ensures Ordered(run[n])
  {
    EveryRunKeepsInv(run, n - 1);
    assert StepAt(run, n);
    var a :| Enabled(run[n - 1], a) && run[n] == Apply(run[n - 1], a);
    match a
    case Publish(x) => PubOrder(run[n - 1], x);
    case Read(i, x) => ReadOrder(run[n - 1], i, x);
    case _ => OtherOrder(run[n - 1], a);
  }

  lemma {:induction false} EveryRunOrdered(run: seq<State>, n: nat)
    requires Run(run) && n < |run|
    ensures Ordered(run[n])
  {
    if n > 0 {
      EveryRunOrdered(run, n - 1);
      NextOrder(run, n);
    }
  }

  /** No stream takes a publish twice: its guards have strictly increasing sequences, also with ring
      receives on the same stream in between. */
  lemma GuardsIncrease(run: seq<State>, n: nat, j: nat, k: nat)
    requires Run(run) && n < |run| && j < k < |run[n].guards| && run[n].guards[j].reader == run[n].guards[k].reader
    ensures run[n].guards[j].seqNo < run[n].guards[k].seqNo
  {
    EveryRunOrdered(run, n);
  }

  /** A pinned receive goes on exactly if the pinned word is newer than what the stream took last. */
  lemma ReceiveStarts(run: seq<State>, n: nat, i: nat)
    requires Run(run) && n < |run| && ReadEnabled(run[n], i, LoadPin)
    ensures ApplyRead(run[n], i, LoadPin).streams[i].pc ==
            if run[n].pin.seqNo > run[n].streams[i].lastSeq then GotPin(run[n].pin) else Waiting
  {
    EveryRunKeepsInv(run, n);
  }

  lemma GivesUpOnlyForWriter(s: State, i: nat, a: ReadStep)
    requires Inv(s) && Ordered(s) && ReadEnabled(s, i, a) && HasPin(s.streams[i].pc)
    requires ApplyRead(s, i, a).streams[i].pc.Waiting? && ApplyRead(s, i, a).guards == s.guards
    ensures WriterActive(s.pub) || s.pin.seqNo > s.streams[i].pc.pin.seqNo
  {
    assert PinSeen(s, s.streams[i]) && ReaderOk(s, s.streams[i]);
  }

  /** A pinned receive that went on ends without a guard only if a writer is active at that moment or
      a newer publish has replaced the word it loaded. */
  lemma EmptyReceiveMetWriter(run: seq<State>, n: nat, i: nat)
    requires Run(run) && 0 < n < |run| && i < |run[n - 1].streams| && i < |run[n].streams|
    requires HasPin(run[n - 1].streams[i].pc) && run[n].streams[i].pc.Waiting? && run[n].guards == run[n - 1].guards
    ensures WriterActive(run[n - 1].pub) || run[n - 1].pin.seqNo > run[n - 1].streams[i].pc.pin.seqNo
  {
    EveryRunKeepsInv(run, n - 1);
    EveryRunOrdered(run, n - 1);
    assert StepAt(run, n);
    var a :| Enabled(run[n - 1], a) && run[n] == Apply(run[n - 1], a);
    StepOfReader(run[n - 1], a, i);
    GivesUpOnlyForWriter(run[n - 1], i, a.read);
  }

  /** Only its own steps move a reader. */
  lemma StepOfReader(s: State, a: Action, i: nat)
    requires Enabled(s, a) && i < |s.streams| && HasPin(s.streams[i].pc) && Apply(s, a).streams[i].pc.Waiting?
    ensures a.Read? && a.i == i
  {
    if a.Publish? { PubLeavesReaders(s, a.pub); }
  }

  lemma PubLeavesReaders(s: State, a: PubStep)
    requires PubEnabled(s, a)
    ensures ApplyPub(s, a).streams == s.streams
  {
  }

  /** A pinned loan succeeds exactly if no reader is registered. */
  lemma LoanSucceedsExactly(run: seq<State>, n: nat)
    requires Run(run) && n < |run| && PubEnabled(run[n], TryLoan)
    ensures ApplyPub(run[n], TryLoan).pub.Writing? <==> Inside(run[n]) == 0
    ensures !ApplyPub(run[n], TryLoan).pub.Writing? ==> ApplyPub(run[n], TryLoan) == run[n]
  {
    EveryRunKeepsInv(run, n);
  }

  predicate Loaned(pub: PubPc) { pub.Writing? || pub.Claimed? }

  /** A pinned loan keeps the bytes last written and the length last set, up to its publish, and
      touches no other block. */
  lemma LoanKeeps(s: State, a: PubStep)
    requires PubEnabled(s, a) && Loaned(s.pub) && Loaned(ApplyPub(s, a).pub) && s.block < |s.mem|
    ensures var s' := ApplyPub(s, a);
            && s'.pub.len == (if a.SetLen? then a.len else s.pub.len)
            && s'.mem == (if a.Write? then s.mem[s.block := a.data] else s.mem)
            && s'.pin == s.pin && s'.log == s.log
  {
  }

  /** A pinned publish makes exactly the loan's bytes and length readable, under the sequence claimed. */
  lemma PublishCarries(run: seq<State>, n: nat)
    requires Run(run) && n < |run| && PubEnabled(run[n], Store)
    ensures var s, s' := run[n], ApplyPub(run[n], Store);
            s'.pin == Pin(s.pub.seqNo, s.pub.len) && s.pub.seqNo !in s.log
            && s'.log == s.log[s.pub.seqNo := Message(s.pub.len, s.mem[s.block])]
  {
    EveryRunKeepsInv(run, n);
    assert run[n].pub.seqNo % U32 == run[n].pub.seqNo;
  }

  // ---- the drop of the publisher is not guarded ----

  lemma Extend(run: seq<State>, a: Action) returns (run': seq<State>)
    requires Run(run) && Enabled(run[|run| - 1], a)
    ensures Run(run') && run' == run + [Apply(run[|run| - 1], a)]
  {
    var s := run[|run| - 1];
    run' := run + [Apply(s, a)];
    assert Step(s, Apply(s, a));
    forall i | 0 < i < |run'| ensures StepAt(run', i) {
      if i < |run| { assert StepAt(run, i); }
    }
  }

  /** Every run with a live guard goes on to one in which the guard is still live and shows other
      bytes: the publisher is dropped, its block handed out again and written. */
  lemma GuardCanChange(run: seq<State>, k: nat) returns (run': seq<State>)
    requires Run(run)
    requires var s := run[|run| - 1]; k < |s.guards| && s.guards[k].live && s.pub.Idle? && 0 < s.guards[k].len
    ensures Run(run') && run <= run'
    ensures var s, s' := run[|run| - 1], run'[|run'| - 1];
            s'.guards == s.guards && Shows(s', s.guards[k]) != Shows(s, s.guards[k])
  {
    EveryRunKeepsInv(run, |run| - 1);
    var s := run[|run| - 1];
    GuardedBlock(s, k);
    run' := Extend(run, Publish(DropPublisher));
    run' := Extend(run', Reuse);
    EveryRunKeepsInv(run', |run'| - 1);
    var s' := OtherWrite(run'[|run'| - 1], k);
    run' := Extend(run', Elsewhere(false, s.block, Other(s.mem[s.block])));
  }

  /** A new reader gets a guard from an idle publisher that has published. */
  lemma JoinAndRead(run: seq<State>) returns (run': seq<State>)
    requires Run(run)
    requires var s := run[|run| - 1];
             s.pub.Idle? && s.pin != Pin(0, 0) && s.pin.seqNo > 0 && s.readers + 1 < PINNED_WRITER_ACTIVE
    ensures Run(run') && run <= run'
    ensures var s, s' := run[|run| - 1], run'[|run'| - 1];
            && s'.guards == s.guards + [Guard(|s.streams|, s.pin.seqNo, s.pin.len, s.block, true)]
            && s' == s.(readers := s'.readers, streams := s'.streams, guards := s'.guards)
  {
    EveryRunKeepsInv(run, |run| - 1);
    var s := run[|run| - 1];
    var i := |s.streams|;
    run' := Extend(run, Join(0));
    run' := Extend(run', Read(i, LoadPin));
    run' := Extend(run', Read(i, LoadBlock));
    run' := Extend(run', Read(i, LoadCount));
    assert run'[|run'| - 1] == s.(streams := s.streams + [Reader(0, GotCount(s.pin, s.block, s.readers))]);
    run' := Extend(run', Read(i, Enter));
    run' := Extend(run', Read(i, Recheck));
  }

  /** A publisher writes, and publishes or drops the loan. */
  lemma WriteRun(run: seq<State>, data: Bytes) returns (run': seq<State>)
    requires Run(run)
    requires var s := run[|run| - 1]; s.pub.Idle? && s.owner.Pinning? && s.readers == 0 && |data| == s.capacity
    ensures Run(run') && run <= run'
    ensures var s := run[|run| - 1];
            s.block < |s.mem| &&
            run'[|run'| - 1] == s.(readers := PINNED_WRITER_ACTIVE, pub := Writing(0, true),
                                   mem := s.mem[s.block := data])
  {
    EveryRunKeepsInv(run, |run| - 1);
    run' := Extend(run, Publish(TryLoan));
    run' := Extend(run', Publish(Write(data)));
  }

  lemma PublishRun(run: seq<State>, data: Bytes) returns (run': seq<State>)
    requires Run(run)
    requires var s := run[|run| - 1];
             s.pub.Idle? && s.owner.Pinning? && s.readers == 0 && |data| == s.capacity && s.writeSeq + 1 < U32
    ensures Run(run') && run <= run'
    ensures var s := run[|run| - 1];
            var q := s.writeSeq + 1;
            s.block < |s.mem| &&
            run'[|run'| - 1] == s.(mem := s.mem[s.block := data], writeSeq := q,
                                   pin := Pin(q, |data|), spoiled := false,
                                   log := s.log[q := Message(|data|, data)])
  {
    run' := WriteRun(run, data);
    run' := Extend(run', Publish(SetLen(|data|)));
    run' := Extend(run', Publish(Claim));
    run' := Extend(run', Publish(Store));
    run' := Extend(run', Publish(Clear));
  }

  /** A topic with one block of one byte, published once. */
  lemma PublishedOnce() returns (run: seq<State>)
    ensures Run(run)
    ensures run[|run| - 1] ==
            State(1, [[7]], 0, Pinning, 0, Pin(1, 1), 1, Idle, [], [], false, map[1 := Message(1, [7])])
  {
    run := [State(1, [[0]], 0, Unassigned, 0, Pin(0, 0), 0, Idle, [], [], false, map[])];
    run := Extend(run, Publish(Assign(0)));
    run := PublishRun(run, [7]);
    assert [[0]][0 := [7]] == [[7]];
  }

  /** A run at the end of which a guard that was right when it was taken shows other bytes. */
  lemma DroppedPublisherChangesGuard() returns (run: seq<State>, m: nat)
    ensures Run(run) && m < |run| && |run[m].guards| == |run[|run| - 1].guards| == 1
    ensures var s, s' := run[m], run[|run| - 1];
            var g := s.guards[0];
            && g.live && s'.guards[0] == g && g.block < |s.mem| && g.seqNo in s.log
            && s.log[g.seqNo] == Message(g.len, s.mem[g.block]) && Shows(s', g) != Shows(s, g)
  {
    var published := PublishedOnce();
    var guarded := JoinAndRead(published);
    m := |guarded| - 1;
    run := GuardCanChange(guarded, 0);
    assert run[m] == guarded[m];
  }

  /** A run at the end of which a new guard shows bytes that were never published. */
  lemma DroppedLoanSpoilsGuard() returns (run: seq<State>)
    ensures Run(run) && |run[|run| - 1].guards| == 1
    ensures var s := run[|run| - 1];
            var g := s.guards[0];
            && g.live && s.spoiled && s.owner.Pinning? && g.block < |s.mem| && g.seqNo in s.log
            && g.len <= |s.log[g.seqNo].bytes| && Shows(s, g) != s.log[g.seqNo].bytes[..g.len]
  {
    run := PublishedOnce();
    run := WriteRun(run, [9]);
    run := Extend(run, Publish(DropLoan));
    run := JoinAndRead(run);
    var s := run[|run| - 1];
    assert Shows(s, s.guards[0])[0] == 9;
  }
}
