/** Whole operations of the ring protocol as closed forms, each the end of a run of its steps. */
module RingOps {
  import opened Words
  import opened Layout
  import opened Sums
  import opened Ring
  import opened RingCounts
  import opened RingInv
  import opened RingSafety
  import opened RingBound

  ghost function End(run: seq<State>): State
    requires run != []
  {
    run[|run| - 1]
  }

  lemma Extend(run: seq<State>, a: Action) returns (run': seq<State>)
    requires Run(run) && Enabled(End(run), a)
    ensures Run(run') && run' == run + [Apply(End(run), a)]
  {
    var next := Apply(End(run), a);
    run' := run + [next];
    assert Step(End(run), next);
    forall i | 0 < i < |run'| ensures StepAt(run', i) {
      if i < |run| { assert StepAt(run, i); }
    }
  }

  // ---- a slot reads SEQ_WRITING only while a publisher is writing it ----

  predicate Writes(s: State, pub: Pub, t: nat, i: nat)
    requires 0 < s.depth
  {
    Writing(pub.pc) && pub.pc.job.topic == t && pub.pc.job.seqNo % s.depth == i
  }

  ghost predicate HasWriter(s: State, t: nat, i: nat)
    requires 0 < s.depth
  {
    exists p :: 0 <= p < |s.pubs| && Writes(s, s.pubs[p], t, i)
  }

  ghost predicate MarksOk(s: State) {
    0 < s.depth &&
    forall t, i :: 0 <= t < |s.rings| && 0 <= i < |s.rings[t]| && s.rings[t][i].seqNo == SEQ_WRITING ==>
                     HasWriter(s, t, i)
  }

  lemma SameWriter(s: State, s': State, t: nat, i: nat, p: nat)
    requires 0 < s.depth == s'.depth && HasWriter(s, t, i)
    requires p < |s.pubs| && |s'.pubs| >= |s.pubs|
    requires forall q :: 0 <= q < |s.pubs| && q != p ==> s'.pubs[q] == s.pubs[q]
    requires Writes(s, s.pubs[p], t, i) ==> Writes(s', s'.pubs[p], t, i)
    ensures HasWriter(s', t, i)
  {
    var q :| 0 <= q < |s.pubs| && Writes(s, s.pubs[q], t, i);
    assert Writes(s', s'.pubs[q], t, i);
  }

  /** Steps that leave rings alone and change no writing publisher. */
  lemma QuietMarks(s: State, s': State, p: nat)
    requires s'.depth == s.depth && s'.rings == s.rings && MarksOk(s)
    requires p < |s.pubs| && |s'.pubs| >= |s.pubs|
    requires forall q :: 0 <= q < |s.pubs| && q != p ==> s'.pubs[q] == s.pubs[q]
    requires Writing(s.pubs[p].pc) ==> Writing(s'.pubs[p].pc) && s'.pubs[p].pc.job == s.pubs[p].pc.job
    ensures MarksOk(s')
  {
    forall t, i | 0 <= t < |s'.rings| && 0 <= i < |s'.rings[t]| && s'.rings[t][i].seqNo == SEQ_WRITING
      ensures HasWriter(s', t, i)
    {
      SameWriter(s, s', t, i, p);
    }
  }

  /** One slot rewritten by its publisher. */
  lemma SlotMarks(s: State, s': State, p: nat, e: Entry, pc: PubPc)
    requires Shape(s) && MarksOk(s) && p < |s.pubs| && JobSlotOk(s, s.pubs[p].pc)
    requires var job := s.pubs[p].pc.job;
             && s'.depth == s.depth && s'.rings == PutSlot(s.rings, s.depth, job.topic, job.seqNo, e)
             && s'.pubs == s.pubs[p := s.pubs[p].(pc := pc)] && (Writing(pc) ==> pc.job == job)
    requires e.seqNo == SEQ_WRITING ==> Writing(pc)
    ensures MarksOk(s')
  {
    var job := s.pubs[p].pc.job;
    forall t, i | 0 <= t < |s'.rings| && 0 <= i < |s'.rings[t]| && s'.rings[t][i].seqNo == SEQ_WRITING
      ensures HasWriter(s', t, i)
    {
      if t == job.topic && i == job.seqNo % s.depth {
        assert Writes(s', s'.pubs[p], t, i);
      } else {
        assert s.rings[t][i].seqNo == SEQ_WRITING;
        SameWriter(s, s', t, i, p);
      }
    }
  }

  lemma MarkMarks(s: State, p: nat, x: MarkStep)
    requires Shape(s) && MarksOk(s) && MarkEnabled(s, p, x)
    ensures MarksOk(ApplyMark(s, p, x))
  {
    var s' := ApplyMark(s, p, x);
    if s'.rings == s.rings {
      QuietMarks(s, s', p);
    } else {
      var e := Slot(s.rings, s.depth, s.pubs[p].pc.job.topic, s.pubs[p].pc.job.seqNo);
      SlotMarks(s, s', p, e.(seqNo := SEQ_WRITING), Marked(s.pubs[p].pc.job));
    }
  }

  lemma FillMarks(s: State, p: nat, x: FillStep)
    requires Shape(s) && PubsOk(s) && MarksOk(s) && FillEnabled(s, p, x)
    ensures MarksOk(ApplyFill(s, p, x))
  {
    var s' := ApplyFill(s, p, x);
    if x.ReadOld? || x.SetCount? {
      QuietMarks(s, s', p);
    } else {
      assert PubOk(s, s.pubs[p]);
      var job := s.pubs[p].pc.job;
      SlotMarks(s, s', p, Slot(s'.rings, s.depth, job.topic, job.seqNo), s'.pubs[p].pc);
    }
  }

  lemma AllocMarks(s: State, p: nat, x: AllocStep)
    requires MarksOk(s) && AllocEnabled(s, p, x)
    ensures MarksOk(ApplyAlloc(s, p, x))
  {
    QuietMarks(s, ApplyAlloc(s, p, x), p);
  }

  lemma LoanMarks(s: State, p: nat, x: LoanStep)
    requires MarksOk(s) && LoanEnabled(s, p, x)
    ensures MarksOk(ApplyLoan(s, p, x))
  {
    QuietMarks(s, ApplyLoan(s, p, x), p);
  }

  lemma ClaimMarks(s: State, p: nat, t: nat, x: ClaimStep)
    requires MarksOk(s) && ClaimEnabled(s, p, t, x)
    ensures MarksOk(ApplyClaim(s, p, t, x))
  {
    QuietMarks(s, ApplyClaim(s, p, t, x), p);
  }

  lemma ReleaseMarks(s: State, p: nat, x: ReleaseStep)
    requires MarksOk(s) && ReleaseEnabled(s, p, x)
    ensures MarksOk(ApplyRelease(s, p, x))
  {
    QuietMarks(s, ApplyRelease(s, p, x), p);
  }

  lemma RetireMarks(s: State, p: nat, x: RetireStep)
    requires MarksOk(s) && RetireEnabled(s, p, x)
    ensures MarksOk(ApplyRetire(s, p, x))
  {
    QuietMarks(s, ApplyRetire(s, p, x), p);
  }

  lemma StepMarks(s: State, a: Action)
    requires Shape(s) && PubsOk(s) && MarksOk(s) && Enabled(s, a)
    ensures MarksOk(Apply(s, a))
  {
    match a
    case MarkEntry(p, x) => MarkMarks(s, p, x);
    case FillEntry(p, x) => FillMarks(s, p, x);
    case Allocate(p, x) => AllocMarks(s, p, x);
    case UseLoan(p, x) => LoanMarks(s, p, x);
    case ClaimSeq(p, t, x) => ClaimMarks(s, p, t, x);
    case Release(p, x) => ReleaseMarks(s, p, x);
    case RetirePub(p, x) => RetireMarks(s, p, x);
    case _ => OtherFrame(s, a); OtherMarks(s, Apply(s, a));
  }

  /** Steps of streams and samples, and joining. */
  lemma OtherFrame(s: State, a: Action)
    requires Enabled(s, a)
    requires a.Open? || a.Subscribe? || a.Scan? || a.Reference? || a.EndSample? || a.TakePinned?
    ensures var s' := Apply(s, a); s'.depth == s.depth && s'.rings == s.rings && s.pubs <= s'.pubs
  {
  }

  lemma OtherMarks(s: State, s': State)
    requires MarksOk(s) && s'.depth == s.depth && s'.rings == s.rings && s.pubs <= s'.pubs
    ensures MarksOk(s')
  {
    forall t, i | 0 <= t < |s'.rings| && 0 <= i < |s'.rings[t]| && s'.rings[t][i].seqNo == SEQ_WRITING
      ensures HasWriter(s', t, i)
    {
      var p :| 0 <= p < |s.pubs| && Writes(s, s.pubs[p], t, i);
      assert Writes(s', s'.pubs[p], t, i);
    }
  }

  lemma NextMarks(run: seq<State>, n: nat)
    requires Run(run) && 0 < n < |run| && MarksOk(run[n - 1])
    ensures MarksOk(run[n])
  {
    EveryRunKeepsInv(run, n - 1);
    assert StepAt(run, n);
    var a :| Enabled(run[n - 1], a) && run[n] == Apply(run[n - 1], a);
    StepMarks(run[n - 1], a);
  }

  /** In every run a marked slot has a publisher writing it. */
  lemma {:induction false} MarkedSlotHasWriter(run: seq<State>, n: nat)
    requires Run(run) && n < |run|
    ensures MarksOk(run[n])
  {
    if n > 0 {
      MarkedSlotHasWriter(run, n - 1);
      NextMarks(run, n);
    }
  }

  // ---- the loan ----

  /** A loan keeps the bytes last written and the length last set, and touches no other block. */
  lemma LoanKeeps(s: State, p: nat, a: LoanStep)
    requires LoanEnabled(s, p, a) && ApplyLoan(s, p, a).pubs[p].pc.Loaned? && s.pubs[p].pc.block < |s.bytes|
    ensures var pc, s' := s.pubs[p].pc, ApplyLoan(s, p, a);
            && s'.pubs[p].pc == Loaned(pc.block, if a.SetLen? then a.len else pc.len)
            && s'.bytes == (if a.Write? then s.bytes[pc.block := a.data] else s.bytes)
            && s'.rings == s.rings && s'.refcount == s.refcount && s'.free == s.free && s'.log == s.log
  {
  }

  // ---- commit_to_ring: claim and mark ----

  predicate Loaning(s: State, p: nat, t: nat) {
    p < |s.pubs| && s.pubs[p].pc.Loaned? && MayClaim(s, p, t)
  }

  function ClaimedJob(s: State, p: nat, t: nat): Job
    requires Loaning(s, p, t)
  {
    Job(s.pubs[p].pc.block, s.pubs[p].pc.len, t, s.writeSeq[t] + 1)
  }

  function Marking(s: State, p: nat, t: nat): State
    requires Loaning(s, p, t)
  {
    var job := ClaimedJob(s, p, t);
    var e := Slot(s.rings, s.depth, t, job.seqNo);
    s.(writeSeq := s.writeSeq[t := job.seqNo],
       rings := PutSlot(s.rings, s.depth, t, job.seqNo, e.(seqNo := SEQ_WRITING)),
       pubs := s.pubs[p := s.pubs[p].(pc := Marked(job))])
  }

  /** With no commit in progress on the topic the next slot is closed, and holds nothing newer. */
  lemma NextSlotIsOlder(s: State, t: nat)
    requires Inv(s) && MarksOk(s) && t < |s.rings| && NoCommit(s, t)
    ensures Slot(s.rings, s.depth, t, s.writeSeq[t] + 1).seqNo <= s.writeSeq[t]
  {
    var i := (s.writeSeq[t] + 1) % s.depth;
    assert EntryOk(s, t, i, s.rings[t][i]);
    assert !HasWriter(s, t, i);
    if s.rings[t][i].seqNo > 0 {
      assert KeyOk(s, Key(t, s.rings[t][i].seqNo));
    }
  }

  lemma MarkCreator(s: State, p: nat, t: nat, e: Entry)
    requires Loaning(s, p, t) && s.pubs[p].creator
    requires e == Slot(s.rings, s.depth, t, s.writeSeq[t] + 1) && e.seqNo <= s.writeSeq[t]
    ensures var s1 := Apply(s, ClaimSeq(p, t, Claim));
            Enabled(s1, MarkEntry(p, StoreMark)) && Apply(s1, MarkEntry(p, StoreMark)) == Marking(s, p, t)
  {
    var s1 := Apply(s, ClaimSeq(p, t, Claim));
    assert s1.pubs[p].pc == Claimed(ClaimedJob(s, p, t));
    assert s1.pubs[p := s1.pubs[p].(pc := Marked(ClaimedJob(s, p, t)))] == Marking(s, p, t).pubs;
    assert s.overtaken + {} == s.overtaken;
  }

  lemma MarkOpened(s: State, p: nat, t: nat, e: Entry)
    requires Loaning(s, p, t) && !s.pubs[p].creator
    requires e == Slot(s.rings, s.depth, t, s.writeSeq[t] + 1) && e.seqNo <= s.writeSeq[t]
    ensures var s1 := Apply(s, ClaimSeq(p, t, Claim));
            Enabled(s1, MarkEntry(p, Observe)) &&
            var s2 := Apply(s1, MarkEntry(p, Observe));
            Enabled(s2, MarkEntry(p, CasMark)) && Apply(s2, MarkEntry(p, CasMark)) == Marking(s, p, t)
  {
    var job := ClaimedJob(s, p, t);
    var s1 := Apply(s, ClaimSeq(p, t, Claim));
    assert s1.pubs[p].pc == Claimed(job);
    var s2 := Apply(s1, MarkEntry(p, Observe));
    assert s2.pubs[p].pc == Observed(job, e.seqNo);
    assert s2.pubs[p := s2.pubs[p].(pc := Marked(job))] == Marking(s, p, t).pubs;
    assert s.overtaken + {} == s.overtaken;
  }

  lemma MarkPhase(run: seq<State>, p: nat, t: nat) returns (run': seq<State>)
    requires Run(run) && Loaning(End(run), p, t) && NoCommit(End(run), t)
    ensures Run(run') && run <= run' && End(run') == Marking(End(run), p, t)
  {
    var s := End(run);
    MarkedSlotHasWriter(run, |run| - 1);
    EveryRunKeepsInv(run, |run| - 1);
    NextSlotIsOlder(s, t);
    var e := Slot(s.rings, s.depth, t, s.writeSeq[t] + 1);
    run' := Extend(run, ClaimSeq(p, t, Claim));
    if s.pubs[p].creator {
      MarkCreator(s, p, t, e);
    } else {
      MarkOpened(s, p, t, e);
      run' := Extend(run', MarkEntry(p, Observe));
    }
    run' := Extend(run', MarkEntry(p, if s.pubs[p].creator then StoreMark else CasMark));
  }

  // ---- commit_to_ring: fill and close ----

  predicate Filling(s: State, p: nat) {
    && p < |s.pubs| && s.pubs[p].pc.Marked? && JobSlotOk(s, s.pubs[p].pc)
    && s.pubs[p].pc.job.block < |s.refcount| == |s.bytes|
  }

  function Filled(s: State, p: nat): State
    requires Filling(s, p)
  {
    var job := s.pubs[p].pc.job;
    var e := Slot(s.rings, s.depth, job.topic, job.seqNo);
    s.(rings := PutSlot(s.rings, s.depth, job.topic, job.seqNo, Entry(job.seqNo, job.block, job.len)),
       refcount := s.refcount[job.block := 1],
       log := s.log[Key(job.topic, job.seqNo) := Message(job.block, job.len, s.bytes[job.block])],
       pubs := s.pubs[p := s.pubs[p].(pc := Closed(e.block))])
  }

  /** Storing block index, length and sequence one after the other is one store of the entry. */
  lemma PutTwice(rings: seq<seq<Entry>>, depth: nat, t: nat, q: nat, e: Entry, e': Entry)
    requires t < |rings| && 0 < depth == |rings[t]|
    ensures var rings' := PutSlot(rings, depth, t, q, e);
            && |rings'[t]| == depth && Slot(rings', depth, t, q) == e
            && PutSlot(rings', depth, t, q, e') == PutSlot(rings, depth, t, q, e')
  {
    var i, ring := q % depth, rings[t];
    assert ring[i := e][i := e'] == ring[i := e'];
    assert rings[t := ring[i := e]][t := ring[i := e']] == rings[t := ring[i := e']];
  }

  lemma FillPhase(run: seq<State>, p: nat) returns (run': seq<State>)
    requires Run(run) && Filling(End(run), p)
    ensures Run(run') && run <= run' && End(run') == Filled(End(run), p)
  {
    var s := End(run);
    var job := s.pubs[p].pc.job;
    var e := Slot(s.rings, s.depth, job.topic, job.seqNo);
    run' := Extend(run, FillEntry(p, ReadOld));
    run' := Extend(run', FillEntry(p, SetCount));
    var s2 := End(run');
    assert s2 == s.(refcount := s.refcount[job.block := 1],
                    pubs := s.pubs[p := s.pubs[p].(pc := Counted(job, e.block))]);
    run' := StorePhase(run', p, job, e);
    assert s2.pubs[p := s2.pubs[p].(pc := Closed(e.block))] == s.pubs[p := s.pubs[p].(pc := Closed(e.block))];
  }

  lemma StorePhase(run: seq<State>, p: nat, job: Job, e: Entry) returns (run': seq<State>)
    requires Run(run) && p < |End(run).pubs| && End(run).pubs[p].pc == Counted(job, e.block)
    requires TopicOk(End(run), job.topic) && e == Slot(End(run).rings, End(run).depth, job.topic, job.seqNo)
    requires job.block < |End(run).bytes|
    ensures Run(run') && run <= run'
    ensures var s := End(run);
            var e' := Entry(job.seqNo, job.block, job.len);
            End(run') == s.(rings := PutSlot(s.rings, s.depth, job.topic, job.seqNo, e'),
                            log := s.log[Key(job.topic, job.seqNo) := Message(job.block, job.len, s.bytes[job.block])],
                            pubs := s.pubs[p := s.pubs[p].(pc := Closed(e.block))])
  {
    var s := End(run);
    var (t, q) := (job.topic, job.seqNo);
    PutTwice(s.rings, s.depth, t, q, e.(block := job.block), e.(block := job.block, len := job.len));
    PutTwice(s.rings, s.depth, t, q, e.(block := job.block, len := job.len), Entry(q, job.block, job.len));
    run' := Extend(run, FillEntry(p, WriteBlock));
    assert End(run') == s.(rings := PutSlot(s.rings, s.depth, t, q, e.(block := job.block)),
                           pubs := s.pubs[p := s.pubs[p].(pc := Named(job, e.block))]);
    run' := Extend(run', FillEntry(p, WriteLen));
    assert End(run') == s.(rings := PutSlot(s.rings, s.depth, t, q, e.(block := job.block, len := job.len)),
                           pubs := s.pubs[p := s.pubs[p].(pc := Sized(job, e.block))]);
    run' := Extend(run', FillEntry(p, Close));
    assert End(run').pubs == s.pubs[p := s.pubs[p].(pc := Closed(e.block))];
  }

  // ---- commit_to_ring: release the displaced block ----

  predicate Releasing(s: State, p: nat) {
    && p < |s.pubs| && s.pubs[p].pc.Closed?
    && (s.pubs[p].pc.prior < |s.refcount| ==> s.refcount[s.pubs[p].pc.prior] > 0)
  }

  function Released(s: State, p: nat): State
    requires Releasing(s, p)
  {
    var pub := s.pubs[p];
    var prior := pub.pc.prior;
    if prior == NO_BLOCK || prior >= |s.refcount| then PubTo(s, p, Ready)
    else if s.refcount[prior] > 1 then PubTo(PutCount(s, prior, s.refcount[prior] - 1), p, Ready)
    else
      PutPub(PutCount(s, prior, 0).(free := if pub.recycled == NO_BLOCK then s.free else s.free + [pub.recycled]),
             p, pub.(recycled := prior, pc := Ready))
  }

  lemma ReleasePhase(run: seq<State>, p: nat) returns (run': seq<State>)
    requires Run(run) && Releasing(End(run), p)
    ensures Run(run') && run <= run' && End(run') == Released(End(run), p)
  {
    var s := End(run);
    var pub := s.pubs[p];
    run' := Extend(run, Release(p, ReleaseOld));
    if End(run').pubs[p].pc.Unreferenced? {
      run' := Extend(run', Release(p, Recycle));
      var s2 := End(run');
      assert s2.pubs == s.pubs[p := pub.(recycled := pub.pc.prior, pc := s2.pubs[p].pc)];
      if pub.recycled != NO_BLOCK {
        run' := Extend(run', Release(p, FreeDisplaced));
        assert End(run').pubs == s.pubs[p := pub.(recycled := pub.pc.prior, pc := Ready)];
      }
    }
  }

  // ---- try_recv ----

  /** The first sequence of `from..current` that its slot shows. */
  function FirstShown(s: State, t: nat, from: nat, current: nat): Option<nat>
    requires Shape(s)
    decreases current + 1 - from
  {
    if from > current then None
    else if Shown(s, Key(t, from)) then Some(from)
    else FirstShown(s, t, from + 1, current)
  }

  lemma {:induction false} FirstShownIsFirst(s: State, t: nat, from: nat, current: nat)
    requires Shape(s)
    ensures var r := FirstShown(s, t, from, current);
            && (r.Some? ==> from <= r.value <= current && Shown(s, Key(t, r.value)))
            && forall q :: from <= q <= current && (r.Some? ==> q < r.value) ==> !Shown(s, Key(t, q))
    decreases current + 1 - from
  {
    if from <= current && !Shown(s, Key(t, from)) { FirstShownIsFirst(s, t, from + 1, current); }
  }

  /** What a call of `try_recv` on stream `i` finds. */
  function Found(s: State, i: nat): Option<nat>
    requires Shape(s) && i < |s.streams| && s.streams[i].topic < |s.rings|
  {
    var st := s.streams[i];
    var current := s.writeSeq[st.topic];
    if current <= st.lastSeq then None else FirstShown(s, st.topic, ScanStart(current, st.lastSeq, s.depth), current)
  }

  /** A sequence a subscriber may still ask for: recent, not consumed by a pinned publish, and
      not overtaken by an older claim. */
  predicate Readable(s: State, k: Key) {
    InWindow(s, k) && k !in s.skipped && k !in s.overtaken
  }

  /** With no commit in progress on the topic, `try_recv` finds the oldest unread readable
      sequence, and finds nothing exactly when there is none. */
  lemma FindsOldestUnread(run: seq<State>, i: nat)
    requires Run(run) && i < |End(run).streams| && NoCommit(End(run), End(run).streams[i].topic)
    ensures var s, st := End(run), End(run).streams[i];
            && Inv(s) && st.topic < |s.rings|
            && var r := Found(s, i);
               && (r.Some? ==> r.value > st.lastSeq && Readable(s, Key(st.topic, r.value)))
               && forall q :: q > st.lastSeq && Readable(s, Key(st.topic, q)) ==> r.Some? && r.value <= q
  {
    EveryRunKeepsInv(run, |run| - 1);
    var s, st := End(run), End(run).streams[i];
    assert StreamOk(s, st);
    WindowIsShown(s, st.topic);
    var current := s.writeSeq[st.topic];
    if st.lastSeq < current {
      FirstShownIsFirst(s, st.topic, ScanStart(current, st.lastSeq, s.depth), current);
    }
  }

  lemma WindowIsShown(s: State, t: nat)
    requires Inv(s) && NoCommit(s, t) && t < |s.rings|
    ensures forall q :: InWindow(s, Key(t, q)) ==> (Shown(s, Key(t, q)) <==> Readable(s, Key(t, q)))
  {
    forall q | InWindow(s, Key(t, q)) ensures Shown(s, Key(t, q)) <==> Readable(s, Key(t, q)) {
      QuietWindow(s, Key(t, q));
    }
  }

  /** Nothing of topic `t` was consumed by a pinned publish or overtaken. */
  ghost predicate AllKept(s: State, t: nat) {
    forall q :: Key(t, q) !in s.skipped && Key(t, q) !in s.overtaken
  }

  /** Then `try_recv` returns the oldest unread of the last `depth` messages, and nothing exactly
      when the stream has caught up. */
  lemma KeptTopicIsBoundedLog(run: seq<State>, i: nat)
    requires Run(run) && i < |End(run).streams| && NoCommit(End(run), End(run).streams[i].topic)
    requires AllKept(End(run), End(run).streams[i].topic)
    ensures var s, st := End(run), End(run).streams[i];
            && Inv(s) && st.topic < |s.rings|
            && var n := s.writeSeq[st.topic];
               Found(s, i) == if st.lastSeq == n then None else Some(ScanStart(n, st.lastSeq, s.depth))
  {
    FindsOldestUnread(run, i);
    var s, st := End(run), End(run).streams[i];
    var n := s.writeSeq[st.topic];
    assert StreamOk(s, st);
    if st.lastSeq < n {
      var q := ScanStart(n, st.lastSeq, s.depth);
      assert Readable(s, Key(st.topic, q));
      FirstShownIsFirst(s, st.topic, q, n);
    }
  }

  /** On a topic of the creator without pinned publishes, `try_recv` reads a bounded log. */
  lemma CreatorTopicIsBoundedLog(run: seq<State>, i: nat)
    requires Run(run) && i < |End(run).streams| && NoCommit(End(run), End(run).streams[i].topic)
    requires var s := End(run); var t := s.streams[i].topic;
             t < |s.creatorTopic| && s.creatorTopic[t] && forall q :: Key(t, q) !in s.skipped
    ensures var s, st := End(run), End(run).streams[i];
            && Inv(s) && st.topic < |s.rings|
            && var n := s.writeSeq[st.topic];
               Found(s, i) == if st.lastSeq == n then None else Some(ScanStart(n, st.lastSeq, s.depth))
  {
    var t := End(run).streams[i].topic;
    forall q ensures Key(t, q) !in End(run).overtaken { CreatorNeverOvertaken(run, |run| - 1, Key(t, q)); }
    KeptTopicIsBoundedLog(run, i);
  }

  /** The state after `try_recv` returned sequence `q`. */
  function Received(s: State, i: nat, q: nat): State
    requires Shape(s) && i < |s.streams| && s.streams[i].topic < |s.rings|
    requires Slot(s.rings, s.depth, s.streams[i].topic, q).block < |s.refcount|
  {
    var st := s.streams[i];
    var e := Slot(s.rings, s.depth, st.topic, q);
    s.(refcount := s.refcount[e.block := s.refcount[e.block] + 1],
       streams := s.streams[i := Stream(st.topic, q, st.delivered + [q], Waiting)],
       samples := s.samples + [Sample(st.topic, q, e.block, e.len, Held)])
  }

  /** A shown slot names a referenced block and a length that fits. */
  lemma ShownIsLive(s: State, k: Key)
    requires Inv(s) && k.seqNo > 0 && k.seqNo < SEQ_WRITING && Shown(s, k)
    ensures var e := Slot(s.rings, s.depth, k.topic, k.seqNo);
            e.block < |s.refcount| && e.block != NO_BLOCK && e.len <= s.capacity && s.refcount[e.block] > 0
  {
    var i := k.seqNo % s.depth;
    var e := s.rings[k.topic][i];
    assert EntryOk(s, k.topic, i, e);
    assert CountOk(s, e.block);
    SumAtLeast(s.rings, k.topic, RingRef(e.block));
    SumAtLeast(s.rings[k.topic], i, SlotRef(e.block));
  }

  lemma LookPhase(run: seq<State>, i: nat, q: nat, current: nat, e: Entry) returns (run': seq<State>)
    requires Run(run) && i < |End(run).streams| && End(run).streams[i].pc == Scanning(current, q)
    requires Shape(End(run)) && Shown(End(run), Key(End(run).streams[i].topic, q))
    requires e == Slot(End(run).rings, End(run).depth, End(run).streams[i].topic, q)
             && e.block < |End(run).refcount| && e.len <= End(run).capacity
    ensures Run(run') && run <= run'
    ensures var s := End(run);
            End(run') == s.(streams := s.streams[i := s.streams[i].(pc := GotLen(current, q, e.block, e.len))])
  {
    run' := Extend(run, Scan(i, Check));
    run' := Extend(run', Scan(i, ReadBlock));
    run' := Extend(run', Scan(i, ReadLen));
  }

  /** From a matching slot, the rest of `try_read_slot_raw` runs through. */
  lemma AcquirePhase(run: seq<State>, i: nat, q: nat, current: nat) returns (run': seq<State>)
    requires Run(run) && i < |End(run).streams| && End(run).streams[i].pc == Scanning(current, q)
    requires Shape(End(run)) && Shown(End(run), Key(End(run).streams[i].topic, q))
    requires var e := Slot(End(run).rings, End(run).depth, End(run).streams[i].topic, q);
             e.block < |End(run).refcount| && e.len <= End(run).capacity && End(run).refcount[e.block] > 0
    ensures Run(run') && run <= run' && End(run') == Received(End(run), i, q)
  {
    var s := End(run);
    var st := s.streams[i];
    var e := Slot(s.rings, s.depth, st.topic, q);
    run' := LookPhase(run, i, q, current, e);
    run' := Extend(run', Scan(i, LoadCount));
    run' := Extend(run', Reference(i, Acquire));
    assert End(run') == s.(refcount := s.refcount[e.block := s.refcount[e.block] + 1],
                           streams := s.streams[i := st.(pc := Tentative(current, q, e.block, e.len))]);
    run' := Extend(run', Reference(i, Recheck));
    assert End(run').streams == s.streams[i := Stream(st.topic, q, st.delivered + [q], Waiting)];
  }

  // ---- release_block ----

  predicate Dropping(s: State, k: nat) { k < |s.samples| && SampleEnabled(s, k, DropSample) }

  /** The state after sample `k` was dropped: one reference less, and the last one frees the block. */
  function Dropped(s: State, k: nat): State
    requires Dropping(s, k)
  {
    var sm := s.samples[k];
    var prev := s.refcount[sm.block];
    s.(refcount := s.refcount[sm.block := prev - 1], free := if prev == 1 then s.free + [sm.block] else s.free,
       samples := s.samples[k := sm.(status := Gone)])
  }

  lemma DropPhase(run: seq<State>, k: nat) returns (run': seq<State>)
    requires Run(run) && Dropping(End(run), k)
    ensures Run(run') && run <= run' && End(run') == Dropped(End(run), k)
  {
    var s := End(run);
    run' := Extend(run, EndSample(k, DropSample));
    if s.refcount[s.samples[k].block] == 1 {
      run' := Extend(run', EndSample(k, FreeSample));
      assert End(run').samples == s.samples[k := s.samples[k].(status := Gone)];
    }
  }

  lemma HeldIsCounted(run: seq<State>, k: nat)
    requires Run(run) && k < |End(run).samples| && End(run).samples[k].status.Held?
    ensures Dropping(End(run), k)
  {
    EveryRunKeepsInv(run, |run| - 1);
    NoPartyIsStuck(End(run));
  }

  // ---- alloc_cached ----

  /** The `n` blocks on top of the pool, topmost first. */
  function Popped(free: seq<nat>, n: nat): (blocks: seq<nat>)
    requires n <= |free|
    ensures |blocks| == n
  {
    if n == 0 then [] else Popped(free, n - 1) + [free[|free| - n]]
  }

  /** In the middle of a refill: `n` blocks moved from the pool to the cache. */
  function Refilled(s: State, p: nat, n: nat): State
    requires p < |s.pubs| && n <= |s.free|
  {
    s.(free := s.free[..|s.free| - n], pubs := s.pubs[p := s.pubs[p].(cache := Popped(s.free, n), pc := Refilling)])
  }

  predicate HasBlock(s: State, p: nat) {
    p < |s.pubs| && (s.pubs[p].recycled != NO_BLOCK || s.pubs[p].cache != [] || s.free != [])
  }

  /** The recycled block first, then the newest cached one, then the pool, eight blocks at a time. */
  function Allocated(s: State, p: nat): State
    requires HasBlock(s, p)
  {
    var pub := s.pubs[p];
    if pub.recycled != NO_BLOCK then PutPub(s, p, pub.(recycled := NO_BLOCK, pc := Loaned(pub.recycled, 0)))
    else if pub.cache != [] then PutPub(s, p, pub.(cache := DropLast(pub.cache), pc := Loaned(Last(pub.cache), 0)))
    else
      var n := if |s.free| < CACHE_SIZE then |s.free| else CACHE_SIZE;
      var got := Popped(s.free, n);
      PutPub(s.(free := s.free[..|s.free| - n]), p, pub.(cache := DropLast(got), pc := Loaned(Last(got), 0)))
  }

  lemma RefillStep(run: seq<State>, s: State, p: nat, n: nat) returns (run': seq<State>)
    requires Run(run) && p < |s.pubs| && n < |s.free| && n < CACHE_SIZE && End(run) == Refilled(s, p, n)
    ensures Run(run') && run <= run' && End(run') == Refilled(s, p, n + 1)
  {
    run' := Extend(run, Allocate(p, RefillOne));
    var s' := End(run');
    assert s'.free == s.free[..|s.free| - (n + 1)];
    assert s'.pubs == s.pubs[p := s.pubs[p].(cache := Popped(s.free, n + 1), pc := Refilling)];
  }

  lemma TakeStep(run: seq<State>, s: State, p: nat, n: nat) returns (run': seq<State>)
    requires Run(run) && HasBlock(s, p) && s.pubs[p].recycled == NO_BLOCK && s.pubs[p].cache == []
    requires n == (if |s.free| < CACHE_SIZE then |s.free| else CACHE_SIZE) && End(run) == Refilled(s, p, n)
    ensures Run(run') && run <= run' && End(run') == Allocated(s, p)
  {
    var got := Popped(s.free, n);
    assert End(run).pubs[p] == s.pubs[p].(cache := got, pc := Refilling);
    run' := Extend(run, Allocate(p, TakeCached));
    assert End(run').pubs == s.pubs[p := s.pubs[p].(cache := DropLast(got), pc := Loaned(Last(got), 0))];
  }

  lemma StartStep(run: seq<State>, p: nat) returns (run': seq<State>)
    requires Run(run) && AllocEnabled(End(run), p, StartRefill)
    ensures Run(run') && run <= run' && End(run') == Refilled(End(run), p, 0)
  {
    var s := End(run);
    run' := Extend(run, Allocate(p, StartRefill));
    assert s.free[..|s.free|] == s.free;
  }

  lemma GiveUpStep(run: seq<State>, s: State, p: nat) returns (run': seq<State>)
    requires Run(run) && p < |s.pubs| && s.free == [] && s.pubs[p].cache == [] && s.pubs[p].pc.Ready?
    requires End(run) == Refilled(s, p, 0)
    ensures Run(run') && run <= run' && End(run') == s
  {
    run' := Extend(run, Allocate(p, Exhausted));
    assert End(run').pubs == s.pubs;
  }

  lemma {:induction false} RefillRun(run: seq<State>, p: nat, n: nat) returns (run': seq<State>)
    requires Run(run) && AllocEnabled(End(run), p, StartRefill) && n <= |End(run).free| && n <= CACHE_SIZE
    ensures Run(run') && run <= run' && End(run') == Refilled(End(run), p, n)
  {
    if n == 0 {
      run' := StartStep(run, p);
    } else {
      run' := RefillRun(run, p, n - 1);
      run' := RefillStep(run', End(run), p, n - 1);
    }
  }

  /** A whole refilling allocation. */
  lemma AllocRun(run: seq<State>, p: nat) returns (run': seq<State>)
    requires Run(run) && AllocEnabled(End(run), p, StartRefill) && End(run).free != []
    ensures Run(run') && run <= run' && End(run') == Allocated(End(run), p)
  {
    var n := if |End(run).free| < CACHE_SIZE then |End(run).free| else CACHE_SIZE;
    run' := RefillRun(run, p, n);
    run' := TakeStep(run', End(run), p, n);
  }

  /** References a region's readers hold. */
  function Reading(s: State): nat { Sum(s.samples, SampleLive) + Sum(s.streams, StreamLive) }

  /** With more blocks than published topics' rings plus what readers hold, the only working
      publisher of a region without pinned topics always finds a block, whatever happened before
      and whoever else opened the region and was dropped. */
  lemma LoneLoanSucceeds(run: seq<State>, p: nat)
    requires Run(run) && p < |End(run).pubs| && OthersIdle(End(run), p)
    requires End(run).pubs[p].pinned == [] && End(run).pubs[p].pc.Ready?
    requires |End(run).refcount| > Published(End(run).writeSeq) * End(run).depth + Reading(End(run))
    ensures HasBlock(End(run), p)
  {
    if !HasBlock(End(run), p) {
      var run' := Extend(run, Allocate(p, StartRefill));
      EveryRunKeepsInv(run', |run'| - 1);
      ExhaustedOnlyWhenInUse(End(run'), p);
    }
  }

  // ---- Publisher::drop ----

  function Single(b: nat): seq<nat> { if b == NO_BLOCK then [] else [b] }

  /** Pinned, recycled and cached blocks go back to the pool, in this order. */
  function Retired(s: State, p: nat): State
    requires p < |s.pubs|
  {
    var pub := s.pubs[p];
    PutPub(s.(free := s.free + pub.pinned + Single(pub.recycled) + pub.cache), p,
           Pub(pub.creator, [], NO_BLOCK, [], Retiring))
  }

  lemma RetireOne(s: State, a: RetireStep, p: nat)
    requires RetireEnabled(s, p, a) && !a.Retire?
    ensures Retired(ApplyRetire(s, p, a), p) == Retired(s, p)
  {
    var s' := ApplyRetire(s, p, a);
    assert Retired(s', p).pubs == Retired(s, p).pubs;
    var pub := s.pubs[p];
    if a.RetirePinned? {
      assert pub.pinned == [pub.pinned[0]] + pub.pinned[1..];
      assert s.free + pub.pinned == s.free + [pub.pinned[0]] + pub.pinned[1..];
    } else if a.RetireCached? {
      assert pub.cache == [pub.cache[0]] + pub.cache[1..];
      assert s.free + pub.cache == s.free + [pub.cache[0]] + pub.cache[1..];
    }
  }

  function Kept(pub: Pub): nat { |pub.pinned| + |pub.cache| + |Single(pub.recycled)| }

  lemma RetireNext(run: seq<State>, p: nat) returns (run': seq<State>)
    requires Run(run) && p < |End(run).pubs| && End(run).pubs[p].pc.Retiring? && Kept(End(run).pubs[p]) > 0
    ensures Run(run') && run <= run' && p < |End(run').pubs| && End(run').pubs[p].pc.Retiring?
    ensures Kept(End(run').pubs[p]) < Kept(End(run).pubs[p]) && Retired(End(run'), p) == Retired(End(run), p)
  {
    var s := End(run);
    var pub := s.pubs[p];
    var a := if pub.pinned != [] then RetirePinned
             else if pub.recycled != NO_BLOCK then RetireRecycled
             else RetireCached;
    RetireOne(s, a, p);
    run' := Extend(run, RetirePub(p, a));
  }

  lemma {:induction false} RetireRest(run: seq<State>, p: nat) returns (run': seq<State>)
    requires Run(run) && p < |End(run).pubs| && End(run).pubs[p].pc.Retiring?
    ensures Run(run') && run <= run' && End(run') == Retired(End(run), p)
    decreases Kept(End(run).pubs[p])
  {
    if Kept(End(run).pubs[p]) == 0 {
      run' := run;
      assert Retired(End(run), p).pubs == End(run).pubs;
    } else {
      run' := RetireNext(run, p);
      run' := RetireRest(run', p);
    }
  }

  lemma RetirePhase(run: seq<State>, p: nat) returns (run': seq<State>)
    requires Run(run) && p < |End(run).pubs| && End(run).pubs[p].pc.Ready?
    ensures Run(run') && run <= run' && End(run') == Retired(End(run), p)
  {
    run' := Extend(run, RetirePub(p, Retire));
    assert Retired(End(run'), p).pubs == Retired(End(run), p).pubs;
    run' := RetireRest(run', p);
  }

  // ---- facts about any run, for whole calls ----

  lemma StreamFacts(run: seq<State>, i: nat)
    requires Run(run) && i < |End(run).streams|
    ensures var s := End(run); Shape(s) && TopicOk(s, s.streams[i].topic)
  {
    EveryRunKeepsInv(run, |run| - 1);
    assert StreamOk(End(run), End(run).streams[i]);
  }

  lemma ShownFacts(run: seq<State>, k: Key)
    requires Run(run) && Shape(End(run)) && 0 < k.seqNo < SEQ_WRITING && Shown(End(run), k)
    ensures var s := End(run); var e := Slot(s.rings, s.depth, k.topic, k.seqNo);
            e.block < |s.refcount| && e.block != NO_BLOCK && e.len <= s.capacity && s.refcount[e.block] > 0
  {
    EveryRunKeepsInv(run, |run| - 1);
    ShownIsLive(End(run), k);
  }

  lemma MissStep(run: seq<State>, i: nat, q: nat, current: nat) returns (run': seq<State>)
    requires Run(run) && i < |End(run).streams| && End(run).streams[i].pc == Scanning(current, q)
    requires Shape(End(run)) && TopicOk(End(run), End(run).streams[i].topic)
    requires !Shown(End(run), Key(End(run).streams[i].topic, q))
    ensures Run(run') && run <= run' && End(run') == StreamTo(End(run), i, NextScan(current, q))
  {
    run' := Extend(run, Scan(i, Check));
  }
}
