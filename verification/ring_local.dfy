/** Invariance of the steps that leave the rings, the logs and the payload bytes alone. */
module RingLocal {
  import opened Layout
  import opened Ring
  import opened RingCounts
  import opened RingInv

  /** Everything the slots, samples and histories are judged by is unchanged. */
  predicate SameShared(s: State, s': State) {
    && s'.depth == s.depth && s'.capacity == s.capacity && s'.creatorTopic == s.creatorTopic
    && s'.rings == s.rings && s'.writeSeq == s.writeSeq && s'.bytes == s.bytes
    && s'.log == s.log && s'.skipped == s.skipped && s'.overtaken == s.overtaken
    && |s'.refcount| == |s.refcount|
  }

  lemma SharedKeeps(s: State, s': State)
    requires Shape(s) && EntriesOk(s) && LogOk(s) && OvertakenOk(s) && SameShared(s, s')
    ensures Shape(s') && EntriesOk(s') && LogOk(s') && OvertakenOk(s')
  {
    forall t, i | 0 <= t < |s'.rings| && 0 <= i < |s'.rings[t]| ensures EntryOk(s', t, i, s'.rings[t][i]) {
      assert EntryOk(s, t, i, s.rings[t][i]);
    }
    forall k | k in s'.overtaken ensures !Shown(s', k) { assert !Shown(s, k); }
  }

  lemma SharedSample(s: State, s': State, sm: Sample)
    requires SameShared(s, s') && SampleOk(s, sm)
    ensures SampleOk(s', sm)
  {
  }

  lemma SharedPub(s: State, s': State, pub: Pub)
    requires Shape(s) && SameShared(s, s') && Shape(s') && PubOk(s, pub)
    ensures PubOk(s', pub)
  {
    assert PoolOk(s', pub);
  }

  lemma SharedStream(s: State, s': State, st: Stream)
    requires Shape(s) && SameShared(s, s') && Shape(s') && StreamOk(s, st)
    ensures StreamOk(s', st)
  {
  }

  // ---- one publisher moves ----

  /** The claim in flight, if any, stays the same claim and is not further along at the slot. */
  predicate SameJob(a: Pub, b: Pub) {
    && b.creator == a.creator && HasJob(b.pc) == HasJob(a.pc)
    && (HasJob(a.pc) ==> b.pc.job == a.pc.job)
    && (Writing(b.pc) ==> Writing(a.pc))
  }

  lemma SameJobApart(s: State, s': State, p: nat)
    requires Shape(s) && PubsApart(s) && p < |s.pubs| && s'.depth == s.depth && |s'.pubs| == |s.pubs|
    requires s'.pubs == s.pubs[p := s'.pubs[p]] && SameJob(s.pubs[p], s'.pubs[p])
    ensures PubsApart(s')
  {
    forall a, b | 0 <= a < |s'.pubs| && 0 <= b < |s'.pubs| && a != b
      ensures Apart(s', s'.pubs[a], s'.pubs[b])
    {
      assert Apart(s, s.pubs[a], s.pubs[b]);
    }
  }

  lemma SameJobWindow(s: State, s': State, p: nat)
    requires Shape(s) && WindowOk(s) && p < |s.pubs| && SameShared(s, s') && Shape(s') && |s'.pubs| == |s.pubs|
    requires s'.pubs == s.pubs[p := s'.pubs[p]] && SameJob(s.pubs[p], s'.pubs[p])
    ensures WindowOk(s')
  {
    forall k | InWindow(s', k)
      ensures Shown(s', k) || InFlight(s', k) || k in s'.skipped || k in s'.overtaken
    {
      assert InWindow(s, k);
      if InFlight(s, k) {
        var q :| 0 <= q < |s.pubs| && HasJob(s.pubs[q].pc) && Key(s.pubs[q].pc.job.topic, s.pubs[q].pc.job.seqNo) == k;
        assert HasJob(s'.pubs[q].pc) && Key(s'.pubs[q].pc.job.topic, s'.pubs[q].pc.job.seqNo) == k;
      }
    }
  }

  lemma PubStep(s: State, s': State, p: nat)
    requires Inv(s) && SameShared(s, s') && p < |s.pubs| && |s'.pubs| == |s.pubs|
    requires s'.pubs == s.pubs[p := s'.pubs[p]] && s'.streams == s.streams && s'.samples == s.samples
    requires SameJob(s.pubs[p], s'.pubs[p])
    requires PubOk(s, s'.pubs[p])
    requires AllBlocks(s, s'.free)
    requires CountsOk(s')
    ensures Inv(s')
  {
    SharedKeeps(s, s');
    forall k | 0 <= k < |s'.samples| ensures SampleOk(s', s'.samples[k]) { SharedSample(s, s', s.samples[k]); }
    forall q | 0 <= q < |s'.pubs| ensures PubOk(s', s'.pubs[q]) {
      assert PubOk(s, s.pubs[q]);
      SharedPub(s, s', s'.pubs[q]);
    }
    SameJobApart(s, s', p);
    SameJobWindow(s, s', p);
    forall i | 0 <= i < |s'.streams| ensures StreamOk(s', s'.streams[i]) {
      assert StreamOk(s, s.streams[i]);
      SharedStream(s, s', s.streams[i]);
    }
  }

  lemma AllocKeeps(s: State, p: nat, a: AllocStep)
    requires Inv(s) && AllocEnabled(s, p, a)
    ensures Inv(ApplyAlloc(s, p, a))
  {
    var s' := ApplyAlloc(s, p, a);
    assert PubOk(s, s.pubs[p]);
    AllocCounts(s, p, a);
    PubStep(s, s', p);
  }

  lemma LoanKeeps(s: State, p: nat, a: LoanStep)
    requires Inv(s) && LoanEnabled(s, p, a) && !a.Write?
    ensures Inv(ApplyLoan(s, p, a))
  {
    assert PubOk(s, s.pubs[p]);
    LoanCounts(s, p, a);
    PubStep(s, ApplyLoan(s, p, a), p);
  }

  lemma ReleaseKeeps(s: State, p: nat, a: ReleaseStep)
    requires Inv(s) && ReleaseEnabled(s, p, a)
    ensures Inv(ApplyRelease(s, p, a))
  {
    assert PubOk(s, s.pubs[p]);
    ReleaseCounts(s, p, a);
    PubStep(s, ApplyRelease(s, p, a), p);
  }

  lemma RetireKeeps(s: State, p: nat, a: RetireStep)
    requires Inv(s) && RetireEnabled(s, p, a)
    ensures Inv(ApplyRetire(s, p, a))
  {
    var pub := s.pubs[p];
    assert PubOk(s, pub);
    RetireCounts(s, p, a);
    PubStep(s, ApplyRetire(s, p, a), p);
  }

  lemma SetCountKeeps(s: State, p: nat)
    requires Inv(s) && FillEnabled(s, p, SetCount)
    ensures Inv(ApplyFill(s, p, SetCount))
  {
    assert PubOk(s, s.pubs[p]);
    SetCountCounts(s, p);
    PubStep(s, ApplyFill(s, p, SetCount), p);
  }

  lemma ReadOldKeeps(s: State, p: nat)
    requires Inv(s) && FillEnabled(s, p, ReadOld)
    ensures Inv(ApplyFill(s, p, ReadOld))
  {
    var job := s.pubs[p].pc.job;
    assert PubOk(s, s.pubs[p]);
    assert EntryOk(s, job.topic, job.seqNo % s.depth, s.rings[job.topic][job.seqNo % s.depth]);
    FillCounts(s, p, ReadOld);
    PubStep(s, ApplyFill(s, p, ReadOld), p);
  }

  // ---- one stream moves ----

  lemma StreamStep(s: State, s': State, i: nat)
    requires Inv(s) && SameShared(s, s') && i < |s.streams| && |s'.streams| == |s.streams|
    requires s'.streams == s.streams[i := s'.streams[i]] && s'.pubs == s.pubs
    requires SamplesOk(s') && StreamOk(s, s'.streams[i]) && AllBlocks(s, s'.free) && CountsOk(s')
    ensures Inv(s')
  {
    SharedKeeps(s, s');
    SameWindow(s, s');
    forall p | 0 <= p < |s'.pubs| ensures PubOk(s', s'.pubs[p]) {
      assert PubOk(s, s.pubs[p]);
      SharedPub(s, s', s.pubs[p]);
    }
    forall j | 0 <= j < |s'.streams| ensures StreamOk(s', s'.streams[j]) {
      assert StreamOk(s, s.streams[j]);
      SharedStream(s, s', s'.streams[j]);
    }
  }

  lemma SameWindow(s: State, s': State)
    requires Shape(s) && Shape(s') && WindowOk(s) && PubsApart(s) && SameShared(s, s') && s'.pubs == s.pubs
    ensures WindowOk(s') && PubsApart(s')
  {
    forall k | InWindow(s', k)
      ensures Shown(s', k) || InFlight(s', k) || k in s'.skipped || k in s'.overtaken
    {
      assert InWindow(s, k);
      assert InFlight(s, k) == InFlight(s', k);
    }
    forall a, b | 0 <= a < |s'.pubs| && 0 <= b < |s'.pubs| && a != b
      ensures Apart(s', s'.pubs[a], s'.pubs[b])
    {
      assert Apart(s, s.pubs[a], s.pubs[b]);
    }
  }

  lemma SharedSamples(s: State, s': State)
    requires SameShared(s, s') && SamplesOk(s) && s'.samples == s.samples
    ensures SamplesOk(s')
  {
    forall k | 0 <= k < |s'.samples| ensures SampleOk(s', s'.samples[k]) { SharedSample(s, s', s.samples[k]); }
  }

  lemma NextScanOk(s: State, st: Stream)
    requires Shape(s) && StreamOk(s, st) && !st.pc.Waiting?
    ensures StreamOk(s, st.(pc := NextScan(st.pc.current, st.pc.seqNo)))
  {
  }

  lemma ScanStreamOk(s: State, i: nat, a: ScanStep)
    requires Inv(s) && ScanEnabled(s, i, a)
    ensures StreamOk(s, ApplyScan(s, i, a).streams[i])
  {
    var st := s.streams[i];
    assert StreamOk(s, st);
    if !st.pc.Waiting? {
      NextScanOk(s, st);
      var q := st.pc.seqNo;
      assert EntryOk(s, st.topic, q % s.depth, s.rings[st.topic][q % s.depth]);
    }
  }

  lemma ScanKeeps(s: State, i: nat, a: ScanStep)
    requires Inv(s) && ScanEnabled(s, i, a)
    ensures Inv(ApplyScan(s, i, a))
  {
    var s' := ApplyScan(s, i, a);
    ScanStreamOk(s, i, a);
    ScanCounts(s, i, a);
    SharedSamples(s, s');
    StreamStep(s, s', i);
  }

  lemma TakePinnedKeeps(s: State, i: nat, q: nat)
    requires Inv(s) && PinnedEnabled(s, i, q)
    ensures Inv(Apply(s, TakePinned(i, q)))
  {
    var s' := Apply(s, TakePinned(i, q));
    assert StreamOk(s, s.streams[i]);
    assert KeyOk(s, Key(s.streams[i].topic, q));
    forall b | 0 <= b < |s.refcount| ensures CountOk(s', b) {
      assert CountOk(s, b);
      StreamDelta(s, i, s'.streams[i], b);
    }
    SharedSamples(s, s');
    StreamStep(s, s', i);
  }

  lemma AcquireKeeps(s: State, i: nat)
    requires Inv(s) && RefEnabled(s, i, Acquire)
    ensures Inv(ApplyRef(s, i, Acquire))
  {
    var s' := ApplyRef(s, i, Acquire);
    assert StreamOk(s, s.streams[i]);
    AcquireCounts(s, i);
    SharedSamples(s, s');
    StreamStep(s, s', i);
  }

  lemma AcquireRetryKeeps(s: State, i: nat)
    requires Inv(s) && RefEnabled(s, i, AcquireRetry)
    ensures Inv(ApplyRef(s, i, AcquireRetry))
  {
    var s' := ApplyRef(s, i, AcquireRetry);
    assert StreamOk(s, s.streams[i]);
    StreamNeutral(s, i, s'.streams[i].pc);
    SharedSamples(s, s');
    StreamStep(s, s', i);
  }

  /** The heart of the reader: a passed second check means the slot never changed, so the
      sample carries exactly what was committed under its sequence. */
  lemma RecheckSample(s: State, i: nat)
    requires Inv(s) && RefEnabled(s, i, Recheck)
    ensures var st := s.streams[i];
            Slot(s.rings, s.depth, st.topic, st.pc.seqNo).seqNo == st.pc.seqNo
            ==> SampleOk(s, Sample(st.topic, st.pc.seqNo, st.pc.block, st.pc.len, Held))
  {
    var st := s.streams[i];
    assert StreamOk(s, st);
    assert KeyOk(s, Key(st.topic, st.pc.seqNo));
    assert EntryOk(s, st.topic, st.pc.seqNo % s.depth, s.rings[st.topic][st.pc.seqNo % s.depth]);
  }

  lemma RecheckKeeps(s: State, i: nat)
    requires Inv(s) && RefEnabled(s, i, Recheck)
    ensures Inv(ApplyRef(s, i, Recheck))
  {
    var s' := ApplyRef(s, i, Recheck);
    RecheckSample(s, i);
    RecheckCounts(s, i);
    forall k | 0 <= k < |s'.samples| ensures SampleOk(s', s'.samples[k]) {
      if k < |s.samples| { assert SampleOk(s, s.samples[k]); }
      SharedSample(s, s', s'.samples[k]);
    }
    RecheckStream(s, i);
    StreamStep(s, s', i);
  }

  lemma RecheckStream(s: State, i: nat)
    requires Inv(s) && RefEnabled(s, i, Recheck)
    ensures StreamOk(s, ApplyRef(s, i, Recheck).streams[i])
  {
    assert StreamOk(s, s.streams[i]);
  }

  lemma UnacquireKeeps(s: State, i: nat)
    requires Inv(s) && RefEnabled(s, i, Unacquire)
    ensures Inv(ApplyRef(s, i, Unacquire))
  {
    var s' := ApplyRef(s, i, Unacquire);
    assert StreamOk(s, s.streams[i]);
    NextScanOk(s, s.streams[i]);
    UnacquireCounts(s, i);
    SharedSamples(s, s');
    StreamStep(s, s', i);
  }

  lemma UndoPushKeeps(s: State, i: nat)
    requires Inv(s) && RefEnabled(s, i, UndoPush)
    ensures Inv(ApplyRef(s, i, UndoPush))
  {
    var s' := ApplyRef(s, i, UndoPush);
    assert StreamOk(s, s.streams[i]);
    NextScanOk(s, s.streams[i]);
    UndoPushCounts(s, i);
    SharedSamples(s, s');
    StreamStep(s, s', i);
  }

  lemma RefKeeps(s: State, i: nat, a: RefStep)
    requires Inv(s) && RefEnabled(s, i, a)
    ensures Inv(ApplyRef(s, i, a))
  {
    match a
    case Acquire => AcquireKeeps(s, i);
    case AcquireRetry => AcquireRetryKeeps(s, i);
    case Recheck => RecheckKeeps(s, i);
    case Unacquire => UnacquireKeeps(s, i);
    case UndoPush => UndoPushKeeps(s, i);
  }

  // ---- samples end, parties join ----

  lemma SampleKeeps(s: State, k: nat, a: SampleStep)
    requires Inv(s) && SampleEnabled(s, k, a)
    ensures Inv(ApplySample(s, k, a))
  {
    var s' := ApplySample(s, k, a);
    SampleStepCounts(s, k, a);
    assert SampleOk(s, s.samples[k]);
    forall j | 0 <= j < |s'.samples| ensures SampleOk(s', s'.samples[j]) {
      assert SampleOk(s, s.samples[j]);
      SharedSample(s, s', s.samples[j]);
    }
    OthersStay(s, s');
  }

  lemma OthersStay(s: State, s': State)
    requires Inv(s) && SameShared(s, s') && s'.pubs == s.pubs && s'.streams == s.streams
    requires SamplesOk(s') && AllBlocks(s, s'.free) && CountsOk(s')
    ensures Inv(s')
  {
    SharedKeeps(s, s');
    SameWindow(s, s');
    forall p | 0 <= p < |s'.pubs| ensures PubOk(s', s'.pubs[p]) {
      assert PubOk(s, s.pubs[p]);
      SharedPub(s, s', s.pubs[p]);
    }
    forall j | 0 <= j < |s'.streams| ensures StreamOk(s', s'.streams[j]) {
      assert StreamOk(s, s.streams[j]);
      SharedStream(s, s', s'.streams[j]);
    }
  }

  lemma SubscribeKeeps(s: State, t: nat)
    requires Inv(s) && TopicOk(s, t)
    ensures Inv(Apply(s, Subscribe(t)))
  {
    var s' := Apply(s, Subscribe(t));
    SubscribeCounts(s, t);
    SharedKeeps(s, s');
    SharedSamples(s, s');
    SameWindow(s, s');
    forall p | 0 <= p < |s'.pubs| ensures PubOk(s', s'.pubs[p]) {
      assert PubOk(s, s.pubs[p]);
      SharedPub(s, s', s.pubs[p]);
    }
    forall j | 0 <= j < |s'.streams| ensures StreamOk(s', s'.streams[j]) {
      if j < |s.streams| {
        assert StreamOk(s, s.streams[j]);
        SharedStream(s, s', s.streams[j]);
      }
    }
  }

  lemma OpenKeeps(s: State)
    requires Inv(s)
    ensures Inv(Apply(s, Open))
  {
    var s' := Apply(s, Open);
    OpenCounts(s);
    SharedKeeps(s, s');
    SharedSamples(s, s');
    OpenPubs(s);
    forall j | 0 <= j < |s'.streams| ensures StreamOk(s', s'.streams[j]) {
      assert StreamOk(s, s.streams[j]);
      SharedStream(s, s', s.streams[j]);
    }
    forall k | InWindow(s', k)
      ensures Shown(s', k) || InFlight(s', k) || k in s'.skipped || k in s'.overtaken
    {
      assert InWindow(s, k);
      if InFlight(s, k) {
        var q :| 0 <= q < |s.pubs| && HasJob(s.pubs[q].pc) && Key(s.pubs[q].pc.job.topic, s.pubs[q].pc.job.seqNo) == k;
        assert s'.pubs[q] == s.pubs[q];
      }
    }
  }

  lemma OpenPubs(s: State)
    requires Inv(s)
    ensures PubsOk(Apply(s, Open)) && PubsApart(Apply(s, Open))
  {
    var s' := Apply(s, Open);
    assert SameShared(s, s');
    forall p | 0 <= p < |s'.pubs| ensures PubOk(s', s'.pubs[p]) {
      if p < |s.pubs| {
        assert PubOk(s, s.pubs[p]);
        SharedPub(s, s', s.pubs[p]);
      }
    }
    forall a, b | 0 <= a < |s'.pubs| && 0 <= b < |s'.pubs| && a != b
      ensures Apart(s', s'.pubs[a], s'.pubs[b])
    {
      if a < |s.pubs| && b < |s.pubs| { assert Apart(s, s.pubs[a], s.pubs[b]); }
    }
  }
}
