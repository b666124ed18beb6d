/** Invariance of the steps that change payload bytes, sequence counters, ring slots or the log. */
module RingCommit {
  import opened Words
  import opened Layout
  import opened Ring
  import opened RingCounts
  import opened RingInv
  import opened RingLocal

  // ---- writing into a loaned block ----

  /** A block in a publisher's hands is named by no slot and held by no sample. */
  lemma LoanIsPrivate(s: State, p: nat)
    requires Inv(s) && p < |s.pubs| && LoanBlock(s.pubs[p].pc) < |s.refcount|
    ensures Refs(s, LoanBlock(s.pubs[p].pc)) == 0
  {
    var b := LoanBlock(s.pubs[p].pc);
    assert CountOk(s, b);
    PubCounts(s, p, b);
  }

  lemma NamedCounts(s: State, t: nat, i: nat)
    requires Shape(s) && t < |s.rings| && i < s.depth
    ensures Refs(s, s.rings[t][i].block) >= 1
  {
    assert i % s.depth == i;
    SlotCounts(s, t, i, s.rings[t][i].block);
  }

  lemma LoanUnnamed(s: State, p: nat, t: nat, i: nat)
    requires Inv(s) && p < |s.pubs| && s.pubs[p].pc.Loaned? && t < |s.rings| && i < |s.rings[t]|
    ensures s.rings[t][i].block != s.pubs[p].pc.block
  {
    assert PubOk(s, s.pubs[p]);
    LoanIsPrivate(s, p);
    if s.rings[t][i].block == s.pubs[p].pc.block {
      NamedCounts(s, t, i);
    }
  }

  lemma WriteEntry(s: State, p: nat, data: Bytes, t: nat, i: nat)
    requires Inv(s) && LoanEnabled(s, p, Write(data)) && t < |s.rings| && i < |s.rings[t]|
    ensures EntryOk(ApplyLoan(s, p, Write(data)), t, i, s.rings[t][i])
  {
    LoanUnnamed(s, p, t, i);
    assert EntryOk(s, t, i, s.rings[t][i]);
  }

  lemma WriteSample(s: State, p: nat, data: Bytes, k: nat)
    requires Inv(s) && LoanEnabled(s, p, Write(data)) && k < |s.samples|
    ensures SampleOk(ApplyLoan(s, p, Write(data)), s.samples[k])
  {
    assert PubOk(s, s.pubs[p]);
    LoanIsPrivate(s, p);
    assert SampleOk(s, s.samples[k]);
    SampleCounts(s, k, s.pubs[p].pc.block);
  }

  lemma WriteKeeps(s: State, p: nat, data: Bytes)
    requires Inv(s) && LoanEnabled(s, p, Write(data))
    ensures Inv(ApplyLoan(s, p, Write(data)))
  {
    var s' := ApplyLoan(s, p, Write(data));
    LoanCounts(s, p, Write(data));
    forall t, i | 0 <= t < |s'.rings| && 0 <= i < |s'.rings[t]| ensures EntryOk(s', t, i, s'.rings[t][i]) {
      WriteEntry(s, p, data, t, i);
    }
    forall k | 0 <= k < |s'.samples| ensures SampleOk(s', s'.samples[k]) { WriteSample(s, p, data, k); }
    WriteOthers(s, p, data);
  }

  lemma WriteOthers(s: State, p: nat, data: Bytes)
    requires Inv(s) && LoanEnabled(s, p, Write(data))
    ensures var s' := ApplyLoan(s, p, Write(data));
            Shape(s') && LogOk(s') && OvertakenOk(s') && WindowOk(s') && PubsApart(s') && PubsOk(s') && StreamsOk(s')
  {
    var s' := ApplyLoan(s, p, Write(data));
    forall k | k in s'.overtaken ensures !Shown(s', k) { assert !Shown(s, k); }
    forall k | InWindow(s', k)
      ensures Shown(s', k) || InFlight(s', k) || k in s'.skipped || k in s'.overtaken
    {
      assert InWindow(s, k);
      assert InFlight(s, k) == InFlight(s', k);
    }
    forall a, b | 0 <= a < |s'.pubs| && 0 <= b < |s'.pubs| && a != b ensures Apart(s', s'.pubs[a], s'.pubs[b]) {
      assert Apart(s, s.pubs[a], s.pubs[b]);
    }
    forall q | 0 <= q < |s'.pubs| ensures PubOk(s', s'.pubs[q]) { assert PubOk(s, s.pubs[q]); }
    forall i | 0 <= i < |s'.streams| ensures StreamOk(s', s'.streams[i]) { assert StreamOk(s, s.streams[i]); }
  }

  // ---- claiming a sequence ----

  lemma ClaimBasic(s: State, p: nat, t: nat, a: ClaimStep)
    requires Inv(s) && ClaimEnabled(s, p, t, a)
    ensures Basic(ApplyClaim(s, p, t, a)) && OvertakenOk(ApplyClaim(s, p, t, a))
  {
    var s' := ApplyClaim(s, p, t, a);
    forall u, i | 0 <= u < |s'.rings| && 0 <= i < |s'.rings[u]| ensures EntryOk(s', u, i, s'.rings[u][i]) {
      assert EntryOk(s, u, i, s.rings[u][i]);
    }
    forall k | 0 <= k < |s'.samples| ensures SampleOk(s', s'.samples[k]) { assert SampleOk(s, s.samples[k]); }
    forall k | k in s'.overtaken ensures !Shown(s', k) { assert !Shown(s, k); }
    forall k | k in s'.log ensures KeyOk(s', k) && k !in s'.skipped { assert KeyOk(s, k); }
  }

  lemma ClaimOtherPub(s: State, p: nat, t: nat, a: ClaimStep, q: nat)
    requires Inv(s) && ClaimEnabled(s, p, t, a) && q < |s.pubs| && q != p
    requires Shape(ApplyClaim(s, p, t, a))
    ensures PubOk(ApplyClaim(s, p, t, a), s.pubs[q])
    ensures Apart(ApplyClaim(s, p, t, a), ApplyClaim(s, p, t, a).pubs[p], s.pubs[q])
    ensures Apart(ApplyClaim(s, p, t, a), s.pubs[q], ApplyClaim(s, p, t, a).pubs[p])
  {
    assert PubOk(s, s.pubs[q]);
    assert Apart(s, s.pubs[p], s.pubs[q]);
  }

  lemma ClaimOwnPub(s: State, p: nat, t: nat, a: ClaimStep)
    requires Inv(s) && ClaimEnabled(s, p, t, a) && Shape(ApplyClaim(s, p, t, a))
    ensures PubOk(ApplyClaim(s, p, t, a), ApplyClaim(s, p, t, a).pubs[p])
  {
    assert PubOk(s, s.pubs[p]);
    assert Key(t, s.writeSeq[t] + 1) !in s.log && Key(t, s.writeSeq[t] + 1) !in s.skipped;
  }

  lemma ClaimPubs(s: State, p: nat, t: nat, a: ClaimStep)
    requires Inv(s) && ClaimEnabled(s, p, t, a) && Shape(ApplyClaim(s, p, t, a))
    ensures PubsOk(ApplyClaim(s, p, t, a)) && PubsApart(ApplyClaim(s, p, t, a))
  {
    var s' := ApplyClaim(s, p, t, a);
    forall q | 0 <= q < |s'.pubs| ensures PubOk(s', s'.pubs[q]) {
      if q == p { ClaimOwnPub(s, p, t, a); } else { ClaimOtherPub(s, p, t, a, q); }
    }
    forall x, y | 0 <= x < |s'.pubs| && 0 <= y < |s'.pubs| && x != y ensures Apart(s', s'.pubs[x], s'.pubs[y]) {
      if x == p {
        ClaimOtherPub(s, p, t, a, y);
      } else if y == p {
        ClaimOtherPub(s, p, t, a, x);
      } else {
        assert Apart(s, s.pubs[x], s.pubs[y]);
      }
    }
  }

  lemma ClaimWindow(s: State, p: nat, t: nat, a: ClaimStep)
    requires Inv(s) && ClaimEnabled(s, p, t, a) && Shape(ApplyClaim(s, p, t, a))
    ensures WindowOk(ApplyClaim(s, p, t, a))
  {
    var s' := ApplyClaim(s, p, t, a);
    forall k | InWindow(s', k)
      ensures Shown(s', k) || InFlight(s', k) || k in s'.skipped || k in s'.overtaken
    {
      if k == Key(t, s.writeSeq[t] + 1) {
        if a.Claim? { assert HasJob(s'.pubs[p].pc); }
      } else {
        assert InWindow(s, k);
        if InFlight(s, k) {
          var q :| 0 <= q < |s.pubs| && HasJob(s.pubs[q].pc)
                   && Key(s.pubs[q].pc.job.topic, s.pubs[q].pc.job.seqNo) == k;
          assert s'.pubs[q] == s.pubs[q];
        }
      }
    }
  }

  lemma ClaimKeeps(s: State, p: nat, t: nat, a: ClaimStep)
    requires Inv(s) && ClaimEnabled(s, p, t, a)
    ensures Inv(ApplyClaim(s, p, t, a))
  {
    var s' := ApplyClaim(s, p, t, a);
    ClaimBasic(s, p, t, a);
    ClaimPubs(s, p, t, a);
    ClaimWindow(s, p, t, a);
    ClaimCounts(s, p, t, a);
    forall i | 0 <= i < |s'.streams| ensures StreamOk(s', s'.streams[i]) { assert StreamOk(s, s.streams[i]); }
  }

  // ---- rewriting one slot ----

  /** `s'` is `s` with the slot of (t, q) set to `e`, publisher `p` moved on within the same
      claim or past it, and possibly one more message in the log. */
  predicate SlotStep(s: State, s': State, p: nat, t: nat, q: nat, e: Entry) {
    && TopicOk(s, t) && p < |s.pubs| == |s'.pubs|
    && s'.depth == s.depth && s'.capacity == s.capacity && s'.creatorTopic == s.creatorTopic
    && s'.rings == PutSlot(s.rings, s.depth, t, q, e)
    && s'.writeSeq == s.writeSeq && s'.refcount == s.refcount && s'.bytes == s.bytes && s'.free == s.free
    && s'.streams == s.streams && s'.samples == s.samples && s'.skipped == s.skipped
    && s'.pubs == s.pubs[p := s'.pubs[p]] && s'.pubs[p].creator == s.pubs[p].creator
    && (s'.log == s.log || (e.seqNo < SEQ_WRITING && s'.log.Keys == s.log.Keys + {Key(t, e.seqNo)}
                            && (forall k :: k in s.log ==> s'.log[k] == s.log[k])))
    && Key(t, e.seqNo) !in s.log
    && (e.seqNo == SEQ_WRITING ==> s'.log == s.log)
  }

  lemma SlotShape(s: State, s': State, p: nat, t: nat, q: nat, e: Entry)
    requires Shape(s) && SlotStep(s, s', p, t, q, e)
    ensures Shape(s')
    ensures forall u, i :: 0 <= u < |s'.rings| && 0 <= i < s.depth ==>
              s'.rings[u][i] == if u == t && i == q % s.depth then e else s.rings[u][i]
  {
  }

  lemma SlotCarries(s: State, s': State, p: nat, t: nat, q: nat, e: Entry, k: Key, block: nat, len: nat)
    requires SlotStep(s, s', p, t, q, e) && Carries(s, k, block, len)
    ensures Carries(s', k, block, len)
  {
  }

  lemma SlotEntries(s: State, s': State, p: nat, t: nat, q: nat, e: Entry)
    requires Shape(s) && EntriesOk(s) && SlotStep(s, s', p, t, q, e) && EntryOk(s', t, q % s.depth, e)
    ensures Shape(s') && EntriesOk(s')
  {
    SlotShape(s, s', p, t, q, e);
    forall u, i | 0 <= u < |s'.rings| && 0 <= i < |s'.rings[u]| ensures EntryOk(s', u, i, s'.rings[u][i]) {
      var f := s.rings[u][i];
      assert EntryOk(s, u, i, f);
      if 0 < f.seqNo < SEQ_WRITING {
        SlotCarries(s, s', p, t, q, e, Key(u, f.seqNo), f.block, f.len);
      }
    }
  }

  lemma SlotSamples(s: State, s': State, p: nat, t: nat, q: nat, e: Entry)
    requires SamplesOk(s) && SlotStep(s, s', p, t, q, e)
    ensures SamplesOk(s')
  {
    forall k | 0 <= k < |s'.samples| ensures SampleOk(s', s'.samples[k]) {
      var sm := s.samples[k];
      assert SampleOk(s, sm);
      if sm.status.Held? {
        SlotCarries(s, s', p, t, q, e, Key(sm.topic, sm.seqNo), sm.block, sm.len);
      }
    }
  }

  /** No stream is misled: a slot that changed no longer shows the sequence being read. */
  lemma SlotStream(s: State, s': State, p: nat, t: nat, q: nat, e: Entry, st: Stream)
    requires Shape(s) && LogOk(s) && SlotStep(s, s', p, t, q, e) && Shape(s') && StreamOk(s, st)
    requires e.seqNo <= SEQ_WRITING
    ensures StreamOk(s', st)
  {
    SlotShape(s, s', p, t, q, e);
    if !st.pc.Waiting? && !st.pc.Scanning? {
      assert Key(st.topic, st.pc.seqNo) in s.log;
      assert KeyOk(s, Key(st.topic, st.pc.seqNo));
      SlotSeen(s, s', p, t, q, e, st);
    }
  }

  lemma SlotSeen(s: State, s': State, p: nat, t: nat, q: nat, e: Entry, st: Stream)
    requires Shape(s) && SlotStep(s, s', p, t, q, e) && Shape(s') && st.topic < |s.rings| && !st.pc.Waiting?
    requires SeenOk(s, st) && Key(st.topic, st.pc.seqNo) in s.log
    ensures SeenOk(s', st)
  {
    assert s'.rings[st.topic][st.pc.seqNo % s.depth]
        == if st.topic == t && st.pc.seqNo % s.depth == q % s.depth then e
           else s.rings[st.topic][st.pc.seqNo % s.depth];
  }

  lemma SlotOtherPub(s: State, s': State, p: nat, t: nat, q: nat, e: Entry, r: nat)
    requires Inv(s) && SlotStep(s, s', p, t, q, e) && Shape(s') && r < |s.pubs| && r != p
    requires HasJob(s.pubs[p].pc) && s.pubs[p].pc.job.topic == t && s.pubs[p].pc.job.seqNo == q
    requires e.seqNo == SEQ_WRITING || e.seqNo == q
    requires SlotFree(s, p, t, q)
    ensures PubOk(s', s.pubs[r])
  {
    assert PubOk(s, s.pubs[r]);
    assert Apart(s, s.pubs[p], s.pubs[r]);
    SlotShape(s, s', p, t, q, e);
    if Writing(s.pubs[r].pc) {
      var job := s.pubs[r].pc.job;
      assert s'.rings[job.topic][job.seqNo % s.depth] == s.rings[job.topic][job.seqNo % s.depth];
    }
  }

  /** No other publisher is writing the slot of (t, q). */
  predicate SlotFree(s: State, p: nat, t: nat, q: nat)
    requires 0 < s.depth
  {
    forall r :: 0 <= r < |s.pubs| && r != p && Writing(s.pubs[r].pc) && s.pubs[r].pc.job.topic == t ==>
      s.pubs[r].pc.job.seqNo % s.depth != q % s.depth
  }

  lemma WriterOwnsSlot(s: State, p: nat)
    requires Inv(s) && p < |s.pubs| && Writing(s.pubs[p].pc)
    ensures SlotFree(s, p, s.pubs[p].pc.job.topic, s.pubs[p].pc.job.seqNo)
  {
    forall r | 0 <= r < |s.pubs| && r != p && Writing(s.pubs[r].pc) && s.pubs[r].pc.job.topic == s.pubs[p].pc.job.topic
      ensures s.pubs[r].pc.job.seqNo % s.depth != s.pubs[p].pc.job.seqNo % s.depth
    {
      assert Apart(s, s.pubs[p], s.pubs[r]);
    }
  }

  lemma SlotBasics(s: State, s': State, p: nat, t: nat, q: nat, e: Entry)
    requires Inv(s) && SlotStep(s, s', p, t, q, e) && EntryOk(s', t, q % s.depth, e) && LogOk(s')
    requires HasJob(s.pubs[p].pc) && s.pubs[p].pc.job.topic == t && s.pubs[p].pc.job.seqNo == q
    requires e.seqNo == SEQ_WRITING || e.seqNo == q
    requires SlotFree(s, p, t, q) && Shape(s') && PubOk(s', s'.pubs[p])
    ensures Basic(s') && PubsOk(s') && StreamsOk(s')
  {
    SlotEntries(s, s', p, t, q, e);
    SlotSamples(s, s', p, t, q, e);
    forall r | 0 <= r < |s'.pubs| ensures PubOk(s', s'.pubs[r]) {
      if r != p { SlotOtherPub(s, s', p, t, q, e, r); }
    }
    forall i | 0 <= i < |s'.streams| ensures StreamOk(s', s'.streams[i]) {
      assert StreamOk(s, s.streams[i]);
      SlotStream(s, s', p, t, q, e, s.streams[i]);
    }
  }

  lemma SlotApart(s: State, s': State, p: nat, t: nat, q: nat)
    requires Inv(s) && p < |s.pubs| == |s'.pubs| && s'.depth == s.depth && s'.pubs == s.pubs[p := s'.pubs[p]]
    requires s'.pubs[p].creator == s.pubs[p].creator
    requires HasJob(s'.pubs[p].pc) ==> HasJob(s.pubs[p].pc) && s'.pubs[p].pc.job == s.pubs[p].pc.job
    requires Writing(s'.pubs[p].pc) ==> SlotFree(s, p, s'.pubs[p].pc.job.topic, s'.pubs[p].pc.job.seqNo)
    ensures PubsApart(s')
  {
    forall a, b | 0 <= a < |s'.pubs| && 0 <= b < |s'.pubs| && a != b ensures Apart(s', s'.pubs[a], s'.pubs[b]) {
      assert Apart(s, s.pubs[a], s.pubs[b]);
    }
  }

  // ---- marking ----

  lemma MarkStepFacts(s: State, p: nat)
    requires Inv(s) && p < |s.pubs| && (s.pubs[p].pc.Claimed? || s.pubs[p].pc.Observed?)
    requires SlotFree(s, p, s.pubs[p].pc.job.topic, s.pubs[p].pc.job.seqNo)
    ensures var job := s.pubs[p].pc.job;
            TopicOk(s, job.topic) &&
            var e := Slot(s.rings, s.depth, job.topic, job.seqNo).(seqNo := SEQ_WRITING);
            var s' := MarkSlot(s, p, job);
            SlotStep(s, s', p, job.topic, job.seqNo, e) && Shape(s') && EntryOk(s', job.topic, job.seqNo % s.depth, e)
            && LogOk(s') && PubOk(s', s'.pubs[p])
  {
    var job := s.pubs[p].pc.job;
    assert PubOk(s, s.pubs[p]);
    var s' := MarkSlot(s, p, job);
    var e := Slot(s.rings, s.depth, job.topic, job.seqNo).(seqNo := SEQ_WRITING);
    assert EntryOk(s, job.topic, job.seqNo % s.depth, s.rings[job.topic][job.seqNo % s.depth]);
    assert Key(job.topic, SEQ_WRITING) !in s.log;
    assert SlotStep(s, s', p, job.topic, job.seqNo, e);
    SlotShape(s, s', p, job.topic, job.seqNo, e);
  }

  lemma MarkOvertaken(s: State, p: nat)
    requires Inv(s) && p < |s.pubs| && (s.pubs[p].pc.Claimed? || s.pubs[p].pc.Observed?)
    requires TopicOk(s, s.pubs[p].pc.job.topic) && Shape(MarkSlot(s, p, s.pubs[p].pc.job))
    ensures OvertakenOk(MarkSlot(s, p, s.pubs[p].pc.job))
  {
    var job := s.pubs[p].pc.job;
    var s' := MarkSlot(s, p, job);
    var entry := s.rings[job.topic][job.seqNo % s.depth];
    assert PubOk(s, s.pubs[p]);
    assert EntryOk(s, job.topic, job.seqNo % s.depth, entry);
    forall k | k in s'.overtaken
      ensures k in s'.log && k.topic < |s'.creatorTopic| && !s'.creatorTopic[k.topic] && !Shown(s', k)
    {
      assert k in s.overtaken || k == Key(job.topic, entry.seqNo);
      assert KeyOk(s, k);
      if k in s.overtaken { assert !Shown(s, k); }
    }
  }

  lemma MarkWindow(s: State, p: nat)
    requires Inv(s) && p < |s.pubs| && (s.pubs[p].pc.Claimed? || s.pubs[p].pc.Observed?)
    requires TopicOk(s, s.pubs[p].pc.job.topic) && Shape(MarkSlot(s, p, s.pubs[p].pc.job))
    ensures WindowOk(MarkSlot(s, p, s.pubs[p].pc.job))
  {
    var job := s.pubs[p].pc.job;
    var s' := MarkSlot(s, p, job);
    forall k | InWindow(s', k)
      ensures Shown(s', k) || InFlight(s', k) || k in s'.skipped || k in s'.overtaken
    {
      assert InWindow(s, k);
      if InFlight(s, k) {
        var q :| 0 <= q < |s.pubs| && HasJob(s.pubs[q].pc) && Key(s.pubs[q].pc.job.topic, s.pubs[q].pc.job.seqNo) == k;
        assert HasJob(s'.pubs[q].pc) && Key(s'.pubs[q].pc.job.topic, s'.pubs[q].pc.job.seqNo) == k;
      } else if Shown(s, k) {
        MarkShown(s, p, k);
      }
    }
  }

  lemma MarkShown(s: State, p: nat, k: Key)
    requires Inv(s) && p < |s.pubs| && (s.pubs[p].pc.Claimed? || s.pubs[p].pc.Observed?)
    requires TopicOk(s, s.pubs[p].pc.job.topic) && Shape(MarkSlot(s, p, s.pubs[p].pc.job))
    requires InWindow(s, k) && Shown(s, k)
    ensures Shown(MarkSlot(s, p, s.pubs[p].pc.job), k) || k in MarkSlot(s, p, s.pubs[p].pc.job).overtaken
  {
    var job := s.pubs[p].pc.job;
    assert PubOk(s, s.pubs[p]);
    var e := s.rings[k.topic][k.seqNo % s.depth];
    assert EntryOk(s, k.topic, k.seqNo % s.depth, e);
    if k.topic == job.topic && k.seqNo % s.depth == job.seqNo % s.depth && k.seqNo < job.seqNo {
      SameResidueGap(k.seqNo, job.seqNo, s.depth);
    }
  }

  lemma MarkSlotKeeps(s: State, p: nat)
    requires Inv(s) && p < |s.pubs| && (s.pubs[p].pc.Claimed? || s.pubs[p].pc.Observed?)
    requires SlotFree(s, p, s.pubs[p].pc.job.topic, s.pubs[p].pc.job.seqNo)
    requires TopicOk(s, s.pubs[p].pc.job.topic) && CountsOk(MarkSlot(s, p, s.pubs[p].pc.job))
    ensures Inv(MarkSlot(s, p, s.pubs[p].pc.job))
  {
    var job := s.pubs[p].pc.job;
    var s' := MarkSlot(s, p, job);
    var e := Slot(s.rings, s.depth, job.topic, job.seqNo).(seqNo := SEQ_WRITING);
    MarkStepFacts(s, p);
    SlotBasics(s, s', p, job.topic, job.seqNo, e);
    SlotApart(s, s', p, job.topic, job.seqNo);
    MarkWindow(s, p);
    MarkOvertaken(s, p);
  }

  lemma CreatorSlotFree(s: State, p: nat)
    requires Inv(s) && p < |s.pubs| && HasJob(s.pubs[p].pc) && s.pubs[p].creator
    ensures SlotFree(s, p, s.pubs[p].pc.job.topic, s.pubs[p].pc.job.seqNo)
  {
    assert PubOk(s, s.pubs[p]);
    forall r | 0 <= r < |s.pubs| && r != p && Writing(s.pubs[r].pc)
      ensures s.pubs[r].pc.job.topic != s.pubs[p].pc.job.topic
    {
      assert PubOk(s, s.pubs[r]) && Apart(s, s.pubs[p], s.pubs[r]);
    }
  }

  lemma UnmarkedSlotFree(s: State, p: nat, t: nat, q: nat)
    requires Inv(s) && TopicOk(s, t) && Slot(s.rings, s.depth, t, q).seqNo != SEQ_WRITING
    ensures SlotFree(s, p, t, q)
  {
    forall r | 0 <= r < |s.pubs| && r != p && Writing(s.pubs[r].pc) && s.pubs[r].pc.job.topic == t
      ensures s.pubs[r].pc.job.seqNo % s.depth != q % s.depth
    {
      assert PubOk(s, s.pubs[r]);
    }
  }

  lemma MarkKeeps(s: State, p: nat, a: MarkStep)
    requires Inv(s) && MarkEnabled(s, p, a)
    ensures Inv(ApplyMark(s, p, a))
  {
    var pc := s.pubs[p].pc;
    var e := Slot(s.rings, s.depth, pc.job.topic, pc.job.seqNo);
    assert PubOk(s, s.pubs[p]);
    MarkCounts(s, p, a);
    if a.StoreMark? {
      CreatorSlotFree(s, p);
      MarkSlotKeeps(s, p);
    } else if a.CasMark? && e.seqNo == pc.current {
      UnmarkedSlotFree(s, p, pc.job.topic, pc.job.seqNo);
      MarkSlotKeeps(s, p);
    } else {
      PubStep(s, ApplyMark(s, p, a), p);
    }
  }

  // ---- filling ----

  lemma FillFacts(s: State, p: nat, a: FillStep)
    requires Inv(s) && FillEnabled(s, p, a) && (a.WriteBlock? || a.WriteLen?)
    ensures var job := s.pubs[p].pc.job;
            var s' := ApplyFill(s, p, a);
            TopicOk(s, job.topic) && Shape(s') && LogOk(s') && PubOk(s', s'.pubs[p]) &&
            var e := Slot(s'.rings, s'.depth, job.topic, job.seqNo);
            SlotStep(s, s', p, job.topic, job.seqNo, e) && EntryOk(s', job.topic, job.seqNo % s.depth, e)
            && e.seqNo == SEQ_WRITING
  {
    var job := s.pubs[p].pc.job;
    var s' := ApplyFill(s, p, a);
    assert PubOk(s, s.pubs[p]);
    var f := s.rings[job.topic][job.seqNo % s.depth];
    assert EntryOk(s, job.topic, job.seqNo % s.depth, f);
    assert Key(job.topic, SEQ_WRITING) !in s.log;
    var e := if a.WriteBlock? then f.(block := job.block) else f.(len := job.len);
    assert SlotStep(s, s', p, job.topic, job.seqNo, e);
    SlotShape(s, s', p, job.topic, job.seqNo, e);
  }

  /** Rewriting a field of a marked slot changes nothing any sequence shows. */
  lemma FillWindow(s: State, p: nat, a: FillStep)
    requires Inv(s) && FillEnabled(s, p, a) && (a.WriteBlock? || a.WriteLen?) && Shape(ApplyFill(s, p, a))
    ensures WindowOk(ApplyFill(s, p, a)) && OvertakenOk(ApplyFill(s, p, a))
  {
    var s' := ApplyFill(s, p, a);
    forall k: Key ensures Shown(s', k) == Shown(s, k) {
      if k.topic < |s.rings| {
        assert s'.rings[k.topic][k.seqNo % s.depth].seqNo == s.rings[k.topic][k.seqNo % s.depth].seqNo;
      }
    }
    forall k | InWindow(s', k)
      ensures Shown(s', k) || InFlight(s', k) || k in s'.skipped || k in s'.overtaken
    {
      assert InWindow(s, k);
      if InFlight(s, k) {
        var q :| 0 <= q < |s.pubs| && HasJob(s.pubs[q].pc) && Key(s.pubs[q].pc.job.topic, s.pubs[q].pc.job.seqNo) == k;
        assert HasJob(s'.pubs[q].pc) && Key(s'.pubs[q].pc.job.topic, s'.pubs[q].pc.job.seqNo) == k;
      }
    }
  }

  lemma WriteFieldKeeps(s: State, p: nat, a: FillStep)
    requires Inv(s) && FillEnabled(s, p, a) && (a.WriteBlock? || a.WriteLen?)
    ensures Inv(ApplyFill(s, p, a))
  {
    var job := s.pubs[p].pc.job;
    var s' := ApplyFill(s, p, a);
    assert PubOk(s, s.pubs[p]);
    if a.WriteBlock? { WriteBlockCounts(s, p); } else { FillCounts(s, p, a); }
    FillFacts(s, p, a);
    WriterOwnsSlot(s, p);
    var e := Slot(s'.rings, s'.depth, job.topic, job.seqNo);
    SlotBasics(s, s', p, job.topic, job.seqNo, e);
    SlotApart(s, s', p, job.topic, job.seqNo);
    FillWindow(s, p, a);
  }

  // ---- closing ----

  lemma CloseFacts(s: State, p: nat)
    requires Inv(s) && FillEnabled(s, p, Close)
    ensures var job := s.pubs[p].pc.job;
            var s' := ApplyFill(s, p, Close);
            TopicOk(s, job.topic) && Shape(s') && PubOk(s', s'.pubs[p]) &&
            var e := Slot(s.rings, s.depth, job.topic, job.seqNo).(seqNo := job.seqNo);
            SlotStep(s, s', p, job.topic, job.seqNo, e) && EntryOk(s', job.topic, job.seqNo % s.depth, e)
  {
    var job := s.pubs[p].pc.job;
    var s' := ApplyFill(s, p, Close);
    assert PubOk(s, s.pubs[p]);
    var e := Slot(s.rings, s.depth, job.topic, job.seqNo).(seqNo := job.seqNo);
    assert SlotStep(s, s', p, job.topic, job.seqNo, e);
    SlotShape(s, s', p, job.topic, job.seqNo, e);
  }

  lemma CloseWindow(s: State, p: nat)
    requires Inv(s) && FillEnabled(s, p, Close) && Shape(ApplyFill(s, p, Close))
    ensures WindowOk(ApplyFill(s, p, Close)) && OvertakenOk(ApplyFill(s, p, Close))
  {
    var s' := ApplyFill(s, p, Close);
    var job := s.pubs[p].pc.job;
    assert PubOk(s, s.pubs[p]);
    forall k | k in s'.overtaken
      ensures k in s'.log && k.topic < |s'.creatorTopic| && !s'.creatorTopic[k.topic] && !Shown(s', k)
    {
      assert !Shown(s, k) && k in s.log;
    }
    forall k | InWindow(s', k)
      ensures Shown(s', k) || InFlight(s', k) || k in s'.skipped || k in s'.overtaken
    {
      assert InWindow(s, k);
      if k != Key(job.topic, job.seqNo) {
        if InFlight(s, k) {
          var q :| 0 <= q < |s.pubs| && HasJob(s.pubs[q].pc)
                   && Key(s.pubs[q].pc.job.topic, s.pubs[q].pc.job.seqNo) == k;
          assert s'.pubs[q] == s.pubs[q];
        } else if Shown(s, k) {
          CloseShown(s, p, k);
        }
      }
    }
  }

  lemma CloseShown(s: State, p: nat, k: Key)
    requires Inv(s) && FillEnabled(s, p, Close) && Shape(ApplyFill(s, p, Close)) && KeyOk(s, k) && Shown(s, k)
    ensures Shown(ApplyFill(s, p, Close), k)
  {
    var job := s.pubs[p].pc.job;
    assert PubOk(s, s.pubs[p]);
    assert s.rings[job.topic][job.seqNo % s.depth].seqNo == SEQ_WRITING;
  }

  lemma CloseLog(s: State, p: nat)
    requires Inv(s) && FillEnabled(s, p, Close)
    ensures LogOk(ApplyFill(s, p, Close))
  {
    assert PubOk(s, s.pubs[p]);
  }

  lemma CloseKeeps(s: State, p: nat)
    requires Inv(s) && FillEnabled(s, p, Close)
    ensures Inv(ApplyFill(s, p, Close))
  {
    var job := s.pubs[p].pc.job;
    var s' := ApplyFill(s, p, Close);
    FillCounts(s, p, Close);
    CloseFacts(s, p);
    CloseLog(s, p);
    WriterOwnsSlot(s, p);
    var e := Slot(s.rings, s.depth, job.topic, job.seqNo).(seqNo := job.seqNo);
    SlotBasics(s, s', p, job.topic, job.seqNo, e);
    SlotApart(s, s', p, job.topic, job.seqNo);
    CloseWindow(s, p);
  }

  lemma FillKeeps(s: State, p: nat, a: FillStep)
    requires Inv(s) && FillEnabled(s, p, a)
    ensures Inv(ApplyFill(s, p, a))
  {
    match a
    case ReadOld => ReadOldKeeps(s, p);
    case SetCount => SetCountKeeps(s, p);
    case WriteBlock => WriteFieldKeeps(s, p, a);
    case WriteLen => WriteFieldKeeps(s, p, a);
    case Close => CloseKeeps(s, p);
  }
}
