/** Opened publishers on one topic: when a newer message is lost to an older one.

    `commit_to_ring` takes the slot from any publisher that is not writing, without comparing
    sequences. So a claim that waits while `ring_depth` newer ones are made, a lap behind, puts
    its older sequence over a newer one, and a receiver then misses a message although no commit
    is in progress. If no claim is ever a lap behind, nothing is lost. */
module RingOvertake {
  import opened Words
  import opened Layout
  import opened Ring
  import opened RingInv
  import opened RingSafety
  import opened RingOps

  // ---- never a lap behind, never overtaken ----

  /** `depth` or more sequences were claimed after the job's. */
  predicate LapBehind(s: State, job: Job) {
    job.topic < |s.writeSeq| && s.writeSeq[job.topic] >= job.seqNo + s.depth
  }

  /** A claim that has not taken its slot yet. */
  predicate Waits(pc: PubPc) { pc.Claimed? || pc.Observed? }

  /** No publisher marks its slot in this step while a lap behind on topic `t`. */
  predicate StepInLap(s: State, s': State, t: nat) {
    forall p :: 0 <= p < |s.pubs| && p < |s'.pubs| && Waits(s.pubs[p].pc) && s'.pubs[p].pc.Marked? ==>
      s.pubs[p].pc.job.topic == t ==> !LapBehind(s, s.pubs[p].pc.job)
  }

  predicate InLapAt(run: seq<State>, i: nat, t: nat)
    requires 0 < i < |run|
  {
    StepInLap(run[i - 1], run[i], t)
  }

  ghost predicate AlwaysInLap(run: seq<State>, t: nat) { forall i :: 0 < i < |run| ==> InLapAt(run, i, t) }

  ghost predicate NoneOvertaken(s: State, t: nat) { forall q :: Key(t, q) !in s.overtaken }

  /** Only a claim that is a lap behind finds a newer sequence in its slot. */
  lemma NewerMeansLate(s: State, job: Job)
    requires Inv(s) && job.topic < |s.rings|
    requires var e := Slot(s.rings, s.depth, job.topic, job.seqNo); job.seqNo < e.seqNo < SEQ_WRITING
    ensures LapBehind(s, job)
  {
    var i := job.seqNo % s.depth;
    var e := s.rings[job.topic][i];
    assert EntryOk(s, job.topic, i, e) && KeyOk(s, Key(job.topic, e.seqNo));
    SameResidueGap(job.seqNo, e.seqNo, s.depth);
  }

  lemma MarkInLap(s: State, p: nat, x: MarkStep, t: nat)
    requires Inv(s) && MarkEnabled(s, p, x) && NoneOvertaken(s, t) && StepInLap(s, ApplyMark(s, p, x), t)
    ensures NoneOvertaken(ApplyMark(s, p, x), t)
  {
    var job := s.pubs[p].pc.job;
    var e := Slot(s.rings, s.depth, job.topic, job.seqNo);
    if job.topic == t && job.seqNo < e.seqNo < SEQ_WRITING { NewerMeansLate(s, job); }
  }

  lemma StepKeepsInLap(s: State, s': State, t: nat)
    requires Inv(s) && Step(s, s') && NoneOvertaken(s, t) && StepInLap(s, s', t)
    ensures NoneOvertaken(s', t)
  {
    var a :| Enabled(s, a) && s' == Apply(s, a);
    if a.MarkEntry? { MarkInLap(s, a.p, a.mark, t); } else { OnlyMarksOvertake(s, a); }
  }

  lemma OnlyMarksOvertake(s: State, a: Action)
    requires Enabled(s, a) && !a.MarkEntry?
    ensures Apply(s, a).overtaken == s.overtaken
  {
  }

  lemma {:induction false} NothingOvertakenInLap(run: seq<State>, n: nat, t: nat)
    requires Run(run) && AlwaysInLap(run, t) && n < |run|
    ensures NoneOvertaken(run[n], t)
  {
    if n > 0 {
      NothingOvertakenInLap(run, n - 1, t);
      EveryRunKeepsInv(run, n - 1);
      assert StepAt(run, n) && InLapAt(run, n, t);
      StepKeepsInLap(run[n - 1], run[n], t);
    }
  }

  /** If no claim on the topic ever takes its slot a lap behind, and no pinned publish was made,
      `try_recv` reads a bounded log, with any number of opened publishers. */
  lemma InLapTopicIsBoundedLog(run: seq<State>, i: nat)
    requires Run(run) && i < |End(run).streams| && NoCommit(End(run), End(run).streams[i].topic)
    requires AlwaysInLap(run, End(run).streams[i].topic)
    requires forall q :: Key(End(run).streams[i].topic, q) !in End(run).skipped
    ensures var s, st := End(run), End(run).streams[i];
            && Inv(s) && st.topic < |s.rings|
            && var n := s.writeSeq[st.topic];
               Found(s, i) == if st.lastSeq == n then None else Some(ScanStart(n, st.lastSeq, s.depth))
  {
    NothingOvertakenInLap(run, |run| - 1, End(run).streams[i].topic);
    KeptTopicIsBoundedLog(run, i);
  }

  // ---- a lap behind, a message lost ----

  /** The newest sequence up to `w` that shares the slot of `q`. */
  function NewestInSlot(w: nat, q: nat, d: nat): (r: nat)
    requires 0 < d && q <= w
    ensures q <= r <= w < r + d
  {
    w - (w - q) % d
  }

  lemma NewestSharesSlot(w: nat, q: nat, d: nat)
    requires 0 < d && q <= w
    ensures NewestInSlot(w, q, d) % d == q % d
  {
    var k, a, r := (w - q) / d, q / d, q % d;
    assert NewestInSlot(w, q, d) == q + k * d;
    assert q + k * d == (a + k) * d + r by { assert (a + k) * d == a * d + k * d; }
    DivModUnique(q + k * d, d, a + k, r);
  }

  ghost predicate NoOtherClaim(s: State, p: nat, t: nat) {
    forall o :: 0 <= o < |s.pubs| && o != p && HasJob(s.pubs[o].pc) ==> s.pubs[o].pc.job.topic != t
  }

  /** A recent message that could be read and no longer can. */
  predicate Lost(s: State, s': State, k: Key)
    requires Shape(s) && Shape(s')
  {
    InWindow(s, k) && Shown(s, k) && !Shown(s', k)
  }

  lemma LateMarkLoses(s: State, p: nat)
    requires Inv(s) && p < |s.pubs| && Waits(s.pubs[p].pc) && TopicOk(s, s.pubs[p].pc.job.topic)
    requires NoOtherClaim(s, p, s.pubs[p].pc.job.topic) && AllKept(s, s.pubs[p].pc.job.topic)
    requires LapBehind(s, s.pubs[p].pc.job)
    ensures var job := s.pubs[p].pc.job;
            var s' := MarkSlot(s, p, job);
            Shape(s') && job.seqNo <= s.writeSeq[job.topic] &&
            Lost(s, s', Key(job.topic, NewestInSlot(s.writeSeq[job.topic], job.seqNo, s.depth)))
  {
    var job := s.pubs[p].pc.job;
    assert PubOk(s, s.pubs[p]);
    var q := NewestInSlot(s.writeSeq[job.topic], job.seqNo, s.depth);
    NewestSharesSlot(s.writeSeq[job.topic], job.seqNo, s.depth);
    var k := Key(job.topic, q);
    assert InWindow(s, k) && !InFlight(s, k);
  }

  lemma InLapMarkLosesNothing(s: State, p: nat, k: Key)
    requires Inv(s) && p < |s.pubs| && Waits(s.pubs[p].pc) && TopicOk(s, s.pubs[p].pc.job.topic)
    requires !LapBehind(s, s.pubs[p].pc.job)
    ensures Shape(MarkSlot(s, p, s.pubs[p].pc.job)) && !Lost(s, MarkSlot(s, p, s.pubs[p].pc.job), k)
  {
    var job := s.pubs[p].pc.job;
    if InWindow(s, k) && Shown(s, k) && k.topic == job.topic { OtherSlot(s, p, k.seqNo); }
  }

  /** A readable recent message lies in another slot than a claim of the same lap. */
  lemma OtherSlot(s: State, p: nat, q: nat)
    requires Inv(s) && p < |s.pubs| && Waits(s.pubs[p].pc) && !LapBehind(s, s.pubs[p].pc.job)
    requires InWindow(s, Key(s.pubs[p].pc.job.topic, q)) && Shown(s, Key(s.pubs[p].pc.job.topic, q))
    ensures q % s.depth != s.pubs[p].pc.job.seqNo % s.depth
  {
    var job := s.pubs[p].pc.job;
    assert PubOk(s, s.pubs[p]);
    assert EntryOk(s, job.topic, q % s.depth, s.rings[job.topic][q % s.depth]);
    if q % s.depth == job.seqNo % s.depth {
      if q < job.seqNo { SameResidueGap(q, job.seqNo, s.depth); } else { SameResidueGap(job.seqNo, q, s.depth); }
    }
  }

  /** With no other claim in flight on the topic, and nothing lost or pinned there before, taking
      the slot loses a readable message exactly if the claim is a lap behind. */
  lemma MarkLosesExactlyWhenLate(s: State, p: nat)
    requires Inv(s) && p < |s.pubs| && Waits(s.pubs[p].pc) && TopicOk(s, s.pubs[p].pc.job.topic)
    requires NoOtherClaim(s, p, s.pubs[p].pc.job.topic) && AllKept(s, s.pubs[p].pc.job.topic)
    ensures Shape(MarkSlot(s, p, s.pubs[p].pc.job))
    ensures (exists k :: Lost(s, MarkSlot(s, p, s.pubs[p].pc.job), k)) <==> LapBehind(s, s.pubs[p].pc.job)
  {
    var job := s.pubs[p].pc.job;
    if LapBehind(s, job) {
      LateMarkLoses(s, p);
    } else {
      forall k ensures Shape(MarkSlot(s, p, job)) && !Lost(s, MarkSlot(s, p, job), k) {
        InLapMarkLosesNothing(s, p, k);
      }
    }
  }

  // ---- a run that loses the newest message ----

  function Opened(cache: seq<nat>, pc: PubPc): Pub { Pub(false, cache, NO_BLOCK, [], pc) }

  const Creator: Pub := Pub(true, [], NO_BLOCK, [], Ready)

  /** One topic of opened publishers, ring depth 1, two blocks of one byte, nothing published. */
  function World(claimed: nat, free: seq<nat>, pubs: seq<Pub>): State {
    State(1, 1, [false], [[Entry(0, NO_BLOCK, 0)]], [claimed], [0, 0], [[0], [0]], free, pubs, [], [], map[], {}, {})
  }

  const First: Job := Job(0, 0, 0, 1)
  const Second: Job := Job(1, 0, 0, 2)

  /** Two publishers join. */
  lemma Joined() returns (run: seq<State>)
    ensures Run(run) && End(run) == World(0, [1, 0], [Creator, Opened([], Ready), Opened([], Ready)])
  {
    var s := World(0, [1, 0], [Creator]);
    assert FreshPool(1) == [0] && FreshPool(2) == [1, 0];
    run := [s];
    run := Extend(run, Open);
    run := Extend(run, Open);
  }

  /** Publisher 1 takes both blocks and gives one back. */
  lemma FirstLoans() returns (run: seq<State>)
    ensures Run(run) && End(run) == World(0, [1], [Creator, Opened([0], Ready), Opened([], Ready)])
  {
    run := Joined();
    assert Popped([1, 0], 2) == [0, 1] by { assert Popped([1, 0], 1) == [0]; }
    assert DropLast([0, 1]) == [0] && [1, 0][..0] == [];
    run := AllocRun(run, 1);
    assert End(run).pubs == [Creator, Opened([0], Loaned(1, 0)), Opened([], Ready)];
    run := Extend(run, UseLoan(1, DropLoan));
    assert End(run).pubs == [Creator, Opened([0], Ready), Opened([], Ready)];
  }

  /** Each has a block. */
  lemma BothLoan() returns (run: seq<State>)
    ensures Run(run) && End(run) == World(0, [], [Creator, Opened([], Loaned(0, 0)), Opened([], Loaned(1, 0))])
  {
    run := FirstLoans();
    assert Popped([1], 1) == [1] && DropLast([1]) == [] && [1][..0] == [];
    run := AllocRun(run, 2);
    assert End(run).pubs == [Creator, Opened([0], Ready), Opened([], Loaned(1, 0))];
    run := Extend(run, Allocate(1, TakeCached));
    assert End(run).pubs == [Creator, Opened([], Loaned(0, 0)), Opened([], Loaned(1, 0))];
  }

  /** Publisher 1 claims sequence 1, publisher 2 sequence 2. */
  lemma BothClaim() returns (run: seq<State>)
    ensures Run(run) && End(run) == World(2, [], [Creator, Opened([], Claimed(First)), Opened([], Claimed(Second))])
  {
    run := BothLoan();
    run := Extend(run, ClaimSeq(1, 0, Claim));
    run := Extend(run, ClaimSeq(2, 0, Claim));
  }

  /** A waiting publisher whose slot nobody is writing commits. */
  lemma CommitClaimed(run: seq<State>, p: nat) returns (run': seq<State>)
    requires Run(run) && p < |End(run).pubs| && End(run).pubs[p].pc.Claimed? && !End(run).pubs[p].creator
    requires var s := End(run); JobSlotOk(s, s.pubs[p].pc) && s.pubs[p].pc.job.block < |s.refcount| == |s.bytes|
    requires var s, job := End(run), End(run).pubs[p].pc.job;
             Slot(s.rings, s.depth, job.topic, job.seqNo).seqNo != SEQ_WRITING
    ensures Run(run') && run <= run'
    ensures var s := End(run); Filling(MarkSlot(s, p, s.pubs[p].pc.job), p)
                               && End(run') == Filled(MarkSlot(s, p, s.pubs[p].pc.job), p)
  {
    var s := End(run);
    var job := s.pubs[p].pc.job;
    run' := Extend(run, MarkEntry(p, Observe));
    run' := Extend(run', MarkEntry(p, CasMark));
    assert End(run').pubs == MarkSlot(s, p, job).pubs;
    run' := FillPhase(run', p);
  }

  /** A run that ends, with no commit in progress and no pinned publish, in a state where
      sequence 2, the newest of a ring of depth 1, was published but cannot be read. */
  lemma NewestMessageCanBeLost() returns (run: seq<State>)
    ensures Run(run)
    ensures var s := End(run);
            Shape(s) && NoCommit(s, 0) && s.skipped == {}
            && InWindow(s, Key(0, 2)) && Key(0, 2) in s.log && !Shown(s, Key(0, 2))
  {
    run := BothClaim();
    run := CommitClaimed(run, 2);
    var s := End(run);
    assert s.pubs[1].pc == Claimed(First) && s.rings[0][0] == Entry(2, 1, 0) && Key(0, 2) in s.log;
    run := CommitClaimed(run, 1);
    assert End(run).rings[0][0] == Entry(1, 0, 0);
  }
}
