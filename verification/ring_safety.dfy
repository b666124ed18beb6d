/** What the ring protocol guarantees in every interleaving of any number of publishers and
    subscribers. */
module RingSafety {
  import opened Layout
  import opened Sums
  import opened Ring
  import opened RingCounts
  import opened RingInv
  import opened RingLocal
  import opened RingCommit

  // ---- the invariant holds in every run ----

  lemma {:induction false} FreshCount(n: nat, b: nat)
    ensures Sum(FreshPool(n), Is(b)) == if b < n then 1 else 0
    ensures |FreshPool(n)| == n && forall i :: 0 <= i < n ==> FreshPool(n)[i] == n - 1 - i
  {
    if n > 0 {
      FreshCount(n - 1, b);
      SumFirst<nat>(FreshPool(n), Is(b));
    }
  }

  lemma InitCount(s: State, b: nat)
    requires Init(s) && b < |s.refcount|
    ensures CountOk(s, b)
  {
    FreshCount(|s.refcount|, b);
    forall t | 0 <= t < |s.rings| ensures RingRef(b)(s.rings[t]) == 0 {
      SumZero(s.rings[t], SlotRef(b));
    }
    SumZero(s.rings, RingRef(b));
    var pub := Pub(true, [], NO_BLOCK, [], Ready);
    assert [pub][..0] == [];
    assert Sum([pub], PubRef(b)) == 0;
    assert Sum([pub], PubOwn(b)) == 0;
  }

  lemma InitInv(s: State)
    requires Init(s)
    ensures Inv(s)
  {
    FreshCount(|s.refcount|, 0);
    forall b | 0 <= b < |s.refcount| ensures CountOk(s, b) { InitCount(s, b); }
  }

  lemma StepKeeps(s: State, a: Action)
    requires Inv(s) && Enabled(s, a)
    ensures Inv(Apply(s, a))
  {
    match a
    case Open => OpenKeeps(s);
    case Subscribe(t) => SubscribeKeeps(s, t);
    case Allocate(p, x) => AllocKeeps(s, p, x);
    case UseLoan(p, x) => if x.Write? { WriteKeeps(s, p, x.data); } else { LoanKeeps(s, p, x); }
    case ClaimSeq(p, t, x) => ClaimKeeps(s, p, t, x);
    case MarkEntry(p, x) => MarkKeeps(s, p, x);
    case FillEntry(p, x) => FillKeeps(s, p, x);
    case Release(p, x) => ReleaseKeeps(s, p, x);
    case RetirePub(p, x) => RetireKeeps(s, p, x);
    case Scan(i, x) => ScanKeeps(s, i, x);
    case Reference(i, x) => RefKeeps(s, i, x);
    case EndSample(k, x) => SampleKeeps(s, k, x);
    case TakePinned(i, q) => TakePinnedKeeps(s, i, q);
  }

  lemma AnyStepKeeps(s: State, s': State)
    requires Inv(s) && Step(s, s')
    ensures Inv(s')
  {
    var a :| Enabled(s, a) && s' == Apply(s, a);
    StepKeeps(s, a);
  }

  lemma {:induction false} EveryRunKeepsInv(run: seq<State>, n: nat)
    requires Run(run) && n < |run|
    ensures Inv(run[n])
  {
    if n == 0 {
      InitInv(run[0]);
    } else {
      EveryRunKeepsInv(run, n - 1);
      assert StepAt(run, n);
      AnyStepKeeps(run[n - 1], run[n]);
    }
  }

  // ---- reference counts and conservation ----

  /** In every state of every run a refcount is exactly the number of ring slots, tentative
      and returned references and in-flight commits naming the block, and every block with
      refcount zero rests in exactly one of free list, cache, recycle slot, loan, pinned set or
      the hands of a thread about to free it; a referenced block rests in none. */
  lemma CountsExactInEveryRun(run: seq<State>, n: nat, b: nat)
    requires Run(run) && n < |run| && b < |run[n].refcount|
    ensures run[n].refcount[b] == Refs(run[n], b)
    ensures Owns(run[n], b) == if run[n].refcount[b] == 0 then 1 else 0
  {
    EveryRunKeepsInv(run, n);
    assert CountOk(run[n], b);
  }

  lemma OwnsNone(xs: seq<nat>, b: nat)
    requires Sum(xs, Is(b)) == 0
    ensures b !in xs
  {
    forall i | 0 <= i < |xs| ensures xs[i] != b { SumAtLeast(xs, i, Is(b)); }
  }

  /** Where a block must not be while somebody may read it. */
  predicate Nowhere(s: State, b: nat) {
    && b !in s.free
    && (forall p :: 0 <= p < |s.pubs| ==>
          b !in s.pubs[p].cache && b !in s.pubs[p].pinned && s.pubs[p].recycled != b && LoanBlock(s.pubs[p].pc) != b)
  }

  lemma ReferencedIsNowhere(s: State, b: nat)
    requires Inv(s) && b < |s.refcount| && s.refcount[b] > 0
    ensures Nowhere(s, b)
  {
    assert CountOk(s, b);
    OwnsNone(s.free, b);
    forall p | 0 <= p < |s.pubs|
      ensures b !in s.pubs[p].cache && b !in s.pubs[p].pinned && s.pubs[p].recycled != b && LoanBlock(s.pubs[p].pc) != b
    {
      PubCounts(s, p, b);
      OwnsNone(s.pubs[p].cache, b);
      OwnsNone(s.pubs[p].pinned, b);
    }
  }

  /** A block held by a sample is never free, cached, recycled, pinned or loaned. */
  lemma HeldBlockIsNowhere(run: seq<State>, n: nat, k: nat)
    requires Run(run) && n < |run| && k < |run[n].samples| && run[n].samples[k].status.Held?
    ensures run[n].samples[k].block < |run[n].refcount|
    ensures run[n].refcount[run[n].samples[k].block] > 0
    ensures Nowhere(run[n], run[n].samples[k].block)
  {
    EveryRunKeepsInv(run, n);
    var s := run[n];
    assert SampleOk(s, s.samples[k]);
    SampleCounts(s, k, s.samples[k].block);
    assert CountOk(s, s.samples[k].block);
    ReferencedIsNowhere(s, s.samples[k].block);
  }

  // ---- what a sample carries ----

  /** Log entries never change, samples keep their identity, and a dropped sample stays dropped. */
  predicate Grows(s: State, s': State) {
    && (forall k :: k in s.log ==> k in s'.log && s'.log[k] == s.log[k])
    && |s.samples| <= |s'.samples|
    && (forall k :: 0 <= k < |s.samples| ==>
          && s'.samples[k] == s.samples[k].(status := s'.samples[k].status)
          && (s'.samples[k].status.Held? ==> s.samples[k].status.Held?))
  }

  lemma PublisherGrows(s: State, a: Action)
    requires Enabled(s, a) && !a.FillEntry? && !a.Reference? && !a.EndSample?
    ensures Grows(s, Apply(s, a))
  {
    assert Apply(s, a).log == s.log && Apply(s, a).samples == s.samples;
  }

  lemma FillGrows(s: State, p: nat, x: FillStep)
    requires Inv(s) && FillEnabled(s, p, x)
    ensures Grows(s, ApplyFill(s, p, x))
  {
    assert PubOk(s, s.pubs[p]);
  }

  lemma ReferenceGrows(s: State, i: nat, x: RefStep)
    requires RefEnabled(s, i, x)
    ensures Grows(s, ApplyRef(s, i, x))
  {
  }

  lemma SampleGrows(s: State, k: nat, x: SampleStep)
    requires SampleEnabled(s, k, x)
    ensures Grows(s, ApplySample(s, k, x))
  {
  }

  lemma StepGrows(s: State, a: Action)
    requires Inv(s) && Enabled(s, a)
    ensures Grows(s, Apply(s, a))
  {
    match a
    case FillEntry(p, x) => FillGrows(s, p, x);
    case Reference(i, x) => ReferenceGrows(s, i, x);
    case EndSample(k, x) => SampleGrows(s, k, x);
    case _ => PublisherGrows(s, a);
  }

  lemma AnyStepGrows(s: State, s': State)
    requires Inv(s) && Step(s, s')
    ensures Grows(s, s')
  {
    var a :| Enabled(s, a) && s' == Apply(s, a);
    StepGrows(s, a);
  }

  lemma NextGrows(run: seq<State>, n: nat)
    requires Run(run) && 0 < n < |run|
    ensures Grows(run[n - 1], run[n])
  {
    EveryRunKeepsInv(run, n - 1);
    assert StepAt(run, n);
    AnyStepGrows(run[n - 1], run[n]);
  }

  lemma {:induction false} RunGrows(run: seq<State>, m: nat, n: nat)
    requires Run(run) && m <= n < |run|
    ensures Grows(run[m], run[n])
    decreases n - m
  {
    if m < n {
      RunGrows(run, m, n - 1);
      NextGrows(run, n);
      GrowsTransitive(run[m], run[n - 1], run[n]);
    }
  }

  lemma GrowsTransitive(a: State, b: State, c: State)
    requires Grows(a, b) && Grows(b, c)
    ensures Grows(a, c)
  {
  }

  /** From its receipt until it is dropped, a sample shows the block, the length and the bytes
      that were committed under its sequence. */
  lemma SampleCarriesItsMessage(run: seq<State>, m: nat, n: nat, k: nat)
    requires Run(run) && m <= n < |run| && k < |run[m].samples|
    requires |run[n].samples| > k && run[n].samples[k].status.Held?
    ensures var sm := run[n].samples[k];
            sm == run[m].samples[k]
            && Key(sm.topic, sm.seqNo) in run[m].log && sm.block < |run[n].bytes| && sm.block < |run[m].bytes|
            && run[m].log[Key(sm.topic, sm.seqNo)] == Message(sm.block, sm.len, run[n].bytes[sm.block])
            && run[n].bytes[sm.block] == run[m].bytes[sm.block]
  {
    RunGrows(run, m, n);
    EveryRunKeepsInv(run, m);
    EveryRunKeepsInv(run, n);
    assert SampleOk(run[m], run[m].samples[k]);
    assert SampleOk(run[n], run[n].samples[k]);
  }

  /** One stream's receives from the ring have strictly increasing sequences, also when pinned
      receives on the same stream move it forward in between. */
  lemma DeliveredIncreases(run: seq<State>, n: nat, i: nat)
    requires Run(run) && n < |run| && i < |run[n].streams|
    ensures Increasing(run[n].streams[i].delivered)
  {
    EveryRunKeepsInv(run, n);
    assert StreamOk(run[n], run[n].streams[i]);
  }

  // ---- the guards of the model never block a party ----

  /** A decrement never meets a zero count and no index leaves its array. */
  lemma NoPartyIsStuck(s: State)
    requires Inv(s)
    ensures forall k :: 0 <= k < |s.samples| && s.samples[k].status.Held? ==> SampleEnabled(s, k, DropSample)
    ensures forall i :: 0 <= i < |s.streams| && s.streams[i].pc.Undo? ==> RefEnabled(s, i, Unacquire)
    ensures forall p :: 0 <= p < |s.pubs| && s.pubs[p].pc.Closed? ==> ReleaseEnabled(s, p, ReleaseOld)
    ensures forall p :: 0 <= p < |s.pubs| && HasJob(s.pubs[p].pc) ==> JobSlotOk(s, s.pubs[p].pc)
  {
    forall k | 0 <= k < |s.samples| && s.samples[k].status.Held? ensures SampleEnabled(s, k, DropSample) {
      var b := s.samples[k].block;
      assert SampleOk(s, s.samples[k]) && CountOk(s, b);
      SampleCounts(s, k, b);
    }
    forall i | 0 <= i < |s.streams| && s.streams[i].pc.Undo? ensures RefEnabled(s, i, Unacquire) {
      var b := s.streams[i].pc.block;
      assert StreamOk(s, s.streams[i]) && CountOk(s, b);
      StreamCounts(s, i, b);
    }
    forall p | 0 <= p < |s.pubs| && s.pubs[p].pc.Closed? ensures ReleaseEnabled(s, p, ReleaseOld) {
      var b := s.pubs[p].pc.prior;
      if b < |s.refcount| {
        assert CountOk(s, b);
        PubCounts(s, p, b);
      }
    }
    forall p | 0 <= p < |s.pubs| && HasJob(s.pubs[p].pc) ensures JobSlotOk(s, s.pubs[p].pc) {
      assert PubOk(s, s.pubs[p]);
    }
  }

  // ---- the recent window ----

  ghost predicate NoCommit(s: State, t: nat) {
    forall p :: 0 <= p < |s.pubs| && HasJob(s.pubs[p].pc) ==> s.pubs[p].pc.job.topic != t
  }

  /** With no commit in progress on a topic, a sequence of the last `depth` is readable exactly
      if it was neither consumed by a pinned publish nor overtaken by an older claim. */
  lemma QuietWindow(s: State, k: Key)
    requires Inv(s) && NoCommit(s, k.topic) && InWindow(s, k)
    ensures Shown(s, k) <==> k !in s.skipped && k !in s.overtaken
  {
    assert !InFlight(s, k);
    if Shown(s, k) {
      assert EntryOk(s, k.topic, k.seqNo % s.depth, s.rings[k.topic][k.seqNo % s.depth]);
      assert KeyOk(s, k);
    }
  }

  /** On topics of the creator nothing is ever overtaken. */
  lemma CreatorNeverOvertaken(run: seq<State>, n: nat, k: Key)
    requires Run(run) && n < |run| && k.topic < |run[n].creatorTopic| && run[n].creatorTopic[k.topic]
    ensures k !in run[n].overtaken
  {
    EveryRunKeepsInv(run, n);
  }
}
