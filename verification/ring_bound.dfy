/** When a lone publisher can run out of blocks. */
module RingBound {
  import opened Layout
  import opened Sums
  import opened Ring
  import opened RingCounts
  import opened RingInv

  // ---- counting by block equals counting by holder ----

  /** All of `xs` counted for each block below `n`. */
  function TotalOver<T>(xs: seq<T>, w: nat -> T -> nat, n: nat): nat {
    if n == 0 then 0 else TotalOver(xs, w, n - 1) + Sum(xs, w(n - 1))
  }

  /** One holder counted for each block below `n`. */
  function Column<T>(x: T, w: nat -> T -> nat, n: nat): nat {
    if n == 0 then 0 else Column(x, w, n - 1) + w(n - 1)(x)
  }

  lemma {:induction false} TotalSplit<T>(xs: seq<T>, w: nat -> T -> nat, n: nat)
    requires xs != []
    ensures TotalOver(xs, w, n) == TotalOver(xs[..|xs| - 1], w, n) + Column(xs[|xs| - 1], w, n)
  {
    if n > 0 {
      TotalSplit(xs, w, n - 1);
    }
  }

  lemma {:induction false} TotalEmpty<T>(w: nat -> T -> nat, n: nat)
    ensures TotalOver<T>([], w, n) == 0
  {
    if n > 0 { TotalEmpty(w, n - 1); }
  }

  lemma {:induction false} TotalBound<T>(xs: seq<T>, w: nat -> T -> nat, cap: T -> nat, n: nat)
    requires forall i :: 0 <= i < |xs| ==> Column(xs[i], w, n) <= cap(xs[i])
    ensures TotalOver(xs, w, n) <= Sum(xs, cap)
  {
    if xs == [] {
      TotalEmpty(w, n);
    } else {
      TotalSplit(xs, w, n);
      TotalBound(xs[..|xs| - 1], w, cap, n);
    }
  }

  // ---- what each holder can hold ----

  function Named(e: Entry): nat { if e.block != NO_BLOCK then 1 else 0 }

  function RingNamed(r: seq<Entry>): nat { Sum(r, Named) }

  function StreamBlock(pc: StreamPc): nat { if pc.Tentative? || pc.Undo? || pc.UndoFree? then pc.block else NO_BLOCK }

  /** A receive in progress that has taken a reference. */
  function StreamLive(st: Stream): nat { if StreamBlock(st.pc) != NO_BLOCK then 1 else 0 }

  function SampleLive(sm: Sample): nat { if sm.status.Gone? then 0 else 1 }

  function StreamBoth(b: nat): Stream -> nat { (st: Stream) => Eq(StreamBlock(st.pc), b) }

  function SampleBoth(b: nat): Sample -> nat { (sm: Sample) => if sm.status.Gone? then 0 else Eq(sm.block, b) }

  lemma {:induction false} EntryColumn(e: Entry, n: nat)
    requires n <= NO_BLOCK
    ensures Column(e, SlotRef, n) == if e.block < n then 1 else 0
  {
    if n > 0 { EntryColumn(e, n - 1); }
  }

  lemma {:induction false} RingColumn(r: seq<Entry>, n: nat)
    ensures Column(r, RingRef, n) == TotalOver(r, SlotRef, n)
  {
    if n > 0 { RingColumn(r, n - 1); }
  }

  lemma RingCap(r: seq<Entry>, n: nat)
    requires n <= NO_BLOCK
    ensures Column(r, RingRef, n) <= RingNamed(r)
  {
    RingColumn(r, n);
    forall i | 0 <= i < |r| ensures Column(r[i], SlotRef, n) <= Named(r[i]) { EntryColumn(r[i], n); }
    TotalBound(r, SlotRef, Named, n);
  }

  lemma {:induction false} StreamCap(st: Stream, n: nat)
    requires n <= NO_BLOCK
    ensures Column(st, StreamBoth, n) == if StreamBlock(st.pc) < n then 1 else 0
  {
    if n > 0 { StreamCap(st, n - 1); }
  }

  lemma {:induction false} SampleCap(sm: Sample, n: nat)
    ensures Column(sm, SampleBoth, n) == if !sm.status.Gone? && sm.block < n then 1 else 0
  {
    if n > 0 { SampleCap(sm, n - 1); }
  }

  // ---- splitting what a stream or sample counts for ----

  lemma {:induction false} StreamSums(xs: seq<Stream>, b: nat)
    requires b < NO_BLOCK
    ensures Sum(xs, StreamRef(b)) + Sum(xs, StreamOwn(b)) == Sum(xs, StreamBoth(b))
  {
    if xs != [] { StreamSums(xs[..|xs| - 1], b); }
  }

  lemma {:induction false} SampleSums(xs: seq<Sample>, b: nat)
    ensures Sum(xs, SampleRef(b)) + Sum(xs, SampleOwn(b)) == Sum(xs, SampleBoth(b))
  {
    if xs != [] { SampleSums(xs[..|xs| - 1], b); }
  }

  /** Between calls, or dropped, and keeping no block. */
  predicate Idle(pub: Pub) {
    (pub.pc.Ready? || pub.pc.Retiring?) && pub.cache == [] && pub.recycled == NO_BLOCK && pub.pinned == []
  }

  predicate OthersIdle(s: State, p: nat) { forall o :: 0 <= o < |s.pubs| && o != p ==> Idle(s.pubs[o]) }

  /** The only working publisher has found the pool, its cache and its recycle slot empty. */
  predicate LonePoolEmpty(s: State, p: nat) {
    p < |s.pubs| && s.pubs[p].pinned == [] && OthersIdle(s, p) && AllocEnabled(s, p, Exhausted)
  }

  lemma NobodyKeeps(s: State, p: nat, b: nat)
    requires LonePoolEmpty(s, p) && s.pubs[p].recycled == NO_BLOCK && b < NO_BLOCK
    ensures Sum(s.pubs, PubRef(b)) == 0 && Sum(s.pubs, PubOwn(b)) == 0
  {
    forall o | 0 <= o < |s.pubs| ensures PubRef(b)(s.pubs[o]) == 0 && PubOwn(b)(s.pubs[o]) == 0 {
      assert o != p ==> Idle(s.pubs[o]);
    }
    SumZero(s.pubs, PubRef(b));
    SumZero(s.pubs, PubOwn(b));
  }

  /** A slot, a receive or a sample holds the block. */
  predicate InUse(s: State, b: nat) {
    Sum(s.rings, RingRef(b)) + Sum(s.streams, StreamBoth(b)) + Sum(s.samples, SampleBoth(b)) >= 1
  }

  lemma EachBlockInUse(s: State, p: nat, b: nat)
    requires Inv(s) && LonePoolEmpty(s, p) && b < |s.refcount|
    ensures InUse(s, b)
  {
    assert CountOk(s, b);
    assert PubOk(s, s.pubs[p]);
    StreamSums(s.streams, b);
    SampleSums(s.samples, b);
    NobodyKeeps(s, p, b);
  }

  lemma {:induction false} BlocksInUse(s: State, n: nat)
    requires forall b :: 0 <= b < n ==> InUse(s, b)
    ensures n <= TotalOver(s.rings, RingRef, n) + TotalOver(s.streams, StreamBoth, n)
                 + TotalOver(s.samples, SampleBoth, n)
  {
    if n > 0 {
      BlocksInUse(s, n - 1);
      assert InUse(s, n - 1);
    }
  }

  // ---- published topics ----

  function Published(writeSeq: seq<nat>): nat {
    if writeSeq == [] then 0
    else Published(writeSeq[..|writeSeq| - 1]) + (if writeSeq[|writeSeq| - 1] > 0 then 1 else 0)
  }

  lemma {:induction false} NamedAtMost(r: seq<Entry>)
    ensures RingNamed(r) <= |r|
  {
    if r != [] { NamedAtMost(r[..|r| - 1]); }
  }

  lemma TopicCap(s: State, t: nat)
    requires Inv(s) && t < |s.rings|
    ensures RingNamed(s.rings[t]) <= if s.writeSeq[t] > 0 then s.depth else 0
  {
    NamedAtMost(s.rings[t]);
    if s.writeSeq[t] == 0 {
      forall i | 0 <= i < |s.rings[t]| ensures Named(s.rings[t][i]) == 0 {
        assert EntryOk(s, t, i, s.rings[t][i]);
      }
      SumZero(s.rings[t], Named);
    }
  }

  lemma {:induction false} NamedSlots(s: State, m: nat)
    requires Inv(s) && m <= |s.rings|
    ensures Sum(s.rings[..m], RingNamed) <= Published(s.writeSeq[..m]) * s.depth
  {
    if m > 0 {
      NamedSlots(s, m - 1);
      TopicCap(s, m - 1);
      assert s.rings[..m][..m - 1] == s.rings[..m - 1];
      assert s.writeSeq[..m][..m - 1] == s.writeSeq[..m - 1];
      AddTopic(Sum(s.rings[..m - 1], RingNamed), RingNamed(s.rings[m - 1]), Published(s.writeSeq[..m - 1]), s.depth,
               s.writeSeq[m - 1] > 0);
    }
  }

  lemma AddTopic(named: nat, more: nat, topics: nat, depth: nat, published: bool)
    requires named <= topics * depth && more <= if published then depth else 0
    ensures named + more <= (topics + if published then 1 else 0) * depth
  {
    assert (topics + 1) * depth == topics * depth + depth;
  }

  /** If the only working publisher of a region, with no pinned topic, finds no block, then the pool is
      no larger than the published topics' rings plus the references readers hold. So with more
      blocks than that a loan never fails, in any configuration and after any history. */
  lemma ExhaustedOnlyWhenInUse(s: State, p: nat)
    requires Inv(s) && LonePoolEmpty(s, p)
    ensures |s.refcount| <= Published(s.writeSeq) * s.depth + Sum(s.samples, SampleLive) + Sum(s.streams, StreamLive)
  {
    var n := |s.refcount|;
    forall b | 0 <= b < n ensures InUse(s, b) { EachBlockInUse(s, p, b); }
    BlocksInUse(s, n);
    forall t | 0 <= t < |s.rings| ensures Column(s.rings[t], RingRef, n) <= RingNamed(s.rings[t]) {
      RingCap(s.rings[t], n);
    }
    TotalBound(s.rings, RingRef, RingNamed, n);
    forall i | 0 <= i < |s.streams| ensures Column(s.streams[i], StreamBoth, n) <= StreamLive(s.streams[i]) {
      StreamCap(s.streams[i], n);
    }
    TotalBound(s.streams, StreamBoth, StreamLive, n);
    forall k | 0 <= k < |s.samples| ensures Column(s.samples[k], SampleBoth, n) <= SampleLive(s.samples[k]) {
      SampleCap(s.samples[k], n);
    }
    TotalBound(s.samples, SampleBoth, SampleLive, n);
    NamedSlots(s, |s.rings|);
    assert s.rings[..|s.rings|] == s.rings && s.writeSeq[..|s.rings|] == s.writeSeq;
  }
}
