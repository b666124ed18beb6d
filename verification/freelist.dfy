/** The Treiber free list of block indices, one step per atomic access
    (`Region::alloc_block`, `Region::free_block`, `Region::init_free_list`).

    Any number of threads interleave head loads, link reads, link writes and
    compare-exchanges. Two history variables describe the run: `cas` counts the successful
    exchanges of the head, and `stack` is the list of free blocks a sequential stack would
    hold. The 32-bit generation stored in the head is `cas` modulo 2^32. */
module FreeList {
  import opened Words
  import opened Layout

  /** The head word, unpacked (`Layout.PackInjective`). */
  datatype Head = Head(gen: nat, idx: nat)

  datatype Pc =
    | Idle
    | PopHead(head: Head, seen: nat)              // head loaded when `cas` was `seen`
    | PopNext(head: Head, seen: nat, next: nat)   // and the link of its block read
    | Corrupt                                     // alloc_block returned Err(())
    | PushHead(block: nat, head: Head)
    | PushLinked(block: nat, head: Head)          // the block's link now names head.idx

  datatype Thread = Thread(held: set<nat>, pc: Pc)

  datatype Pool = Pool(link: seq<nat>, head: Head, cas: nat, stack: seq<nat>, threads: seq<Thread>)

  datatype Action =
    | BeginPop(t: nat)
    | ReadLink(t: nat)
    | CasPop(t: nat)
    | BeginPush(t: nat, block: nat)
    | WriteLink(t: nat)
    | CasPush(t: nat)
    | Spurious(t: nat)     // compare_exchange_weak may fail without cause

  // ---- steps ----

  function Set(s: Pool, t: nat, th: Thread): Pool
    requires t < |s.threads|
  {
    s.(threads := s.threads[t := th])
  }

  function To(s: Pool, t: nat, pc: Pc): Pool
    requires t < |s.threads|
  {
    Set(s, t, s.threads[t].(pc := pc))
  }

  predicate InBounds(s: Pool, idx: nat) { idx == NO_BLOCK || idx < |s.link| }

  /** The 32-bit generation has not come round to the value loaded `cas - seen` exchanges ago. */
  predicate GenerationFresh(s: Pool, seen: nat) {
    seen < s.cas ==> (s.cas - seen) % U32 != 0
  }

  predicate Enabled(s: Pool, a: Action) {
    a.t < |s.threads| &&
    var th := s.threads[a.t];
    match a
    case BeginPop(t) => th.pc.Idle?
    case ReadLink(t) => th.pc.PopHead?
    case CasPop(t) => th.pc.PopNext? && GenerationFresh(s, th.pc.seen)
    case BeginPush(t, b) => th.pc.Idle? && b in th.held
    case WriteLink(t) => th.pc.PushHead? && th.pc.block < |s.link|
    case CasPush(t) => th.pc.PushLinked?
    case Spurious(t) => th.pc.PopNext? || th.pc.PushLinked?
  }

  function NextGen(h: Head): nat { (h.gen + 1) % U32 }

  function Rest(stack: seq<nat>): seq<nat> { if stack == [] then [] else stack[1..] }

  /** The exchange of `alloc_block`: on a match the head moves to the link read earlier. */
  function ExchangePop(s: Pool, t: nat): Pool
    requires t < |s.threads| && s.threads[t].pc.PopNext?
  {
    var th := s.threads[t];
    if s.head == th.pc.head then
      Set(s.(head := Head(NextGen(s.head), th.pc.next), cas := s.cas + 1, stack := Rest(s.stack)),
          t, Thread(th.held + {th.pc.head.idx}, Idle))
    else To(s, t, PopHead(s.head, s.cas))
  }

  function ExchangePush(s: Pool, t: nat): Pool
    requires t < |s.threads| && s.threads[t].pc.PushLinked?
  {
    var pc := s.threads[t].pc;
    if s.head == pc.head then
      To(s.(head := Head(NextGen(s.head), pc.block), cas := s.cas + 1, stack := [pc.block] + s.stack), t, Idle)
    else To(s, t, PushHead(pc.block, s.head))
  }

  function ReadStep(s: Pool, t: nat): Pool
    requires t < |s.threads| && s.threads[t].pc.PopHead?
  {
    var PopHead(h, seen) := s.threads[t].pc;
    if h.idx == NO_BLOCK then To(s, t, Idle)
    else if h.idx >= |s.link| then To(s, t, Corrupt)
    else if !InBounds(s, s.link[h.idx]) then To(s, t, Corrupt)
    else To(s, t, PopNext(h, seen, s.link[h.idx]))
  }

  function Apply(s: Pool, a: Action): Pool
    requires Enabled(s, a)
  {
    var th := s.threads[a.t];
    match a
    case BeginPop(t) => To(s, t, PopHead(s.head, s.cas))
    case ReadLink(t) => ReadStep(s, t)
    case CasPop(t) => ExchangePop(s, t)
    case BeginPush(t, b) => Set(s, t, Thread(th.held - {b}, PushHead(b, s.head)))
    case WriteLink(t) => To(s.(link := s.link[th.pc.block := th.pc.head.idx]), t, PushLinked(th.pc.block, th.pc.head))
    case CasPush(t) => ExchangePush(s, t)
    case Spurious(t) =>
      if th.pc.PopNext? then To(s, t, PopHead(s.head, s.cas)) else To(s, t, PushHead(th.pc.block, s.head))
  }

  /** `init_free_list` over `n` blocks, before any thread has started. */
  predicate Init(s: Pool, n: nat) {
    && 0 < n <= NO_BLOCK
    && |s.link| == n
    && (forall i :: 0 <= i < n ==> s.link[i] == if i + 1 < n then i + 1 else NO_BLOCK)
    && s.head == Head(0, 0) && s.cas == 0
    && s.stack == seq(n, i => i)
    && (forall t :: 0 <= t < |s.threads| ==> s.threads[t] == Thread({}, Idle))
  }

  ghost predicate Step(s: Pool, s': Pool) {
    exists a :: Enabled(s, a) && s' == Apply(s, a)
  }

  ghost predicate StepAt(run: seq<Pool>, i: nat)
    requires 0 < i < |run|
  {
    Step(run[i - 1], run[i])
  }

  ghost predicate Run(run: seq<Pool>, n: nat) {
    && run != [] && Init(run[0], n)
    && forall i :: 0 < i < |run| ==> StepAt(run, i)
  }

  // ---- invariant ----

  function Top(stack: seq<nat>): nat { if stack == [] then NO_BLOCK else stack[0] }

  function Below(stack: seq<nat>, i: nat): nat
    requires i < |stack|
  {
    if i + 1 < |stack| then stack[i + 1] else NO_BLOCK
  }

  /** Blocks a thread has taken from the list and not yet returned. */
  function Owned(th: Thread): set<nat> {
    th.held + (if th.pc.PushHead? || th.pc.PushLinked? then {th.pc.block} else {})
  }

  /** The links chain the free blocks, top to bottom, without repetition. */
  predicate Chain(s: Pool) {
    && (forall i :: 0 <= i < |s.stack| ==> s.stack[i] < |s.link| && s.link[s.stack[i]] == Below(s.stack, i))
    && (forall i, j :: 0 <= i < j < |s.stack| ==> s.stack[i] != s.stack[j])
  }

  predicate WordsOk(s: Pool) {
    && 0 < |s.link| <= NO_BLOCK
    && (forall i :: 0 <= i < |s.link| ==> InBounds(s, s.link[i]))
    && s.head == Head(s.cas % U32, Top(s.stack))
  }

  predicate OwnedApart(s: Pool, t: nat)
    requires t < |s.threads|
  {
    && (forall b :: b in Owned(s.threads[t]) ==> b < |s.link| && b !in s.stack)
    && (forall u :: 0 <= u < |s.threads| && u != t ==> Owned(s.threads[t]) !! Owned(s.threads[u]))
  }

  predicate OwnedBySome(s: Pool, b: nat) {
    exists t :: 0 <= t < |s.threads| && b in Owned(s.threads[t])
  }

  /** Every block is on the list or owned by exactly one thread. */
  predicate Partition(s: Pool) {
    && (forall t :: 0 <= t < |s.threads| ==> OwnedApart(s, t))
    && (forall b :: 0 <= b < |s.link| && b !in s.stack ==> OwnedBySome(s, b))
  }

  predicate PcOk(s: Pool, th: Thread) {
    match th.pc
    case Idle => true
    case PopHead(h, seen) =>
      && seen <= s.cas && h.gen == seen % U32 && InBounds(s, h.idx)
      && (seen == s.cas ==> h == s.head)
    case PopNext(h, seen, next) =>
      && seen <= s.cas && h.gen == seen % U32 && h.idx < |s.link| && InBounds(s, next)
      && (seen == s.cas ==> h == s.head && next == s.link[h.idx])
    case Corrupt => false
    case PushHead(b, h) => b !in th.held && b < |s.link| && InBounds(s, h.idx)
    case PushLinked(b, h) => b !in th.held && b < |s.link| && InBounds(s, h.idx) && s.link[b] == h.idx
  }

  predicate PcsOk(s: Pool) {
    forall t :: 0 <= t < |s.threads| ==> PcOk(s, s.threads[t])
  }

  predicate Inv(s: Pool) { WordsOk(s) && Chain(s) && Partition(s) && PcsOk(s) }

  lemma InitInv(s: Pool, n: nat)
    requires Init(s, n)
    ensures Inv(s)
  {
    forall b | 0 <= b < n ensures b in s.stack { assert s.stack[b] == b; }
    assert s.head == Head(0 % U32, Top(s.stack));
    forall t | 0 <= t < |s.threads| ensures OwnedApart(s, t) {
      assert Owned(s.threads[t]) == {};
    }
  }

  // ---- preservation ----

  /** A step that moves one thread's pc and touches nothing else. */
  lemma LocalStep(s: Pool, t: nat, pc: Pc)
    requires Inv(s) && t < |s.threads|
    requires Owned(s.threads[t].(pc := pc)) == Owned(s.threads[t])
    requires PcOk(s, s.threads[t].(pc := pc))
    ensures Inv(To(s, t, pc))
  {
    var s' := To(s, t, pc);
    forall u | 0 <= u < |s'.threads|
      ensures OwnedApart(s', u)
    {
      assert OwnedApart(s, u);
    }
    forall b | 0 <= b < |s'.link| && b !in s'.stack
      ensures OwnedBySome(s', b)
    {
      assert OwnedBySome(s, b);
      var u :| 0 <= u < |s.threads| && b in Owned(s.threads[u]);
      assert b in Owned(s'.threads[u]);
    }
  }

  lemma BeginPushKeeps(s: Pool, t: nat, b: nat)
    requires Inv(s) && Enabled(s, BeginPush(t, b))
    ensures Inv(Apply(s, BeginPush(t, b)))
  {
    var s' := Apply(s, BeginPush(t, b));
    assert OwnedApart(s, t);
    assert Owned(s'.threads[t]) == Owned(s.threads[t]);
    forall u | 0 <= u < |s'.threads|
      ensures OwnedApart(s', u)
    {
      assert OwnedApart(s, u);
    }
    forall c | 0 <= c < |s'.link| && c !in s'.stack
      ensures OwnedBySome(s', c)
    {
      assert OwnedBySome(s, c);
      var u :| 0 <= u < |s.threads| && c in Owned(s.threads[u]);
      assert c in Owned(s'.threads[u]);
    }
  }

  lemma WriteLinkKeeps(s: Pool, t: nat)
    requires Inv(s) && Enabled(s, WriteLink(t))
    ensures Inv(Apply(s, WriteLink(t)))
  {
    var s' := Apply(s, WriteLink(t));
    var b := s.threads[t].pc.block;
    assert OwnedApart(s, t) && b in Owned(s.threads[t]);
    assert Owned(s'.threads[t]) == Owned(s.threads[t]);
    assert PcOk(s, s.threads[t]);
    WriteLinkWords(s, t);
    WriteLinkPcs(s, t);
    forall u | 0 <= u < |s'.threads|
      ensures OwnedApart(s', u)
    {
      assert OwnedApart(s, u);
    }
    forall c | 0 <= c < |s'.link| && c !in s'.stack
      ensures OwnedBySome(s', c)
    {
      assert OwnedBySome(s, c);
      var u :| 0 <= u < |s.threads| && c in Owned(s.threads[u]);
      assert c in Owned(s'.threads[u]);
    }
  }

  lemma WriteLinkWords(s: Pool, t: nat)
    requires Inv(s) && Enabled(s, WriteLink(t))
    ensures WordsOk(Apply(s, WriteLink(t))) && Chain(Apply(s, WriteLink(t)))
  {
    assert PcOk(s, s.threads[t]);
    assert OwnedApart(s, t) && s.threads[t].pc.block in Owned(s.threads[t]);
  }

  lemma WriteLinkPcs(s: Pool, t: nat)
    requires Inv(s) && Enabled(s, WriteLink(t))
    ensures PcsOk(Apply(s, WriteLink(t)))
  {
    var s' := Apply(s, WriteLink(t));
    var b := s.threads[t].pc.block;
    assert OwnedApart(s, t) && b in Owned(s.threads[t]);
    forall u | 0 <= u < |s'.threads|
      ensures PcOk(s', s'.threads[u])
    {
      assert PcOk(s, s.threads[u]) && PcOk(s, s.threads[t]);
      if u != t && s.threads[u].pc.PushLinked? {
        assert s.threads[u].pc.block in Owned(s.threads[u]);
        assert Owned(s.threads[t]) !! Owned(s.threads[u]);
      }
      if s.threads[u].pc.PopNext? && s.threads[u].pc.seen == s.cas {
        assert s.stack[0] == s.head.idx;
      }
    }
  }

  /** A matching exchange is made on an unchanged head: no ABA. */
  lemma MatchIsCurrent(s: Pool, t: nat)
    requires Inv(s) && t < |s.threads| && s.threads[t].pc.PopNext?
    requires GenerationFresh(s, s.threads[t].pc.seen)
    ensures s.head == s.threads[t].pc.head
            ==> s.threads[t].pc.seen == s.cas && s.stack != [] && s.stack[0] == s.head.idx
                && s.threads[t].pc.next == Below(s.stack, 0)
  {
    var pc := s.threads[t].pc;
    assert PcOk(s, s.threads[t]);
    if s.head == pc.head && pc.seen < s.cas {
      SameResidue(s.cas, pc.seen);
    }
  }

  lemma SameResidue(a: nat, b: nat)
    requires b <= a && a % U32 == b % U32
    ensures (a - b) % U32 == 0
  {
  }

  lemma PopWords(s: Pool, t: nat)
    requires Inv(s) && Enabled(s, CasPop(t)) && s.head == s.threads[t].pc.head
    ensures WordsOk(ExchangePop(s, t))
  {
    MatchIsCurrent(s, t);
    NextResidue(s.cas);
  }

  lemma PopChain(s: Pool, t: nat)
    requires Inv(s) && Enabled(s, CasPop(t)) && s.head == s.threads[t].pc.head
    ensures Chain(ExchangePop(s, t))
  {
    MatchIsCurrent(s, t);
    var s' := ExchangePop(s, t);
    assert s'.stack == s.stack[1..];
    forall i | 0 <= i < |s'.stack|
      ensures s'.link[s'.stack[i]] == Below(s'.stack, i)
    {
      assert s'.stack[i] == s.stack[i + 1];
    }
  }

  lemma NextResidue(c: nat)
    ensures (c % U32 + 1) % U32 == (c + 1) % U32
  {
  }

  lemma PopOwned(s: Pool, t: nat, u: nat)
    requires Inv(s) && Enabled(s, CasPop(t)) && s.head == s.threads[t].pc.head
    requires u < |s.threads|
    ensures OwnedApart(ExchangePop(s, t), u)
  {
    MatchIsCurrent(s, t);
    var s' := ExchangePop(s, t);
    var b := s.head.idx;
    assert s'.threads[t].held == s.threads[t].held + {b};
    assert b !in s'.stack;
    assert OwnedApart(s, u) && OwnedApart(s, t);
    assert s.stack[0] == b && b in s.stack;
    forall v | 0 <= v < |s'.threads| && v != u
      ensures Owned(s'.threads[u]) !! Owned(s'.threads[v])
    {
      assert OwnedApart(s, v);
      assert Owned(s.threads[u]) !! Owned(s.threads[v]);
    }
  }

  lemma PopComplete(s: Pool, t: nat)
    requires Inv(s) && Enabled(s, CasPop(t)) && s.head == s.threads[t].pc.head
    ensures forall b :: 0 <= b < |s.link| && b !in ExchangePop(s, t).stack ==> OwnedBySome(ExchangePop(s, t), b)
  {
    MatchIsCurrent(s, t);
    var s' := ExchangePop(s, t);
    forall b | 0 <= b < |s.link| && b !in s'.stack
      ensures OwnedBySome(s', b)
    {
      if b == s.head.idx {
        assert b in Owned(s'.threads[t]);
      } else {
        assert b !in s.stack;
        assert OwnedBySome(s, b);
        var u :| 0 <= u < |s.threads| && b in Owned(s.threads[u]);
        assert b in Owned(s'.threads[u]);
      }
    }
  }

  /** After a successful exchange every other snapshot of the head is out of date. */
  lemma ExchangePcs(s: Pool, s': Pool, t: nat)
    requires PcsOk(s) && t < |s.threads| && |s'.threads| == |s.threads|
    requires s'.link == s.link && s'.cas == s.cas + 1
    requires s'.threads[t].pc.Idle? && s'.threads == s.threads[t := s'.threads[t]]
    ensures PcsOk(s')
  {
    forall u | 0 <= u < |s'.threads|
      ensures PcOk(s', s'.threads[u])
    {
      assert PcOk(s, s.threads[u]);
    }
  }

  lemma CasPopKeeps(s: Pool, t: nat)
    requires Inv(s) && Enabled(s, CasPop(t))
    ensures Inv(Apply(s, CasPop(t)))
  {
    var s' := Apply(s, CasPop(t));
    if s.head == s.threads[t].pc.head {
      PopWords(s, t);
      PopChain(s, t);
      PopComplete(s, t);
      forall u | 0 <= u < |s'.threads| ensures OwnedApart(s', u) { PopOwned(s, t, u); }
      ExchangePcs(s, s', t);
    } else {
      LocalStep(s, t, PopHead(s.head, s.cas));
    }
  }

  lemma PushWords(s: Pool, t: nat)
    requires Inv(s) && Enabled(s, CasPush(t)) && s.head == s.threads[t].pc.head
    ensures WordsOk(ExchangePush(s, t))
  {
    assert PcOk(s, s.threads[t]);
    NextResidue(s.cas);
  }

  lemma PushChain(s: Pool, t: nat)
    requires Inv(s) && Enabled(s, CasPush(t)) && s.head == s.threads[t].pc.head
    ensures Chain(ExchangePush(s, t))
  {
    var s' := ExchangePush(s, t);
    var b := s.threads[t].pc.block;
    assert PcOk(s, s.threads[t]);
    assert OwnedApart(s, t) && b in Owned(s.threads[t]);
    forall i | 0 <= i < |s'.stack|
      ensures s'.stack[i] < |s'.link| && s'.link[s'.stack[i]] == Below(s'.stack, i)
    {
      if i > 0 { assert s'.stack[i] == s.stack[i - 1]; }
    }
  }

  lemma PushOwned(s: Pool, t: nat, u: nat)
    requires Inv(s) && Enabled(s, CasPush(t)) && s.head == s.threads[t].pc.head
    requires u < |s.threads|
    ensures OwnedApart(ExchangePush(s, t), u)
  {
    var s' := ExchangePush(s, t);
    assert OwnedApart(s, u) && OwnedApart(s, t) && PcOk(s, s.threads[t]);
    assert Owned(s'.threads[t]) == s.threads[t].held;
    forall c | c in Owned(s'.threads[u])
      ensures c !in s'.stack
    {
      assert c in Owned(s.threads[u]);
      assert s.threads[t].pc.block in Owned(s.threads[t]);
    }
  }

  lemma CasPushKeeps(s: Pool, t: nat)
    requires Inv(s) && Enabled(s, CasPush(t))
    ensures Inv(Apply(s, CasPush(t)))
  {
    var s' := Apply(s, CasPush(t));
    var pc := s.threads[t].pc;
    if s.head == pc.head {
      PushWords(s, t);
      PushChain(s, t);
      forall u | 0 <= u < |s'.threads| ensures OwnedApart(s', u) { PushOwned(s, t, u); }
      PushComplete(s, t);
      ExchangePcs(s, s', t);
    } else {
      assert PcOk(s, s.threads[t]);
      LocalStep(s, t, PushHead(pc.block, s.head));
    }
  }

  lemma PushComplete(s: Pool, t: nat)
    requires Inv(s) && Enabled(s, CasPush(t)) && s.head == s.threads[t].pc.head
    ensures forall b :: 0 <= b < |s.link| && b !in ExchangePush(s, t).stack ==> OwnedBySome(ExchangePush(s, t), b)
  {
    var s' := ExchangePush(s, t);
    assert forall b :: b in s.stack ==> b in s'.stack;
    forall b | 0 <= b < |s.link| && b !in s'.stack
      ensures OwnedBySome(s', b)
    {
      assert s'.stack[0] == s.threads[t].pc.block;
      assert OwnedBySome(s, b);
      var u :| 0 <= u < |s.threads| && b in Owned(s.threads[u]);
      assert b in Owned(s'.threads[u]);
    }
  }

  lemma ReadLinkKeeps(s: Pool, t: nat)
    requires Inv(s) && Enabled(s, ReadLink(t))
    ensures Inv(Apply(s, ReadLink(t)))
  {
    var PopHead(h, seen) := s.threads[t].pc;
    assert PcOk(s, s.threads[t]);
    if h.idx == NO_BLOCK {
      LocalStep(s, t, Idle);
    } else {
      LocalStep(s, t, PopNext(h, seen, s.link[h.idx]));
    }
  }

  lemma StepKeeps(s: Pool, a: Action)
    requires Inv(s) && Enabled(s, a)
    ensures Inv(Apply(s, a))
  {
    var th := s.threads[a.t];
    match a
    case BeginPop(t) => LocalStep(s, t, PopHead(s.head, s.cas));
    case ReadLink(t) => ReadLinkKeeps(s, t);
    case CasPop(t) => CasPopKeeps(s, t);
    case BeginPush(t, b) => BeginPushKeeps(s, t, b);
    case WriteLink(t) => WriteLinkKeeps(s, t);
    case CasPush(t) => CasPushKeeps(s, t);
    case Spurious(t) =>
      assert PcOk(s, th);
      if th.pc.PopNext? { LocalStep(s, t, PopHead(s.head, s.cas)); }
      else { LocalStep(s, t, PushHead(th.pc.block, s.head)); }
  }

  // ---- main results ----

  lemma AnyStepKeeps(s: Pool, s': Pool)
    requires Inv(s) && Step(s, s')
    ensures Inv(s')
  {
    var a :| Enabled(s, a) && s' == Apply(s, a);
    StepKeeps(s, a);
  }

  /** In every state of every interleaving from an initialised pool the list is acyclic,
      duplicate-free and in bounds, and each block has exactly one place. */
  lemma {:induction false} EveryRunKeepsTheList(run: seq<Pool>, n: nat, k: nat)
    requires Run(run, n) && k < |run|
    ensures Inv(run[k])
  {
    if k == 0 {
      InitInv(run[0], n);
    } else {
      EveryRunKeepsTheList(run, n, k - 1);
      assert StepAt(run, k);
      AnyStepKeeps(run[k - 1], run[k]);
    }
  }

  /** No thread ever sees the corruption result `Err(())`. */
  lemma NeverCorrupt(run: seq<Pool>, n: nat, k: nat, t: nat)
    requires Run(run, n) && k < |run| && t < |run[k].threads|
    ensures !run[k].threads[t].pc.Corrupt?
  {
    EveryRunKeepsTheList(run, n, k);
    assert PcOk(run[k], run[k].threads[t]);
  }

  /** Seen through `stack`, each step is one operation of a sequential stack or nothing. */
  predicate StackStep(s: Pool, s': Pool, t: nat)
    requires t < |s.threads| && |s'.threads| == |s.threads|
  {
    || (s'.stack == s.stack && Owned(s'.threads[t]) == Owned(s.threads[t]))
    || (s.stack != [] && s'.stack == s.stack[1..] && s'.head.idx == Top(s'.stack)
        && Owned(s'.threads[t]) == Owned(s.threads[t]) + {s.stack[0]})
    || (s'.stack != [] && s'.stack[1..] == s.stack && s'.stack[0] in Owned(s.threads[t])
        && Owned(s'.threads[t]) == Owned(s.threads[t]) - {s'.stack[0]})
  }

  /** Every step refines an atomic push, an atomic pop of the top block that installs the true
      successor as head, or a stutter, and moves no block of another thread. */
  lemma StepsRefineStack(s: Pool, a: Action)
    requires Inv(s) && Enabled(s, a)
    ensures StackStep(s, Apply(s, a), a.t)
    ensures forall u :: 0 <= u < |s.threads| && u != a.t ==> Apply(s, a).threads[u] == s.threads[u]
  {
    var s' := Apply(s, a);
    assert PcOk(s, s.threads[a.t]);
    if a.CasPop? {
      MatchIsCurrent(s, a.t);
    } else if a.CasPush? && s.head == s.threads[a.t].pc.head {
      assert s'.stack[1..] == s.stack;
    } else if a.BeginPush? {
      assert Owned(s'.threads[a.t]) == Owned(s.threads[a.t]);
    }
  }

  // ---- when alloc_block finds nothing ----

  predicate Popping(pc: Pc) { pc.PopHead? || pc.PopNext? }

  /** Only a pop that loaded an empty head ends without a block. */
  lemma EmptyHandedStep(s: Pool, a: Action, t: nat)
    requires Inv(s) && Enabled(s, a) && t < |s.threads| && Popping(s.threads[t].pc)
    requires Apply(s, a).threads[t].pc.Idle? && Apply(s, a).threads[t].held == s.threads[t].held
    ensures s.threads[t].pc.head.idx == NO_BLOCK
  {
    assert PcOk(s, s.threads[t]);
    if a.CasPop? && a.t == t && s.head == s.threads[t].pc.head { PopGains(s, t); }
  }

  lemma PopGains(s: Pool, t: nat)
    requires Inv(s) && Enabled(s, CasPop(t)) && s.head == s.threads[t].pc.head
    ensures ExchangePop(s, t).threads[t].held != s.threads[t].held
  {
    MatchIsCurrent(s, t);
    var b := s.threads[t].pc.head.idx;
    assert b == s.stack[0] && OwnedApart(s, t);
    assert b !in Owned(s.threads[t]);
    assert ExchangePop(s, t).threads[t] == Thread(s.threads[t].held + {b}, Idle);
    assert b in s.threads[t].held + {b};
  }

  lemma SameLoad(s: Pool, a: Action, t: nat)
    requires Enabled(s, a) && t < |s.threads| && Popping(Apply(s, a).threads[t].pc)
    ensures var pc, pc' := s.threads[t].pc, Apply(s, a).threads[t].pc;
            || (pc'.head == s.head && pc'.seen == s.cas)
            || (Popping(pc) && pc'.head == pc.head && pc'.seen == pc.seen)
  {
  }

  /** When a pop in progress loaded its head: the state before that step. */
  lemma {:induction false} LoadedAt(run: seq<Pool>, blocks: nat, n: nat, t: nat) returns (k: nat)
    requires Run(run, blocks) && n < |run| && t < |run[n].threads| && Popping(run[n].threads[t].pc)
    ensures k < n && run[k].head == run[n].threads[t].pc.head && |run[k].threads| == |run[n].threads|
    ensures forall j :: k < j <= n ==> t < |run[j].threads| && Popping(run[j].threads[t].pc)
  {
    var s, s' := run[n - 1], run[n];
    assert StepAt(run, n);
    var a :| Enabled(s, a) && s' == Apply(s, a);
    SameLoad(s, a, t);
    if s'.threads[t].pc.head == s.head && s'.threads[t].pc.seen == s.cas {
      k := n - 1;
    } else {
      k := LoadedAt(run, blocks, n - 1, t);
    }
  }

  /** An allocation that ends without a block saw the pool empty: at a moment of the call the list
      had no block. */
  lemma EmptyHandedSawEmptyList(run: seq<Pool>, blocks: nat, n: nat, t: nat)
    requires Run(run, blocks) && 0 < n < |run| && t < |run[n - 1].threads| && Popping(run[n - 1].threads[t].pc)
    requires |run[n].threads| == |run[n - 1].threads|
    requires run[n].threads[t].pc.Idle? && run[n].threads[t].held == run[n - 1].threads[t].held
    ensures exists k :: 0 <= k < n && run[k].stack == []
              && forall j :: k < j < n ==> t < |run[j].threads| && Popping(run[j].threads[t].pc)
  {
    EmptyHandedHead(run, blocks, n, t);
    var k := LoadedAt(run, blocks, n - 1, t);
    EmptyHead(run, blocks, k);
  }

  lemma EmptyHandedHead(run: seq<Pool>, blocks: nat, n: nat, t: nat)
    requires Run(run, blocks) && 0 < n < |run| && t < |run[n - 1].threads| && Popping(run[n - 1].threads[t].pc)
    requires |run[n].threads| == |run[n - 1].threads|
    requires run[n].threads[t].pc.Idle? && run[n].threads[t].held == run[n - 1].threads[t].held
    ensures run[n - 1].threads[t].pc.head.idx == NO_BLOCK
  {
    EveryRunKeepsTheList(run, blocks, n - 1);
    assert StepAt(run, n);
    var a :| Enabled(run[n - 1], a) && run[n] == Apply(run[n - 1], a);
    EmptyHandedStep(run[n - 1], a, t);
  }

  lemma EmptyHead(run: seq<Pool>, blocks: nat, k: nat)
    requires Run(run, blocks) && k < |run| && run[k].head.idx == NO_BLOCK
    ensures run[k].stack == []
  {
    EveryRunKeepsTheList(run, blocks, k);
  }

  // ---- the generation assumption is needed ----

  /** Four blocks, `c` exchanges. Thread 0 read the link of block 0 before the first exchange, when
      it named block 1; now block 0 is on top of block 2, and blocks 1 and 3 belong to thread 1. */
  function StalePool(c: nat): Pool {
    Pool([2, 2, NO_BLOCK, NO_BLOCK], Head(c % U32, 0), c, [0, 2],
         [Thread({}, PopNext(Head(0, 0), 0, 1)), Thread({1, 3}, Idle)])
  }

  ghost function End(run: seq<Pool>): Pool
    requires run != []
  {
    run[|run| - 1]
  }

  lemma Extend(run: seq<Pool>, n: nat, a: Action) returns (run': seq<Pool>)
    requires Run(run, n) && Enabled(End(run), a)
    ensures Run(run', n) && run' == run + [Apply(End(run), a)]
  {
    run' := run + [Apply(End(run), a)];
    assert Step(End(run), Apply(End(run), a));
    forall i | 0 < i < |run'| ensures StepAt(run', i) {
      if i < |run| { assert StepAt(run, i); }
    }
  }

  /** An undisturbed pop by thread 1. */
  lemma PopRun(run: seq<Pool>, n: nat, held: set<nat>) returns (run': seq<Pool>)
    requires Run(run, n) && |End(run).threads| == 2 && End(run).threads[1] == Thread(held, Idle) && End(run).stack != []
    ensures Run(run', n)
    ensures var s := End(run);
            End(run') == s.(head := Head(NextGen(s.head), Top(s.stack[1..])), cas := s.cas + 1, stack := s.stack[1..],
                            threads := [s.threads[0], Thread(held + {s.stack[0]}, Idle)])
  {
    EveryRunKeepsTheList(run, n, |run| - 1);
    var s := End(run);
    assert s.link[s.stack[0]] == Below(s.stack, 0);
    run' := Extend(run, n, BeginPop(1));
    run' := Extend(run', n, ReadLink(1));
    assert End(run').threads[1].pc == PopNext(s.head, s.cas, Top(s.stack[1..]));
    run' := Extend(run', n, CasPop(1));
    assert End(run').threads == [s.threads[0], Thread(held + {s.stack[0]}, Idle)];
  }

  /** An undisturbed push by thread 1. */
  lemma PushRun(run: seq<Pool>, n: nat, held: set<nat>, b: nat) returns (run': seq<Pool>)
    requires Run(run, n) && |End(run).threads| == 2 && End(run).threads[1] == Thread(held, Idle) && b in held
    ensures Run(run', n) && b < |End(run).link|
    ensures var s := End(run);
            End(run') == s.(link := s.link[b := s.head.idx], head := Head(NextGen(s.head), b), cas := s.cas + 1,
                            stack := [b] + s.stack, threads := [s.threads[0], Thread(held - {b}, Idle)])
  {
    EveryRunKeepsTheList(run, n, |run| - 1);
    var s := End(run);
    assert b in Owned(s.threads[1]) && OwnedApart(s, 1);
    run' := Extend(run, n, BeginPush(1, b));
    run' := Extend(run', n, WriteLink(1));
    run' := Extend(run', n, CasPush(1));
    assert End(run').threads == [s.threads[0], Thread(held - {b}, Idle)];
  }

  /** Thread 0 is interrupted between reading the link and its exchange. */
  lemma StartRun() returns (run: seq<Pool>)
    ensures Run(run, 4)
    ensures End(run) == Pool([1, 2, 3, NO_BLOCK], Head(0, 0), 0, [0, 1, 2, 3],
                             [Thread({}, PopNext(Head(0, 0), 0, 1)), Thread({}, Idle)])
  {
    var s := Pool([1, 2, 3, NO_BLOCK], Head(0, 0), 0, [0, 1, 2, 3], [Thread({}, Idle), Thread({}, Idle)]);
    assert s.stack == seq(4, i => i);
    run := [s];
    run := Extend(run, 4, BeginPop(0));
    run := Extend(run, 4, ReadLink(0));
    assert End(run).threads == [Thread({}, PopNext(Head(0, 0), 0, 1)), Thread({}, Idle)];
  }

  /** Thread 1 takes all four blocks. */
  lemma DrainRun() returns (run: seq<Pool>)
    ensures Run(run, 4)
    ensures End(run) == Pool([1, 2, 3, NO_BLOCK], Head(4, NO_BLOCK), 4, [],
                             [Thread({}, PopNext(Head(0, 0), 0, 1)), Thread({0, 1, 2, 3}, Idle)])
  {
    run := StartRun();
    run := PopRun(run, 4, {});
    assert End(run).stack == [1, 2, 3];
    run := PopRun(run, 4, {0});
    assert End(run).stack == [2, 3];
    run := PopRun(run, 4, {0, 1});
    assert End(run).stack == [3];
    run := PopRun(run, 4, {0, 1, 2});
    assert {0, 1, 2} + {3} == {0, 1, 2, 3};
  }

  /** And returns two of them in another order. */
  lemma ReorderRun() returns (run: seq<Pool>)
    ensures Run(run, 4) && End(run) == StalePool(6)
  {
    run := DrainRun();
    run := PushRun(run, 4, {0, 1, 2, 3}, 2);
    assert {0, 1, 2, 3} - {2} == {0, 1, 3};
    run := PushRun(run, 4, {0, 1, 3}, 0);
    assert {0, 1, 3} - {0} == {1, 3};
    assert End(run).link == [2, 2, NO_BLOCK, NO_BLOCK];
  }

  /** Taking block 0 and putting it back leaves everything but the generation as it was. */
  lemma RoundRun(run: seq<Pool>, c: nat) returns (run': seq<Pool>)
    requires Run(run, 4) && End(run) == StalePool(c)
    ensures Run(run', 4) && End(run') == StalePool(c + 2)
  {
    run' := PopRun(run, 4, {1, 3});
    assert End(run').stack == [2] && Top([2]) == 2;
    run' := PushRun(run', 4, {1, 3} + {0}, 0);
    assert {1, 3} + {0} - {0} == {1, 3};
    assert [2, 2, NO_BLOCK, NO_BLOCK][0 := 2] == [2, 2, NO_BLOCK, NO_BLOCK];
  }

  lemma {:induction false} RoundsRun(rounds: nat) returns (run: seq<Pool>)
    ensures Run(run, 4) && End(run) == StalePool(6 + 2 * rounds)
  {
    if rounds == 0 {
      run := ReorderRun();
    } else {
      run := RoundsRun(rounds - 1);
      run := RoundRun(run, 4 + 2 * rounds);
    }
  }

  /** The assumption is needed: a run leads to a state in which thread 0's exchange would succeed
      on its stale link, because the generation came round, and would hand block 1 to the list
      although thread 1 owns it. */
  lemma WrapBreaksTheList() returns (run: seq<Pool>)
    ensures Run(run, 4)
    ensures var s := End(run);
            && |s.threads| == 2 && s.threads[0].pc.PopNext? && s.head == s.threads[0].pc.head
            && !GenerationFresh(s, s.threads[0].pc.seen)
            && 1 in Owned(s.threads[1]) && ExchangePop(s, 0).head.idx == 1 && !Inv(ExchangePop(s, 0))
  {
    run := RoundsRun((U32 - 6) / 2);
    var s := End(run);
    assert s == StalePool(U32) && s.head == Head(0, 0);
    assert Rest(s.stack) == [2];
  }

  /** The stale exchange is exactly the wrapped one: a snapshot older than the head still
      matches it only if the generation came round. */
  lemma StaleMatchNeedsWrap(s: Pool, t: nat)
    requires Inv(s) && t < |s.threads| && s.threads[t].pc.PopNext?
    ensures s.threads[t].pc.seen < s.cas && s.head == s.threads[t].pc.head
            <==> !GenerationFresh(s, s.threads[t].pc.seen) && Top(s.stack) == s.threads[t].pc.head.idx
  {
    var pc := s.threads[t].pc;
    assert PcOk(s, s.threads[t]);
    if pc.seen < s.cas && s.cas % U32 == pc.seen % U32 {
      SameResidue(s.cas, pc.seen);
    }
  }
}
