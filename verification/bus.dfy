/** The stamped broadcast ring, one step per atomic access and one per payload word
    (`PodBus::publish_unchecked`, `BusSubscriber::try_recv`).

    One publisher and any number of subscribers interleave. `log` records the published values
    in order, the value being written included; `Sub.delivered` and `Sub.got` record what a
    subscriber has returned. Sequences stay below 2^62, so stamps do not wrap. */
module Bus {
  import opened Words
  import opened Sums

  type Word = int

  datatype Slot = Slot(stamp: nat, words: seq<Word>)

  datatype PubPc =
    | Quiet
    | Writing(done: set<nat>)   // odd stamp stored, the words at these positions written
    | Stamped                   // even stamp stored, write_seq not yet advanced

  datatype SubPc =
    | Idle
    | Aimed                                        // cursor < head, skipped ahead if too far behind
    | Reading(stamp: nat, words: map<nat, Word>)   // even stamp loaded, some words read
    | Reporting                                    // value taken, cursor not yet stored in shared memory

  datatype Sub = Sub(start: nat, cursor: nat, lagged: nat, delivered: seq<nat>, got: seq<seq<Word>>, pc: SubPc)

  datatype State = State(size: nat, width: nat, slots: seq<Slot>, writeSeq: nat, pub: PubPc,
                         log: seq<seq<Word>>, subs: seq<Sub>)

  datatype PubStep = Begin(value: seq<Word>) | WriteWord(k: nat) | Commit | Advance

  datatype SubStep = LoadHead | LoadStamp | ReadWord(k: nat) | Verify | Report

  datatype Action = Publish(pub: PubStep) | Connect | Receive(i: nat, sub: SubStep)

  // ---- publisher ----

  function Index(s: State, q: nat): nat
    requires 0 < s.size
  {
    q % s.size
  }

  predicate PubEnabled(s: State, a: PubStep) {
    && 0 < s.size == |s.slots|
    && match a
       case Begin(v) => s.pub.Quiet? && |v| == s.width
       case WriteWord(k) => s.pub.Writing? && k < s.width && s.writeSeq < |s.log| && |s.log[s.writeSeq]| == s.width
                         && |s.slots[Index(s, s.writeSeq)].words| == s.width
       case Commit => s.pub.Writing? && forall k :: 0 <= k < s.width ==> k in s.pub.done
       case Advance => s.pub.Stamped?
  }

  function PutSlot(s: State, q: nat, slot: Slot): State
    requires 0 < s.size == |s.slots|
  {
    s.(slots := s.slots[Index(s, q) := slot])
  }

  function ApplyPub(s: State, a: PubStep): State
    requires PubEnabled(s, a)
  {
    var w := s.writeSeq;
    var slot := s.slots[Index(s, w)];
    match a
    case Begin(v) => PutSlot(s, w, slot.(stamp := w * 2 + 1)).(pub := Writing({}), log := s.log + [v])
    case WriteWord(k) =>
      PutSlot(s, w, slot.(words := slot.words[k := s.log[w][k]])).(pub := Writing(s.pub.done + {k}))
    case Commit => PutSlot(s, w, slot.(stamp := w * 2 + 2)).(pub := Stamped)
    case Advance => s.(writeSeq := w + 1, pub := Quiet)
  }

  // ---- subscribers ----

  predicate AllRead(words: map<nat, Word>, width: nat) { forall k :: 0 <= k < width ==> k in words }

  /** The value put together from the words read. */
  function Assemble(words: map<nat, Word>, width: nat): seq<Word>
    requires AllRead(words, width)
  {
    seq(width, k requires 0 <= k < width => words[k])
  }

  predicate SubEnabled(s: State, i: nat, a: SubStep) {
    && i < |s.subs| && 0 < s.size == |s.slots|
    && var sub := s.subs[i];
       match a
       case LoadHead => sub.pc.Idle?
       case LoadStamp => sub.pc.Aimed?
       case ReadWord(k) => sub.pc.Reading? && k < s.width == |s.slots[Index(s, sub.cursor)].words|
       case Verify => sub.pc.Reading? && AllRead(sub.pc.words, s.width)
       case Report => sub.pc.Reporting?
  }

  /** `u64` subtraction. */
  function Minus(a: nat, b: nat): nat { if b <= a then a - b else (a + U64 - b % U64) % U64 }

  function SubNext(s: State, i: nat, a: SubStep): Sub
    requires SubEnabled(s, i, a)
  {
    var sub := s.subs[i];
    var slot := s.slots[Index(s, sub.cursor)];
    match a
    case LoadHead =>
      var head := s.writeSeq;
      if sub.cursor >= head then sub
      else if head - sub.cursor > s.size then
        sub.(lagged := sub.lagged + (head - s.size - sub.cursor), cursor := head - s.size, pc := Aimed)
      else sub.(pc := Aimed)
    case LoadStamp =>
      if slot.stamp % 2 != 0 || slot.stamp == 0 then sub.(pc := Idle) else sub.(pc := Reading(slot.stamp, map[]))
    case ReadWord(k) => sub.(pc := Reading(sub.pc.stamp, sub.pc.words[k := slot.words[k]]))
    case Verify =>
      if slot.stamp != sub.pc.stamp then sub.(pc := Idle)
      else if sub.pc.stamp != sub.cursor * 2 + 2 then
        var next := Minus(sub.pc.stamp / 2, 1) + 1;
        sub.(lagged := sub.lagged + Minus(next, sub.cursor), cursor := next, pc := Idle)
      else
        sub.(delivered := sub.delivered + [sub.cursor], got := sub.got + [Assemble(sub.pc.words, s.width)],
             cursor := sub.cursor + 1, pc := Reporting)
    case Report => sub.(pc := Idle)
  }

  function ApplySub(s: State, i: nat, a: SubStep): State
    requires SubEnabled(s, i, a)
  {
    s.(subs := s.subs[i := SubNext(s, i, a)])
  }

  // ---- the transition system ----

  predicate Enabled(s: State, a: Action) {
    match a
    case Publish(x) => PubEnabled(s, x)
    case Connect => true
    case Receive(i, x) => SubEnabled(s, i, x)
  }

  function Apply(s: State, a: Action): State
    requires Enabled(s, a)
  {
    match a
    case Publish(x) => ApplyPub(s, x)
    case Connect => s.(subs := s.subs + [Sub(s.writeSeq, s.writeSeq, 0, [], [], Idle)])
    case Receive(i, x) => ApplySub(s, i, x)
  }

  predicate Init(s: State) {
    && 0 < s.size == |s.slots|
    && (forall i :: 0 <= i < |s.slots| ==> s.slots[i].stamp == 0 && |s.slots[i].words| == s.width)
    && s.writeSeq == 0 && s.pub.Quiet? && s.log == [] && s.subs == []
  }

  ghost predicate Step(s: State, s': State) { exists a :: Enabled(s, a) && s' == Apply(s, a) }

  ghost predicate StepAt(run: seq<State>, i: nat)
    requires 0 < i < |run|
  {
    Step(run[i - 1], run[i])
  }

  ghost predicate Run(run: seq<State>) {
    run != [] && Init(run[0]) && forall i :: 0 < i < |run| ==> StepAt(run, i)
  }

  // ---- invariant ----

  /** Number of sequences whose even stamp has been stored. */
  function Done(s: State): nat { if s.pub.Stamped? then s.writeSeq + 1 else s.writeSeq }

  predicate LogOk(s: State) {
    && 0 < s.size == |s.slots|
    && |s.log| == (if s.pub.Quiet? then s.writeSeq else s.writeSeq + 1)
    && (forall q :: 0 <= q < |s.log| ==> |s.log[q]| == s.width)
  }

  /** `q` is the newest committed sequence of slot `i`. */
  predicate Newest(s: State, i: nat, q: nat)
    requires 0 < s.size
  {
    q < Done(s) <= q + s.size && Index(s, q) == i
  }

  predicate SlotOk(s: State, i: nat)
    requires LogOk(s) && i < |s.slots|
  {
    var slot := s.slots[i];
    && |slot.words| == s.width
    && if s.pub.Writing? && i == Index(s, s.writeSeq) then
         slot.stamp == s.writeSeq * 2 + 1
         && (forall k :: 0 <= k < s.width && k in s.pub.done ==> slot.words[k] == s.log[s.writeSeq][k])
       else if slot.stamp == 0 then Done(s) <= i
       else slot.stamp % 2 == 0 && Newest(s, i, slot.stamp / 2 - 1) && slot.words == s.log[slot.stamp / 2 - 1]
  }

  predicate SlotsOk(s: State)
    requires LogOk(s)
  {
    forall i :: 0 <= i < |s.slots| ==> SlotOk(s, i)
  }

  /** Every delivered value is the published value of its sequence, and
      cursor - start = delivered + lagged. */
  predicate TallyOk(s: State, sub: Sub) {
    && sub.start <= sub.cursor <= Done(s)
    && sub.cursor - sub.start == |sub.delivered| + sub.lagged
    && |sub.got| == |sub.delivered| && Increasing(sub.delivered)
    && (forall j :: 0 <= j < |sub.delivered| ==>
          && sub.start <= sub.delivered[j] < sub.cursor && sub.delivered[j] < |s.log|
          && sub.got[j] == s.log[sub.delivered[j]])
  }

  /** A loaded stamp is not older than the cursor, never comes back once replaced, and while it
      stands the words read are words of the slot. */
  predicate ReadOk(s: State, sub: Sub)
    requires 0 < s.size == |s.slots|
  {
    var slot := s.slots[Index(s, sub.cursor)];
    && (sub.pc.Aimed? || sub.pc.Reading? ==> sub.cursor < s.writeSeq)
    && (sub.pc.Reading? ==>
          && sub.pc.stamp % 2 == 0 && sub.cursor * 2 + 2 <= sub.pc.stamp <= slot.stamp
          && (slot.stamp == sub.pc.stamp ==>
                forall k :: k in sub.pc.words ==> k < |slot.words| && sub.pc.words[k] == slot.words[k]))
  }

  predicate SubOk(s: State, sub: Sub)
    requires 0 < s.size == |s.slots|
  {
    TallyOk(s, sub) && ReadOk(s, sub)
  }

  predicate SubsOk(s: State)
    requires 0 < s.size == |s.slots|
  {
    forall i :: 0 <= i < |s.subs| ==> SubOk(s, s.subs[i])
  }

  predicate Inv(s: State) { LogOk(s) && SlotsOk(s) && SubsOk(s) }

  lemma InitInv(s: State)
    requires Init(s)
    ensures Inv(s)
  {
  }

  // ---- arithmetic of slots ----

  /** A committed sequence is shown by its slot, or something newer is. */
  lemma CommittedOrNewer(s: State, c: nat)
    requires LogOk(s) && SlotsOk(s) && c < s.writeSeq
    ensures s.slots[Index(s, c)].stamp >= c * 2 + 2
  {
    var i := Index(s, c);
    assert SlotOk(s, i);
    var slot := s.slots[i];
    if s.pub.Writing? && i == Index(s, s.writeSeq) {
    } else if slot.stamp == 0 {
      ModSmall(c, s.size);
    } else {
      var q := slot.stamp / 2 - 1;
      if q < c { SameResidueGap(q, c, s.size); }
    }
  }

  lemma ModSmall(c: nat, d: nat)
    requires 0 < d
    ensures c % d <= c
  {
  }

  // ---- publisher steps ----

  lemma BeginSlots(s: State, v: seq<Word>, i: nat)
    requires Inv(s) && PubEnabled(s, Begin(v)) && i < |s.slots| && LogOk(ApplyPub(s, Begin(v)))
    ensures SlotOk(ApplyPub(s, Begin(v)), i)
  {
    assert SlotOk(s, i);
  }

  lemma WriteWordSlots(s: State, k: nat, i: nat)
    requires Inv(s) && PubEnabled(s, WriteWord(k)) && i < |s.slots| && LogOk(ApplyPub(s, WriteWord(k)))
    ensures SlotOk(ApplyPub(s, WriteWord(k)), i)
  {
    assert SlotOk(s, i);
  }

  lemma CommitSlots(s: State, i: nat)
    requires Inv(s) && PubEnabled(s, Commit) && i < |s.slots| && LogOk(ApplyPub(s, Commit))
    ensures SlotOk(ApplyPub(s, Commit), i)
  {
    assert SlotOk(s, i);
    var s' := ApplyPub(s, Commit);
    var w := s.writeSeq;
    if i == Index(s, w) {
      assert s.slots[i].words == s.log[w];
      assert s'.slots[i].stamp / 2 - 1 == w;
    } else if s.slots[i].stamp == 0 {
      NeverYet(s, i);
    } else {
      var q := s.slots[i].stamp / 2 - 1;
      assert Newest(s, i, q);
      StaysNewest(s, q);
    }
  }

  /** A slot other than the one just written keeps its newest sequence. */
  lemma StaysNewest(s: State, q: nat)
    requires 0 < s.size && q < s.writeSeq <= q + s.size && Index(s, q) != Index(s, s.writeSeq)
    ensures s.writeSeq + 1 <= q + s.size
  {
    if s.writeSeq == q + s.size { AddModulus(q, s.size); }
  }

  lemma NeverYet(s: State, i: nat)
    requires 0 < s.size && s.writeSeq <= i < s.size && i != Index(s, s.writeSeq)
    ensures s.writeSeq + 1 <= i
  {
    assert s.writeSeq < s.size ==> Index(s, s.writeSeq) == s.writeSeq;
  }

  lemma AdvanceSlots(s: State, i: nat)
    requires Inv(s) && PubEnabled(s, Advance) && i < |s.slots| && LogOk(ApplyPub(s, Advance))
    ensures SlotOk(ApplyPub(s, Advance), i)
  {
    assert SlotOk(s, i);
  }

  lemma PubSlots(s: State, a: PubStep)
    requires Inv(s) && PubEnabled(s, a)
    ensures LogOk(ApplyPub(s, a)) && SlotsOk(ApplyPub(s, a))
  {
    var s' := ApplyPub(s, a);
    forall i | 0 <= i < |s'.slots| ensures SlotOk(s', i) {
      match a
      case Begin(v) => BeginSlots(s, v, i);
      case WriteWord(k) => WriteWordSlots(s, k, i);
      case Commit => CommitSlots(s, i);
      case Advance => AdvanceSlots(s, i);
    }
  }

  /** No publisher step makes a stamp come back, so no reader is misled. */
  lemma PubKeepsReader(s: State, a: PubStep, sub: Sub)
    requires Inv(s) && PubEnabled(s, a) && SubOk(s, sub)
    ensures SubOk(ApplyPub(s, a), sub)
  {
    var s' := ApplyPub(s, a);
    var i := Index(s, sub.cursor);
    var w := Index(s, s.writeSeq);
    assert SlotOk(s, i) && SlotOk(s, w);
    assert TallyOk(s', sub);
  }

  lemma PubKeeps(s: State, a: PubStep)
    requires Inv(s) && PubEnabled(s, a)
    ensures Inv(ApplyPub(s, a))
  {
    PubSlots(s, a);
    var s' := ApplyPub(s, a);
    forall i | 0 <= i < |s'.subs| ensures SubOk(s', s'.subs[i]) { PubKeepsReader(s, a, s.subs[i]); }
  }

  // ---- subscriber steps ----

  lemma LoadHeadOk(s: State, i: nat)
    requires Inv(s) && SubEnabled(s, i, LoadHead)
    ensures SubOk(s, SubNext(s, i, LoadHead))
  {
    assert SubOk(s, s.subs[i]);
  }

  /** Once the cursor is below the head its slot has been written, and not with anything older. */
  lemma LoadStampOk(s: State, i: nat)
    requires Inv(s) && SubEnabled(s, i, LoadStamp)
    ensures SubOk(s, SubNext(s, i, LoadStamp))
    ensures s.slots[Index(s, s.subs[i].cursor)].stamp != 0
  {
    assert SubOk(s, s.subs[i]);
    CommittedOrNewer(s, s.subs[i].cursor);
  }

  lemma ReadWordOk(s: State, i: nat, k: nat)
    requires Inv(s) && SubEnabled(s, i, ReadWord(k))
    ensures SubOk(s, SubNext(s, i, ReadWord(k)))
  {
    assert SubOk(s, s.subs[i]);
  }

  lemma VerifySkips(s: State, i: nat)
    requires Inv(s) && SubEnabled(s, i, Verify)
    requires s.slots[Index(s, s.subs[i].cursor)].stamp == s.subs[i].pc.stamp != s.subs[i].cursor * 2 + 2
    ensures SubOk(s, SubNext(s, i, Verify))
  {
    var sub := s.subs[i];
    assert SubOk(s, sub) && SlotOk(s, Index(s, sub.cursor));
    VerifyBound(s, i);
  }

  /** A mismatched even stamp belongs to a sequence above the cursor: the lag does not underflow. */
  lemma VerifyBound(s: State, i: nat)
    requires Inv(s) && i < |s.subs| && s.subs[i].pc.Reading?
    requires s.slots[Index(s, s.subs[i].cursor)].stamp == s.subs[i].pc.stamp
    ensures var q := s.subs[i].pc.stamp / 2 - 1;
            s.subs[i].cursor <= q < s.writeSeq || (q == s.writeSeq && s.pub.Stamped?)
    ensures s.subs[i].pc.stamp == (s.subs[i].pc.stamp / 2 - 1) * 2 + 2
  {
    var sub := s.subs[i];
    assert SubOk(s, sub) && SlotOk(s, Index(s, sub.cursor));
  }

  /** A verified read at the cursor is the published value of that sequence, never a mix. */
  lemma VerifyDelivers(s: State, i: nat)
    requires Inv(s) && SubEnabled(s, i, Verify)
    requires s.slots[Index(s, s.subs[i].cursor)].stamp == s.subs[i].pc.stamp == s.subs[i].cursor * 2 + 2
    ensures s.subs[i].cursor < s.writeSeq <= |s.log| && Assemble(s.subs[i].pc.words, s.width) == s.log[s.subs[i].cursor]
  {
    var sub := s.subs[i];
    assert SubOk(s, sub) && SlotOk(s, Index(s, sub.cursor));
    assert s.slots[Index(s, sub.cursor)].words == s.log[sub.cursor];
  }

  lemma VerifyOk(s: State, i: nat)
    requires Inv(s) && SubEnabled(s, i, Verify)
    ensures SubOk(s, SubNext(s, i, Verify))
  {
    var sub := s.subs[i];
    assert SubOk(s, sub);
    if s.slots[Index(s, sub.cursor)].stamp == sub.pc.stamp {
      if sub.pc.stamp != sub.cursor * 2 + 2 { VerifySkips(s, i); } else { VerifyDelivers(s, i); }
    }
  }

  lemma SubKeeps(s: State, i: nat, a: SubStep)
    requires Inv(s) && SubEnabled(s, i, a)
    ensures Inv(ApplySub(s, i, a))
  {
    SubNextOk(s, i, a);
    OneSub(s, i, SubNext(s, i, a));
  }

  lemma SubNextOk(s: State, i: nat, a: SubStep)
    requires Inv(s) && SubEnabled(s, i, a)
    ensures SubOk(s, SubNext(s, i, a))
  {
    assert SubOk(s, s.subs[i]);
    match a
    case LoadHead => LoadHeadOk(s, i);
    case LoadStamp => LoadStampOk(s, i);
    case ReadWord(k) => ReadWordOk(s, i, k);
    case Verify => VerifyOk(s, i);
    case Report =>
  }

  lemma OneSub(s: State, i: nat, sub: Sub)
    requires Inv(s) && i < |s.subs| && SubOk(s, sub)
    ensures Inv(s.(subs := s.subs[i := sub]))
  {
    var s' := s.(subs := s.subs[i := sub]);
    forall j | 0 <= j < |s'.slots| ensures SlotOk(s', j) { assert SlotOk(s, j); }
    forall j | 0 <= j < |s'.subs| ensures SubOk(s', s'.subs[j]) { assert SubOk(s, s.subs[j]); }
  }

  lemma ConnectKeeps(s: State)
    requires Inv(s)
    ensures Inv(Apply(s, Connect))
  {
    var s' := Apply(s, Connect);
    forall j | 0 <= j < |s'.slots| ensures SlotOk(s', j) { assert SlotOk(s, j); }
    forall j | 0 <= j < |s'.subs| ensures SubOk(s', s'.subs[j]) {
      if j < |s.subs| { assert SubOk(s, s.subs[j]); }
    }
  }

  // ---- main results ----

  lemma StepKeeps(s: State, a: Action)
    requires Inv(s) && Enabled(s, a)
    ensures Inv(Apply(s, a))
  {
    match a
    case Publish(x) => PubKeeps(s, x);
    case Connect => ConnectKeeps(s);
    case Receive(i, x) => SubKeeps(s, i, x);
  }

  lemma AnyStepKeeps(s: State, s': State)
    requires Inv(s) && Step(s, s')
    ensures Inv(s')
  {
    var a :| Enabled(s, a) && s' == Apply(s, a);
    StepKeeps(s, a);
  }

  lemma {:induction false} EveryRunKeepsInv(run: seq<State>, n: nat)
    requires Run(run) && n < |run|
    ensures Inv(run[n])
  {
    if n == 0 {
      InitInv(run[0]);
    } else {
      EveryRunKeepsInv(run, n - 1);
      assert StepAt(run, n);
      AnyStepKeeps(run[n - 1], run[n]);
    }
  }

  /** Lossy delivery in every interleaving: each returned value is, word for word, the value
      published under its sequence; sequences strictly increase; and the cursor has moved by
      exactly what was delivered plus what was counted as lag. */
  lemma DeliveryIsExact(run: seq<State>, n: nat, i: nat)
    requires Run(run) && n < |run| && i < |run[n].subs|
    ensures var sub := run[n].subs[i];
            && Increasing(sub.delivered) && |sub.got| == |sub.delivered|
            && (forall j :: 0 <= j < |sub.got| ==>
                  sub.delivered[j] < |run[n].log| && sub.got[j] == run[n].log[sub.delivered[j]])
            && sub.start <= sub.cursor && sub.cursor - sub.start == |sub.delivered| + sub.lagged
  {
    EveryRunKeepsInv(run, n);
    assert SubOk(run[n], run[n].subs[i]);
  }

  /** Once the cursor is below the head, its slot is not the never-written one, and an even
      stamp found there is not below the cursor's: `written_seq + 1 - cursor` is positive. */
  lemma LagNeverUnderflows(run: seq<State>, n: nat, i: nat)
    requires Run(run) && n < |run| && i < |run[n].subs|
    ensures var s := run[n];
            var sub := s.subs[i];
            0 < s.size == |s.slots|
            && (sub.pc.Aimed? ==> s.slots[Index(s, sub.cursor)].stamp != 0)
            && (sub.pc.Reading? ==> sub.pc.stamp % 2 == 0 && sub.cursor < sub.pc.stamp / 2 - 1 + 1)
  {
    EveryRunKeepsInv(run, n);
    var s := run[n];
    var sub := s.subs[i];
    assert SubOk(s, sub);
    if sub.pc.Aimed? { CommittedOrNewer(s, sub.cursor); }
  }

  // ---- when a receive returns nothing ----

  /** A receive starts exactly if the cursor is below the head, at the oldest sequence the ring can
      still hold. */
  lemma ReceiveStarts(s: State, i: nat)
    requires SubEnabled(s, i, LoadHead)
    ensures var sub, sub' := s.subs[i], SubNext(s, i, LoadHead);
            && (sub'.pc.Aimed? <==> sub.cursor < s.writeSeq) && sub'.delivered == sub.delivered
            && (sub'.pc.Aimed? ==> sub.cursor <= sub'.cursor && s.writeSeq <= sub'.cursor + s.size
                                   && (sub'.cursor == sub.cursor || sub'.cursor + s.size == s.writeSeq))
            && (!sub'.pc.Aimed? ==> sub' == sub)
  {
  }

  lemma GivesUpOnlyIfOverwritten(s: State, i: nat, x: SubStep)
    requires Inv(s) && SubEnabled(s, i, x) && (s.subs[i].pc.Aimed? || s.subs[i].pc.Reading?)
    requires SubNext(s, i, x).pc.Idle?
    ensures SubNext(s, i, x).delivered == s.subs[i].delivered && !Available(s, s.subs[i].cursor)
  {
    assert SubOk(s, s.subs[i]) && SlotOk(s, Index(s, s.subs[i].cursor));
  }

  /** In every run a started receive ends without a value only if, at that moment, the ring no longer
      holds the sequence it was after. */
  lemma EmptyReceiveWasOverwritten(run: seq<State>, n: nat, i: nat)
    requires Run(run) && 0 < n < |run| && i < |run[n - 1].subs| && i < |run[n].subs|
    requires run[n - 1].subs[i].pc.Aimed? || run[n - 1].subs[i].pc.Reading?
    requires run[n].subs[i].pc.Idle?
    ensures run[n].subs[i].delivered == run[n - 1].subs[i].delivered
    ensures run[n - 1].subs[i].cursor < run[n - 1].writeSeq && !Available(run[n - 1], run[n - 1].subs[i].cursor)
  {
    EveryRunKeepsInv(run, n - 1);
    var s := run[n - 1];
    assert StepAt(run, n) && SubOk(s, s.subs[i]);
    var a :| Enabled(s, a) && run[n] == Apply(s, a);
    if a.Receive? && a.i == i { GivesUpOnlyIfOverwritten(s, i, a.sub); }
  }

  /** A subscriber starts where the publisher was when it connected. */
  lemma {:induction false} StartsAtHead(run: seq<State>, n: nat, i: nat) returns (m: nat)
    requires Run(run) && n < |run| && i < |run[n].subs|
    ensures m < n && |run[m].subs| == i && run[n].subs[i].start == run[m].writeSeq
  {
    assert StepAt(run, n);
    var a :| Enabled(run[n - 1], a) && run[n] == Apply(run[n - 1], a);
    if i < |run[n - 1].subs| { m := StartsAtHead(run, n - 1, i); } else { m := n - 1; }
  }

  // ---- what a lagging subscriber passes over ----

  /** The ring still holds sequence `c`. */
  predicate Available(s: State, c: nat) { 0 < s.size == |s.slots| && s.slots[Index(s, c)].stamp == c * 2 + 2 }

  /** Skipping ahead after loading the head passes over nothing that is still in the ring. */
  lemma SkipPassesNothingAvailable(s: State, i: nat, c: nat)
    requires Inv(s) && SubEnabled(s, i, LoadHead) && s.subs[i].cursor <= c < SubNext(s, i, LoadHead).cursor
    ensures !Available(s, c)
  {
    assert SlotOk(s, Index(s, c));
  }

  /** The verified read passes over data that is still in the ring, without returning it, exactly
      if the stamp is stable but not the cursor's: it moves past the newest stamp, not to the
      oldest data. */
  lemma VerifyPassesAvailable(s: State, i: nat)
    requires Inv(s) && SubEnabled(s, i, Verify)
    ensures var sub, sub' := s.subs[i], SubNext(s, i, Verify);
            (exists c :: sub.cursor <= c < sub'.cursor && Available(s, c) && c !in sub'.delivered) <==>
            s.slots[Index(s, sub.cursor)].stamp == sub.pc.stamp != sub.cursor * 2 + 2
  {
    var sub, sub' := s.subs[i], SubNext(s, i, Verify);
    assert SubOk(s, sub);
    if s.slots[Index(s, sub.cursor)].stamp == sub.pc.stamp {
      if sub.pc.stamp != sub.cursor * 2 + 2 {
        VerifyBound(s, i);
        var q := sub.pc.stamp / 2 - 1;
        assert SlotOk(s, Index(s, sub.cursor));
        assert Available(s, q) && sub'.cursor == q + 1 && q !in sub'.delivered;
      } else {
        assert sub'.delivered[|sub'.delivered| - 1] == sub.cursor;
      }
    }
  }

  ghost function End(run: seq<State>): State
    requires run != []
  {
    run[|run| - 1]
  }

  lemma Extend(run: seq<State>, a: Action) returns (run': seq<State>)
    requires Run(run) && Enabled(End(run), a)
    ensures Run(run') && run' == run + [Apply(End(run), a)]
  {
    run' := run + [Apply(End(run), a)];
    assert Step(End(run), Apply(End(run), a));
    forall i | 0 < i < |run'| ensures StepAt(run', i) {
      if i < |run| { assert StepAt(run, i); }
    }
  }

  /** One value of one word, written and stamped. */
  lemma StampRun(run: seq<State>, x: Word) returns (run': seq<State>)
    requires Run(run) && End(run).pub.Quiet? && End(run).width == 1
    ensures Run(run')
    ensures var s := End(run);
            0 < s.size == |s.slots| &&
            End(run') == s.(slots := s.slots[Index(s, s.writeSeq) := Slot(s.writeSeq * 2 + 2, [x])],
                            pub := Stamped, log := s.log + [[x]])
  {
    EveryRunKeepsInv(run, |run| - 1);
    var s := End(run);
    var i := Index(s, s.writeSeq);
    assert SlotOk(s, i);
    run' := Extend(run, Publish(Begin([x])));
    run' := Extend(run', Publish(WriteWord(0)));
    assert s.slots[i].words[0 := x] == [x];
    run' := Extend(run', Publish(Commit));
    assert End(run').slots == s.slots[i := Slot(s.writeSeq * 2 + 2, [x])];
  }

  /** Two values in a ring of two, and a subscriber about to read the first. */
  lemma AimedRun() returns (run: seq<State>)
    ensures Run(run)
    ensures End(run) == State(2, 1, [Slot(2, [10]), Slot(4, [11])], 2, Quiet, [[10], [11]],
                              [Sub(0, 0, 0, [], [], Aimed)])
  {
    run := [State(2, 1, [Slot(0, [0]), Slot(0, [0])], 0, Quiet, [], [])];
    run := Extend(run, Connect);
    run := StampRun(run, 10);
    run := Extend(run, Publish(Advance));
    run := StampRun(run, 11);
    run := Extend(run, Publish(Advance));
    run := Extend(run, Receive(0, LoadHead));
    assert End(run).slots == [Slot(2, [10]), Slot(4, [11])];
  }

  /** A run in which the first slot is overwritten during the call: the subscriber returns nothing
      and moves past both values that are still in the ring. */
  lemma RacedReceiveSkipsAvailable() returns (run: seq<State>)
    ensures Run(run) && |End(run).subs| == 1
    ensures var s := End(run);
            s.subs[0].delivered == [] && s.subs[0].cursor == 3 && Available(s, 1) && Available(s, 2)
  {
    run := AimedRun();
    run := StampRun(run, 12);
    assert End(run).slots == [Slot(6, [12]), Slot(4, [11])];
    run := Extend(run, Receive(0, LoadStamp));
    run := Extend(run, Receive(0, ReadWord(0)));
    run := Extend(run, Receive(0, Verify));
  }
}
