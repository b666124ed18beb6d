/** What one receive answers while publishers and other subscribers move.

    A call of `Stream::try_recv` starts when the stream leaves `Waiting` and ends when it is back
    there. It looks at every sequence of its window in order, and passes over one only if, at a
    moment of the call, the slot did not show it. */
module RingCalls {
  import opened Ring
  import opened RingInv
  import opened RingSafety
  import opened RingOps

  // ---- the start of a call ----

  /** A call starts exactly if the stream has not caught up, and its window is what is both unread and
      among the last `depth` sequences. */
  lemma ScanStarts(s: State, i: nat)
    requires Inv(s) && ScanEnabled(s, i, BeginScan)
    ensures var st, st' := s.streams[i], ApplyScan(s, i, BeginScan).streams[i];
            && (st'.pc.Waiting? <==> s.writeSeq[st.topic] <= st.lastSeq)
            && (st'.pc.Waiting? ==> st' == st)
            && (!st'.pc.Waiting? ==> st'.pc.Scanning? && st'.pc.current == s.writeSeq[st.topic])
            && (!st'.pc.Waiting? ==>
                  forall q :: st'.pc.seqNo <= q <= st'.pc.current <==> st.lastSeq < q && InWindow(s, Key(st.topic, q)))
  {
    assert StreamOk(s, s.streams[i]);
  }

  // ---- one step of a call ----

  predicate InCall(pc: StreamPc) { !pc.Waiting? }

  /** A call gives a slot up: the slot does not show the sequence. */
  predicate GivesUp(s: State, st: Stream)
    requires Shape(s)
  {
    InCall(st.pc) && !Shown(s, Key(st.topic, st.pc.seqNo))
  }

  /** The reference taken is on its way back. */
  predicate Undoing(pc: StreamPc) { pc.Undo? || pc.UndoFree? }

  /** What a step does to a call at sequence `q` of `current`: it stays at `q`; it gives `q` up and goes
      on to the next sequence or, at the end of the window, ends; or it returns `q`. */
  predicate StepOf(s: State, st: Stream, st': Stream)
    requires Shape(s) && InCall(st.pc)
  {
    var q, current := st.pc.seqNo, st.pc.current;
    var leaves := Undoing(st.pc) || GivesUp(s, st);
    || (InCall(st'.pc) && st'.pc.current == current && st'.pc.seqNo == q && st'.delivered == st.delivered
        && (Undoing(st'.pc) ==> leaves))
    || (leaves && q < current && st'.pc == Scanning(current, q + 1) && st'.delivered == st.delivered)
    || (leaves && q == current && st'.pc.Waiting? && st'.delivered == st.delivered)
    || (Shown(s, Key(st.topic, q)) && st'.pc.Waiting? && st'.delivered == st.delivered + [q])
  }

  lemma ScanStepOf(s: State, i: nat, x: ScanStep)
    requires Inv(s) && ScanEnabled(s, i, x) && InCall(s.streams[i].pc)
    ensures StepOf(s, s.streams[i], ApplyScan(s, i, x).streams[i])
  {
    var st := s.streams[i];
    assert StreamOk(s, st);
    var k := Key(st.topic, st.pc.seqNo);
    if Shown(s, k) { ShownIsLive(s, k); }
  }

  lemma RefStepOf(s: State, i: nat, x: RefStep)
    requires Inv(s) && RefEnabled(s, i, x) && InCall(s.streams[i].pc)
    ensures StepOf(s, s.streams[i], ApplyRef(s, i, x).streams[i])
  {
    assert StreamOk(s, s.streams[i]);
  }

  /** Publishers and samples leave all streams alone. */
  lemma AllocStreams(s: State, p: nat, x: AllocStep)
    requires AllocEnabled(s, p, x)
    ensures ApplyAlloc(s, p, x).streams == s.streams
  {
  }

  lemma MarkStreams(s: State, p: nat, x: MarkStep)
    requires MarkEnabled(s, p, x)
    ensures ApplyMark(s, p, x).streams == s.streams
  {
  }

  lemma FillStreams(s: State, p: nat, x: FillStep)
    requires FillEnabled(s, p, x)
    ensures ApplyFill(s, p, x).streams == s.streams
  {
  }

  lemma ReleaseStreams(s: State, p: nat, x: ReleaseStep)
    requires ReleaseEnabled(s, p, x)
    ensures ApplyRelease(s, p, x).streams == s.streams
  {
  }

  lemma RetireStreams(s: State, p: nat, x: RetireStep)
    requires RetireEnabled(s, p, x)
    ensures ApplyRetire(s, p, x).streams == s.streams
  {
  }

  predicate MovesStream(a: Action) { a.Scan? || a.Reference? || a.TakePinned? }

  /** Only its own steps move a stream; others join behind it. */
  lemma StreamFrame(s: State, a: Action, i: nat)
    requires Enabled(s, a) && i < |s.streams| && !(MovesStream(a) && a.i == i)
    ensures i < |Apply(s, a).streams| && Apply(s, a).streams[i] == s.streams[i]
  {
    match a
    case Allocate(p, x) => AllocStreams(s, p, x);
    case MarkEntry(p, x) => MarkStreams(s, p, x);
    case FillEntry(p, x) => FillStreams(s, p, x);
    case Release(p, x) => ReleaseStreams(s, p, x);
    case RetirePub(p, x) => RetireStreams(s, p, x);
    case Scan(j, x) => ScanOther(s, j, x, i);
    case Reference(j, x) => RefOther(s, j, x, i);
    case _ =>
  }

  lemma ScanOther(s: State, j: nat, x: ScanStep, i: nat)
    requires ScanEnabled(s, j, x) && i < |s.streams|
    ensures |ApplyScan(s, j, x).streams| == |s.streams|
    ensures i != j ==> ApplyScan(s, j, x).streams[i] == s.streams[i]
    ensures var st, st' := s.streams[j], ApplyScan(s, j, x).streams[j];
            st'.topic == st.topic && st'.lastSeq == st.lastSeq && st'.delivered == st.delivered
  {
  }

  lemma RefOther(s: State, j: nat, x: RefStep, i: nat)
    requires RefEnabled(s, j, x) && i < |s.streams|
    ensures |ApplyRef(s, j, x).streams| == |s.streams|
    ensures i != j ==> ApplyRef(s, j, x).streams[i] == s.streams[i]
    ensures var st, st' := s.streams[j], ApplyRef(s, j, x).streams[j];
            st'.topic == st.topic &&
            (|| (st'.lastSeq == st.lastSeq && st'.delivered == st.delivered)
             || (st.pc.Tentative? && st'.lastSeq == st.pc.seqNo && st'.delivered == st.delivered + [st.pc.seqNo]))
  {
  }

  lemma AnyStepOf(run: seq<State>, n: nat, i: nat)
    requires Run(run) && 0 < n < |run| && i < |run[n - 1].streams| && InCall(run[n - 1].streams[i].pc)
    ensures Shape(run[n - 1]) && i < |run[n].streams|
    ensures StepOf(run[n - 1], run[n - 1].streams[i], run[n].streams[i])
  {
    EveryRunKeepsInv(run, n - 1);
    assert StepAt(run, n);
    var s := run[n - 1];
    var a :| Enabled(s, a) && run[n] == Apply(s, a);
    if a.Scan? && a.i == i {
      ScanStepOf(s, i, a.scan);
    } else if a.Reference? && a.i == i {
      RefStepOf(s, i, a.ref);
    } else {
      StreamFrame(s, a, i);
    }
  }

  // ---- a whole call ----

  /** Stream `i` is in one call in all states after `m` up to `n`, which started at sequence `from`. */
  predicate Calling(run: seq<State>, m: nat, n: nat, i: nat, from: nat, current: nat)
    requires m < n < |run|
  {
    && (forall k :: m < k <= n ==> i < |run[k].streams| && InCall(run[k].streams[i].pc))
    && run[m + 1].streams[i].pc == Scanning(current, from)
  }

  predicate HiddenAt(run: seq<State>, k: nat, t: nat, q: nat)
    requires k < |run|
  {
    !(Shape(run[k]) && Shown(run[k], Key(t, q)))
  }

  /** The slot of `q` did not show it at some moment after `m` and up to `n`. */
  ghost predicate Hidden(run: seq<State>, m: nat, n: nat, t: nat, q: nat)
    requires n < |run|
  {
    exists k :: m < k <= n && HiddenAt(run, k, t, q)
  }

  /** Everything before the sequence a call is at was hidden during the call. */
  ghost predicate Passed(run: seq<State>, m: nat, n: nat, i: nat, from: nat, current: nat)
    requires m < n < |run| && i < |run[m + 1].streams| && i < |run[n].streams| && InCall(run[n].streams[i].pc)
  {
    var st := run[n].streams[i];
    && st.pc.current == current && from <= st.pc.seqNo <= current
    && st.topic == run[m + 1].streams[i].topic && st.delivered == run[m + 1].streams[i].delivered
    && (forall q :: from <= q < st.pc.seqNo ==> Hidden(run, m, n, st.topic, q))
    && (Undoing(st.pc) ==> Hidden(run, m, n, st.topic, st.pc.seqNo))
  }

  lemma HiddenLater(run: seq<State>, m: nat, n: nat, n': nat, t: nat, q: nat)
    requires n <= n' < |run| && Hidden(run, m, n, t, q)
    ensures Hidden(run, m, n', t, q)
  {
    var k :| m < k <= n && HiddenAt(run, k, t, q);
  }

  lemma TopicStays(run: seq<State>, n: nat, i: nat)
    requires Run(run) && 0 < n < |run| && i < |run[n - 1].streams|
    ensures i < |run[n].streams| && run[n].streams[i].topic == run[n - 1].streams[i].topic
  {
    assert StepAt(run, n);
    var a :| Enabled(run[n - 1], a) && run[n] == Apply(run[n - 1], a);
    StreamMoves(run[n - 1], a, i);
  }

  lemma {:induction false} CallPasses(run: seq<State>, m: nat, n: nat, i: nat, from: nat, current: nat)
    requires Run(run) && m < n < |run| && from <= current && Calling(run, m, n, i, from, current)
    ensures Passed(run, m, n, i, from, current)
    decreases n
  {
    if m + 1 < n {
      CallPasses(run, m, n - 1, i, from, current);
      AnyStepOf(run, n, i);
      TopicStays(run, n, i);
      var st, st' := run[n - 1].streams[i], run[n].streams[i];
      forall q | from <= q < st.pc.seqNo ensures Hidden(run, m, n, st.topic, q) {
        HiddenLater(run, m, n - 1, n, st.topic, q);
      }
      if Undoing(st.pc) { HiddenLater(run, m, n - 1, n, st.topic, st.pc.seqNo); }
      if GivesUp(run[n - 1], st) { assert HiddenAt(run, n - 1, st.topic, st.pc.seqNo); }
    }
  }

  /** A call that ends at `n + 1`: it returns nothing only if every sequence of its window was hidden at
      a moment of the call; and if it returns `q`, every earlier one of the window was, and `q` is shown
      at the end. */
  lemma CallAnswers(run: seq<State>, m: nat, n: nat, i: nat, from: nat, current: nat)
    requires Run(run) && m < n && n + 1 < |run| && from <= current && Calling(run, m, n, i, from, current)
    requires i < |run[n + 1].streams| && run[n + 1].streams[i].pc.Waiting?
    ensures var Stream(t, _, before, _) := run[m + 1].streams[i];
            var after := run[n + 1].streams[i].delivered;
            || (after == before && forall q :: from <= q <= current ==> Hidden(run, m, n, t, q))
            || (exists q :: from <= q <= current && after == before + [q] && !HiddenAt(run, n, t, q)
                            && forall r :: from <= r < q ==> Hidden(run, m, n, t, r))
  {
    CallPasses(run, m, n, i, from, current);
    AnyStepOf(run, n + 1, i);
    var st := run[n].streams[i];
    var q := st.pc.seqNo;
    if run[n + 1].streams[i].delivered == st.delivered {
      if GivesUp(run[n], st) { assert HiddenAt(run, n, st.topic, q); }
    }
  }

  // ---- what a stream can ever deliver ----

  predicate AllAfter(xs: seq<nat>, start: nat) { forall k :: 0 <= k < |xs| ==> start < xs[k] }

  /** What any step does to a stream's history. */
  lemma StreamMoves(s: State, a: Action, i: nat)
    requires Enabled(s, a) && i < |s.streams|
    ensures i < |Apply(s, a).streams|
    ensures var st, st' := s.streams[i], Apply(s, a).streams[i];
            st'.topic == st.topic &&
            (|| (st'.lastSeq == st.lastSeq && st'.delivered == st.delivered)
             || (st.pc.Waiting? && st'.lastSeq > st.lastSeq && st'.delivered == st.delivered)
             || (st.pc.Tentative? && st'.lastSeq == st.pc.seqNo && st'.delivered == st.delivered + [st.pc.seqNo]))
  {
    if a.Scan? && a.i == i {
      ScanOther(s, i, a.scan, i);
    } else if a.Reference? && a.i == i {
      RefOther(s, i, a.ref, i);
    } else if !(a.TakePinned? && a.i == i) {
      StreamFrame(s, a, i);
    }
  }

  lemma LaterStep(s: State, a: Action, i: nat, start: nat)
    requires Enabled(s, a) && i < |s.streams| && Shape(s) && StreamOk(s, s.streams[i])
    requires start <= s.streams[i].lastSeq && AllAfter(s.streams[i].delivered, start)
    ensures i < |Apply(s, a).streams|
    ensures var st' := Apply(s, a).streams[i];
            st'.topic == s.streams[i].topic && start <= st'.lastSeq && AllAfter(st'.delivered, start)
  {
    StreamMoves(s, a, i);
  }

  lemma LaterSequences(run: seq<State>, n: nat, i: nat, start: nat)
    requires Run(run) && 0 < n < |run| && i < |run[n - 1].streams| && start <= run[n - 1].streams[i].lastSeq
    requires AllAfter(run[n - 1].streams[i].delivered, start)
    ensures i < |run[n].streams| && start <= run[n].streams[i].lastSeq
    ensures run[n].streams[i].topic == run[n - 1].streams[i].topic
    ensures AllAfter(run[n].streams[i].delivered, start)
  {
    EveryRunKeepsInv(run, n - 1);
    assert StepAt(run, n);
    var a :| Enabled(run[n - 1], a) && run[n] == Apply(run[n - 1], a);
    LaterStep(run[n - 1], a, i, start);
  }

  /** A stream starts with its last step a subscription. */
  lemma JoinStep(run: seq<State>, n: nat, i: nat)
    requires Run(run) && n < |run| && i < |run[n].streams| && (n > 0 ==> i >= |run[n - 1].streams|)
    ensures n > 0 && |run[n - 1].streams| == i && run[n].streams[i].topic < |run[n - 1].writeSeq|
    ensures run[n].streams[i].lastSeq == run[n - 1].writeSeq[run[n].streams[i].topic]
    ensures run[n].streams[i].delivered == []
  {
    assert StepAt(run, n);
    var s := run[n - 1];
    var a :| Enabled(s, a) && run[n] == Apply(s, a);
    if !a.Subscribe? { StreamsCount(s, a); }
  }

  lemma StreamsCount(s: State, a: Action)
    requires Enabled(s, a) && !a.Subscribe?
    ensures |Apply(s, a).streams| == |s.streams|
  {
    match a
    case Allocate(p, x) => AllocStreams(s, p, x);
    case MarkEntry(p, x) => MarkStreams(s, p, x);
    case FillEntry(p, x) => FillStreams(s, p, x);
    case Release(p, x) => ReleaseStreams(s, p, x);
    case RetirePub(p, x) => RetireStreams(s, p, x);
    case Scan(j, x) => ScanOther(s, j, x, j);
    case Reference(j, x) => RefOther(s, j, x, j);
    case _ =>
  }

  /** A stream delivers only what was claimed after it subscribed. */
  lemma {:induction false} NothingFromBefore(run: seq<State>, n: nat, i: nat) returns (m: nat)
    requires Run(run) && n < |run| && i < |run[n].streams|
    ensures m < n && |run[m].streams| == i && run[n].streams[i].topic < |run[m].writeSeq|
    ensures var st, start := run[n].streams[i], run[m].writeSeq[run[n].streams[i].topic];
            start <= st.lastSeq && AllAfter(st.delivered, start)
  {
    if n > 0 && i < |run[n - 1].streams| {
      m := NothingFromBefore(run, n - 1, i);
      LaterSequences(run, n, i, run[m].writeSeq[run[n - 1].streams[i].topic]);
    } else {
      JoinStep(run, n, i);
      m := n - 1;
    }
  }
}
