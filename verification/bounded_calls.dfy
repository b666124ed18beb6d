/** What one `try_publish` and one connect answer while subscribers come, go, crash and receive. */
module BoundedCalls {
  import opened Words
  import Bus
  import SlotWord
  import opened Bounded

  // ---- the start of try_publish ----

  predicate FreshScan(check: Check, value: seq<Bus.Word>) { check == Scanning(value, 0, U64 - 1, false) }

  /** Every active subscriber is less than `ring_size - watermark` behind. */
  predicate AllClose(s: State) {
    forall j :: 0 <= j < |s.table| && s.table[j].word.Active? ==>
                  s.bus.writeSeq + s.watermark < s.table[j].word.cursor + s.bus.size
  }

  /** An attempt to publish either goes ahead with its value at once, which it may because every active
      subscriber is close enough, or scans the whole table for it. */
  lemma AttemptStarts(s: State, v: seq<Bus.Word>)
    requires Inv(s) && CheckEnabled(s, TryPublish(v))
    ensures var s' := ApplyCheck(s, TryPublish(v));
            (s'.check == Cleared(v) && AllClose(s)) || FreshScan(s'.check, v)
  {
    forall j | 0 <= j < |s.table| && s.table[j].word.Active?
      ensures s.cached <= s.table[j].word.cursor
    {
      assert WordOk(s, s.table[j].word);
    }
  }

  // ---- the scan ----

  /** Step `j` of the run inspects a live active slot at cursor `c`. */
  predicate InspectsAt(run: seq<State>, j: nat, c: nat)
    requires j + 1 < |run|
  {
    var s := run[j];
    && s.check.Scanning? && s.check.next < |s.table| && Advances(s.check, run[j + 1].check)
    && s.table[s.check.next].word == Active(c)
    && (s.table[s.check.next].pid == 0 || s.table[s.check.next].pid !in s.dead)
  }

  predicate Advances(check: Check, check': Check) {
    check.Scanning? && check'.Scanning? && check'.next == check.next + 1
  }

  /** The states after `m` up to `n` belong to one scan, which began after `m`. */
  predicate Scans(run: seq<State>, m: nat, n: nat)
    requires m < n < |run|
  {
    run[m].check.NoCheck? && FreshScan(run[m + 1].check, Value(run[m + 1].check))
    && forall k :: m < k <= n ==> run[k].check.Scanning?
  }

  function Value(check: Check): seq<Bus.Word> { if check.NoCheck? then [] else check.value }

  predicate Live(s: State, e: Entry) { e.word.Active? && (e.pid == 0 || e.pid !in s.dead) }

  lemma InspectMoves(s: State, prune: bool)
    requires CheckEnabled(s, Inspect(prune))
    ensures var check', e := ApplyInspect(s, prune).check, s.table[s.check.next];
            && Advances(s.check, check') && check'.value == s.check.value
            && (Live(s, e) ==> check'.found)
            && (Live(s, e) ==> check'.min == if e.word.cursor < s.check.min then e.word.cursor else s.check.min)
            && (!Live(s, e) ==> check'.found == s.check.found && check'.min == s.check.min)
  {
  }

  /** A step inside a scan: the publisher and the ring stand still, and the scan waits or inspects the
      next slot. */
  lemma StepInScan(s: State, s': State)
    requires Inv(s) && Step(s, s') && s.check.Scanning? && s'.check.Scanning?
    ensures s'.bus.writeSeq == s.bus.writeSeq && Effective(s') == Effective(s)
    ensures s'.check == s.check ||
            (s.check.next < |s.table| && Advances(s.check, s'.check) && s'.check.value == s.check.value
             && (Live(s, s.table[s.check.next]) ==>
                   s'.check.found && s'.check.min == Least(s.table[s.check.next].word.cursor, s.check.min))
             && (!Live(s, s.table[s.check.next]) ==> s'.check.found == s.check.found && s'.check.min == s.check.min))
  {
    var a :| Enabled(s, a) && s' == Apply(s, a);
    match a
    case Move(i, x) => MoveFrame(s, i, x);
    case Look(x) => if x.Inspect? { InspectMoves(s, x.prune); }
    case _ =>
  }

  function Least(a: nat, b: nat): nat { if a < b then a else b }

  lemma MoveFrame(s: State, i: nat, a: ClientStep)
    requires ClientEnabled(s, i, a)
    ensures var s' := ApplyClient(s, i, a);
            && s'.check == s.check && s'.watermark == s.watermark
            && s'.bus.writeSeq == s.bus.writeSeq && s'.bus.size == s.bus.size
  {
  }

  /** What a scan has found so far is exactly what its inspections saw. */
  ghost predicate Found(run: seq<State>, m: nat, n: nat)
    requires m < n < |run| && run[n].check.Scanning? && run[m + 1].check.Scanning?
  {
    var check := run[n].check;
    && run[n].bus.writeSeq == run[m + 1].bus.writeSeq && Effective(run[n]) == Effective(run[m + 1])
    && check.value == run[m + 1].check.value
    && (!check.found ==> check.min == U64 - 1)
    && (check.found ==> Saw(run, m, n, check.min))
    && (forall c: nat :: Saw(run, m, n, c) ==> check.found && check.min <= c)
    && (forall i: nat :: i < check.next ==> Visited(run, m, n, i))
  }

  /** An inspection between `m` and `n` saw a live subscriber at cursor `c`. */
  ghost predicate Saw(run: seq<State>, m: nat, n: nat, c: nat)
    requires n < |run|
  {
    exists j :: m < j < n && InspectsAt(run, j, c)
  }

  ghost predicate Visited(run: seq<State>, m: nat, n: nat, i: nat)
    requires n < |run|
  {
    exists j :: m < j < n && Inspected(run, j, i)
  }

  lemma SawNext(run: seq<State>, m: nat, n: nat, c: nat)
    requires m + 1 < n < |run|
    ensures Saw(run, m, n, c) <==> Saw(run, m, n - 1, c) || InspectsAt(run, n - 1, c)
  {
  }

  lemma VisitedNext(run: seq<State>, m: nat, n: nat, i: nat)
    requires m + 1 < n < |run|
    ensures Visited(run, m, n, i) <==> Visited(run, m, n - 1, i) || Inspected(run, n - 1, i)
  {
  }

  /** Step `j` inspects table slot `i`. */
  predicate Inspected(run: seq<State>, j: nat, i: nat)
    requires j + 1 < |run|
  {
    Advances(run[j].check, run[j + 1].check) && run[j].check.next == i
  }

  lemma {:induction false} ScanFinds(run: seq<State>, m: nat, n: nat)
    requires Run(run) && m < n < |run| && Scans(run, m, n) && run[n].bus.writeSeq < U64 - 1
    ensures Found(run, m, n)
    decreases n
  {
    if m + 1 < n {
      var s, s' := run[n - 1], run[n];
      EveryRunKeepsInv(run, n - 1);
      assert StepAt(run, n);
      StepInScan(s, s');
      ScanFinds(run, m, n - 1);
      if s'.check == s.check { SameFound(run, m, n); } else { NextFound(run, m, n); }
    }
  }

  lemma SameFound(run: seq<State>, m: nat, n: nat)
    requires m + 1 < n < |run| && run[n - 1].check.Scanning? && run[m + 1].check.Scanning? && Found(run, m, n - 1)
    requires run[n].check == run[n - 1].check
    requires run[n].bus.writeSeq == run[n - 1].bus.writeSeq && Effective(run[n]) == Effective(run[n - 1])
    ensures Found(run, m, n)
  {
    forall c: nat ensures Saw(run, m, n, c) <==> Saw(run, m, n - 1, c) { SawNext(run, m, n, c); }
    forall i: nat | i < run[n].check.next ensures Visited(run, m, n, i) { VisitedNext(run, m, n, i); }
  }

  lemma NextFound(run: seq<State>, m: nat, n: nat)
    requires m + 1 < n < |run| && run[n - 1].check.Scanning? && run[m + 1].check.Scanning? && Found(run, m, n - 1)
    requires var s, s' := run[n - 1], run[n];
             && s.check.next < |s.table| && Advances(s.check, s'.check) && s'.check.value == s.check.value
             && s'.bus.writeSeq == s.bus.writeSeq && Effective(s') == Effective(s)
             && (Live(s, s.table[s.check.next]) ==>
                   s'.check.found && s'.check.min == Least(s.table[s.check.next].word.cursor, s.check.min))
             && (!Live(s, s.table[s.check.next]) ==> s'.check.found == s.check.found && s'.check.min == s.check.min)
             && (s.table[s.check.next].word.Active? ==> s.table[s.check.next].word.cursor < U64 - 1)
    ensures Found(run, m, n)
  {
    var s, s' := run[n - 1], run[n];
    var e := s.table[s.check.next];
    forall c: nat ensures Saw(run, m, n, c) <==> Saw(run, m, n - 1, c) || (Live(s, e) && c == e.word.cursor) {
      SawNext(run, m, n, c);
    }
    forall i: nat | i < s'.check.next ensures Visited(run, m, n, i) { VisitedNext(run, m, n, i); }
  }

  // ---- the end of try_publish ----

  lemma StepOutOfScan(s: State, s': State)
    requires Inv(s) && Step(s, s') && s.check.Scanning? && !s'.check.Scanning?
    ensures s.check.next == |s.table|
    ensures if s.check.found && s.bus.writeSeq >= s.check.min + Effective(s) then s'.check.NoCheck?
            else s'.check == Cleared(s.check.value)
  {
    var a :| Enabled(s, a) && s' == Apply(s, a);
    if a.Move? { MoveFrame(s, a.i, a.client); }
  }

  /** A scan that ends inspected every slot of the table, and reports Full exactly if one of its
      inspections saw a live subscriber `ring_size - watermark` behind; otherwise the publish goes ahead
      with the value it was called with. */
  lemma FullExactly(run: seq<State>, m: nat, n: nat)
    requires Run(run) && m < n && n + 1 < |run| && Scans(run, m, n) && !run[n + 1].check.Scanning?
    requires run[n].bus.writeSeq < U64 - 1
    ensures run[n + 1].check.NoCheck? <==>
            exists c: nat :: Saw(run, m, n, c) && run[n].bus.writeSeq + run[n].watermark >= c + run[n].bus.size
    ensures !run[n + 1].check.NoCheck? ==> run[n + 1].check == Cleared(Value(run[m + 1].check))
    ensures forall i: nat :: i < SlotWord.MAX_SUBSCRIBER_SLOTS ==> Visited(run, m, n, i)
  {
    EveryRunKeepsInv(run, n);
    ScanFinds(run, m, n);
    assert StepAt(run, n + 1);
    StepOutOfScan(run[n], run[n + 1]);
  }

  /** A slot that is active and that far behind at the end of the scan makes it Full. */
  lemma BehindMeansFull(s: State, j: nat)
    requires Inv(s) && CheckEnabled(s, FinishScan) && j < |s.table| && s.table[j].word.Active?
    requires s.bus.writeSeq + s.watermark >= s.table[j].word.cursor + s.bus.size
    ensures ApplyCheck(s, FinishScan).check.NoCheck?
  {
    ScanIsLowerBound(s, j);
  }

  // ---- connecting ----

  /** While client `i` was to try table slot `j`, the slot was taken. */
  predicate TakenAt(run: seq<State>, k: nat, i: nat, j: nat)
    requires k < |run|
  {
    && i < |run[k].clients| && run[k].clients[i].stage == Connecting(j)
    && j < |run[k].table| && !run[k].table[j].word.Free?
  }

  lemma ConnectStep(s: State, a: Action, i: nat)
    requires Enabled(s, a) && i < |Apply(s, a).clients| && Apply(s, a).clients[i].stage.Connecting?
    ensures i < |s.clients| ==> s.clients[i].stage.Connecting?
    ensures var next := Apply(s, a).clients[i].stage.next;
            if i >= |s.clients| then next == 0
            else next == s.clients[i].stage.next
                 || (next == s.clients[i].stage.next + 1 && next <= |s.table| && !s.table[next - 1].word.Free?)
  {
  }

  /** A connecting subscriber has found every earlier slot of the table taken. */
  lemma {:induction false} TriedSlotsWereTaken(run: seq<State>, n: nat, i: nat, j: nat) returns (k: nat)
    requires Run(run) && n < |run| && i < |run[n].clients|
    requires run[n].clients[i].stage.Connecting? && j < run[n].clients[i].stage.next
    ensures k < n && TakenAt(run, k, i, j)
  {
    assert StepAt(run, n);
    var s := run[n - 1];
    var a :| Enabled(s, a) && run[n] == Apply(s, a);
    ConnectStep(s, a, i);
    if j < s.clients[i].stage.next { k := TriedSlotsWereTaken(run, n - 1, i, j); } else { k := n - 1; }
  }

  /** Connecting fails only if every slot of the table was taken when it was tried. */
  lemma ConnectFailsOnlyIfTaken(run: seq<State>, n: nat, i: nat, j: nat)
    requires Run(run) && n < |run| && ClientEnabled(run[n], i, GiveUp) && j < |run[n].table|
    ensures exists k :: 0 <= k < n && TakenAt(run, k, i, j)
  {
    var k := TriedSlotsWereTaken(run, n, i, j);
  }

  // ---- who holds the publisher back ----

  ghost predicate HasSubscriber(s: State, j: nat) {
    exists i :: 0 <= i < |s.clients| && s.clients[i].stage == Bounded.Live(j)
  }

  /** Only subscribers that have not dropped hold an ACTIVE slot. */
  ghost predicate ActiveOwned(s: State) {
    forall j :: 0 <= j < |s.table| && s.table[j].word.Active? ==> HasSubscriber(s, j)
  }

  lemma ClientActive(s: State, i: nat, a: ClientStep)
    requires Inv(s) && ActiveOwned(s) && ClientEnabled(s, i, a)
    ensures ActiveOwned(ApplyClient(s, i, a))
  {
    var s' := ApplyClient(s, i, a);
    assert OwnerOk(s, i);
    forall j | 0 <= j < |s'.table| && s'.table[j].word.Active? ensures HasSubscriber(s', j) {
      if s'.clients[i].stage == Bounded.Live(j) {
      } else {
        assert s.table[j].word.Active? && HasSubscriber(s, j);
        var o :| 0 <= o < |s.clients| && s.clients[o].stage == Bounded.Live(j);
        assert s'.clients[o].stage == Bounded.Live(j);
      }
    }
  }

  lemma OtherActive(s: State, a: Action)
    requires ActiveOwned(s) && Enabled(s, a) && !a.Move?
    ensures ActiveOwned(Apply(s, a))
  {
    var s' := Apply(s, a);
    forall j | 0 <= j < |s'.table| && s'.table[j].word.Active? ensures HasSubscriber(s', j) {
      assert HasSubscriber(s, j);
      var o :| 0 <= o < |s.clients| && s.clients[o].stage == Bounded.Live(j);
      assert s'.clients[o].stage == Bounded.Live(j);
    }
  }

  /** In every run an ACTIVE slot belongs to a subscriber that has connected and not dropped. */
  lemma {:induction false} ActiveHasSubscriber(run: seq<State>, n: nat)
    requires Run(run) && n < |run|
    ensures ActiveOwned(run[n])
  {
    if n > 0 {
      ActiveHasSubscriber(run, n - 1);
      EveryRunKeepsInv(run, n - 1);
      assert StepAt(run, n);
      var a :| Enabled(run[n - 1], a) && run[n] == Apply(run[n - 1], a);
      if a.Move? { ClientActive(run[n - 1], a.i, a.client); } else { OtherActive(run[n - 1], a); }
    }
  }

  // ---- whose process id a slot shows ----

  /** Client `o`, which had dropped slot `j`, clears its process id. */
  predicate Clears(s: State, s': State, o: nat, j: nat) {
    o < |s.clients| && o < |s'.clients| && s.clients[o].stage == Dropping(j) && s'.clients[o].stage == Gone
  }

  /** Slot `j` is in the hands of live client `i`. */
  predicate Holds(s: State, i: nat, j: nat) {
    i < |s.clients| && Alive(s, i) && HasSlot(s.clients[i].stage) && s.clients[i].stage.slot == j
  }

  /** Step `n` clears the process id of slot `j` although a live client has the slot again. */
  ghost predicate LateClear(run: seq<State>, n: nat, j: nat)
    requires 0 < n < |run|
  {
    ClearsLate(run[n - 1], run[n], j)
  }

  ghost predicate ClearsLate(s: State, s': State, j: nat) {
    (exists o :: Clears(s, s', o, j)) && (exists i :: Holds(s, i, j))
  }

  /** A live subscriber's slot shows its process id. */
  predicate PidShown(s: State, i: nat)
    requires i < |s.clients|
  {
    var stage := s.clients[i].stage;
    Alive(s, i) && (stage.Named? || stage.Live?) ==>
      stage.slot < |s.table| && s.table[stage.slot].pid == s.clients[i].pid
  }

  predicate PidsShown(s: State) { forall i :: 0 <= i < |s.clients| ==> PidShown(s, i) }

  lemma ClientPids(s: State, i: nat, a: ClientStep, o: nat)
    requires Inv(s) && PidsShown(s) && ClientEnabled(s, i, a) && o < |s.clients|
    requires a.ClearPid? && o != i && Alive(s, o) && HasSlot(s.clients[o].stage) ==>
             s.clients[o].stage.slot != s.clients[i].stage.slot
    ensures PidShown(ApplyClient(s, i, a), o)
  {
    assert PidShown(s, o) && PidShown(s, i) && OwnerOk(s, i) && OwnerOk(s, o);
  }

  lemma OtherPids(s: State, a: Action, o: nat)
    requires Inv(s) && PidsShown(s) && Enabled(s, a) && !a.Move? && o < |Apply(s, a).clients|
    ensures PidShown(Apply(s, a), o)
  {
    if o < |s.clients| { assert PidShown(s, o) && OwnerOk(s, o); }
    if a.Look? && a.check.Inspect? && s.table[s.check.next].word.Active? && s.table[s.check.next].pid != 0
       && s.table[s.check.next].pid in s.dead {
      DeadPidIsUnowned(s, s.check.next);
    }
  }

  lemma NextPids(run: seq<State>, n: nat)
    requires Run(run) && 0 < n < |run| && PidsShown(run[n - 1]) && forall j :: !LateClear(run, n, j)
    ensures PidsShown(run[n])
  {
    EveryRunKeepsInv(run, n - 1);
    assert StepAt(run, n);
    var s := run[n - 1];
    var a :| Enabled(s, a) && run[n] == Apply(s, a);
    forall o | 0 <= o < |run[n].clients| ensures PidShown(run[n], o) {
      if a.Move? {
        if a.client.ClearPid? {
          var j := s.clients[a.i].stage.slot;
          assert Clears(s, run[n], a.i, j) && !LateClear(run, n, j);
          assert !Holds(s, o, j);
        }
        ClientPids(s, a.i, a.client, o);
      } else {
        OtherPids(s, a, o);
      }
    }
  }

  /** If no dropped subscriber clears a process id after somebody else took its slot, every live
      subscriber's slot shows its process id in every state. */
  lemma {:induction false} SlotShowsItsPid(run: seq<State>, n: nat)
    requires Run(run) && n < |run| && forall k, j :: 0 < k <= n ==> !LateClear(run, k, j)
    ensures PidsShown(run[n])
  {
    if n > 0 {
      SlotShowsItsPid(run, n - 1);
      NextPids(run, n);
    }
  }

  /** When the scan comes to the ACTIVE slot of a crashed subscriber, it frees the slot exactly if the
      slot still shows a process id; otherwise it counts the crashed subscriber as a live one. */
  lemma CrashedIsPrunedExactly(s: State, prune: bool, pid: nat)
    requires CheckEnabled(s, Inspect(prune)) && s.table[s.check.next].word.Active?
    requires pid in s.dead && s.table[s.check.next].pid in {0, pid}
    ensures var j, s' := s.check.next, ApplyInspect(s, prune);
            && (s'.table[j].word.Free? <==> s.table[j].pid != 0)
            && (s.table[j].pid == 0 ==> s'.table == s.table && s'.check.found && s'.check.min <= s.table[j].word.cursor)
  {
  }

  lemma Extend(run: seq<State>, a: Action) returns (run': seq<State>)
    requires Run(run) && Enabled(run[|run| - 1], a)
    ensures Run(run') && run' == run + [Apply(run[|run| - 1], a)]
  {
    var s := run[|run| - 1];
    run' := run + [Apply(s, a)];
    assert Step(s, Apply(s, a));
    forall i | 0 < i < |run'| ensures StepAt(run', i) {
      if i < |run| { assert StepAt(run, i); }
    }
  }

  function Table(e: Entry): seq<Entry> { [e] + seq(SlotWord.MAX_SUBSCRIBER_SLOTS - 1, _ => Entry(Free, 0)) }

  function Ring(subs: seq<Bus.Sub>): Bus.State { Bus.State(1, 0, [Bus.Slot(0, [])], 0, Bus.Quiet, [], subs) }

  const Fresh: Bus.Sub := Bus.Sub(0, 0, 0, [], [], Bus.Idle)

  /** A ring of one, an empty log, one used table slot. */
  function World(subs: seq<Bus.Sub>, e: Entry, clients: seq<Client>, dead: set<nat>): State {
    State(Ring(subs), 0, 0, Table(e), clients, NoCheck, dead)
  }

  /** Process 1 connects and drops, up to its store of FREE. */
  lemma FirstLeaves() returns (run: seq<State>)
    ensures Run(run)
    ensures run[|run| - 1] == World([Fresh], Entry(Free, 1), [Client(1, Dropping(0))], {})
  {
    run := [World([], Entry(Free, 0), [], {})];
    run := Extend(run, Connect(1));
    run := Extend(run, Move(0, TryClaim));
    assert run[|run| - 1] == World([Fresh], Entry(Claiming, 0), [Client(1, Claimed(0))], {});
    run := Extend(run, Move(0, StorePid));
    run := Extend(run, Move(0, Activate));
    assert run[|run| - 1] == World([Fresh], Entry(Active(0), 1), [Client(1, Bounded.Live(0))], {});
    run := Extend(run, Move(0, Drop));
    assert run[|run| - 1].table == Table(Entry(Free, 1));
  }

  /** A run in which process 2 takes the slot before process 1 clears the process id, and then crashes:
      its slot is ACTIVE and shows no process id, so no scan will free it. */
  lemma CrashedCanStay() returns (run: seq<State>)
    ensures Run(run)
    ensures var s := run[|run| - 1];
            |s.clients| == 2 && s.clients[1] == Client(2, Bounded.Live(0)) && 2 in s.dead
            && |s.table| > 0 && s.table[0] == Entry(Active(0), 0)
  {
    run := FirstLeaves();
    run := Extend(run, Connect(2));
    run := Extend(run, Move(1, TryClaim));
    assert run[|run| - 1].table == Table(Entry(Claiming, 1));
    run := Extend(run, Move(1, StorePid));
    run := Extend(run, Move(1, Activate));
    assert run[|run| - 1].table == Table(Entry(Active(0), 2));
    run := Extend(run, Move(0, ClearPid));
    run := Extend(run, Crash(2));
  }
}
