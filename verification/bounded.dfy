/** The lossless mode of the broadcast ring: back-pressure over a table of subscriber cursors
    (`PodBus::try_publish`, `slowest_subscriber_cursor`, `claim_subscriber_slot`,
    `update_shm_cursor`, subscriber drop and pruning).

    Steps are single atomic accesses, with three assumptions. Inspecting one table slot is one
    step. While a subscriber connects, from its cursor load to its ACTIVE store, the publisher
    does not touch the ring. `is_pid_alive` is truthful and process ids are not reused, and only
    claims of dead processes are pruned. */
module Bounded {
  import opened Words
  import Bus
  import SlotWord

  /** A `state_cursor` word, unpacked (`SlotWord.RoundTrip`). */
  datatype Word = Free | Claiming | Active(cursor: nat)

  datatype Entry = Entry(word: Word, pid: nat)

  datatype Stage =
    | Connecting(next: nat)   // cursor loaded, table slot `next` to be tried
    | Claimed(slot: nat)      // FREE exchanged for CLAIMING
    | Named(slot: nat)        // pid stored
    | Live(slot: nat)         // ACTIVE stored
    | Dropping(slot: nat)     // FREE stored, pid still to be cleared
    | Gone

  datatype Client = Client(pid: nat, stage: Stage)

  datatype Check =
    | NoCheck
    | Scanning(value: seq<Bus.Word>, next: nat, min: nat, found: bool)
    | Cleared(value: seq<Bus.Word>)

  /** Client `i` drives ring subscriber `i`. */
  datatype State = State(bus: Bus.State, watermark: nat, cached: nat, table: seq<Entry>,
                         clients: seq<Client>, check: Check, dead: set<nat>)

  datatype ClientStep = TryClaim | GiveUp | StorePid | Activate | Drop | ClearPid | Ring(sub: Bus.SubStep)

  datatype CheckStep = TryPublish(value: seq<Bus.Word>) | Inspect(prune: bool) | FinishScan

  datatype Action =
    | Connect(pid: nat)
    | Crash(pid: nat)
    | Move(i: nat, client: ClientStep)
    | Look(check: CheckStep)
    | Write(pub: Bus.PubStep)

  // ---- helpers ----

  function Effective(s: State): nat { if s.watermark < s.bus.size then s.bus.size - s.watermark else 0 }

  predicate Alive(s: State, i: nat)
    requires i < |s.clients|
  {
    s.clients[i].pid !in s.dead
  }

  predicate IsConnecting(stage: Stage) { stage.Connecting? || stage.Claimed? || stage.Named? }

  predicate HasSlot(stage: Stage) { stage.Claimed? || stage.Named? || stage.Live? }

  predicate NobodyConnecting(s: State) {
    forall i :: 0 <= i < |s.clients| && Alive(s, i) ==> !IsConnecting(s.clients[i].stage)
  }

  /** No live process is claiming table slot `j`. */
  predicate ClaimantDead(s: State, j: nat) {
    forall i :: 0 <= i < |s.clients| && Alive(s, i) && HasSlot(s.clients[i].stage) ==> s.clients[i].stage.slot != j
  }

  function PutWord(s: State, j: nat, word: Word): State
    requires j < |s.table|
  {
    s.(table := s.table[j := s.table[j].(word := word)])
  }

  function PutPid(s: State, j: nat, pid: nat): State
    requires j < |s.table|
  {
    s.(table := s.table[j := s.table[j].(pid := pid)])
  }

  function StageTo(s: State, i: nat, stage: Stage): State
    requires i < |s.clients|
  {
    s.(clients := s.clients[i := s.clients[i].(stage := stage)])
  }

  // ---- clients ----

  predicate ClientEnabled(s: State, i: nat, a: ClientStep) {
    && i < |s.clients| == |s.bus.subs| && Alive(s, i)
    && var stage := s.clients[i].stage;
       && (HasSlot(stage) || stage.Dropping? ==> stage.slot < |s.table|)
       && match a
          case TryClaim => stage.Connecting? && stage.next < |s.table|
          case GiveUp => stage.Connecting? && stage.next >= |s.table|
          case StorePid => stage.Claimed?
          case Activate => stage.Named?
          case Drop => stage.Live? && s.bus.subs[i].pc.Idle?
          case ClearPid => stage.Dropping?
          case Ring(x) => stage.Live? && Bus.SubEnabled(s.bus, i, x)
  }

  function ApplyClient(s: State, i: nat, a: ClientStep): State
    requires ClientEnabled(s, i, a)
  {
    var stage := s.clients[i].stage;
    match a
    case TryClaim =>
      if s.table[stage.next].word.Free? then StageTo(PutWord(s, stage.next, Claiming), i, Claimed(stage.next))
      else StageTo(s, i, Connecting(stage.next + 1))
    case GiveUp => StageTo(s, i, Gone)
    case StorePid => StageTo(PutPid(s, stage.slot, s.clients[i].pid), i, Named(stage.slot))
    case Activate => StageTo(PutWord(s, stage.slot, Active(s.bus.subs[i].cursor)), i, Live(stage.slot))
    case Drop => StageTo(PutWord(s, stage.slot, Free), i, Dropping(stage.slot))
    case ClearPid => StageTo(PutPid(s, stage.slot, 0), i, Gone)
    case Ring(x) =>
      var s' := s.(bus := Bus.ApplySub(s.bus, i, x));
      if x.Report? then PutWord(s', stage.slot, Active(s.bus.subs[i].cursor)) else s'
  }

  // ---- back-pressure ----

  predicate CheckEnabled(s: State, a: CheckStep) {
    && s.bus.pub.Quiet?
    && match a
       case TryPublish(v) => s.check.NoCheck?
       case Inspect(prune) =>
         s.check.Scanning? && s.check.next < |s.table|
         && (prune ==> s.table[s.check.next].word.Claiming? && ClaimantDead(s, s.check.next))
       case FinishScan => s.check.Scanning? && s.check.next == |s.table|
  }

  function ApplyInspect(s: State, prune: bool): State
    requires CheckEnabled(s, Inspect(prune))
  {
    var Scanning(v, j, min, found) := s.check;
    var e := s.table[j];
    var pruned := s.(table := s.table[j := Entry(Free, 0)], check := Scanning(v, j + 1, min, found));
    match e.word
    case Free => s.(check := Scanning(v, j + 1, min, found))
    case Claiming => if prune then pruned else s.(check := Scanning(v, j + 1, min, found))
    case Active(c) =>
      if e.pid != 0 && e.pid in s.dead then pruned
      else s.(check := Scanning(v, j + 1, if c < min then c else min, true))
  }

  function ApplyCheck(s: State, a: CheckStep): State
    requires CheckEnabled(s, a)
  {
    match a
    case TryPublish(v) =>
      if s.bus.writeSeq >= s.cached + Effective(s) then s.(check := Scanning(v, 0, U64 - 1, false))
      else s.(check := Cleared(v))
    case Inspect(prune) => ApplyInspect(s, prune)
    case FinishScan =>
      if !s.check.found then s.(check := Cleared(s.check.value))
      else if s.bus.writeSeq >= s.check.min + Effective(s) then
        s.(cached := s.check.min, check := NoCheck)   // Error::Full
      else s.(cached := s.check.min, check := Cleared(s.check.value))
  }

  predicate WriteEnabled(s: State, a: Bus.PubStep) {
    && NobodyConnecting(s) && Bus.PubEnabled(s.bus, a)
    && (a.Begin? ==> s.check == Cleared(a.value))
  }

  function ApplyWrite(s: State, a: Bus.PubStep): State
    requires WriteEnabled(s, a)
  {
    s.(bus := Bus.ApplyPub(s.bus, a), check := if a.Begin? then NoCheck else s.check)
  }

  // ---- the transition system ----

  predicate Enabled(s: State, a: Action) {
    match a
    case Connect(pid) => pid != 0 && pid !in s.dead
    case Crash(pid) => true
    case Move(i, x) => ClientEnabled(s, i, x)
    case Look(x) => CheckEnabled(s, x)
    case Write(x) => WriteEnabled(s, x)
  }

  function Apply(s: State, a: Action): State
    requires Enabled(s, a)
  {
    match a
    case Connect(pid) => s.(bus := Bus.Apply(s.bus, Bus.Connect), clients := s.clients + [Client(pid, Connecting(0))])
    case Crash(pid) => s.(dead := s.dead + {pid})
    case Move(i, x) => ApplyClient(s, i, x)
    case Look(x) => ApplyCheck(s, x)
    case Write(x) => ApplyWrite(s, x)
  }

  predicate Init(s: State) {
    && Bus.Init(s.bus) && s.watermark < s.bus.size && s.cached == 0
    && |s.table| == SlotWord.MAX_SUBSCRIBER_SLOTS && (forall j :: 0 <= j < |s.table| ==> s.table[j] == Entry(Free, 0))
    && s.clients == [] && s.check.NoCheck? && s.dead == {}
  }

  ghost predicate Step(s: State, s': State) { exists a :: Enabled(s, a) && s' == Apply(s, a) }

  ghost predicate StepAt(run: seq<State>, i: nat)
    requires 0 < i < |run|
  {
    Step(run[i - 1], run[i])
  }

  ghost predicate Run(run: seq<State>) {
    run != [] && Init(run[0]) && forall i :: 0 < i < |run| ==> StepAt(run, i)
  }

  // ---- invariant ----

  predicate Shape(s: State) {
    && Bus.Inv(s.bus) && s.watermark < s.bus.size
    && |s.table| == SlotWord.MAX_SUBSCRIBER_SLOTS && |s.clients| == |s.bus.subs|
    && s.cached <= s.bus.writeSeq
  }

  /** No active cursor is below the cached one or a full lap behind what has been written. */
  predicate WordOk(s: State, word: Word) {
    word.Active? ==> s.cached <= word.cursor <= s.bus.writeSeq && |s.bus.log| <= word.cursor + Effective(s)
  }

  predicate TableOk(s: State) {
    forall j :: 0 <= j < |s.table| ==> WordOk(s, s.table[j].word)
  }

  /** The cursor last stored in shared memory. */
  function Reported(sub: Bus.Sub): nat { if sub.pc.Reporting? && 0 < sub.cursor then sub.cursor - 1 else sub.cursor }

  /** A live client's table slot says what the client believes, with its cursor at most one behind. */
  predicate OwnerOk(s: State, i: nat)
    requires i < |s.clients| == |s.bus.subs|
  {
    var stage := s.clients[i].stage;
    var sub := s.bus.subs[i];
    && (HasSlot(stage) || stage.Dropping? ==> stage.slot < |s.table|)
    && s.clients[i].pid != 0
    && (Alive(s, i) ==>
          && (stage.Claimed? || stage.Named? ==> s.table[stage.slot].word.Claiming?)
          && (stage.Named? || stage.Live? ==> s.table[stage.slot].pid in {0, s.clients[i].pid})
          && (stage.Live? ==> s.table[stage.slot].word == Active(Reported(sub))))
  }

  /** Nothing has been lost: the values received are the published ones from the start on. */
  predicate Lossless(s: State, i: nat)
    requires i < |s.clients| == |s.bus.subs|
  {
    var stage := s.clients[i].stage;
    var sub := s.bus.subs[i];
    && (IsConnecting(stage) ==> sub.pc.Idle? && sub.delivered == [])
    && (IsConnecting(stage) && Alive(s, i) ==> sub.cursor == s.bus.writeSeq)
    && sub.lagged == 0 && sub.cursor == sub.start + |sub.delivered| && sub.cursor <= s.bus.writeSeq
    && (forall j :: 0 <= j < |sub.delivered| ==> sub.delivered[j] == sub.start + j)
    && (sub.pc.Reporting? ==> 0 < sub.cursor)
    && (sub.pc.Reading? ==> sub.pc.stamp == sub.cursor * 2 + 2)
  }

  predicate ClientsOk(s: State)
    requires |s.clients| == |s.bus.subs|
  {
    forall i :: 0 <= i < |s.clients| ==> OwnerOk(s, i) && Lossless(s, i)
  }

  /** Each table slot has at most one live owner. */
  predicate OneOwner(s: State) {
    forall i, k :: 0 <= i < |s.clients| && 0 <= k < |s.clients| && i != k
                   && Alive(s, i) && Alive(s, k) && HasSlot(s.clients[i].stage) && HasSlot(s.clients[k].stage) ==>
      s.clients[i].stage.slot != s.clients[k].stage.slot
  }

  /** What the scan has established about an inspected slot. */
  predicate Inspected(s: State, word: Word)
    requires s.check.Scanning?
  {
    word.Active? ==> if s.check.found then s.check.min <= word.cursor else word.cursor == s.bus.writeSeq
  }

  predicate CheckOk(s: State) {
    && (!s.check.NoCheck? ==> s.bus.pub.Quiet?)
    && (s.check.Cleared? ==>
          forall j :: 0 <= j < |s.table| && s.table[j].word.Active? ==>
                        s.bus.writeSeq < s.table[j].word.cursor + Effective(s))
    && (s.check.Scanning? ==>
          && s.check.next <= |s.table| && (s.check.found ==> s.check.min <= s.bus.writeSeq)
          && (forall j :: 0 <= j < s.check.next ==> Inspected(s, s.table[j].word)))
  }

  predicate Inv(s: State) { Shape(s) && TableOk(s) && ClientsOk(s) && OneOwner(s) && CheckOk(s) }

  lemma InitInv(s: State)
    requires Init(s)
    ensures Inv(s)
  {
    Bus.InitInv(s.bus);
  }

  // ---- an unread slot is not overwritten ----

  /** While a sequence is at most one ring behind everything written, its slot still holds it. */
  lemma UnreadStays(b: Bus.State, c: nat)
    requires Bus.Inv(b) && c < b.writeSeq && |b.log| <= c + b.size
    ensures b.slots[Bus.Index(b, c)].stamp == c * 2 + 2
  {
    var i := Bus.Index(b, c);
    assert Bus.SlotOk(b, i);
    Bus.CommittedOrNewer(b, c);
    if b.pub.Writing? && i == Bus.Index(b, b.writeSeq) {
      SameResidueGap(c, b.writeSeq, b.size);
    } else {
      var q := b.slots[i].stamp / 2 - 1;
      if c < q { SameResidueGap(c, q, b.size); }
    }
  }

  /** The cursor of a live client is at most `ring_size - watermark` behind the writer. */
  lemma LiveIsClose(s: State, i: nat)
    requires Inv(s) && i < |s.clients| && Alive(s, i) && s.clients[i].stage.Live?
    ensures |s.bus.log| <= Reported(s.bus.subs[i]) + Effective(s)
    ensures Reported(s.bus.subs[i]) <= s.bus.subs[i].cursor
  {
    assert OwnerOk(s, i) && Lossless(s, i);
    assert WordOk(s, s.table[s.clients[i].stage.slot].word);
  }

  // ---- changing one table word ----

  lemma WordTable(s: State, s': State, j: nat, word: Word)
    requires TableOk(s) && j < |s.table| == |s'.table|
    requires s'.bus == s.bus && s'.watermark == s.watermark && s'.cached == s.cached
    requires forall k :: 0 <= k < |s.table| && k != j ==> s'.table[k].word == s.table[k].word
    requires s'.table[j].word == word && WordOk(s, word)
    ensures TableOk(s')
  {
    forall k | 0 <= k < |s'.table| ensures WordOk(s', s'.table[k].word) { assert WordOk(s, s.table[k].word); }
  }

  /** A new word is at the head of the log, above the one it replaces, or not active. */
  predicate Advances(s: State, was: Word, word: Word) {
    word.Active? ==> word.cursor == s.bus.writeSeq || (was.Active? && was.cursor <= word.cursor)
  }

  lemma WordCheck(s: State, s': State, j: nat)
    requires Shape(s) && CheckOk(s) && j < |s.table| == |s'.table| && s'.bus == s.bus && s'.watermark == s.watermark
    requires s'.check == s.check && forall k :: 0 <= k < |s.table| && k != j ==> s'.table[k].word == s.table[k].word
    requires Advances(s, s.table[j].word, s'.table[j].word) && WordOk(s, s'.table[j].word)
    ensures CheckOk(s')
  {
    if s.check.Scanning? {
      forall k | 0 <= k < s'.check.next ensures Inspected(s', s'.table[k].word) {
        assert Inspected(s, s.table[k].word);
      }
    }
  }

  // ---- clients ----

  lemma OtherClient(s: State, s': State, k: nat)
    requires |s.clients| == |s.bus.subs| && |s'.clients| == |s'.bus.subs| && |s'.table| == |s.table|
    requires k < |s.clients| && k < |s'.clients| && OwnerOk(s, k) && Lossless(s, k)
    requires s'.clients[k] == s.clients[k] && s'.bus.subs[k] == s.bus.subs[k] && s.dead <= s'.dead
    requires s'.bus.writeSeq == s.bus.writeSeq
    requires Alive(s', k) && HasSlot(s.clients[k].stage) ==>
               var j := s.clients[k].stage.slot;
               s'.table[j].word == s.table[j].word && s'.table[j].pid in {0, s.table[j].pid}
    ensures OwnerOk(s', k) && Lossless(s', k)
  {
  }

  /** A stage change of client `i` that gives it no new slot. */
  lemma StageOwners(s: State, s': State, i: nat)
    requires OneOwner(s) && i < |s.clients| == |s'.clients| && s.dead <= s'.dead
    requires s'.clients == s.clients[i := s'.clients[i]] && s'.clients[i].pid == s.clients[i].pid
    requires HasSlot(s'.clients[i].stage) ==>
               HasSlot(s.clients[i].stage) && s'.clients[i].stage.slot == s.clients[i].stage.slot
    ensures OneOwner(s')
  {
  }

  /** Nobody alive owns a free slot. */
  lemma FreeIsUnowned(s: State, j: nat, k: nat)
    requires Inv(s) && j < |s.table| && s.table[j].word.Free?
    requires k < |s.clients| && Alive(s, k) && HasSlot(s.clients[k].stage)
    ensures s.clients[k].stage.slot != j
  {
    assert OwnerOk(s, k);
  }

  lemma TryClaimKeeps(s: State, i: nat)
    requires Inv(s) && ClientEnabled(s, i, TryClaim)
    ensures Inv(ApplyClient(s, i, TryClaim))
  {
    var s' := ApplyClient(s, i, TryClaim);
    var j := s.clients[i].stage.next;
    assert OwnerOk(s, i) && Lossless(s, i);
    if s.table[j].word.Free? {
      WordTable(s, s', j, Claiming);
      WordCheck(s, s', j);
      forall k | 0 <= k < |s.clients| && k != i && Alive(s, k) && HasSlot(s.clients[k].stage)
        ensures s.clients[k].stage.slot != j { FreeIsUnowned(s, j, k); }
    } else {
      WordTable(s, s', j, s.table[j].word);
      WordCheck(s, s', j);
    }
    forall k | 0 <= k < |s'.clients| ensures OwnerOk(s', k) && Lossless(s', k) {
      if k != i {
        assert OwnerOk(s, k) && Lossless(s, k);
        OtherClient(s, s', k);
      }
    }
  }

  lemma GiveUpKeeps(s: State, i: nat)
    requires Inv(s) && ClientEnabled(s, i, GiveUp)
    ensures Inv(ApplyClient(s, i, GiveUp))
  {
    var s' := ApplyClient(s, i, GiveUp);
    WordTable(s, s', 0, s.table[0].word);
    WordCheck(s, s', 0);
    StageOwners(s, s', i);
    forall k | 0 <= k < |s'.clients| ensures OwnerOk(s', k) && Lossless(s', k) {
      assert OwnerOk(s, k) && Lossless(s, k);
      if k != i { OtherClient(s, s', k); }
    }
  }

  lemma PidKeeps(s: State, i: nat, a: ClientStep)
    requires Inv(s) && ClientEnabled(s, i, a) && (a.StorePid? || a.ClearPid?)
    ensures Inv(ApplyClient(s, i, a))
  {
    var s' := ApplyClient(s, i, a);
    var j := s.clients[i].stage.slot;
    WordTable(s, s', j, s.table[j].word);
    assert WordOk(s, s.table[j].word);
    WordCheck(s, s', j);
    StageOwners(s, s', i);
    forall k | 0 <= k < |s'.clients| ensures OwnerOk(s', k) && Lossless(s', k) {
      assert OwnerOk(s, k) && Lossless(s, k);
      if k != i { OtherClient(s, s', k); }
    }
  }

  lemma ActivateKeeps(s: State, i: nat)
    requires Inv(s) && ClientEnabled(s, i, Activate)
    ensures Inv(ApplyClient(s, i, Activate))
  {
    var s' := ApplyClient(s, i, Activate);
    var j := s.clients[i].stage.slot;
    assert OwnerOk(s, i) && Lossless(s, i);
    WordTable(s, s', j, Active(s.bus.subs[i].cursor));
    WordCheck(s, s', j);
    StageOwners(s, s', i);
    forall k | 0 <= k < |s'.clients| ensures OwnerOk(s', k) && Lossless(s', k) {
      assert OwnerOk(s, k) && Lossless(s, k);
      if k != i { OtherClient(s, s', k); }
    }
  }

  lemma DropKeeps(s: State, i: nat)
    requires Inv(s) && ClientEnabled(s, i, Drop)
    ensures Inv(ApplyClient(s, i, Drop))
  {
    var s' := ApplyClient(s, i, Drop);
    var j := s.clients[i].stage.slot;
    WordTable(s, s', j, Free);
    WordCheck(s, s', j);
    StageOwners(s, s', i);
    forall k | 0 <= k < |s'.clients| ensures OwnerOk(s', k) && Lossless(s', k) {
      assert OwnerOk(s, k) && Lossless(s, k);
      if k != i { OtherClient(s, s', k); }
    }
  }

  // ---- receiving ----

  /** For a live client below the head, the slot at its cursor holds exactly the next value. */
  lemma NextIsThere(s: State, i: nat)
    requires Inv(s) && i < |s.clients| && Alive(s, i) && s.clients[i].stage.Live?
    requires s.bus.subs[i].cursor < s.bus.writeSeq
    ensures s.bus.slots[Bus.Index(s.bus, s.bus.subs[i].cursor)].stamp == s.bus.subs[i].cursor * 2 + 2
  {
    LiveIsClose(s, i);
    UnreadStays(s.bus, s.bus.subs[i].cursor);
  }

  /** A live client is never turned away after it saw the head above its cursor: no step of a
      started receive ends it without a value or skips ahead. */
  lemma ReceiveNeverFails(s: State, i: nat, x: Bus.SubStep)
    requires Inv(s) && ClientEnabled(s, i, Ring(x))
    ensures var sub := s.bus.subs[i];
            var sub' := Bus.SubNext(s.bus, i, x);
            && sub'.lagged == sub.lagged
            && (x.LoadHead? ==> (sub'.pc.Aimed? <==> sub.cursor < s.bus.writeSeq) && sub'.cursor == sub.cursor)
            && (x.LoadStamp? ==> sub' == sub.(pc := Bus.Reading(sub.cursor * 2 + 2, map[])))
            && (x.Verify? ==> sub'.pc.Reporting? && sub'.delivered == sub.delivered + [sub.cursor])
            && (x.Verify? ==> sub'.cursor == sub.cursor + 1)
  {
    var sub := s.bus.subs[i];
    assert OwnerOk(s, i) && Lossless(s, i) && Bus.SubOk(s.bus, sub);
    LiveIsClose(s, i);
    if sub.cursor < s.bus.writeSeq { NextIsThere(s, i); }
  }

  lemma RingClient(s: State, i: nat, x: Bus.SubStep)
    requires Inv(s) && ClientEnabled(s, i, Ring(x))
    ensures var s' := ApplyClient(s, i, Ring(x));
            i < |s'.clients| == |s'.bus.subs| && OwnerOk(s', i) && Lossless(s', i)
  {
    var sub := s.bus.subs[i];
    assert OwnerOk(s, i) && Lossless(s, i) && Bus.SubOk(s.bus, sub);
    ReceiveNeverFails(s, i, x);
  }

  lemma RingTable(s: State, i: nat, x: Bus.SubStep)
    requires Inv(s) && ClientEnabled(s, i, Ring(x))
    ensures TableOk(ApplyClient(s, i, Ring(x))) && CheckOk(ApplyClient(s, i, Ring(x)))
  {
    var s' := ApplyClient(s, i, Ring(x));
    var j := s.clients[i].stage.slot;
    assert OwnerOk(s, i) && Lossless(s, i) && WordOk(s, s.table[j].word);
    forall k | 0 <= k < |s'.table| ensures WordOk(s', s'.table[k].word) { assert WordOk(s, s.table[k].word); }
    if s.check.Scanning? {
      forall k | 0 <= k < s'.check.next ensures Inspected(s', s'.table[k].word) {
        assert Inspected(s, s.table[k].word);
      }
    }
  }

  lemma RingKeeps(s: State, i: nat, x: Bus.SubStep)
    requires Inv(s) && ClientEnabled(s, i, Ring(x))
    ensures Inv(ApplyClient(s, i, Ring(x)))
  {
    var s' := ApplyClient(s, i, Ring(x));
    Bus.SubKeeps(s.bus, i, x);
    RingTable(s, i, x);
    RingClient(s, i, x);
    forall k | 0 <= k < |s'.clients| ensures OwnerOk(s', k) && Lossless(s', k) {
      if k != i {
        assert OwnerOk(s, k) && Lossless(s, k);
        OtherClient(s, s', k);
      }
    }
  }

  lemma ClientKeeps(s: State, i: nat, a: ClientStep)
    requires Inv(s) && ClientEnabled(s, i, a)
    ensures Inv(ApplyClient(s, i, a))
  {
    match a
    case TryClaim => TryClaimKeeps(s, i);
    case GiveUp => GiveUpKeeps(s, i);
    case StorePid => PidKeeps(s, i, a);
    case Activate => ActivateKeeps(s, i);
    case Drop => DropKeeps(s, i);
    case ClearPid => PidKeeps(s, i, a);
    case Ring(x) => RingKeeps(s, i, x);
  }

  // ---- joining and crashing ----

  lemma ConnectKeeps(s: State, pid: nat)
    requires Inv(s) && Enabled(s, Connect(pid))
    ensures Inv(Apply(s, Connect(pid)))
  {
    var s' := Apply(s, Connect(pid));
    Bus.ConnectKeeps(s.bus);
    forall j | 0 <= j < |s'.table| ensures WordOk(s', s'.table[j].word) { assert WordOk(s, s.table[j].word); }
    forall k | 0 <= k < |s'.clients| ensures OwnerOk(s', k) && Lossless(s', k) {
      if k < |s.clients| {
        assert OwnerOk(s, k) && Lossless(s, k);
        OtherClient(s, s', k);
      }
    }
    if s.check.Scanning? {
      forall k | 0 <= k < s'.check.next ensures Inspected(s', s'.table[k].word) {
        assert Inspected(s, s.table[k].word);
      }
    }
  }

  lemma CrashKeeps(s: State, pid: nat)
    requires Inv(s)
    ensures Inv(Apply(s, Crash(pid)))
  {
    var s' := Apply(s, Crash(pid));
    forall j | 0 <= j < |s'.table| ensures WordOk(s', s'.table[j].word) { assert WordOk(s, s.table[j].word); }
    forall k | 0 <= k < |s'.clients| ensures OwnerOk(s', k) && Lossless(s', k) {
      assert OwnerOk(s, k) && Lossless(s, k);
      OtherClient(s, s', k);
    }
    if s.check.Scanning? {
      forall k | 0 <= k < s'.check.next ensures Inspected(s', s'.table[k].word) {
        assert Inspected(s, s.table[k].word);
      }
    }
  }

  // ---- back-pressure ----

  lemma PruneKeeps(s: State, j: nat, check: Check)
    requires Inv(s) && j < |s.table| && ClaimantDead(s, j)
    requires CheckOk(s.(table := s.table[j := Entry(Free, 0)], check := check))
    ensures Inv(s.(table := s.table[j := Entry(Free, 0)], check := check))
  {
    var s' := s.(table := s.table[j := Entry(Free, 0)], check := check);
    WordTable(s, s', j, Free);
    forall k | 0 <= k < |s'.clients| ensures OwnerOk(s', k) && Lossless(s', k) {
      assert OwnerOk(s, k) && Lossless(s, k);
      OtherClient(s, s', k);
    }
  }

  lemma SameTable(s: State, s': State)
    requires Inv(s) && s' == s.(check := s'.check) && CheckOk(s')
    ensures Inv(s')
  {
    forall j | 0 <= j < |s'.table| ensures WordOk(s', s'.table[j].word) { assert WordOk(s, s.table[j].word); }
    forall k | 0 <= k < |s'.clients| ensures OwnerOk(s', k) && Lossless(s', k) {
      assert OwnerOk(s, k) && Lossless(s, k);
      OtherClient(s, s', k);
    }
  }

  /** A dead process's slot has no live owner: pruning frees nobody's slot. */
  lemma DeadPidIsUnowned(s: State, j: nat)
    requires Inv(s) && j < |s.table| && s.table[j].word.Active? && s.table[j].pid != 0 && s.table[j].pid in s.dead
    ensures ClaimantDead(s, j)
  {
    forall i | 0 <= i < |s.clients| && Alive(s, i) && HasSlot(s.clients[i].stage) ensures s.clients[i].stage.slot != j {
      assert OwnerOk(s, i);
    }
  }

  lemma InspectCheck(s: State, prune: bool)
    requires Inv(s) && CheckEnabled(s, Inspect(prune))
    ensures CheckOk(ApplyInspect(s, prune))
  {
    var s' := ApplyInspect(s, prune);
    assert WordOk(s, s.table[s.check.next].word);
    forall k | 0 <= k < s'.check.next ensures Inspected(s', s'.table[k].word) {
      if k < s.check.next {
        assert Inspected(s, s.table[k].word) && WordOk(s, s.table[k].word);
      }
    }
  }

  lemma InspectKeeps(s: State, prune: bool)
    requires Inv(s) && CheckEnabled(s, Inspect(prune))
    ensures Inv(ApplyInspect(s, prune))
  {
    var s' := ApplyInspect(s, prune);
    var j := s.check.next;
    InspectCheck(s, prune);
    if s.table[j].word.Active? && s.table[j].pid != 0 && s.table[j].pid in s.dead {
      DeadPidIsUnowned(s, j);
      PruneKeeps(s, j, s'.check);
    } else if prune {
      PruneKeeps(s, j, s'.check);
    } else {
      SameTable(s, s');
    }
  }

  /** What a completed scan proves: its minimum is a lower bound of all active cursors. */
  lemma ScanIsLowerBound(s: State, j: nat)
    requires Inv(s) && CheckEnabled(s, FinishScan) && j < |s.table| && s.table[j].word.Active?
    ensures if s.check.found then s.check.min <= s.table[j].word.cursor else s.table[j].word.cursor == s.bus.writeSeq
  {
    assert Inspected(s, s.table[j].word);
  }

  lemma FinishKeeps(s: State)
    requires Inv(s) && CheckEnabled(s, FinishScan)
    ensures Inv(ApplyCheck(s, FinishScan))
  {
    var s' := ApplyCheck(s, FinishScan);
    forall j | 0 <= j < |s'.table|
      ensures WordOk(s', s'.table[j].word)
      ensures s'.check.Cleared? && s'.table[j].word.Active? ==>
                s'.bus.writeSeq < s'.table[j].word.cursor + Effective(s')
    {
      assert WordOk(s, s.table[j].word);
      if s.table[j].word.Active? { ScanIsLowerBound(s, j); }
    }
    forall k | 0 <= k < |s'.clients| ensures OwnerOk(s', k) && Lossless(s', k) {
      assert OwnerOk(s, k) && Lossless(s, k);
      OtherClient(s, s', k);
    }
  }

  lemma TryPublishKeeps(s: State, v: seq<Bus.Word>)
    requires Inv(s) && CheckEnabled(s, TryPublish(v))
    ensures Inv(ApplyCheck(s, TryPublish(v)))
  {
    var s' := ApplyCheck(s, TryPublish(v));
    forall j | 0 <= j < |s.table| && s.table[j].word.Active? ensures s.cached <= s.table[j].word.cursor {
      assert WordOk(s, s.table[j].word);
    }
    SameTable(s, s');
  }

  lemma CheckKeeps(s: State, a: CheckStep)
    requires Inv(s) && CheckEnabled(s, a)
    ensures Inv(ApplyCheck(s, a))
  {
    match a
    case TryPublish(v) => TryPublishKeeps(s, v);
    case Inspect(prune) => InspectKeeps(s, prune);
    case FinishScan => FinishKeeps(s);
  }

  lemma WriteKeeps(s: State, a: Bus.PubStep)
    requires Inv(s) && WriteEnabled(s, a)
    ensures Inv(ApplyWrite(s, a))
  {
    var s' := ApplyWrite(s, a);
    Bus.PubKeeps(s.bus, a);
    forall j | 0 <= j < |s'.table| ensures WordOk(s', s'.table[j].word) { assert WordOk(s, s.table[j].word); }
    forall k | 0 <= k < |s'.clients| ensures OwnerOk(s', k) && Lossless(s', k) {
      assert OwnerOk(s, k) && Lossless(s, k);
    }
  }

  // ---- main results ----

  lemma StepKeeps(s: State, a: Action)
    requires Inv(s) && Enabled(s, a)
    ensures Inv(Apply(s, a))
  {
    match a
    case Connect(pid) => ConnectKeeps(s, pid);
    case Crash(pid) => CrashKeeps(s, pid);
    case Move(i, x) => ClientKeeps(s, i, x);
    case Look(x) => CheckKeeps(s, x);
    case Write(x) => WriteKeeps(s, x);
  }

  lemma AnyStepKeeps(s: State, s': State)
    requires Inv(s) && Step(s, s')
    ensures Inv(s')
  {
    var a :| Enabled(s, a) && s' == Apply(s, a);
    StepKeeps(s, a);
  }

  lemma {:induction false} EveryRunKeepsInv(run: seq<State>, n: nat)
    requires Run(run) && n < |run|
    ensures Inv(run[n])
  {
    if n == 0 {
      InitInv(run[0]);
    } else {
      EveryRunKeepsInv(run, n - 1);
      assert StepAt(run, n);
      AnyStepKeeps(run[n - 1], run[n]);
    }
  }

  /** Lossless delivery over whole runs: a subscriber has received exactly the published values
      from its start up to its cursor, in order, with no lag; and while it lives it is at most
      `ring_size - watermark` behind and the slot it will read next cannot have been overwritten. */
  lemma LosslessInEveryRun(run: seq<State>, n: nat, i: nat)
    requires Run(run) && n < |run| && i < |run[n].clients|
    ensures |run[n].clients| == |run[n].bus.subs|
    ensures var s := run[n];
            var sub := s.bus.subs[i];
            sub.lagged == 0 && sub.start <= sub.cursor <= |s.bus.log| && sub.got == s.bus.log[sub.start..sub.cursor]
    ensures var s := run[n];
            var sub := s.bus.subs[i];
            Alive(s, i) && s.clients[i].stage.Live? ==>
              && s.bus.writeSeq + s.watermark <= sub.cursor + s.bus.size
              && 0 < s.bus.size == |s.bus.slots|
              && (sub.cursor < s.bus.writeSeq ==> s.bus.slots[Bus.Index(s.bus, sub.cursor)].stamp == sub.cursor * 2 + 2)
  {
    EveryRunKeepsInv(run, n);
    var s := run[n];
    var sub := s.bus.subs[i];
    GotExactly(s, i);
    if Alive(s, i) && s.clients[i].stage.Live? {
      LiveIsClose(s, i);
      if sub.cursor < s.bus.writeSeq { NextIsThere(s, i); }
    }
  }

  lemma GotExactly(s: State, i: nat)
    requires Inv(s) && i < |s.clients|
    ensures var sub := s.bus.subs[i];
            sub.lagged == 0 && sub.start <= sub.cursor <= |s.bus.log| && sub.got == s.bus.log[sub.start..sub.cursor]
  {
    var sub := s.bus.subs[i];
    assert Lossless(s, i) && Bus.SubOk(s.bus, sub);
    assert |sub.got| == sub.cursor - sub.start;
  }

  /** The cached minimum is invisible: it never exceeds an active cursor, so passing the cached
      test implies that every active subscriber is less than `ring_size - watermark` behind. */
  lemma CacheIsInvisible(run: seq<State>, n: nat, j: nat)
    requires Run(run) && n < |run| && j < |run[n].table| && run[n].table[j].word.Active?
    ensures var s := run[n];
            && s.cached <= s.table[j].word.cursor
            && (s.bus.writeSeq + s.watermark < s.cached + s.bus.size ==>
                  s.bus.writeSeq + s.watermark < s.table[j].word.cursor + s.bus.size)
  {
    EveryRunKeepsInv(run, n);
    assert WordOk(run[n], run[n].table[j].word);
  }

  /** Slot ownership: two live clients never share a table slot, and an owned ACTIVE slot shows a
      cursor that is its owner's or one behind it. */
  lemma SlotOwnership(run: seq<State>, n: nat, i: nat, k: nat)
    requires Run(run) && n < |run| && i < |run[n].clients| && k < |run[n].clients| && i != k
    requires Alive(run[n], i) && Alive(run[n], k) && run[n].clients[i].stage.Live? && HasSlot(run[n].clients[k].stage)
    ensures var s := run[n];
            |s.clients| == |s.bus.subs| && s.clients[i].stage.slot != s.clients[k].stage.slot
            && s.clients[i].stage.slot < |s.table| && s.table[s.clients[i].stage.slot].word.Active?
            && var c := s.table[s.clients[i].stage.slot].word.cursor; c <= s.bus.subs[i].cursor <= c + 1
  {
    EveryRunKeepsInv(run, n);
    assert OwnerOk(run[n], i) && Lossless(run[n], i);
  }

  /** While it is owned, an ACTIVE slot's cursor only grows. */
  lemma OwnedCursorGrows(s: State, a: Action, i: nat)
    requires Inv(s) && Enabled(s, a) && i < |s.clients| && Alive(s, i) && s.clients[i].stage.Live?
    requires var s' := Apply(s, a); Alive(s', i) && s'.clients[i].stage.Live?
    ensures var s' := Apply(s, a);
            var j := s.clients[i].stage.slot;
            && s'.clients[i].stage == s.clients[i].stage && j < |s.table| == |s'.table|
            && s.table[j].word.Active? && s'.table[j].word.Active?
            && s.table[j].word.cursor <= s'.table[j].word.cursor
  {
    StepKeeps(s, a);
    var s' := Apply(s, a);
    assert OwnerOk(s, i) && OwnerOk(s', i) && Lossless(s, i);
    CursorGrows(s, a, i);
  }

  lemma CursorGrows(s: State, a: Action, i: nat)
    requires Inv(s) && Enabled(s, a) && i < |s.clients| && Alive(s, i) && s.clients[i].stage.Live?
    requires var s' := Apply(s, a); Alive(s', i) && s'.clients[i].stage.Live?
    ensures Apply(s, a).clients[i].stage == s.clients[i].stage
    ensures i < |Apply(s, a).bus.subs| && Reported(s.bus.subs[i]) <= Reported(Apply(s, a).bus.subs[i])
  {
    assert OwnerOk(s, i) && Lossless(s, i);
    if a.Move? && a.client.Ring? && a.i == i {
      ReceiveNeverFails(s, i, a.client.sub);
    }
  }
}
