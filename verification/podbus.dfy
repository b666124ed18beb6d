/** The broadcast ring as objects over shared memory: whole calls of `PodBus` and
    `BusSubscriber` (`src/platform/pod_bus.rs`), proved against the log of published values.

    A call sees shared memory as one state, which may have a publish in progress; interleavings
    inside a call are the subject of `Bus` and `Bounded`. Clocks and process liveness are
    arguments (`now`, `alive`). Sequences stay below 2^62. */
module PodBus {
  import opened Words
  import opened SlotWord

  const CLAIM_TIMEOUT_US: nat := 5_000_000

  datatype Cell<T> = Cell(stamp: nat, data: T)

  datatype SubSlot = SubSlot(word: nat, pid: nat)

  datatype Progress = Quiet | Writing | Stamped

  /** What one `try_recv` returns and leaves behind. */
  datatype Outcome<T> = Outcome(value: Option<T>, cursor: nat, lagged: nat)

  // ---- what a receive means on the log ----

  /** The sequence a subscriber at `cursor` reads next: it skips what fell out of the ring. */
  function Oldest(published: nat, size: nat, cursor: nat): nat {
    if published - cursor > size then published - size else cursor
  }

  function Receive<T>(log: seq<T>, size: nat, progress: Progress, cursor: nat, lagged: nat): Outcome<T> {
    if cursor >= |log| then Outcome(None, cursor, lagged)
    else
      var c := Oldest(|log|, size, cursor);
      var skipped := lagged + (c - cursor);
      if c + size == |log| && progress.Writing? then Outcome(None, c, skipped)
      else if c + size == |log| && progress.Stamped? then Outcome(None, |log| + 1, lagged + (|log| + 1 - cursor))
      else if c < |log| then Outcome(Some(log[c]), c + 1, skipped)
      else Outcome(None, c, skipped)
  }

  /** What a receive must answer: the accounting, the value, and when there is none. */
  predicate Answers<T(==)>(log: seq<T>, size: nat, progress: Progress, cursor: nat, lagged: nat, o: Outcome<T>) {
    && cursor <= o.cursor && lagged <= o.lagged
    && o.cursor - cursor == (o.lagged - lagged) + (if o.value.Some? then 1 else 0)
    && (o.value.Some? ==> 0 < o.cursor <= |log| && o.value == Some(log[o.cursor - 1]))
    && (o.value.Some? ==> |log| < o.cursor + size && (o.cursor == cursor + 1 || o.cursor + size == |log| + 1))
    && (o.value.None? <==> cursor >= |log| || (!progress.Quiet? && |log| >= cursor + size))
    && (cursor >= |log| ==> o.cursor == cursor)
    && (cursor < |log| && o.value.None? ==> o.cursor == if progress.Writing? then |log| - size else |log| + 1)
  }

  /** A receive returns the oldest unread value of the ring and counts what it passed over; it returns
      nothing exactly if the subscriber has caught up or the cell at the start of its window is being
      overwritten, and then waits there while it is written, or moves past the new value. */
  lemma ReceiveAnswers<T>(log: seq<T>, size: nat, progress: Progress, cursor: nat, lagged: nat)
    requires 0 < size
    ensures Answers(log, size, progress, cursor, lagged, Receive(log, size, progress, cursor, lagged))
  {
  }

  // ---- what the ring shows of the log ----

  function At(q: nat, size: nat): (i: nat)
    requires 0 < size
    ensures i < size
  {
    q % size
  }

  /** The cell of sequence `q` shows the `q`-th published value. */
  predicate Holds<T(==)>(cells: seq<Cell<T>>, log: seq<T>, q: nat)
    requires q < |log| && 0 < |cells|
  {
    cells[At(q, |cells|)] == Cell(q * 2 + 2, log[q])
  }

  /** Every sequence of the last ring's worth is shown, except the one being overwritten. */
  ghost predicate RingOk<T>(cells: seq<Cell<T>>, log: seq<T>, progress: Progress) {
    && 0 < |cells|
    && (forall q: nat :: q < |log| <= q + |cells| && (progress.Quiet? || |log| < q + |cells|) ==> Holds(cells, log, q))
    && (progress.Writing? ==> cells[At(|log|, |cells|)].stamp == |log| * 2 + 1)
    && (progress.Stamped? ==> cells[At(|log|, |cells|)].stamp == |log| * 2 + 2)
  }

  lemma Elsewhere(q: nat, w: nat, size: nat)
    requires q < w < q + size
    ensures At(q, size) != At(w, size)
  {
    if At(q, size) == At(w, size) { SameResidueGap(q, w, size); }
  }

  /** Overwriting the cell of the next sequence leaves the newer cells alone. */
  lemma WriteCell<T>(cells: seq<Cell<T>>, log: seq<T>, from: Progress, cell: Cell<T>, to: Progress)
    requires RingOk(cells, log, from) && !to.Quiet?
    requires cell.stamp == |log| * 2 + if to.Writing? then 1 else 2
    ensures RingOk(cells[At(|log|, |cells|) := cell], log, to)
  {
    var cells' := cells[At(|log|, |cells|) := cell];
    forall q: nat | q < |log| <= q + |cells'| && |log| < q + |cells'| ensures Holds(cells', log, q) {
      Elsewhere(q, |log|, |cells|);
      assert Holds(cells, log, q);
    }
  }

  /** Advancing past a stamped cell appends its value to the log. */
  lemma AdvanceRing<T>(cells: seq<Cell<T>>, log: seq<T>, value: T)
    requires RingOk(cells, log, Stamped) && cells[At(|log|, |cells|)].data == value
    ensures RingOk(cells, log + [value], Quiet)
  {
    var log' := log + [value];
    forall q: nat | q < |log'| <= q + |cells| ensures Holds(cells, log', q) {
      if q < |log| { assert Holds(cells, log, q); }
    }
  }

  /** What a reader finds in the cell of its next sequence. */
  lemma NextCell<T>(cells: seq<Cell<T>>, log: seq<T>, progress: Progress, c: nat)
    requires RingOk(cells, log, progress) && c < |log| <= c + |cells|
    ensures progress.Quiet? || |log| < c + |cells| ==> cells[At(c, |cells|)] == Cell(c * 2 + 2, log[c])
    ensures progress.Writing? && |log| == c + |cells| ==> cells[At(c, |cells|)].stamp == |log| * 2 + 1
    ensures progress.Stamped? && |log| == c + |cells| ==> cells[At(c, |cells|)].stamp == |log| * 2 + 2
  {
    if |log| == c + |cells| { AddModulus(c, |cells|); }
    if progress.Quiet? || |log| < c + |cells| { assert Holds(cells, log, c); }
  }

  lemma SliceNext<T>(log: seq<T>, from: nat, c: nat)
    requires from <= c < |log|
    ensures log[from..c] + [log[c]] == log[from..c + 1]
  {
  }

  /** The decision a reader at `c` takes on the cell it loaded. */
  function Look<T>(cell: Cell<T>, c: nat, lagged: nat): Outcome<T> {
    if cell.stamp % 2 != 0 || cell.stamp == 0 then Outcome(None, c, lagged)
    else if cell.stamp == c * 2 + 2 then Outcome(Some(cell.data), c + 1, lagged)
    else
      var next := cell.stamp / 2;
      Outcome(None, next, if c <= next then lagged + (next - c) else lagged)
  }

  lemma LookIsReceive<T>(cells: seq<Cell<T>>, log: seq<T>, progress: Progress, cursor: nat, lagged: nat)
    requires RingOk(cells, log, progress) && cursor < |log|
    ensures var c := Oldest(|log|, |cells|, cursor);
            && Look(cells[At(c, |cells|)], c, lagged + (c - cursor)) == Receive(log, |cells|, progress, cursor, lagged)
            && var stamp := cells[At(c, |cells|)].stamp; stamp % 2 == 0 && stamp > 0 ==> c <= stamp / 2
  {
    NextCell(cells, log, progress, Oldest(|log|, |cells|, cursor));
  }

  // ---- what a scan of the subscriber table means ----

  /** An ACTIVE slot whose process is not known to be gone. */
  predicate Counted(e: SubSlot, alive: set<nat>) {
    Decode(e.word).Active? && (e.pid == 0 || e.pid in alive)
  }

  /** A slot the scan frees: its subscriber crashed, or its claim is older than five seconds. */
  predicate Stale(e: SubSlot, alive: set<nat>, now: Option<nat>) {
    || (Decode(e.word).Active? && !Counted(e, alive))
    || (Decode(e.word).Claiming? && now.Some? && now.value > Decode(e.word).stamp + CLAIM_TIMEOUT_US)
  }

  function Swept(e: SubSlot, alive: set<nat>, now: Option<nat>): SubSlot {
    if Stale(e, alive, now) then SubSlot(STATE_FREE, 0) else e
  }

  /** What a scan does to a slot: it frees those of crashed subscribers and claims older than five
      seconds, and leaves live subscribers, younger claims and free slots as they are. */
  lemma SweepExact(e: SubSlot, alive: set<nat>, now: Option<nat>)
    ensures Decode(e.word).Active? ==>
            Swept(e, alive, now) == if e.pid == 0 || e.pid in alive then e else SubSlot(0, 0)
    ensures Decode(e.word).Claiming? ==>
            Swept(e, alive, now) ==
            if now.Some? && now.value - Decode(e.word).stamp > 5_000_000 then SubSlot(0, 0) else e
    ensures Decode(e.word).Free? ==> Swept(e, alive, now) == e
  {
  }

  function Slowest(entries: seq<SubSlot>, alive: set<nat>): Option<nat> {
    if entries == [] then None
    else
      var rest, e := Slowest(entries[..|entries| - 1], alive), entries[|entries| - 1];
      if !Counted(e, alive) then rest
      else if rest.None? || Decode(e.word).cursor < rest.value then Some(Decode(e.word).cursor)
      else rest
  }

  /** A live subscriber at least `effective` sequences behind `published`. */
  predicate Behind(e: SubSlot, alive: set<nat>, effective: nat, published: nat) {
    Counted(e, alive) && published >= Decode(e.word).cursor + effective
  }

  lemma {:induction false} SlowestIsLeast(entries: seq<SubSlot>, alive: set<nat>, k: nat)
    requires k < |entries| && Counted(entries[k], alive)
    ensures Slowest(entries, alive).Some? && Slowest(entries, alive).value <= Decode(entries[k].word).cursor
  {
    if k < |entries| - 1 { SlowestIsLeast(entries[..|entries| - 1], alive, k); }
  }

  lemma {:induction false} SlowestIsCounted(entries: seq<SubSlot>, alive: set<nat>) returns (k: nat)
    requires Slowest(entries, alive).Some?
    ensures k < |entries| && Counted(entries[k], alive)
    ensures Slowest(entries, alive).value == Decode(entries[k].word).cursor
  {
    var n := |entries| - 1;
    if Counted(entries[n], alive) && Slowest(entries, alive) == Some(Decode(entries[n].word).cursor) {
      k := n;
    } else {
      k := SlowestIsCounted(entries[..n], alive);
    }
  }

  /** Some live subscriber is `effective` behind exactly when the slowest one is. */
  lemma SlowestDecides(entries: seq<SubSlot>, alive: set<nat>, effective: nat, published: nat)
    ensures (exists k :: 0 <= k < |entries| && Behind(entries[k], alive, effective, published)) <==>
            Slowest(entries, alive).Some? && published >= Slowest(entries, alive).value + effective
  {
    if Slowest(entries, alive).Some? && published >= Slowest(entries, alive).value + effective {
      var k := SlowestIsCounted(entries, alive);
      assert Behind(entries[k], alive, effective, published);
    }
    forall k | 0 <= k < |entries| && Behind(entries[k], alive, effective, published)
      ensures Slowest(entries, alive).Some? && published >= Slowest(entries, alive).value + effective
    {
      SlowestIsLeast(entries, alive, k);
    }
  }

  /** No subscriber is ahead of the publisher. */
  predicate TableOk(entries: seq<SubSlot>, published: nat) {
    forall j :: 0 <= j < |entries| && Decode(entries[j].word).Active? ==> Decode(entries[j].word).cursor <= published
  }

  lemma ReportOk(entries: seq<SubSlot>, j: nat, pid: nat, c: nat, published: nat)
    requires TableOk(entries, published) && j < |entries| && c <= published && c < U62
    ensures TableOk(entries[j := SubSlot(Encode(Active(c)), pid)], published)
  {
    RoundTrip(Active(c));
  }

  lemma SlowestPublished(entries: seq<SubSlot>, alive: set<nat>, published: nat)
    requires TableOk(entries, published)
    ensures Slowest(entries, alive).Some? ==> Slowest(entries, alive).value <= published
  {
    if Slowest(entries, alive).Some? {
      var k := SlowestIsCounted(entries, alive);
    }
  }

  lemma DecodedWord(word: nat)
    ensures var state, value := BitAnd(word, STATE_MASK), BitAnd(word, VALUE_MASK);
            && value < U62
            && (state == STATE_CLAIMING <==> Decode(word) == Claiming(value))
            && (state == STATE_ACTIVE <==> Decode(word) == Active(value))
  {
    MaskValue(word);
  }

  // ---- shared memory ----

  class Shared<T(0)> {
    const size: nat
    const cells: array<Cell<T>>
    const table: array<SubSlot>
    var writeSeq: nat
    ghost var log: seq<T>
    ghost var progress: Progress

    ghost predicate Valid()
      reads this, cells, table
    {
      && IsPowerOfTwo(size) && cells.Length == size && table.Length == MAX_SUBSCRIBER_SLOTS
      && |log| == writeSeq && writeSeq + 1 < U62 && RingOk(cells[..], log, progress) && TableOk(table[..], writeSeq)
    }

    constructor (ringSize: nat)
      requires IsPowerOfTwo(ringSize)
      ensures Valid() && size == ringSize && log == [] && progress.Quiet?
      ensures fresh(cells) && fresh(table)
      ensures forall j :: 0 <= j < table.Length ==> table[j] == SubSlot(STATE_FREE, 0)
    {
      size := ringSize;
      cells := new Cell<T>[ringSize];
      table := new SubSlot[MAX_SUBSCRIBER_SLOTS](_ => SubSlot(STATE_FREE, 0));
      writeSeq := 0;
      log := [];
      progress := Quiet;
    }
  }

  // ---- publisher ----

  class Publisher<T(0)> {
    const shared: Shared<T>
    const watermark: Option<nat>
    var cachedSlowest: nat

    ghost predicate Valid()
      reads this, shared, shared.cells, shared.table
    {
      && shared.Valid() && shared.progress.Quiet?
      && (watermark.Some? ==> watermark.value < shared.size && cachedSlowest <= shared.writeSeq)
      && (watermark.Some? ==> CacheBelow(shared.table[..]))
    }

    /** The cached cursor is a lower bound for every active subscriber. */
    ghost predicate CacheBelow(entries: seq<SubSlot>)
      reads this
    {
      forall j :: 0 <= j < |entries| && Decode(entries[j].word).Active? ==>
                    cachedSlowest <= Decode(entries[j].word).cursor
    }

    constructor (memory: Shared<T>, headroom: Option<nat>)
      requires memory.Valid() && memory.progress.Quiet? && (headroom.Some? ==> headroom.value < memory.size)
      ensures Valid() && shared == memory && watermark == headroom
    {
      shared := memory;
      watermark := headroom;
      cachedSlowest := 0;
    }

    /** Stamp odd, store the value, stamp even, advance: the value becomes the newest of the log. */
    method PublishUnchecked(value: T)
      requires shared.Valid() && shared.progress.Quiet? && shared.writeSeq + 2 < U62
      modifies shared, shared.cells
      ensures shared.Valid() && shared.progress.Quiet?
      ensures shared.log == old(shared.log) + [value]
    {
      var w := shared.writeSeq;
      var idx := BitAnd(w, shared.size - 1);
      MaskIsModulo(w, shared.size);
      ghost var cells := shared.cells[..];
      SetStamp(idx, w * 2 + 1);
      shared.progress := Writing;
      WriteCell(cells, shared.log, Quiet, shared.cells[idx], Writing);
      cells := shared.cells[..];
      shared.cells[idx] := shared.cells[idx].(data := value);
      SetStamp(idx, w * 2 + 2);
      shared.progress := Stamped;
      assert shared.cells[..] == cells[idx := Cell(w * 2 + 2, value)];
      WriteCell(cells, shared.log, Writing, shared.cells[idx], Stamped);
      shared.writeSeq := w + 1;
      shared.progress := Quiet;
      AdvanceRing(shared.cells[..], shared.log, value);
      shared.log := shared.log + [value];
    }

    method SetStamp(idx: nat, stamp: nat)
      requires idx < shared.cells.Length
      modifies shared.cells
      ensures shared.cells[..] == old(shared.cells[..])[idx := old(shared.cells[idx]).(stamp := stamp)]
    {
      shared.cells[idx] := shared.cells[idx].(stamp := stamp);
    }

    /** The scan frees stale slots and returns the least cursor among the live active ones. */
    method SlowestSubscriberCursor(alive: set<nat>, now: Option<nat>) returns (slowest: Option<nat>)
      requires shared.table.Length == MAX_SUBSCRIBER_SLOTS
      modifies shared.table
      ensures slowest == Slowest(old(shared.table[..]), alive)
      ensures forall j :: 0 <= j < MAX_SUBSCRIBER_SLOTS ==> shared.table[j] == Swept(old(shared.table[j]), alive, now)
    {
      var table := shared.table;
      ghost var before := table[..];
      var min, found := U64 - 1, false;
      for i := 0 to MAX_SUBSCRIBER_SLOTS
        invariant forall j :: i <= j < MAX_SUBSCRIBER_SLOTS ==> table[j] == before[j]
        invariant forall j :: 0 <= j < i ==> table[j] == Swept(before[j], alive, now)
        invariant !found ==> min == U64 - 1
        invariant Slowest(before[..i], alive) == if found then Some(min) else None
      {
        assert before[..i + 1][..i] == before[..i];
        var packed, pid := table[i].word, table[i].pid;
        var state, value := BitAnd(packed, STATE_MASK), BitAnd(packed, VALUE_MASK);
        DecodedWord(packed);
        if state == STATE_CLAIMING {
          if now.Some? && now.value > value + CLAIM_TIMEOUT_US { table[i] := SubSlot(STATE_FREE, 0); }
        } else if state == STATE_ACTIVE {
          if pid != 0 && pid !in alive {
            table[i] := SubSlot(STATE_FREE, 0);
          } else {
            found := true;
            if value < min { min := value; }
          }
        }
      }
      assert before[..MAX_SUBSCRIBER_SLOTS] == before;
      slowest := if found then Some(min) else None;
    }

    /** Full exactly when a full scan of the table finds a live subscriber `ring_size - watermark`
        behind, whatever the cached cursor says; otherwise the value is appended to the log, and
        every live subscriber is then at most that far behind. */
    method TryPublish(value: T, alive: set<nat>, now: Option<nat>) returns (full: bool)
      requires Valid() && shared.writeSeq + 2 < U62
      modifies this, shared, shared.cells, shared.table
      ensures Valid()
      ensures full <==>
              watermark.Some? &&
              exists j :: 0 <= j < MAX_SUBSCRIBER_SLOTS && Counted(old(shared.table[j]), alive) &&
                old(shared.writeSeq) + watermark.value >= Decode(old(shared.table[j]).word).cursor + shared.size
      ensures shared.log == old(shared.log) + if full then [] else [value]
      ensures forall j :: 0 <= j < MAX_SUBSCRIBER_SLOTS ==>
                shared.table[j] == old(shared.table[j]) || shared.table[j] == Swept(old(shared.table[j]), alive, now)
      ensures watermark.Some? && !full ==>
              forall j :: 0 <= j < MAX_SUBSCRIBER_SLOTS && Counted(shared.table[j], alive) ==>
                            shared.writeSeq <= Decode(shared.table[j].word).cursor + (shared.size - watermark.value)
    {
      ghost var before := shared.table[..];
      full := false;
      if watermark.Some? {
        var effective := shared.size - watermark.value;
        SlowestDecides(before, alive, effective, shared.writeSeq);
        if shared.writeSeq >= cachedSlowest + effective {
          var slowest := SlowestSubscriberCursor(alive, now);
          SweptCounted(before, shared.table[..], alive, now);
          SlowestPublished(before, alive, shared.writeSeq);
          if slowest.Some? {
            cachedSlowest := slowest.value;
            full := shared.writeSeq >= slowest.value + effective;
          }
        }
      }
      if !full { PublishUnchecked(value); }
    }

    /** After a scan every active slot is a counted one, and was there before. */
    static lemma SweptCounted(before: seq<SubSlot>, after: seq<SubSlot>, alive: set<nat>, now: Option<nat>)
      requires |before| == |after| && forall j :: 0 <= j < |after| ==> after[j] == Swept(before[j], alive, now)
      ensures forall j :: 0 <= j < |after| && Decode(after[j].word).Active? ==>
                after[j] == before[j] && Counted(before[j], alive) && Slowest(before, alive).Some?
                && Slowest(before, alive).value <= Decode(after[j].word).cursor
    {
      forall j | 0 <= j < |after| && Decode(after[j].word).Active?
        ensures after[j] == before[j] && Counted(before[j], alive) && Slowest(before, alive).Some?
                && Slowest(before, alive).value <= Decode(after[j].word).cursor
      {
        RoundTrip(Free);
        SlowestIsLeast(before, alive, j);
      }
    }
  }

  // ---- subscriber ----

  class Subscriber<T(0)> {
    const shared: Shared<T>
    var slotIndex: Option<nat>
    var cursor: nat
    var totalLagged: nat

    ghost predicate Valid()
      reads this, shared, shared.cells, shared.table
    {
      && shared.Valid() && cursor < U62
      && cursor <= shared.writeSeq + (if shared.progress.Stamped? then 1 else 0)
      && (slotIndex.Some? ==> slotIndex.value < MAX_SUBSCRIBER_SLOTS)
    }

    constructor (memory: Shared<T>)
      requires memory.Valid()
      ensures Valid() && shared == memory && cursor == memory.writeSeq && totalLagged == 0 && slotIndex == None
    {
      shared := memory;
      slotIndex := None;
      cursor := memory.writeSeq;
      totalLagged := 0;
    }

    /** Takes the first FREE slot, naming this subscriber's cursor; fails exactly when none is FREE. */
    method ClaimSubscriberSlot(pid: nat, now: nat) returns (claimed: Option<nat>)
      requires Valid() && slotIndex.None? && cursor <= shared.writeSeq
      modifies this`slotIndex, shared.table
      ensures Valid() && slotIndex == claimed
      ensures claimed.None? ==> forall j :: 0 <= j < MAX_SUBSCRIBER_SLOTS ==> old(shared.table[j]).word != STATE_FREE
      ensures claimed.Some? ==> old(shared.table[claimed.value]).word == STATE_FREE
      ensures claimed.Some? ==> forall j :: 0 <= j < claimed.value ==> old(shared.table[j]).word != STATE_FREE
      ensures claimed.Some? ==> shared.table[claimed.value] == SubSlot(Encode(Active(cursor)), pid)
      ensures claimed.Some? ==> Decode(shared.table[claimed.value].word) == Active(cursor)
      ensures forall j :: 0 <= j < MAX_SUBSCRIBER_SLOTS && claimed != Some(j) ==>
                            shared.table[j] == old(shared.table[j])
    {
      var table := shared.table;
      for i := 0 to MAX_SUBSCRIBER_SLOTS
        invariant table[..] == old(table[..])
        invariant forall j :: 0 <= j < i ==> old(shared.table[j]).word != STATE_FREE
      {
        if table[i].word == STATE_FREE {
          table[i] := table[i].(word := Encode(Claiming(now)));
          table[i] := table[i].(pid := pid);
          table[i] := table[i].(word := Encode(Active(cursor)));
          RoundTrip(Active(cursor));
          ReportOk(old(table[..]), i, pid, cursor, shared.writeSeq);
          assert table[..] == old(table[..])[i := SubSlot(Encode(Active(cursor)), pid)];
          slotIndex := Some(i);
          return Some(i);
        }
      }
      return None;
    }

    /** One receive is `Receive` on the log. */
    method TryRecv() returns (value: Option<T>)
      requires Valid()
      modifies this`cursor, this`totalLagged, shared.table
      ensures Valid()
      ensures cursor - old(cursor) == (totalLagged - old(totalLagged)) + (if value.Some? then 1 else 0)
      ensures value.Some? ==> 0 < cursor <= |shared.log| && value.value == shared.log[cursor - 1]
      ensures value.None? <==>
              old(cursor) >= |shared.log| || (!shared.progress.Quiet? && |shared.log| >= old(cursor) + shared.size)
      ensures Outcome(value, cursor, totalLagged) ==
              Receive(shared.log, shared.size, shared.progress, old(cursor), old(totalLagged))
      ensures shared.table[..] == if value.None? || slotIndex.None? then old(shared.table[..]) else
              old(shared.table[..])
                [slotIndex.value := old(shared.table[slotIndex.value]).(word := Encode(Active(cursor)))]
    {
      ReceiveAnswers(shared.log, shared.size, shared.progress, cursor, totalLagged);
      var head := shared.writeSeq;
      if cursor >= head { return None; }
      SkipAhead(head);
      LookIsReceive(shared.cells[..], shared.log, shared.progress, old(cursor), old(totalLagged));
      value := ReadCell();
      if value.Some? { UpdateShmCursor(); }
    }

    /** Skips what fell out of the ring. */
    method SkipAhead(head: nat)
      requires cursor < head
      modifies this`cursor, this`totalLagged
      ensures cursor == Oldest(head, shared.size, old(cursor))
      ensures totalLagged == old(totalLagged) + (cursor - old(cursor))
    {
      if head - cursor > shared.size {
        totalLagged := totalLagged + (head - shared.size - cursor);
        cursor := head - shared.size;
      }
    }

    /** The stamped read: load the stamp, the data and the stamp again. */
    method ReadCell() returns (value: Option<T>)
      requires IsPowerOfTwo(shared.size) && 0 < shared.size == shared.cells.Length
      requires var stamp := shared.cells[At(cursor, shared.size)].stamp;
               stamp % 2 == 0 && stamp > 0 ==> cursor <= stamp / 2
      modifies this`cursor, this`totalLagged
      ensures Outcome(value, cursor, totalLagged) ==
              Look(shared.cells[At(old(cursor), shared.size)], old(cursor), old(totalLagged))
    {
      var idx := BitAnd(cursor, shared.size - 1);
      MaskIsModulo(cursor, shared.size);
      var before := shared.cells[idx].stamp;
      var data := shared.cells[idx].data;
      var after := shared.cells[idx].stamp;
      if before % 2 != 0 || before == 0 || after != before { return None; }
      if before != cursor * 2 + 2 {
        var written := before / 2 - 1;
        totalLagged := totalLagged + (written + 1 - cursor);
        cursor := written + 1;
        return None;
      }
      cursor := cursor + 1;
      value := Some(data);
    }

    /** `Drop`: the slot is FREE again, so the departed subscriber no longer holds the publisher back. */
    method Drop()
      requires Valid()
      modifies shared.table
      ensures Valid()
      ensures slotIndex.Some? ==> shared.table[slotIndex.value] == SubSlot(STATE_FREE, 0)
      ensures slotIndex.Some? ==> forall alive :: !Counted(shared.table[slotIndex.value], alive)
      ensures forall j :: 0 <= j < MAX_SUBSCRIBER_SLOTS && slotIndex != Some(j) ==>
                shared.table[j] == old(shared.table[j])
    {
      if slotIndex.Some? {
        var i := slotIndex.value;
        shared.table[i] := shared.table[i].(word := STATE_FREE);
        shared.table[i] := shared.table[i].(pid := 0);
        FreeRoundTrip();
      }
    }

    /** Reports the cursor: the publisher then reads it back from this subscriber's slot, finds every
        other slot as it was, and still nobody ahead of itself. */
    method UpdateShmCursor()
      requires shared.table.Length == MAX_SUBSCRIBER_SLOTS && TableOk(shared.table[..], shared.writeSeq)
      requires cursor <= shared.writeSeq && cursor < U62 && (slotIndex.Some? ==> slotIndex.value < MAX_SUBSCRIBER_SLOTS)
      modifies shared.table
      ensures TableOk(shared.table[..], shared.writeSeq)
      ensures slotIndex.Some? ==> Decode(shared.table[slotIndex.value].word) == Active(cursor)
      ensures shared.table[..] == if slotIndex.None? then old(shared.table[..]) else
              old(shared.table[..])
                [slotIndex.value := old(shared.table[slotIndex.value]).(word := Encode(Active(cursor)))]
    {
      if slotIndex.Some? {
        var i := slotIndex.value;
        RoundTrip(Active(cursor));
        ReportOk(shared.table[..], i, shared.table[i].pid, cursor, shared.writeSeq);
        shared.table[i] := shared.table[i].(word := Encode(Active(cursor)));
      }
    }

    /** With no publish in progress, receiving until nothing comes yields exactly the last
        min(ring_size, published - cursor) values in order, and counts the remainder as lag. */
    method Drain() returns (values: seq<T>)
      requires Valid() && shared.progress.Quiet?
      modifies this`cursor, this`totalLagged, shared.table
      ensures Valid() && cursor == shared.writeSeq
      ensures var behind := shared.writeSeq - old(cursor);
              var kept := if behind < shared.size then behind else shared.size;
              values == shared.log[shared.writeSeq - kept..] && totalLagged == old(totalLagged) + (behind - kept)
    {
      values := [];
      ghost var from := Oldest(shared.writeSeq, shared.size, cursor);
      var more := true;
      while more
        invariant Valid() && shared.progress.Quiet?
        invariant || (values == [] && cursor == old(cursor) && totalLagged == old(totalLagged))
                  || (from < cursor && values == shared.log[from..cursor]
                      && totalLagged == old(totalLagged) + (from - old(cursor)))
        invariant more || cursor == shared.writeSeq
        decreases shared.writeSeq - cursor, more
      {
        ghost var c := Oldest(shared.writeSeq, shared.size, cursor);
        var value := TryRecv();
        if c < shared.writeSeq { SliceNext(shared.log, from, c); }
        if value.Some? { values := values + [value.value]; } else { more := false; }
      }
    }
  }
}
