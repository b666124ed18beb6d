/** The topic table: `Publisher::register_inner` and `Subscriber::subscribe` of
    `src/platform/shm.rs`. Calls do not overlap; entries a crashed publisher left in the INIT
    state may be present. */
module Topics {
  import opened Words
  import opened Layout

  const URI_MAX: nat := 64

  datatype EntryState = Free | Init | Active

  /** `uri` is the stored length's worth of bytes. */
  datatype Entry = Entry(state: EntryState, hash: nat, uri: Bytes, writeSeq: nat, typeSize: nat, subscribers: nat)

  datatype Registered = Topic(idx: nat) | UriTooLong | MaxTopicsReached

  datatype Stream = Stream(topic: nat, lastSeq: nat, typeSize: nat)

  // ---- meaning: plain byte comparison, no hash ----

  /** The first active entry at or after `from` with these bytes. */
  function Find(entries: seq<Entry>, uri: Bytes, from: nat): Option<nat>
    decreases |entries| - from
  {
    if from >= |entries| then None
    else if entries[from].state.Active? && entries[from].uri == uri then Some(from)
    else Find(entries, uri, from + 1)
  }

  function FirstFree(entries: seq<Entry>, from: nat): Option<nat>
    decreases |entries| - from
  {
    if from >= |entries| then None
    else if entries[from].state.Free? then Some(from)
    else FirstFree(entries, from + 1)
  }

  function Registering(entries: seq<Entry>, uri: Bytes): Registered {
    if |uri| > URI_MAX then UriTooLong
    else if Find(entries, uri, 0).Some? then Topic(Find(entries, uri, 0).value)
    else if FirstFree(entries, 0).Some? then Topic(FirstFree(entries, 0).value)
    else MaxTopicsReached
  }

  /** The table after registering: at most one new entry, at the returned index. */
  function Register(entries: seq<Entry>, uri: Bytes, typeSize: nat): seq<Entry> {
    var r := Registering(entries, uri);
    if r.Topic? && Find(entries, uri, 0).None? && r.idx < |entries| then
      entries[r.idx := Entry(Active, Fnv1a(uri), uri, 0, typeSize, entries[r.idx].subscribers)]
    else entries
  }

  function Subscribe(entries: seq<Entry>, uri: Bytes): seq<Entry> {
    var i := Find(entries, uri, 0);
    if i.Some? && i.value < |entries| then
      entries[i.value := entries[i.value].(subscribers := (entries[i.value].subscribers + 1) % U32)]
    else entries
  }

  /** Active entries carry the hash of their URI, and their URIs are pairwise distinct. */
  ghost predicate TableOk(entries: seq<Entry>) {
    && (forall i :: 0 <= i < |entries| && entries[i].state.Active? ==> entries[i].hash == Fnv1a(entries[i].uri))
    && (forall i, j :: 0 <= i < j < |entries| && entries[i].state.Active? && entries[j].state.Active? ==>
          entries[i].uri != entries[j].uri)
  }

  // ---- the objects ----

  class TopicTable {
    const entries: array<Entry>

    constructor (maxTopics: nat)
      ensures fresh(entries) && entries.Length == maxTopics && TableOk(entries[..])
      ensures forall i :: 0 <= i < maxTopics ==> entries[i].state.Free?
    {
      entries := new Entry[maxTopics](_ => Entry(Free, 0, [], 0, 0, 0));
    }

    /** Scan for the URI behind a hash prefilter, then claim a free entry. */
    method RegisterInner(uri: Bytes, typeSize: nat) returns (r: Registered)
      requires TableOk(entries[..])
      modifies entries
      ensures TableOk(entries[..])
      ensures r == Registering(old(entries[..]), uri)
      ensures entries[..] == Register(old(entries[..]), uri, typeSize)
    {
      RegisterKeeps(entries[..], uri, typeSize);
      if |uri| > URI_MAX { return UriTooLong; }
      var hash := UriHash(uri);
      for i := 0 to entries.Length
        invariant Find(entries[..], uri, 0) == Find(entries[..], uri, i)
      {
        if entries[i].state.Active? && entries[i].hash == hash {
          if |entries[i].uri| == |uri| && entries[i].uri == uri { return Topic(i); }
        }
      }
      ghost var before := entries[..];
      for i := 0 to entries.Length
        invariant entries[..] == before
        invariant FirstFree(before, 0) == FirstFree(before, i)
      {
        if entries[i].state.Free? {
          entries[i] := entries[i].(state := Init);
          entries[i] := entries[i].(hash := hash, uri := uri);
          entries[i] := entries[i].(writeSeq := 0, typeSize := typeSize);
          entries[i] := entries[i].(state := Active);
          return Topic(i);
        }
      }
      return MaxTopicsReached;
    }

    method SubscribeTo(uri: Bytes) returns (r: Option<Stream>)
      requires TableOk(entries[..])
      modifies entries
      ensures TableOk(entries[..])
      ensures entries[..] == Subscribe(old(entries[..]), uri)
      ensures r.Some? <==> Find(old(entries[..]), uri, 0).Some?
      ensures r.Some? ==> Find(old(entries[..]), uri, 0) == Some(r.value.topic) && r.value.topic < entries.Length
                          && r.value.lastSeq == entries[r.value.topic].writeSeq
                          && r.value.typeSize == entries[r.value.topic].typeSize
    {
      var hash := UriHash(uri);
      SubscribeKeeps(entries[..], uri);
      for i := 0 to entries.Length
        invariant entries[..] == old(entries[..])
        invariant Find(entries[..], uri, 0) == Find(entries[..], uri, i)
      {
        if !entries[i].state.Active? { continue; }
        if entries[i].hash != hash { continue; }
        if |entries[i].uri| != |uri| { continue; }
        if entries[i].uri != uri { continue; }
        var stream := Stream(i, entries[i].writeSeq, entries[i].typeSize);
        entries[i] := entries[i].(subscribers := (entries[i].subscribers + 1) % U32);
        return Some(stream);
      }
      return None;
    }
  }

  // ---- searches ----

  lemma {:induction false} FindIsActive(entries: seq<Entry>, uri: Bytes, from: nat)
    ensures var r := Find(entries, uri, from);
            r.Some? ==> from <= r.value < |entries| && entries[r.value].state.Active? && entries[r.value].uri == uri
    decreases |entries| - from
  {
    if from < |entries| { FindIsActive(entries, uri, from + 1); }
  }

  lemma {:induction false} FindReaches(entries: seq<Entry>, uri: Bytes, from: nat, i: nat)
    requires from <= i < |entries| && entries[i].state.Active? && entries[i].uri == uri
    ensures Find(entries, uri, from).Some? && Find(entries, uri, from).value <= i
    decreases i - from
  {
    if from < i { FindReaches(entries, uri, from + 1, i); }
  }

  lemma {:induction false} FreeIsFree(entries: seq<Entry>, from: nat)
    ensures var r := FirstFree(entries, from); r.Some? ==> from <= r.value < |entries| && entries[r.value].state.Free?
    decreases |entries| - from
  {
    if from < |entries| { FreeIsFree(entries, from + 1); }
  }

  /** In a table with distinct URIs, the entry holding a URI is the one found. */
  lemma FindIsUnique(entries: seq<Entry>, uri: Bytes, i: nat)
    requires TableOk(entries) && i < |entries|
    ensures Find(entries, uri, 0) == Some(i) <==> entries[i].state.Active? && entries[i].uri == uri
  {
    FindIsActive(entries, uri, 0);
    if entries[i].state.Active? && entries[i].uri == uri { FindReaches(entries, uri, 0, i); }
  }

  lemma {:induction false} FreeReaches(entries: seq<Entry>, from: nat, i: nat)
    requires from <= i < |entries| && entries[i].state.Free?
    ensures FirstFree(entries, from).Some? && FirstFree(entries, from).value <= i
    decreases i - from
  {
    if from < i { FreeReaches(entries, from + 1, i); }
  }

  predicate Holds(e: Entry, uri: Bytes) { e.state.Active? && e.uri == uri }

  predicate NobodyHolds(entries: seq<Entry>, uri: Bytes) { forall j :: 0 <= j < |entries| ==> !Holds(entries[j], uri) }

  predicate NoneFree(entries: seq<Entry>, n: nat)
    requires n <= |entries|
  {
    forall j :: 0 <= j < n ==> !entries[j].state.Free?
  }

  /** What registering answers: too long exactly above 64 bytes; otherwise the entry that holds the
      URI; otherwise the first free entry; and that the table is full exactly if there is none. */
  lemma RegisteringExact(entries: seq<Entry>, uri: Bytes)
    requires TableOk(entries)
    ensures Registering(entries, uri).UriTooLong? <==> |uri| > 64
    ensures Registering(entries, uri).MaxTopicsReached? <==>
            |uri| <= 64 && NobodyHolds(entries, uri) && NoneFree(entries, |entries|)
    ensures forall i :: 0 <= i < |entries| && |uri| <= 64 && Holds(entries[i], uri) ==>
              Registering(entries, uri) == Topic(i)
    ensures |uri| <= 64 && NobodyHolds(entries, uri) ==>
            forall i :: 0 <= i < |entries| && entries[i].state.Free? && NoneFree(entries, i) ==>
                          Registering(entries, uri) == Topic(i)
  {
    FindIsActive(entries, uri, 0);
    FreeIsFree(entries, 0);
    forall i | 0 <= i < |entries| && Holds(entries[i], uri) ensures Find(entries, uri, 0) == Some(i) {
      FindIsUnique(entries, uri, i);
    }
    forall i | 0 <= i < |entries| && entries[i].state.Free?
      ensures FirstFree(entries, 0).Some? && FirstFree(entries, 0).value <= i
    {
      FreeReaches(entries, 0, i);
    }
  }

  /** A new registration fills its entry with the URI, its hash, the type size and sequence 0, keeps
      the subscriber count, and touches nothing else; any other registration changes nothing. */
  lemma RegisterFills(entries: seq<Entry>, uri: Bytes, typeSize: nat)
    requires TableOk(entries)
    ensures var r, after := Registering(entries, uri), Register(entries, uri, typeSize);
            && |after| == |entries|
            && (forall i :: 0 <= i < |entries| && r != Topic(i) ==> after[i] == entries[i])
            && (forall i :: 0 <= i < |entries| && Holds(entries[i], uri) ==> after[i] == entries[i])
            && (forall i :: 0 <= i < |entries| && r == Topic(i) && !Holds(entries[i], uri) ==>
                  Holds(after[i], uri) && after[i].typeSize == typeSize && after[i].writeSeq == 0
                  && after[i].subscribers == entries[i].subscribers)
  {
    RegisterKeeps(entries, uri, typeSize);
    FindIsActive(entries, uri, 0);
    forall i | 0 <= i < |entries| && Holds(entries[i], uri) ensures Find(entries, uri, 0) == Some(i) {
      FindIsUnique(entries, uri, i);
    }
  }

  /** Subscribing counts the subscriber at the topic found, modulo 2^32, and changes nothing else. */
  lemma SubscribeCounts(entries: seq<Entry>, uri: Bytes, i: nat)
    requires TableOk(entries) && i < |entries|
    ensures Subscribe(entries, uri)[i] ==
            var e := entries[i];
            if Holds(e, uri) then e.(subscribers := (e.subscribers + 1) % U32) else e
  {
    FindIsActive(entries, uri, 0);
    FindIsUnique(entries, uri, i);
  }

  // ---- preservation ----

  lemma RegisterKeeps(entries: seq<Entry>, uri: Bytes, typeSize: nat)
    requires TableOk(entries)
    ensures TableOk(Register(entries, uri, typeSize))
    ensures var r := Registering(entries, uri); r.Topic? ==> r.idx < |entries|
  {
    FindIsActive(entries, uri, 0);
    FreeIsFree(entries, 0);
    if Find(entries, uri, 0).None? {
      forall i | 0 <= i < |entries| && entries[i].state.Active? ensures entries[i].uri != uri {
        FindIsUnique(entries, uri, i);
      }
    }
  }

  lemma SubscribeKeeps(entries: seq<Entry>, uri: Bytes)
    requires TableOk(entries)
    ensures TableOk(Subscribe(entries, uri))
  {
  }

  // ---- histories of calls ----

  datatype Call = Registration(uri: Bytes, typeSize: nat) | Subscription(uri: Bytes)

  function Apply(entries: seq<Entry>, call: Call): seq<Entry> {
    match call
    case Registration(uri, typeSize) => Register(entries, uri, typeSize)
    case Subscription(uri) => Subscribe(entries, uri)
  }

  /** The table after the first `n` calls. */
  function After(entries: seq<Entry>, calls: seq<Call>, n: nat): seq<Entry>
    requires n <= |calls|
  {
    if n == 0 then entries else Apply(After(entries, calls, n - 1), calls[n - 1])
  }

  ghost predicate Fresh(entries: seq<Entry>) { forall i :: 0 <= i < |entries| ==> entries[i].state.Free? }

  lemma {:induction false} HistoryKeeps(entries: seq<Entry>, calls: seq<Call>, n: nat)
    requires TableOk(entries) && n <= |calls|
    ensures TableOk(After(entries, calls, n)) && |After(entries, calls, n)| == |entries|
  {
    if n > 0 {
      HistoryKeeps(entries, calls, n - 1);
      var prior := After(entries, calls, n - 1);
      match calls[n - 1]
      case Registration(uri, typeSize) => RegisterKeeps(prior, uri, typeSize);
      case Subscription(uri) => SubscribeKeeps(prior, uri);
    }
  }

  lemma CallKeepsEntry(entries: seq<Entry>, call: Call, i: nat)
    requires TableOk(entries) && i < |entries| && entries[i].state.Active?
    ensures var e := Apply(entries, call)[i];
            e.state.Active? && e.uri == entries[i].uri && e.typeSize == entries[i].typeSize
  {
    if call.Registration? { FreeIsFree(entries, 0); }
  }

  lemma {:induction false} EntryStays(entries: seq<Entry>, calls: seq<Call>, m: nat, n: nat, i: nat)
    requires TableOk(entries) && m <= n <= |calls| && i < |entries|
    requires i < |After(entries, calls, m)| && After(entries, calls, m)[i].state.Active?
    ensures i < |After(entries, calls, n)|
    ensures var e, e' := After(entries, calls, m)[i], After(entries, calls, n)[i];
            e'.state.Active? && e'.uri == e.uri && e'.typeSize == e.typeSize
    decreases n - m
  {
    if m < n {
      EntryStays(entries, calls, m, n - 1, i);
      HistoryKeeps(entries, calls, n - 1);
      CallKeepsEntry(After(entries, calls, n - 1), calls[n - 1], i);
    }
  }

  lemma RegisteredIsFound(entries: seq<Entry>, uri: Bytes, typeSize: nat)
    requires TableOk(entries) && Registering(entries, uri).Topic?
    ensures Find(Register(entries, uri, typeSize), uri, 0) == Some(Registering(entries, uri).idx)
  {
    RegisterKeeps(entries, uri, typeSize);
    FindIsActive(entries, uri, 0);
    FindIsUnique(Register(entries, uri, typeSize), uri, Registering(entries, uri).idx);
  }

  /** Once call `m` registers a URI at index `i`, every later call finds it there: registering it
      again returns `i` and changes nothing, and `subscribe` gives topic `i`. */
  lemma IndexIsStable(entries: seq<Entry>, calls: seq<Call>, m: nat, n: nat)
    requires TableOk(entries) && m < n <= |calls| && calls[m].Registration?
    requires Registering(After(entries, calls, m), calls[m].uri).Topic?
    ensures var i := Registering(After(entries, calls, m), calls[m].uri).idx;
            var later := After(entries, calls, n);
            && Find(later, calls[m].uri, 0) == Some(i)
            && Registering(later, calls[m].uri) == Topic(i)
            && (forall size :: Register(later, calls[m].uri, size) == later)
            && i < |later| == |After(entries, calls, m + 1)|
            && later[i].typeSize == After(entries, calls, m + 1)[i].typeSize
  {
    var Registration(uri, typeSize) := calls[m];
    var prior := After(entries, calls, m);
    HistoryKeeps(entries, calls, m);
    RegisterKeeps(prior, uri, typeSize);
    RegisteredIsFound(prior, uri, typeSize);
    var i := Registering(prior, uri).idx;
    assert After(entries, calls, m + 1) == Register(prior, uri, typeSize);
    FindIsActive(After(entries, calls, m + 1), uri, 0);
    EntryStays(entries, calls, m + 1, n, i);
    HistoryKeeps(entries, calls, n);
    FindIsUnique(After(entries, calls, n), uri, i);
  }

  /** On a fresh table, `subscribe` finds a URI exactly when some earlier call registered it, and
      then gives the index that call returned. */
  lemma SubscribeFindsRegistered(entries: seq<Entry>, calls: seq<Call>, n: nat, uri: Bytes, i: nat)
    requires Fresh(entries) && n <= |calls|
    ensures Find(After(entries, calls, n), uri, 0) == Some(i) <==>
            exists m :: 0 <= m < n && RegistersAt(entries, calls, m, uri, i)
  {
    if m :| 0 <= m < n && RegistersAt(entries, calls, m, uri, i) { IndexIsStable(entries, calls, m, n); }
    if Find(After(entries, calls, n), uri, 0) == Some(i) {
      FindIsActive(After(entries, calls, n), uri, 0);
      var m := Registrar(entries, calls, n, i);
    }
  }

  ghost predicate RegistersAt(entries: seq<Entry>, calls: seq<Call>, m: nat, uri: Bytes, i: nat)
    requires m < |calls|
  {
    calls[m].Registration? && calls[m].uri == uri && Registering(After(entries, calls, m), uri) == Topic(i)
  }

  lemma {:induction false} Registrar(entries: seq<Entry>, calls: seq<Call>, n: nat, i: nat) returns (m: nat)
    requires Fresh(entries) && n <= |calls|
    requires i < |After(entries, calls, n)| && After(entries, calls, n)[i].state.Active?
    ensures m < n && RegistersAt(entries, calls, m, After(entries, calls, n)[i].uri, i)
  {
    HistoryKeeps(entries, calls, n);
    HistoryKeeps(entries, calls, n - 1);
    var prior := After(entries, calls, n - 1);
    if prior[i].state.Active? {
      CallKeepsEntry(prior, calls[n - 1], i);
      m := Registrar(entries, calls, n - 1, i);
    } else {
      m := n - 1;
    }
  }
}
