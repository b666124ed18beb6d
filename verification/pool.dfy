/** The free list as an object: whole calls of `init_free_list`, `alloc_block` and `free_block`
    (`src/protocol/region.rs`) on the packed head word and the links. Inside one call nobody
    else moves, so the exchange succeeds at once; `FreeList` is the concurrent protocol. */
module Pool {
  import opened Words
  import opened Layout

  datatype Popped = Corrupted | Empty | Taken(idx: nat)

  function Top(stack: seq<nat>): nat { if stack == [] then NO_BLOCK else stack[0] }

  /** The links chain the blocks of `stack`, top to bottom, without repetition. */
  predicate Chains(link: seq<nat>, stack: seq<nat>) {
    && (forall i :: 0 <= i < |stack| ==> stack[i] < |link| && link[stack[i]] == Top(stack[i + 1..]))
    && (forall i, j :: 0 <= i < j < |stack| ==> stack[i] != stack[j])
  }

  function Upwards(from: nat, end: nat): seq<nat>
    decreases end - from
  {
    if from >= end then [] else [from] + Upwards(from + 1, end)
  }

  lemma {:induction false} UpwardsAt(from: nat, end: nat)
    requires from <= end
    ensures |Upwards(from, end)| == end - from
    ensures forall i :: 0 <= i < end - from ==> Upwards(from, end)[i] == from + i
    decreases end - from
  {
    if from < end { UpwardsAt(from + 1, end); }
  }

  class FreePool {
    const link: array<nat>
    const refcount: array<nat>
    var head: nat
    ghost var stack: seq<nat>

    /** The head word names the top of a well-formed list. */
    ghost predicate Valid()
      reads this, link
    {
      && link.Length <= NO_BLOCK && head < U64 && Unpack(head).1 == Top(stack) && Chains(link[..], stack)
    }

    /** `init_free_list`: all blocks linked upwards from block 0, no references. */
    constructor (n: nat)
      requires 0 < n <= NO_BLOCK
      ensures Valid() && stack == Upwards(0, n) && fresh(link) && fresh(refcount) && link.Length == refcount.Length == n
      ensures forall i :: 0 <= i < n ==> refcount[i] == 0
    {
      link := new nat[n];
      refcount := new nat[n];
      new;
      for i := 0 to n
        invariant forall j :: 0 <= j < i ==> link[j] == (if j + 1 < n then j + 1 else NO_BLOCK) && refcount[j] == 0
      {
        link[i] := if i + 1 < n then i + 1 else NO_BLOCK;
        refcount[i] := 0;
      }
      head := Pack(0, 0);
      stack := Upwards(0, n);
      UpwardsAt(0, n);
      PackExact(0, 0);
    }

    /** Takes the top block. An out-of-bounds index or link is reported and changes nothing,
        which never happens on a well-formed list. */
    method AllocBlock() returns (r: Popped)
      requires head < U64 && link.Length <= NO_BLOCK
      modifies this
      ensures r.Corrupted? || r.Empty? ==> head == old(head)
      ensures r.Taken? ==> r.idx < link.Length && r.idx == Unpack(old(head)).1
      ensures r.Taken? ==> Unpack(head) == ((Unpack(old(head)).0 + 1) % U32, link[r.idx])
      ensures old(Valid()) ==> Valid() && r == if old(stack) == [] then Empty else Taken(old(stack)[0])
      ensures old(Valid()) ==> stack == if old(stack) == [] then [] else old(stack)[1..]
    {
      var (gen, idx) := Unpack(head);
      if idx == NO_BLOCK { return Empty; }
      if idx >= link.Length { return Corrupted; }
      var next := link[idx];
      if next != NO_BLOCK && next >= link.Length { return Corrupted; }
      UnpackBound(head);
      PopKeeps(link[..], stack);
      head := Pack((gen + 1) % U32, next);
      PackExact((gen + 1) % U32, next);
      stack := if stack == [] then [] else stack[1..];
      r := Taken(idx);
    }

    /** Puts a block on top; an index out of bounds is ignored. */
    method FreeBlock(idx: nat)
      requires head < U64 && link.Length <= NO_BLOCK
      modifies this, link
      ensures idx >= link.Length ==> head == old(head) && link[..] == old(link[..]) && stack == old(stack)
      ensures idx < link.Length ==> Unpack(head) == ((Unpack(old(head)).0 + 1) % U32, idx)
      ensures idx < link.Length ==> link[..] == old(link[..])[idx := Unpack(old(head)).1]
      ensures old(Valid()) && idx < link.Length && idx !in old(stack) ==> Valid() && stack == [idx] + old(stack)
    {
      if idx >= link.Length { return; }
      var (gen, top) := Unpack(head);
      UnpackBound(head);
      PushKeeps(link[..], stack, idx, top);
      link[idx] := top;
      head := Pack((gen + 1) % U32, idx);
      PackExact((gen + 1) % U32, idx);
      stack := [idx] + stack;
    }
  }

  lemma PopKeeps(link: seq<nat>, stack: seq<nat>)
    ensures Chains(link, stack) && stack != [] ==> Chains(link, stack[1..])
  {
    if Chains(link, stack) && stack != [] {
      var rest := stack[1..];
      forall i | 0 <= i < |rest| ensures rest[i] < |link| && link[rest[i]] == Top(rest[i + 1..]) {
        assert rest[i] == stack[i + 1] && rest[i + 1..] == stack[i + 2..];
      }
    }
  }

  lemma PushKeeps(link: seq<nat>, stack: seq<nat>, idx: nat, top: nat)
    requires idx < |link|
    ensures Chains(link, stack) && idx !in stack && top == Top(stack) ==> Chains(link[idx := top], [idx] + stack)
  {
    if Chains(link, stack) && idx !in stack && top == Top(stack) {
      var more := [idx] + stack;
      forall i | 0 <= i < |more| ensures more[i] < |link| && link[idx := top][more[i]] == Top(more[i + 1..]) {
        if i == 0 { assert more[1..] == stack; } else { assert more[i + 1..] == stack[i..]; }
      }
    }
  }

  lemma UnpackBound(w: nat)
    requires w < U64
    ensures Unpack(w).0 < U32 && Unpack(w).1 < U32
  {
  }
}
