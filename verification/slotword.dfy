/** The packed state and value of a subscriber slot (`state_cursor` in
    `src/platform/pod_bus.rs`): high 2 bits state, low 62 bits value. */
module SlotWord {
  import opened Words

  const MAX_SUBSCRIBER_SLOTS: nat := 64

  const STATE_FREE: nat := 0
  const STATE_ACTIVE: nat := U62
  const STATE_CLAIMING: nat := 2 * U62
  const VALUE_MASK: nat := U62 - 1
  const STATE_MASK: nat := 3 * U62       // !VALUE_MASK on 64 bits

  datatype Slot = Free | Active(cursor: nat) | Claiming(stamp: nat)

  function Encode(slot: Slot): nat {
    match slot
    case Free => STATE_FREE
    case Active(c) => BitOr(STATE_ACTIVE, BitAnd(c, VALUE_MASK))
    case Claiming(ts) => BitOr(STATE_CLAIMING, BitAnd(ts, VALUE_MASK))
  }

  function Decode(word: nat): Slot {
    var state := BitAnd(word, STATE_MASK);
    var value := BitAnd(word, VALUE_MASK);
    if state == STATE_CLAIMING then Claiming(value) else if state == STATE_ACTIVE then Active(value) else Free
  }

  lemma MaskValue(x: nat)
    ensures BitAnd(x, VALUE_MASK) == x % U62
  {
    Pow2Of62();
    AndLowBits(x, 62);
  }

  lemma JoinState(state: nat, value: nat)
    requires value < U62
    ensures BitOr(state * U62, value) == state * U62 + value
  {
    Pow2Of62();
    ShiftIs(state, 62);
    OrDisjoint(state, value, 62);
  }

  lemma SplitState(state: nat, value: nat)
    requires state < 4 && value < U62
    ensures BitAnd(state * U62 + value, STATE_MASK) == state * U62
  {
    Pow2Of62();
    ShiftIs(state, 62);
    ShiftIs(3, 62);
    AndHighBits(state, value, 3, 62);
    AndLowBits(state, 2);
    assert Pow2(2) == 4;
  }

  lemma DecodeJoined(state: nat, value: nat)
    requires 0 < state < 3 && value < U62
    ensures Decode(state * U62 + value) == if state == 1 then Active(value) else Claiming(value)
  {
    SplitState(state, value);
    MaskValue(state * U62 + value);
    assert (state * U62 + value) % U62 == value;
  }

  lemma EncodeValue(state: nat, x: nat)
    requires 0 < state < 3
    ensures BitOr(state * U62, BitAnd(x, VALUE_MASK)) == state * U62 + x % U62
  {
    MaskValue(x);
    JoinState(state, x % U62);
  }

  lemma ValueRoundTrip(state: nat, x: nat, word: nat)
    requires 0 < state < 3 && word == BitOr(state * U62, BitAnd(x, VALUE_MASK))
    ensures word < U64 && Decode(word) == if state == 1 then Active(x % U62) else Claiming(x % U62)
  {
    EncodeValue(state, x);
    DecodeJoined(state, x % U62);
  }

  lemma SmallValue(x: nat)
    ensures x % U62 == x <==> x < U62
  {
  }

  lemma ActiveRoundTrip(c: nat, word: nat)
    requires word == Encode(Active(c))
    ensures word < U64 && (Decode(word) == Active(c) <==> c < U62)
  {
    assert word == BitOr(1 * U62, BitAnd(c, VALUE_MASK));
    ValueRoundTrip(1, c, word);
    SmallValue(c);
  }

  lemma ClaimingRoundTrip(ts: nat, word: nat)
    requires word == Encode(Claiming(ts))
    ensures word < U64 && (Decode(word) == Claiming(ts) <==> ts < U62)
  {
    assert word == BitOr(2 * U62, BitAnd(ts, VALUE_MASK));
    ValueRoundTrip(2, ts, word);
    SmallValue(ts);
  }

  lemma FreeRoundTrip()
    ensures Encode(Free) < U64 && Decode(Encode(Free)) == Free
  {
    SplitState(0, 0);
  }

  /** Packing is lossless exactly for values of at most 62 bits; the word fits 64 bits. */
  lemma RoundTrip(slot: Slot)
    ensures Encode(slot) < U64
    ensures Decode(Encode(slot)) == slot <==>
            (slot.Active? ==> slot.cursor < U62) && (slot.Claiming? ==> slot.stamp < U62)
  {
    match slot
    case Free => FreeRoundTrip();
    case Active(c) => ActiveRoundTrip(c, Encode(slot));
    case Claiming(ts) => ClaimingRoundTrip(ts, Encode(slot));
  }
}
