/** Which of a client's requests have committed: the live slots and the bitmask snapshots of them. */
module ClientWindows {
  import opened Types

  // ---------------------------------------------------------------- bitmasks

  predicate BitIn(b: bv8, k: nat)
    requires k < 8
  {
    if k == 0 then b & 0x80 != 0
    else if k == 1 then b & 0x40 != 0
    else if k == 2 then b & 0x20 != 0
    else if k == 3 then b & 0x10 != 0
    else if k == 4 then b & 0x08 != 0
    else if k == 5 then b & 0x04 != 0
    else if k == 6 then b & 0x02 != 0
    else b & 0x01 != 0
  }

  function SetIn(b: bv8, k: nat): bv8
    requires k < 8
  {
    if k == 0 then b | 0x80
    else if k == 1 then b | 0x40
    else if k == 2 then b | 0x20
    else if k == 3 then b | 0x10
    else if k == 4 then b | 0x08
    else if k == 5 then b | 0x04
    else if k == 6 then b | 0x02
    else b | 0x01
  }

  lemma SetBitIn(b: bv8, j: nat, k: nat)
    requires j < 8 && k < 8
    ensures BitIn(SetIn(b, j), k) <==> j == k || BitIn(b, k)
  {
  }

  predicate IsBitSet(mask: seq<bv8>, i: nat) {
    i / 8 < |mask| && BitIn(mask[i / 8], i % 8)
  }

  function WithBit(mask: seq<bv8>, i: nat): seq<bv8>
    requires i / 8 < |mask|
  {
    mask[i / 8 := SetIn(mask[i / 8], i % 8)]
  }

  lemma WithBitExact(mask: seq<bv8>, i: nat, j: nat)
    requires i / 8 < |mask|
    ensures IsBitSet(WithBit(mask, i), j) <==> i == j || IsBitSet(mask, j)
  {
    hide BitIn;
    if i / 8 == j / 8 {
      SetBitIn(mask[i / 8], i % 8, j % 8);
      hide SetIn;
    }
  }

  method SetBitInByte(byte: bv8, k: nat) returns (b: bv8)
    requires k < 8
    ensures b == SetIn(byte, k)
  {
    b := byte;
    if k == 0 { b := b | 0x80; }
    else if k == 1 { b := b | 0x40; }
    else if k == 2 { b := b | 0x20; }
    else if k == 3 { b := b | 0x10; }
    else if k == 4 { b := b | 0x08; }
    else if k == 5 { b := b | 0x04; }
    else if k == 6 { b := b | 0x02; }
    else { b := b | 0x01; }
  }

  method SetBit(bm: array<bv8>, i: nat)
    requires i / 8 < bm.Length
    modifies bm
    ensures bm[..] == WithBit(old(bm[..]), i)
  {
    hide SetIn;
    var b := SetBitInByte(bm[i / 8], i % 8);
    bm[i / 8] := b;
  }

  /** A mask of `size` bytes with the bits of the first `k` slots. */
  function MaskOf(slots: seq<bool>, size: nat, k: nat): (mask: seq<bv8>)
    requires k <= |slots| && k <= 8 * size
    ensures |mask| == size
  {
    if k == 0 then seq(size, _ => 0)
    else
      var mask := MaskOf(slots, size, k - 1);
      if slots[k - 1] then WithBit(mask, k - 1) else mask
  }

  lemma {:induction false} MaskExact(slots: seq<bool>, size: nat, k: nat, i: nat)
    requires k <= |slots| && k <= 8 * size
    ensures IsBitSet(MaskOf(slots, size, k), i) <==> i < k && slots[i]
  {
    if k > 0 {
      MaskExact(slots, size, k - 1, i);
      if slots[k - 1] {
        WithBitExact(MaskOf(slots, size, k - 1), k - 1, i);
      }
    }
  }

  lemma {:induction false} MaskAgrees(a: seq<bool>, b: seq<bool>, size: nat, k: nat)
    requires k <= |a| && k <= |b| && k <= 8 * size && forall i :: 0 <= i < k ==> a[i] == b[i]
    ensures MaskOf(a, size, k) == MaskOf(b, size, k)
  {
    if k > 0 {
      MaskAgrees(a, b, size, k - 1);
    }
  }

  // ---------------------------------------------------------------- a committing client

  datatype ClientState = ClientState(width: nat, consumed: nat, low: nat, mask: seq<bv8>)

  /** The last snapshot and one slot per request number from its low watermark on.  A slot records the
      sequence number that committed the request; only whether it is set is ever read. */
  datatype Client = Client(last: ClientState, slots: seq<bool>)

  predicate IsCommitted(reqNo: nat, state: ClientState) {
    if reqNo < state.low then true
    else if reqNo > state.low + state.width then false
    else IsBitSet(state.mask, reqNo - state.low)
  }

  function FirstUnset(slots: seq<bool>): (r: Option<nat>)
    ensures r.None? <==> forall i :: 0 <= i < |slots| ==> slots[i]
    ensures r.Some? ==> r.value < |slots| && !slots[r.value] && forall i :: 0 <= i < r.value ==> slots[i]
  {
    if slots == [] then None
    else
      var first := FirstUnset(slots[..|slots| - 1]);
      if first.Some? then first
      else if slots[|slots| - 1] then None
      else Some(|slots| - 1)
  }

  function LastSet(slots: seq<bool>): (r: Option<nat>)
    ensures r.None? <==> forall i :: 0 <= i < |slots| ==> !slots[i]
    ensures r.Some? ==> r.value < |slots| && slots[r.value] && forall i :: r.value < i < |slots| ==> !slots[i]
  {
    if slots == [] then None
    else if slots[|slots| - 1] then Some(|slots| - 1)
    else LastSet(slots[..|slots| - 1])
  }

  /** Division that truncates toward zero. */
  function Truncated(n: int): int {
    if n >= 0 then n / 8 else -((-n) / 8)
  }

  /** The mask for slots whose first is unset and whose last set one is at `n`, which is -1 if none is:
      then the mask has one byte all the same. */
  function MaskBytes(slots: seq<bool>, n: int): seq<bv8>
    requires -1 <= n < |slots|
  {
    MaskOf(slots, Truncated(n) + 1, n + 1)
  }

  function Unset(n: nat): seq<bool> {
    seq(n, _ => false)
  }

  /** The next snapshot with the slots that go with it; none where the source panics. */
  function Checkpointed(c: Client): Option<Client> {
    var last, first := LastSet(c.slots), FirstUnset(c.slots);
    if last.None? then Some(Client(ClientState(c.last.width, 0, c.last.low, []), c.slots))
    else if first.None? then
      if last.value + 1 + c.last.consumed != c.last.width then None
      else Some(Client(ClientState(c.last.width, c.last.width, c.last.low + last.value + 1, []), []))
    else if first.value > c.last.width then None
    else
      assert first.value > 0 ==> c.slots[first.value - 1];
      Some(Shifted(c, first.value, last.value))
  }

  /** The window moved on to its first unset slot. */
  function Shifted(c: Client, first: nat, last: nat): Client
    requires first <= c.last.width && first <= last + 1 <= |c.slots|
  {
    var slots := c.slots[first..] + Unset(c.last.width - first);
    Client(ClientState(c.last.width, first, c.last.low + first, MaskBytes(slots, last - first)), slots)
  }

  function Marked(c: Client, reqNo: nat): Client
    requires c.last.low <= reqNo < c.last.low + |c.slots|
  {
    c.(slots := c.slots[reqNo - c.last.low := true])
  }

  /** The slots rebuilt from a snapshot; none if a bit lies beyond the width. */
  function Rebuilt(state: ClientState): Option<Client> {
    if exists i :: state.width <= i < 8 * |state.mask| && IsBitSet(state.mask, i) then None
    else Some(Client(state, seq(state.width, i requires 0 <= i < state.width => IsBitSet(state.mask, i))))
  }

  class CommittingClient {
    var lastState: ClientState
    var slots: seq<bool>

    ghost function View(): Client
      reads this
    {
      Client(lastState, slots)
    }

    constructor (state: ClientState)
      requires Rebuilt(state).Some?
      ensures View() == Rebuilt(state).value
    {
      var filled := seq(state.width, _ => false);
      var i := 0;
      while i < 8 * |state.mask|
        invariant i <= 8 * |state.mask| && |filled| == state.width
        invariant forall j :: 0 <= j < state.width ==> filled[j] == (j < i && IsBitSet(state.mask, j))
      {
        if IsBitSet(state.mask, i) {
          filled := filled[i := true];
        }
        i := i + 1;
      }
      lastState, slots := state, filled;
    }

    method MarkCommitted(reqNo: nat)
      requires lastState.low <= reqNo < lastState.low + |slots|
      modifies this`slots
      ensures View() == Marked(old(View()), reqNo)
    {
      var offset := reqNo - lastState.low;
      slots := slots[offset := true];
    }

    method ScanSlots() returns (first: Option<nat>, last: Option<nat>)
      ensures first == FirstUnset(slots) && last == LastSet(slots)
    {
      first, last := None, None;
      for i := 0 to |slots|
        invariant first == FirstUnset(slots[..i]) && last == LastSet(slots[..i])
      {
        assert slots[..i + 1][..i] == slots[..i];
        if slots[i] {
          last := Some(i);
        } else if first.None? {
          first := Some(i);
        }
      }
      assert slots[..|slots|] == slots;
    }

    static method CreateMask(slots: seq<bool>, n: int) returns (bytes: seq<bv8>)
      requires -1 <= n < |slots|
      ensures bytes == MaskBytes(slots, n)
    {
      var mask := new bv8[Truncated(n) + 1](_ => 0);
      var i := 0;
      while i <= n
        invariant i <= n + 1 && mask[..] == MaskOf(slots, Truncated(n) + 1, i)
      {
        if slots[i] {
          SetBit(mask, i);
        }
        i := i + 1;
      }
      bytes := mask[..];
    }

    /** Takes a snapshot and moves the slots on; returns none where the source panics. */
    method CreateCheckpointState() returns (r: Option<ClientState>)
      modifies this
      ensures
        match Checkpointed(old(View()))
        case None => r.None? && View() == old(View())
        case Some(next) => r == Some(next.last) && View() == next
    {
      hide MaskBytes;
      hide FirstUnset;
      hide LastSet;
      var first, last := ScanSlots();
      if last.None? {
        lastState := ClientState(lastState.width, 0, lastState.low, []);
        return Some(lastState);
      }
      if first.None? {
        if lastState.low + last.value + 1 + lastState.consumed != lastState.low + lastState.width {
          return None;
        }
        slots := [];
        lastState := ClientState(lastState.width, lastState.width, lastState.low + last.value + 1, []);
        return Some(lastState);
      }
      var widthConsumed := first.value;
      if widthConsumed > lastState.width {
        return None;
      }
      assert widthConsumed > 0 ==> slots[widthConsumed - 1];
      slots := slots[widthConsumed..] + seq(lastState.width - widthConsumed, _ => false);
      var mask := CreateMask(slots, last.value as int - first.value);
      lastState := ClientState(lastState.width, widthConsumed, lastState.low + widthConsumed, mask);
      r := Some(lastState);
    }
  }

  // ---------------------------------------------------------------- snapshots are exact

  /** The request has committed, as the live slots know it. */
  predicate Done(c: Client, reqNo: nat) {
    reqNo < c.last.low || (reqNo < c.last.low + |c.slots| && c.slots[reqNo - c.last.low])
  }

  /** No request beyond the client's window has committed. */
  predicate Bounded(c: Client) {
    forall i :: 0 <= i < |c.slots| && c.slots[i] ==> i <= c.last.width
  }

  lemma ShiftKeepsDone(c: Client, k: nat, n: nat, reqNo: nat)
    requires k <= |c.slots| && forall i :: 0 <= i < k ==> c.slots[i]
    ensures Done(Client(c.last.(low := c.last.low + k), c.slots[k..] + Unset(n)), reqNo) <==> Done(c, reqNo)
  {
    var slots := c.slots[k..] + Unset(n);
    if c.last.low <= reqNo < c.last.low + k {
      assert c.slots[reqNo - c.last.low];
    } else if reqNo >= c.last.low + k && reqNo < c.last.low + |c.slots| {
      assert slots[reqNo - c.last.low - k] == c.slots[reqNo - c.last.low];
    }
  }

  /** A snapshot moves no request between committed and uncommitted. */
  lemma CheckpointKeepsDone(c: Client, reqNo: nat)
    requires Checkpointed(c).Some?
    ensures Done(Checkpointed(c).value, reqNo) <==> Done(c, reqNo)
  {
    var last, first := LastSet(c.slots), FirstUnset(c.slots);
    if last.Some? && first.Some? {
      ShiftKeepsDone(c, first.value, c.last.width - first.value, reqNo);
    }
  }

  lemma CheckpointKeepsBounded(c: Client)
    requires Bounded(c) && Checkpointed(c).Some?
    ensures Bounded(Checkpointed(c).value)
  {
    var next := Checkpointed(c).value;
    var last, first := LastSet(c.slots), FirstUnset(c.slots);
    if last.Some? && first.Some? {
      forall i | 0 <= i < |next.slots| && next.slots[i] ensures i <= next.last.width {
        assert next.slots[i] == c.slots[first.value + i];
      }
    }
  }

  /** The bits of the snapshot are the slots. */
  lemma SnapshotBits(c: Client, i: nat)
    requires Checkpointed(c).Some?
    ensures
      var next := Checkpointed(c).value;
      IsBitSet(next.last.mask, i) <==> i < |next.slots| && next.slots[i]
  {
    hide FirstUnset;
    hide LastSet;
    hide MaskOf;
    var next := Checkpointed(c).value;
    var last, first := LastSet(c.slots), FirstUnset(c.slots);
    if last.Some? && first.Some? {
      assert first.value > 0 ==> c.slots[first.value - 1];
      var n := last.value as int - first.value;
      MaskExact(next.slots, Truncated(n) + 1, n + 1, i);
      hide IsBitSet;
      if n < i < |next.slots| {
        assert next.slots[i] == if i < |c.slots| - first.value then c.slots[first.value + i] else false;
      }
    }
  }

  predicate Set(slots: seq<bool>, i: nat) {
    i < |slots| && slots[i]
  }

  predicate Slot(c: Client, i: nat) {
    Set(c.slots, i)
  }

  ghost predicate BitsAreSlots(c: Client) {
    forall i: nat :: IsBitSet(c.last.mask, i) <==> Slot(c, i)
  }

  lemma AnswersAsSlots(c: Client, reqNo: nat)
    requires Bounded(c) && BitsAreSlots(c)
    ensures IsCommitted(reqNo, c.last) <==> Done(c, reqNo)
  {
    hide IsBitSet;
    if reqNo >= c.last.low {
      assert IsBitSet(c.last.mask, reqNo - c.last.low) <==> Slot(c, reqNo - c.last.low);
    }
  }

  lemma SnapshotIsMask(c: Client)
    requires Checkpointed(c).Some?
    ensures BitsAreSlots(Checkpointed(c).value)
  {
    forall i: nat ensures IsBitSet(Checkpointed(c).value.last.mask, i) <==> Slot(Checkpointed(c).value, i) {
      SnapshotBits(c, i);
    }
  }

  /** A snapshot answers for every request number exactly as the live slots do. */
  lemma SnapshotExact(c: Client, reqNo: nat)
    requires Bounded(c) && Checkpointed(c).Some?
    ensures IsCommitted(reqNo, Checkpointed(c).value.last) <==> Done(c, reqNo)
  {
    hide IsCommitted;
    hide Done;
    hide BitsAreSlots;
    hide Checkpointed;
    CheckpointKeepsDone(c, reqNo);
    CheckpointKeepsBounded(c);
    SnapshotIsMask(c);
    AnswersAsSlots(Checkpointed(c).value, reqNo);
  }

  /** A snapshot keeps the width, moves the low watermark to the first request that has not committed and
      says how far that was; the whole width if nothing is left uncommitted. */
  lemma SnapshotMoves(c: Client)
    requires Checkpointed(c).Some?
    ensures
      var s := Checkpointed(c).value.last;
      && s.width == c.last.width && s.low >= c.last.low
      && (forall reqNo :: 0 <= reqNo < s.low ==> Done(c, reqNo)) && !Done(c, s.low)
      && s.consumed == if c.slots != [] && AllSet(c.slots) then s.width else s.low - c.last.low
  {
    hide MaskBytes;
  }

  predicate AllSet(slots: seq<bool>) {
    forall i :: 0 <= i < |slots| ==> slots[i]
  }

  /** It fails exactly if all slots have committed but they do not end where the window did, or if more
      than the width has committed without a gap. */
  lemma SnapshotFailsIff(c: Client)
    ensures Checkpointed(c).None? <==>
            || (c.slots != [] && AllSet(c.slots) && |c.slots| + c.last.consumed != c.last.width)
            || (|c.slots| > c.last.width + 1 && !AllSet(c.slots) && AllSet(c.slots[..c.last.width + 1]))
  {
    hide MaskBytes;
    var first := FirstUnset(c.slots);
    if first.Some? {
      var n := c.last.width + 1;
      if n < |c.slots| {
        var front := c.slots[..n];
        if first.value < n {
          assert !front[first.value];
        } else {
          forall i | 0 <= i < n ensures front[i] {
            assert c.slots[i];
          }
        }
      }
      assert first.value > 0 ==> c.slots[0];
    }
  }

  /** The last byte of a non-empty mask is zero, against its documentation, exactly when the commits are
      contiguous. */
  lemma MaskEndsInZero(c: Client)
    requires Checkpointed(c).Some? && Checkpointed(c).value.last.mask != []
    ensures
      var mask := Checkpointed(c).value.last.mask;
      mask[|mask| - 1] == 0 <==> LastSet(c.slots).value < FirstUnset(c.slots).value
  {
    hide FirstUnset;
    hide LastSet;
    var next := Checkpointed(c).value;
    var mask := next.last.mask;
    var last, first := LastSet(c.slots).value, FirstUnset(c.slots).value;
    assert first > 0 ==> c.slots[first - 1];
    if last >= first {
      var n := last - first;
      assert next.slots[n] == c.slots[last];
      SnapshotBits(c, n);
      assert n / 8 == |mask| - 1;
      assert BitIn(mask[|mask| - 1], n % 8);
    }
  }

  // ---------------------------------------------------------------- coverage

  /** The slots reach to the end of the client's full window. */
  predicate Covers(c: Client) {
    |c.slots| >= c.last.width
  }

  /** How much of the window a snapshot would consume. */
  function Consumes(c: Client): nat {
    if LastSet(c.slots).None? then 0
    else if FirstUnset(c.slots).None? then |c.slots|
    else FirstUnset(c.slots).value
  }

  /** The window stays covered exactly when at most half of the slots are consumed. */
  lemma CoverageKept(c: Client)
    requires Covers(c) && c.last.width > 0 && Checkpointed(c).Some?
    ensures Covers(Checkpointed(c).value) <==> 2 * Consumes(c) <= |c.slots|
  {
  }

  // ---------------------------------------------------------------- runs

  datatype Op = Mark(reqNo: nat) | Snapshot

  function Step(c: Client, op: Op): Client {
    match op
    case Mark(r) => if c.last.low <= r < c.last.low + |c.slots| then Marked(c, r) else c
    case Snapshot => if Checkpointed(c).Some? then Checkpointed(c).value else c
  }

  function After(c: Client, ops: seq<Op>): Client {
    if ops == [] then c else Step(After(c, ops[..|ops| - 1]), ops[|ops| - 1])
  }

  /** Only requests of the window commit, which includes its end, and that have a slot; each checkpoint
      consumes at most half of the width and leaves some request of the window uncommitted. */
  predicate OpAllowed(c: Client, op: Op) {
    match op
    case Mark(r) => c.last.low <= r <= c.last.low + c.last.width && r < c.last.low + |c.slots|
    case Snapshot => 2 * Consumes(c) <= c.last.width && exists i :: 0 <= i < c.last.width && !Slot(c, i)
  }

  predicate Allowed(c: Client, ops: seq<Op>) {
    ops == [] || (Allowed(c, ops[..|ops| - 1]) && OpAllowed(After(c, ops[..|ops| - 1]), ops[|ops| - 1]))
  }

  /** The slots cover the window and only requests of the window are in them. */
  predicate Fits(c: Client) {
    Covers(c) && Bounded(c)
  }

  lemma CheckpointCovers(c: Client)
    requires Covers(c) && OpAllowed(c, Snapshot)
    ensures Checkpointed(c).Some? && Covers(Checkpointed(c).value)
  {
    hide FirstUnset;
    hide LastSet;
    hide MaskBytes;
    var i :| 0 <= i < c.last.width && !Slot(c, i);
    assert !c.slots[i];
  }

  lemma StepExact(c: Client, op: Op, reqNo: nat)
    requires Fits(c) && OpAllowed(c, op)
    ensures Fits(Step(c, op))
    ensures Done(Step(c, op), reqNo) <==> Done(c, reqNo) || op == Mark(reqNo)
  {
    if op.Snapshot? {
      CheckpointCovers(c);
      CheckpointKeepsBounded(c);
      CheckpointKeepsDone(c, reqNo);
      hide Checkpointed;
      hide OpAllowed;
      hide Bounded;
      hide Done;
    }
  }

  /** Over any number of checkpoints the slots keep covering the window and know exactly the requests
      that were committed. */
  lemma {:induction false} RunExact(c: Client, ops: seq<Op>, reqNo: nat)
    requires Fits(c) && Allowed(c, ops)
    ensures Fits(After(c, ops))
    ensures Done(After(c, ops), reqNo) <==> Done(c, reqNo) || Mark(reqNo) in ops
  {
    hide OpAllowed;
    hide Step;
    hide Done;
    hide Fits;
    if ops != [] {
      var init, last := ops[..|ops| - 1], ops[|ops| - 1];
      assert ops == init + [last];
      RunExact(c, init, reqNo);
      StepExact(After(c, init), last, reqNo);
    }
  }

  /** The snapshot that ends a run holds exactly the requests committed so far. */
  lemma RunSnapshotExact(c: Client, ops: seq<Op>, reqNo: nat)
    requires Fits(c) && Allowed(c, ops + [Snapshot])
    ensures IsCommitted(reqNo, After(c, ops + [Snapshot]).last) <==> Done(c, reqNo) || Mark(reqNo) in ops
  {
    hide Checkpointed;
    hide IsCommitted;
    hide Done;
    assert (ops + [Snapshot])[..|ops|] == ops;
    RunExact(c, ops, reqNo);
    CheckpointCovers(After(c, ops));
    SnapshotExact(After(c, ops), reqNo);
  }

  // ---------------------------------------------------------------- restarting

  /** Below the window's end a snapshot can also be read back: rebuilding panics on a bit at the width. */
  predicate OpProper(c: Client, op: Op) {
    match op
    case Mark(r) => c.last.low <= r < c.last.low + c.last.width
    case Snapshot => OpAllowed(c, Snapshot)
  }

  predicate Proper(c: Client, ops: seq<Op>) {
    ops == [] || (Proper(c, ops[..|ops| - 1]) && OpProper(After(c, ops[..|ops| - 1]), ops[|ops| - 1]))
  }

  predicate Good(c: Client) {
    Covers(c) && forall i :: c.last.width <= i < |c.slots| ==> !c.slots[i]
  }

  lemma CheckpointKeepsGood(c: Client)
    requires Good(c) && OpProper(c, Snapshot)
    ensures Checkpointed(c).Some? && Good(Checkpointed(c).value)
  {
    CheckpointCovers(c);
    hide FirstUnset;
    hide LastSet;
    hide MaskBytes;
    var next := Checkpointed(c).value;
    var last, first := LastSet(c.slots), FirstUnset(c.slots);
    if last.Some? && first.Some? {
      forall k | c.last.width <= k < |next.slots| ensures !next.slots[k] {
        assert next.slots[k] == if k < |c.slots| - first.value then c.slots[first.value + k] else false;
      }
    }
  }

  lemma StepKeepsGood(c: Client, op: Op)
    requires Good(c) && OpProper(c, op)
    ensures Good(Step(c, op))
  {
    if op.Snapshot? {
      CheckpointKeepsGood(c);
    }
  }

  lemma {:induction false} RunKeepsGood(c: Client, ops: seq<Op>)
    requires Good(c) && Proper(c, ops)
    ensures Good(After(c, ops))
  {
    hide OpProper;
    hide Step;
    hide Good;
    if ops != [] {
      RunKeepsGood(c, ops[..|ops| - 1]);
      StepKeepsGood(After(c, ops[..|ops| - 1]), ops[|ops| - 1]);
    }
  }

  // ---------------------------------------------------------------- restart equals continue

  /** Two clients with the same snapshot and the same commits, whatever the lengths of their slots. */
  ghost predicate Similar(a: Client, b: Client) {
    a.last == b.last && Agree(a.slots, b.slots)
  }

  function Shared(a: Client, b: Client): nat {
    if |a.slots| <= |b.slots| then |a.slots| else |b.slots|
  }

  function SnapshotOf(c: Client): Option<ClientState> {
    if Checkpointed(c).Some? then Some(Checkpointed(c).value.last) else None
  }

  /** A client rebuilt from a snapshot is similar to the one that took it. */
  lemma RestartedSimilar(c: Client)
    requires Good(c) && Checkpointed(c).Some? && Good(Checkpointed(c).value)
    ensures Rebuilt(Checkpointed(c).value.last).Some?
    ensures Similar(Checkpointed(c).value, Rebuilt(Checkpointed(c).value.last).value)
    ensures Good(Rebuilt(Checkpointed(c).value.last).value)
  {
    hide Checkpointed;
    var next := Checkpointed(c).value;
    SnapshotIsMask(c);
    forall i | next.last.width <= i < 8 * |next.last.mask| ensures !IsBitSet(next.last.mask, i) {
      assert IsBitSet(next.last.mask, i) <==> Slot(next, i);
    }
    var rebuilt := Rebuilt(next.last).value;
    forall i: nat ensures Slot(next, i) == Slot(rebuilt, i) {
      assert IsBitSet(next.last.mask, i) <==> Slot(next, i);
    }
  }

  lemma SimilarScan(a: Client, b: Client)
    requires Similar(a, b)
    ensures LastSet(a.slots) == LastSet(b.slots)
    ensures (exists i :: 0 <= i < Shared(a, b) && !Slot(a, i)) ==>
              FirstUnset(a.slots).Some? && FirstUnset(a.slots) == FirstUnset(b.slots)
  {
    hide LastSet;
    hide FirstUnset;
    var la, lb, fa, fb := LastSet(a.slots), LastSet(b.slots), FirstUnset(a.slots), FirstUnset(b.slots);
    if la.Some? {
      assert Slot(a, la.value);
    }
    if lb.Some? {
      assert Slot(b, lb.value);
    }
    if i :| 0 <= i < Shared(a, b) && !Slot(a, i) {
      assert !Slot(b, i) && !a.slots[i] && !b.slots[i];
      assert fa.value <= i && fb.value <= i;
      assert !Slot(a, fa.value) && !Slot(b, fb.value);
      assert !Slot(b, fa.value) && !Slot(a, fb.value);
      assert !b.slots[fa.value] && !a.slots[fb.value];
    }
  }

  ghost predicate Agree(a: seq<bool>, b: seq<bool>) {
    forall i: nat :: Set(a, i) == Set(b, i)
  }

  lemma ShiftedAgree(a: seq<bool>, b: seq<bool>, first: nat, n: nat)
    requires Agree(a, b) && first <= |a| && first <= |b|
    ensures Agree(a[first..] + Unset(n), b[first..] + Unset(n))
  {
    var sa, sb := a[first..] + Unset(n), b[first..] + Unset(n);
    forall i: nat ensures Set(sa, i) == Set(sb, i) {
      assert Set(a, first + i) == Set(b, first + i);
      assert Set(sa, i) == Set(a, first + i);
      assert Set(sb, i) == Set(b, first + i);
    }
  }

  lemma MaskBytesAgree(a: seq<bool>, b: seq<bool>, n: int)
    requires Agree(a, b) && -1 <= n < |a| && n < |b|
    ensures MaskBytes(a, n) == MaskBytes(b, n)
  {
    forall i | 0 <= i < n + 1 ensures a[i] == b[i] {
      assert Set(a, i) == Set(b, i);
    }
    MaskAgrees(a, b, Truncated(n) + 1, n + 1);
  }

  lemma ShiftedSimilar(a: Client, b: Client, first: nat, last: nat)
    requires Similar(a, b) && first <= a.last.width && first <= last + 1 <= |a.slots| && last + 1 <= |b.slots|
    ensures Similar(Shifted(a, first, last), Shifted(b, first, last))
  {
    hide Agree;
    hide MaskBytes;
    ShiftedAgree(a.slots, b.slots, first, a.last.width - first);
    MaskBytesAgree(a.slots[first..] + Unset(a.last.width - first), b.slots[first..] + Unset(a.last.width - first),
                   last as int - first);
  }

  /** Similar clients that both see an unset slot take the same snapshot and stay similar. */
  lemma SimilarCheckpoint(a: Client, b: Client)
    requires Similar(a, b) && exists i :: 0 <= i < Shared(a, b) && !Slot(a, i)
    ensures SnapshotOf(a) == SnapshotOf(b)
    ensures Checkpointed(a).Some? ==> Checkpointed(b).Some? && Similar(Checkpointed(a).value, Checkpointed(b).value)
  {
    hide LastSet;
    hide FirstUnset;
    hide Agree;
    hide Shifted;
    SimilarScan(a, b);
    var last, first := LastSet(a.slots), FirstUnset(a.slots).value;
    if last.Some? && first <= a.last.width {
      assert first > 0 ==> a.slots[first - 1];
      ShiftedSimilar(a, b, first, last.value);
    }
  }

  /** The exact condition: snapshots of similar clients with different slot lengths differ just when all
      the slots that both have are set, and a snapshot can be taken at all. */
  lemma SnapshotsAgreeIff(a: Client, b: Client)
    requires Similar(a, b)
    ensures SnapshotOf(a) == SnapshotOf(b) <==>
            || |a.slots| == |b.slots| || Shared(a, b) == 0 || Shared(a, b) > a.last.width
            || exists i :: 0 <= i < Shared(a, b) && !Slot(a, i)
  {
    if |a.slots| == |b.slots| {
      forall i | 0 <= i < |a.slots| ensures a.slots[i] == b.slots[i] {
        assert Set(a.slots, i) == Set(b.slots, i);
      }
      assert a == b;
    } else if exists i :: 0 <= i < Shared(a, b) && !Slot(a, i) {
      SimilarCheckpoint(a, b);
    } else if |a.slots| < |b.slots| {
      FullyCommitted(a, b);
    } else {
      forall i | 0 <= i < |b.slots| ensures Slot(b, i) {
        assert Slot(a, i) && Set(a.slots, i) == Set(b.slots, i);
      }
      FullyCommitted(b, a);
    }
  }

  lemma ScanFull(a: Client, b: Client)
    requires Similar(a, b) && 0 < |a.slots| < |b.slots| && forall i :: 0 <= i < |a.slots| ==> Slot(a, i)
    ensures FirstUnset(a.slots) == None && FirstUnset(b.slots) == Some(|a.slots|)
    ensures LastSet(a.slots) == Some(|a.slots| - 1) && LastSet(b.slots) == Some(|a.slots| - 1)
  {
    hide LastSet;
    hide FirstUnset;
    var n := |a.slots|;
    forall i: nat ensures Set(b.slots, i) <==> i < n {
      assert Set(b.slots, i) == Set(a.slots, i);
      assert i < n ==> Slot(a, i);
    }
    forall i | 0 <= i < n ensures a.slots[i] {
      assert Slot(a, i);
    }
    assert Set(b.slots, n - 1) && !Set(b.slots, n) && Set(a.slots, n - 1);
    assert a.slots[n - 1] && b.slots[n - 1] && !b.slots[n];
    assert Set(a.slots, LastSet(a.slots).value);
    assert Set(b.slots, LastSet(b.slots).value) && !Set(b.slots, FirstUnset(b.slots).value);
  }

  lemma FullyCommitted(a: Client, b: Client)
    requires Similar(a, b) && |a.slots| < |b.slots| && forall i :: 0 <= i < |a.slots| ==> Slot(a, i)
    ensures SnapshotOf(a) == SnapshotOf(b) <==> a.slots == [] || |a.slots| > a.last.width
  {
    hide LastSet;
    hide FirstUnset;
    hide Agree;
    SimilarScan(a, b);
    if a.slots != [] {
      ScanFull(a, b);
      if |a.slots| <= a.last.width {
        assert |Checkpointed(b).value.last.mask| == 1;
      }
    }
  }

  // ---------------------------------------------------------------- over whole runs

  /** The snapshots that a run takes. */
  function Snapshots(c: Client, ops: seq<Op>): seq<ClientState> {
    if ops == [] then []
    else
      var init, last := ops[..|ops| - 1], ops[|ops| - 1];
      Snapshots(c, init) + (if last.Snapshot? then [Step(After(c, init), last).last] else [])
  }

  lemma SimilarStep(a: Client, b: Client, op: Op)
    requires Similar(a, b) && Good(a) && Good(b) && OpProper(a, op)
    ensures OpProper(b, op) && Similar(Step(a, op), Step(b, op))
  {
    match op {
      case Mark(r) =>
        var i := r - a.last.low;
        forall k: nat ensures Set(Step(a, op).slots, k) == Set(Step(b, op).slots, k) {
          assert Set(a.slots, k) == Set(b.slots, k);
        }
      case Snapshot =>
        var i :| 0 <= i < a.last.width && !Slot(a, i);
        assert !Slot(b, i) by {
          assert Set(a.slots, i) == Set(b.slots, i);
        }
        SimilarScan(a, b);
        SimilarCheckpoint(a, b);
        CheckpointKeepsGood(a);
        hide Checkpointed;
        hide Agree;
        hide LastSet;
        hide FirstUnset;
    }
  }

  /** A restarted client and the one that went on take the same snapshots, for every continuation. */
  lemma {:induction false} SimilarRuns(a: Client, b: Client, ops: seq<Op>)
    requires Similar(a, b) && Good(a) && Good(b) && Proper(a, ops)
    ensures Proper(b, ops) && Similar(After(a, ops), After(b, ops))
    ensures Snapshots(a, ops) == Snapshots(b, ops)
  {
    if ops != [] {
      var init, last := ops[..|ops| - 1], ops[|ops| - 1];
      SimilarRuns(a, b, init);
      RunKeepsGood(a, init);
      RunKeepsGood(b, init);
      hide Step;
      hide OpProper;
      hide Agree;
      hide Good;
      hide Done;
      SimilarStep(After(a, init), After(b, init), last);
    }
  }

  /** Restart equals continue. */
  lemma RestartEqualsContinue(c: Client, ops: seq<Op>)
    requires Good(c) && OpProper(c, Snapshot) && Proper(Step(c, Snapshot), ops)
    ensures
      var live := Step(c, Snapshot);
      Rebuilt(live.last).Some? && Snapshots(live, ops) == Snapshots(Rebuilt(live.last).value, ops)
  {
    hide Checkpointed;
    hide OpProper;
    hide Good;
    hide Agree;
    hide Rebuilt;
    CheckpointKeepsGood(c);
    RestartedSimilar(c);
    var live := Step(c, Snapshot);
    SimilarRuns(live, Rebuilt(live.last).value, ops);
  }
}
