/** The sliding window of sequences of an active epoch. */
module ActiveWindow {
  import opened Types
  import opened Intervals
  import opened Buckets
  import opened Sequences

  // ---------------------------------------------------------------- blocks

  datatype Entry = Entry(seqNo: nat, phase: Phase)

  /** The first sequence number of block `i`. */
  function BlockStart(low: nat, ci: nat, i: nat): (s: nat)
    ensures s >= low
  {
    if i == 0 then low else BlockStart(low, ci, i - 1) + ci
  }

  lemma {:induction false} BlockStartTimes(low: nat, ci: nat, i: nat)
    ensures BlockStart(low, ci, i) == low + i * ci
  {
    if i > 0 {
      BlockStartTimes(low, ci, i - 1);
      assert i * ci == (i - 1) * ci + ci;
    }
  }

  predicate Blocks(blocks: seq<seq<Entry>>, ci: nat) {
    forall i :: 0 <= i < |blocks| ==> |blocks[i]| == ci
  }

  /** All the sequences of a window. */
  function Flat(blocks: seq<seq<Entry>>): seq<Entry> {
    if blocks == [] then [] else Flat(blocks[..|blocks| - 1]) + blocks[|blocks| - 1]
  }

  lemma {:induction false} FlatLength(blocks: seq<seq<Entry>>, ci: nat)
    requires Blocks(blocks, ci)
    ensures |Flat(blocks)| == BlockStart(0, ci, |blocks|)
  {
    if blocks != [] {
      FlatLength(blocks[..|blocks| - 1], ci);
    }
  }

  lemma {:induction false} FlatAt(blocks: seq<seq<Entry>>, ci: nat, q: nat, r: nat)
    requires Blocks(blocks, ci) && q < |blocks| && r < ci
    ensures BlockStart(0, ci, q) + r < |Flat(blocks)| && Flat(blocks)[BlockStart(0, ci, q) + r] == blocks[q][r]
  {
    var init := blocks[..|blocks| - 1];
    FlatLength(init, ci);
    if q < |init| {
      FlatAt(init, ci, q, r);
    }
  }

  lemma {:induction false} FlatUpdate(blocks: seq<seq<Entry>>, ci: nat, q: nat, r: nat, x: Entry)
    requires Blocks(blocks, ci) && q < |blocks| && r < ci
    ensures BlockStart(0, ci, q) + r < |Flat(blocks)|
    ensures Flat(blocks[q := blocks[q][r := x]]) == Flat(blocks)[BlockStart(0, ci, q) + r := x]
  {
    var init, last := blocks[..|blocks| - 1], blocks[|blocks| - 1];
    var blocks' := blocks[q := blocks[q][r := x]];
    FlatLength(init, ci);
    FlatAt(blocks, ci, q, r);
    if q < |init| {
      FlatUpdate(init, ci, q, r, x);
      assert blocks'[..|blocks| - 1] == init[q := init[q][r := x]];
    } else {
      assert blocks'[..|blocks| - 1] == init;
    }
  }

  lemma {:induction false} FlatTail(blocks: seq<seq<Entry>>)
    requires blocks != []
    ensures Flat(blocks) == blocks[0] + Flat(blocks[1..])
  {
    var init, last := blocks[..|blocks| - 1], blocks[|blocks| - 1];
    if |blocks| > 1 {
      FlatTail(init);
      assert blocks[1..][..|blocks| - 2] == init[1..];
      Associative(blocks[0], Flat(init[1..]), last);
    } else {
      assert Flat(init) + last == last && last + Flat([]) == last;
    }
  }

  /** The sequences are numbered from `low` on without a gap. */
  predicate Numbered(cells: seq<Entry>, low: nat) {
    forall k :: 0 <= k < |cells| ==> cells[k].seqNo == low + k
  }

  function Phases(cells: seq<Entry>): seq<Phase> {
    seq(|cells|, i requires 0 <= i < |cells| => cells[i].phase)
  }

  lemma LookupSplit(x: nat, ci: nat, n: nat)
    requires ci > 0 && x < BlockStart(0, ci, n)
    ensures x / ci < n && x % ci < ci && BlockStart(0, ci, x / ci) + x % ci == x
  {
    BlockStartTimes(0, ci, x / ci);
    BlockStartTimes(0, ci, n);
    if x / ci >= n {
      TimesGrows(n, x / ci, ci);
      assert false;
    }
  }

  /** The lookup by interval and offset finds the sequence that was asked for. */
  lemma LookupFinds(blocks: seq<seq<Entry>>, ci: nat, low: nat, s: nat)
    requires ci > 0 && Blocks(blocks, ci) && Numbered(Flat(blocks), low) && low <= s < low + |Flat(blocks)|
    ensures
      var q, r := (s - low) / ci, (s - low) % ci;
      && q < |blocks| && r < ci && BlockStart(0, ci, q) + r == s - low
      && blocks[q][r] == Flat(blocks)[s - low] && blocks[q][r].seqNo == s
  {
    hide BlockStart;
    hide Flat;
    FlatLength(blocks, ci);
    LookupSplit(s - low, ci, |blocks|);
    FlatAt(blocks, ci, (s - low) / ci, (s - low) % ci);
  }

  // ---------------------------------------------------------------- the window

  /** What is fixed for an epoch: the interval, the number of buckets and their owners, the last commit
      and the last checkpoint when it began, and where it ends. */
  datatype Epoch = Epoch(ci: nat, nb: nat, owners: seq<NodeId>, me: NodeId, start: nat, base: nat, expiration: nat)
  {
    predicate Valid() {
      && ci > 0 && nb > 0 && |owners| == nb
      && base <= start <= base + 2 * ci && start <= expiration
      && base < expiration && Aligned(expiration - base, ci)
    }
  }

  datatype Window = Window(
    low: nat,
    phases: seq<Phase>,            // of the sequences from `low` on
    unallocated: seq<nat>,         // by bucket
    next: seq<nat>,                // the preprepare that each bucket's buffer waits for
    lowestUncommitted: nat,
    highestCommit: nat,
    checkpoint: nat)               // the last one with a result

  function High(w: Window): int {
    w.low + |w.phases| - 1
  }

  function StopAt(e: Epoch, w: Window): nat {
    w.checkpoint + 2 * e.ci
  }

  function Max(a: int, b: int): int {
    if a < b then b else a
  }

  /** The window lies on interval boundaries, between the last checkpoint and where it must stop. */
  ghost predicate Bounds(e: Epoch, w: Window) {
    && e.Valid() && |w.unallocated| == e.nb && |w.next| == e.nb
    && e.base < w.low <= w.checkpoint + 1 && w.checkpoint <= w.highestCommit <= StopAt(e, w)
    && Aligned(w.checkpoint - e.base, e.ci) && Aligned(w.low - 1 - e.base, e.ci) && Aligned(|w.phases|, e.ci)
    && High(w) <= e.expiration && High(w) <= StopAt(e, w)
    && w.lowestUncommitted == w.highestCommit + 1 && e.start <= w.highestCommit <= e.expiration
  }

  /** The next number to allocate in a bucket; in others' buckets also the next preprepare expected. */
  ghost predicate BucketInv(e: Epoch, w: Window, b: nat)
    requires e.nb > 0 && b < |w.unallocated| && b < |w.next| && b < |e.owners|
  {
    && Bucket(w.unallocated[b], e.nb) == b && Bucket(w.next[b], e.nb) == b
    && w.lowestUncommitted <= w.unallocated[b] <= Max(High(w), e.start) + e.nb
    && e.start < w.next[b] <= w.unallocated[b]
    && (e.owners[b] != e.me ==> w.next[b] == w.unallocated[b])
  }

  /** The lowest unallocated numbers split the window. */
  predicate SplitAt(e: Epoch, w: Window, k: nat)
    requires e.nb > 0 && k < |w.phases| && |w.unallocated| == e.nb
  {
    w.phases[k] != Uninitialized <==> e.start < w.low + k < w.unallocated[Bucket(w.low + k, e.nb)]
  }

  ghost predicate Inv(e: Epoch, w: Window) {
    && Bounds(e, w)
    && (forall b :: 0 <= b < e.nb ==> BucketInv(e, w, b))
    && (forall k :: 0 <= k < |w.phases| ==> SplitAt(e, w, k))
  }

  function Fresh(n: nat): seq<Phase> {
    seq(n, _ => Uninitialized)
  }

  lemma HighAligned(e: Epoch, w: Window)
    requires Bounds(e, w)
    ensures High(w) >= e.base && Aligned(High(w) - e.base, e.ci)
    ensures High(w) < e.expiration && High(w) < StopAt(e, w) ==>
              High(w) + e.ci <= e.expiration && High(w) + e.ci <= StopAt(e, w)
  {
    AlignedPlus(w.low - 1 - e.base, |w.phases|, e.ci);
    assert High(w) - e.base == w.low - 1 - e.base + |w.phases|;
    AlignedPlus(w.checkpoint - e.base, e.ci, e.ci);
    AlignedPlus(w.checkpoint - e.base, 2 * e.ci, e.ci);
    assert StopAt(e, w) - e.base == w.checkpoint - e.base + 2 * e.ci;
    if High(w) < e.expiration && High(w) < StopAt(e, w) {
      AlignedApart(High(w) - e.base, e.expiration - e.base, e.ci);
      AlignedApart(High(w) - e.base, StopAt(e, w) - e.base, e.ci);
    }
  }

  function Extended(e: Epoch, w: Window): Window {
    w.(phases := w.phases + Fresh(e.ci))
  }

  lemma ExtendKeepsBounds(e: Epoch, w: Window)
    requires Bounds(e, w) && High(w) < e.expiration && High(w) < StopAt(e, w)
    ensures Bounds(e, Extended(e, w))
  {
    HighAligned(e, w);
    AlignedPlus(|w.phases|, e.ci, e.ci);
    AlignedPlus(0, e.ci, e.ci);
  }

  /** A new block of sequences keeps the invariant: none of its sequences is below its bucket's lowest
      unallocated number. */
  lemma ExtendKeepsInv(e: Epoch, w: Window)
    requires Inv(e, w) && High(w) < e.expiration && High(w) < StopAt(e, w)
    ensures Inv(e, Extended(e, w))
  {
    hide Bucket;
    hide Aligned;
    var w' := Extended(e, w);
    ExtendKeepsBounds(e, w);
    forall b | 0 <= b < e.nb ensures BucketInv(e, w', b) {
      assert BucketInv(e, w, b);
    }
    forall k | 0 <= k < |w'.phases| ensures SplitAt(e, w', k) {
      if k < |w.phases| {
        assert SplitAt(e, w, k);
      } else {
        var s := w.low + k;
        var b := Bucket(s, e.nb);
        assert BucketInv(e, w, b);
        if e.start < s < w.unallocated[b] {
          BucketApart(s, w.unallocated[b], e.nb);
          assert false;
        }
      }
    }
  }

  /** `w'` is `w` with new sequences at its high end. */
  ghost predicate Grown(w: Window, w': Window) {
    exists n: nat :: w' == w.(phases := w.phases + Fresh(n))
  }

  /** `w'` is `w` with new sequences at its high end and without some at its low end. */
  ghost predicate MovedUp(w: Window, w': Window) {
    exists n: nat, k: nat ::
      n <= |w.phases + Fresh(k)| && w' == w.(low := w.low + n, phases := (w.phases + Fresh(k))[n..])
  }

  /** The first numbers of the blocks from `lo` up to `hi`. */
  predicate Opens(e: Epoch, lo: nat, hi: nat, firsts: seq<nat>) {
    hi == BlockStart(lo, e.ci, |firsts|) && forall i :: 0 <= i < |firsts| ==> firsts[i] == BlockStart(lo, e.ci, i)
  }

  lemma FreshConcat(a: nat, b: nat)
    ensures Fresh(a) + Fresh(b) == Fresh(a + b)
  {
  }

  lemma GrownNot(w: Window)
    ensures Grown(w, w)
  {
    assert w.phases + Fresh(0) == w.phases;
  }

  lemma OpensNone(e: Epoch, lo: nat)
    ensures Opens(e, lo, lo, [])
  {
  }

  lemma ExtendedHigh(e: Epoch, w: Window)
    ensures var w' := Extended(e, w); High(w') == High(w) + e.ci && StopAt(e, w') == StopAt(e, w)
  {
  }

  lemma GrownFurther(e: Epoch, w: Window, w': Window)
    requires Grown(w, w')
    ensures Grown(w, Extended(e, w'))
  {
    var n: nat :| w' == w.(phases := w.phases + Fresh(n));
    FreshConcat(n, e.ci);
    Associative(w.phases, Fresh(n), Fresh(e.ci));
    assert Extended(e, w') == w.(phases := w.phases + Fresh(n + e.ci));
  }

  lemma OpensFurther(e: Epoch, lo: nat, hi: nat, firsts: seq<nat>)
    requires Opens(e, lo, hi, firsts)
    ensures Opens(e, lo, hi + e.ci, firsts + [hi])
  {
  }

  lemma GrownMovesUp(w: Window, w': Window)
    requires Grown(w, w')
    ensures MovedUp(w, w')
  {
    var n: nat :| w' == w.(phases := w.phases + Fresh(n));
    assert w' == w.(low := w.low + 0, phases := (w.phases + Fresh(n))[0..]);
  }

  lemma DroppedMovesUp(e: Epoch, w: Window, w': Window)
    requires MovedUp(w, w') && e.ci <= |w'.phases|
    ensures MovedUp(w, Dropped(e, w'))
  {
    var n: nat, k: nat :| n <= |w.phases + Fresh(k)| && w' == w.(low := w.low + n, phases := (w.phases + Fresh(k))[n..]);
    var all := w.phases + Fresh(k);
    assert all[n..][e.ci..] == all[n + e.ci..];
    assert Dropped(e, w') == w.(low := w.low + (n + e.ci), phases := all[n + e.ci..]);
  }

  function Dropped(e: Epoch, w: Window): Window
    requires e.ci <= |w.phases|
  {
    w.(low := w.low + e.ci, phases := w.phases[e.ci..])
  }

  /** The oldest block may go once its checkpoint is known and another block follows it. */
  lemma DropKeepsInv(e: Epoch, w: Window)
    requires Inv(e, w) && e.ci < |w.phases| && w.low - 1 + e.ci <= w.checkpoint
    ensures Inv(e, Dropped(e, w))
  {
    hide Bucket;
    hide Aligned;
    var w' := Dropped(e, w);
    AlignedPlus(w.low - 1 - e.base, e.ci, e.ci);
    WholeIntervals(e.ci);
    assert w'.low - 1 - e.base == w.low - 1 - e.base + e.ci;
    AlignedPlus(e.ci, |w'.phases|, e.ci);
    assert |w.phases| == e.ci + |w'.phases|;
    forall b | 0 <= b < e.nb ensures BucketInv(e, w', b) {
      assert BucketInv(e, w, b);
    }
    forall k | 0 <= k < |w'.phases| ensures SplitAt(e, w', k) {
      assert SplitAt(e, w, e.ci + k);
    }
  }

  /** The sequence that a bucket's lowest unallocated number stands for gets a batch.  In another's
      bucket that is the preprepare its buffer waited for. */
  function WithBatch(e: Epoch, w: Window, b: nat, phase: Phase): Window
    requires b < e.nb && |w.unallocated| == e.nb && |w.next| == e.nb && |e.owners| == e.nb
    requires w.low <= w.unallocated[b] <= High(w)
  {
    w.(phases := w.phases[w.unallocated[b] - w.low := phase],
       unallocated := w.unallocated[b := w.unallocated[b] + e.nb],
       next := if e.owners[b] == e.me then w.next else w.next[b := w.next[b] + e.nb])
  }

  /** In bucket `b`, which the replica owns, the sequences between the old and the new lowest unallocated
      number have a batch; nothing else has changed. */
  ghost predicate Proposes(e: Epoch, w: Window, w': Window, b: nat, phase: Phase)
    requires e.nb > 0
  {
    && |w.unallocated| == |w'.unallocated| == e.nb && b < e.nb && |w'.phases| == |w.phases|
    && w' == w.(phases := w'.phases, unallocated := w.unallocated[b := w'.unallocated[b]])
    && w.unallocated[b] <= w'.unallocated[b]
    && forall k :: 0 <= k < |w.phases| ==>
                     w'.phases[k] == if Bucket(w.low + k, e.nb) == b && w.unallocated[b] <= w.low + k < w'.unallocated[b]
                                     then phase else w.phases[k]
  }

  lemma ProposesNothing(e: Epoch, w: Window, b: nat, phase: Phase)
    requires Inv(e, w) && b < e.nb
    ensures Proposes(e, w, w, b, phase)
  {
    hide Bucket;
    hide Aligned;
  }

  lemma BatchKeepsHigh(e: Epoch, w: Window, b: nat, phase: Phase)
    requires Inv(e, w) && b < e.nb && w.low <= w.unallocated[b] <= High(w)
    ensures var w' := WithBatch(e, w, b, phase);
            High(w') == High(w) && w'.unallocated[b] == w.unallocated[b] + e.nb
  {
    hide Bucket;
    hide Aligned;
  }

  lemma ProposesFurther(e: Epoch, w: Window, w': Window, b: nat, phase: Phase)
    requires Inv(e, w') && b < e.nb && e.owners[b] == e.me && w'.low <= w'.unallocated[b] <= High(w')
    requires Proposes(e, w, w', b, phase)
    ensures Proposes(e, w, WithBatch(e, w', b, phase), b, phase)
  {
    hide Bucket;
    hide Aligned;
    var w2, u := WithBatch(e, w', b, phase), w'.unallocated[b];
    assert BucketInv(e, w', b);
    forall k | 0 <= k < |w.phases|
      ensures w2.phases[k] == if Bucket(w.low + k, e.nb) == b && w.unallocated[b] <= w.low + k < w2.unallocated[b]
                              then phase else w.phases[k]
    {
      var s := w.low + k;
      if Bucket(s, e.nb) == b && s > u {
        BucketApart(u, s, e.nb);
      }
    }
  }

  lemma AllocateKeepsSplit(e: Epoch, w: Window, b: nat, phase: Phase, k: nat)
    requires Inv(e, w) && b < e.nb && w.low <= w.unallocated[b] <= High(w) && phase != Uninitialized && k < |w.phases|
    ensures SplitAt(e, WithBatch(e, w, b, phase), k)
  {
    hide Aligned;
    hide Bucket;
    assert SplitAt(e, w, k) && BucketInv(e, w, b);
    var s, u := w.low + k, w.unallocated[b];
    if Bucket(s, e.nb) == b {
      if s < u {
      } else if s > u {
        BucketApart(u, s, e.nb);
      }
    }
  }

  /** The sequence to allocate is in the window and has no batch yet, so the assertion on its state holds,
      and allocating it keeps the invariant. */
  lemma AllocateKeepsInv(e: Epoch, w: Window, b: nat, phase: Phase)
    requires Inv(e, w) && b < e.nb && w.unallocated[b] <= High(w) && phase != Uninitialized
    ensures w.low <= w.unallocated[b] && w.phases[w.unallocated[b] - w.low] == Uninitialized
    ensures Inv(e, WithBatch(e, w, b, phase))
  {
    hide Aligned;
    hide Bucket;
    assert BucketInv(e, w, b);
    assert SplitAt(e, w, w.unallocated[b] - w.low);
    var w' := WithBatch(e, w, b, phase);
    BucketStep(w.unallocated[b], e.nb);
    BucketStep(w.next[b], e.nb);
    forall x | 0 <= x < e.nb ensures BucketInv(e, w', x) {
      assert BucketInv(e, w, x);
    }
    forall k | 0 <= k < |w'.phases| ensures SplitAt(e, w', k) {
      AllocateKeepsSplit(e, w, b, phase, k);
    }
  }

  function PhaseAt(w: Window, s: nat): Option<Phase> {
    if w.low <= s <= High(w) then Some(w.phases[s - w.low]) else None
  }

  /** Exactly the committed sequences up to the first that is not were handed over. */
  predicate CommitsAll(w: Window, commits: seq<nat>) {
    && (forall i :: 0 <= i < |commits| ==> PhaseAt(w, commits[i]) == Some(Committed))
    && PhaseAt(w, w.lowestUncommitted) != Some(Committed)
  }

  function Returned(e: Epoch, w: Window, b: nat): Window
    requires b < |w.next|
  {
    w.(next := w.next[b := w.next[b] + e.nb])
  }

  /** The replica's own preprepare comes back. */
  lemma ReturnKeepsInv(e: Epoch, w: Window, b: nat)
    requires Inv(e, w) && b < e.nb && e.owners[b] == e.me && w.next[b] < w.unallocated[b]
    ensures Inv(e, Returned(e, w, b))
  {
    hide Aligned;
    hide Bucket;
    var w' := Returned(e, w, b);
    assert BucketInv(e, w, b);
    BucketStep(w.next[b], e.nb);
    BucketApart(w.next[b], w.unallocated[b], e.nb);
    forall x | 0 <= x < e.nb ensures BucketInv(e, w', x) {
      assert BucketInv(e, w, x);
    }
    forall k | 0 <= k < |w'.phases| ensures SplitAt(e, w', k) {
      assert SplitAt(e, w, k);
    }
  }

  function Touched(w: Window, s: nat, phase: Phase): Window
    requires w.low <= s <= High(w)
  {
    w.(phases := w.phases[s - w.low := phase])
  }

  /** A prepare, a commit, a hash result or a request reaches a sequence: it may advance, but only
      allocation takes it out of the uninitialized phase. */
  lemma TouchKeepsInv(e: Epoch, w: Window, s: nat, phase: Phase)
    requires Inv(e, w) && w.low <= s <= High(w)
    requires phase == Uninitialized <==> w.phases[s - w.low] == Uninitialized
    ensures Inv(e, Touched(w, s, phase))
  {
    hide Aligned;
    hide Bucket;
    var w' := Touched(w, s, phase);
    forall b | 0 <= b < e.nb ensures BucketInv(e, w', b) {
      assert BucketInv(e, w, b);
    }
    forall k | 0 <= k < |w'.phases| ensures SplitAt(e, w', k) {
      assert SplitAt(e, w, k);
    }
  }

  function CommittedNext(w: Window): Window {
    w.(lowestUncommitted := w.lowestUncommitted + 1, highestCommit := w.highestCommit + 1)
  }

  /** The next commit is the one the commit state expects and does not pass where it must stop. */
  lemma CommitKeepsInv(e: Epoch, w: Window)
    requires Inv(e, w) && w.lowestUncommitted <= High(w)
    requires w.phases[w.lowestUncommitted - w.low] == Committed
    ensures w.lowestUncommitted == w.highestCommit + 1 <= StopAt(e, w)
    ensures Inv(e, CommittedNext(w))
  {
    hide Aligned;
    hide Bucket;
    var w', s := CommittedNext(w), w.lowestUncommitted;
    assert SplitAt(e, w, s - w.low);
    forall b | 0 <= b < e.nb ensures BucketInv(e, w', b) {
      assert BucketInv(e, w, b);
      assert w.unallocated[b] != s;
    }
    forall k | 0 <= k < |w'.phases| ensures SplitAt(e, w', k) {
      assert SplitAt(e, w, k);
    }
  }

  function Checkpointed(e: Epoch, w: Window): Window {
    w.(checkpoint := w.checkpoint + e.ci)
  }

  lemma CheckpointKeepsInv(e: Epoch, w: Window)
    requires Inv(e, w) && w.checkpoint + e.ci <= w.highestCommit
    ensures Inv(e, Checkpointed(e, w))
  {
    var w' := Checkpointed(e, w);
    AlignedPlus(w.checkpoint - e.base, e.ci, e.ci);
    AlignedPlus(0, e.ci, e.ci);
    assert w'.checkpoint - e.base == w.checkpoint - e.base + e.ci;
    hide Aligned;
    hide Bucket;
    forall b | 0 <= b < e.nb ensures BucketInv(e, w', b) {
      assert BucketInv(e, w, b);
    }
    forall k | 0 <= k < |w'.phases| ensures SplitAt(e, w', k) {
      assert SplitAt(e, w, k);
    }
  }

  // ---------------------------------------------------------------- the beginning

  /** An epoch begins with no block, and with the first number of every bucket after the last commit. */
  ghost predicate Begins(e: Epoch, w: Window) {
    && e.Valid() && w.low == e.base + 1 && w.phases == []
    && |w.unallocated| == e.nb && w.next == w.unallocated
    && (forall b :: 0 <= b < e.nb ==> w.unallocated[b] == FirstIn(e.start, b, e.nb))
    && w.highestCommit == e.start && w.lowestUncommitted == e.start + 1 && w.checkpoint == e.base
  }

  lemma BeginsInv(e: Epoch, w: Window)
    requires Begins(e, w)
    ensures Inv(e, w)
  {
    forall b | 0 <= b < e.nb ensures BucketInv(e, w, b) {
      FirstInBucket(e.start, b, e.nb);
    }
  }

  // ---------------------------------------------------------------- all runs

  datatype Step =
    | Extend | Drop | GiveBatch(bucket: nat, phase: Phase) | OwnReturn(bucket: nat)
    | Touch(seqNo: nat, phase: Phase) | CommitNext | CheckpointResult

  predicate Enabled(e: Epoch, w: Window, step: Step)
    requires |w.unallocated| == e.nb && |w.next| == e.nb && |e.owners| == e.nb
  {
    match step
    case Extend => High(w) < e.expiration && High(w) < StopAt(e, w)
    case Drop => e.ci < |w.phases| && w.low - 1 + e.ci <= w.checkpoint
    case GiveBatch(b, phase) =>
      b < e.nb && w.low <= w.unallocated[b] <= High(w) && phase != Uninitialized
    case OwnReturn(b) => b < e.nb && e.owners[b] == e.me && w.next[b] < w.unallocated[b]
    case Touch(s, phase) =>
      w.low <= s <= High(w) && (phase == Uninitialized <==> w.phases[s - w.low] == Uninitialized)
    case CommitNext => w.low <= w.lowestUncommitted <= High(w) && w.phases[w.lowestUncommitted - w.low] == Committed
    case CheckpointResult => w.checkpoint + e.ci <= w.highestCommit
  }

  function After(e: Epoch, w: Window, step: Step): Window
    requires |w.unallocated| == e.nb && |w.next| == e.nb && |e.owners| == e.nb && Enabled(e, w, step)
  {
    match step
    case Extend => Extended(e, w)
    case Drop => Dropped(e, w)
    case GiveBatch(b, phase) => WithBatch(e, w, b, phase)
    case OwnReturn(b) => Returned(e, w, b)
    case Touch(s, phase) => Touched(w, s, phase)
    case CommitNext => CommittedNext(w)
    case CheckpointResult => Checkpointed(e, w)
  }

  ghost predicate Next(e: Epoch, w: Window, w': Window) {
    && |w.unallocated| == e.nb && |w.next| == e.nb && |e.owners| == e.nb
    && exists step :: Enabled(e, w, step) && w' == After(e, w, step)
  }

  ghost predicate IsRun(e: Epoch, run: seq<Window>) {
    run != [] && Begins(e, run[0]) && forall t :: 0 < t < |run| ==> Next(e, run[t - 1], run[t])
  }

  lemma NextKeepsInv(e: Epoch, w: Window, step: Step)
    requires Inv(e, w) && Enabled(e, w, step)
    ensures Inv(e, After(e, w, step))
  {
    hide Inv;
    hide Aligned;
    match step {
      case Extend => ExtendKeepsInv(e, w);
      case Drop => DropKeepsInv(e, w);
      case GiveBatch(b, phase) => AllocateKeepsInv(e, w, b, phase);
      case OwnReturn(b) => ReturnKeepsInv(e, w, b);
      case Touch(s, phase) => TouchKeepsInv(e, w, s, phase);
      case CommitNext => CommitKeepsInv(e, w);
      case CheckpointResult => CheckpointKeepsInv(e, w);
    }
  }

  /** The invariant holds in every run. */
  lemma {:induction false} RunKeepsInv(e: Epoch, run: seq<Window>, t: nat)
    requires IsRun(e, run) && t < |run|
    ensures Inv(e, run[t])
  {
    if t == 0 {
      BeginsInv(e, run[0]);
    } else {
      RunKeepsInv(e, run, t - 1);
      assert Next(e, run[t - 1], run[t]);
      var step :| Enabled(e, run[t - 1], step) && run[t] == After(e, run[t - 1], step);
      NextKeepsInv(e, run[t - 1], step);
    }
  }

  /** What the assertions of the source ask for: the watermarks stay within the epoch and the stop point;
      another's next preprepare is for the lowest unallocated number, which is in the window and without a
      batch; and the next commit is the one the commit state expects. */
  ghost predicate Asserted(e: Epoch, w: Window, b: nat) {
    && High(w) <= e.expiration && High(w) <= StopAt(e, w)
    && b < |w.unallocated| == |w.next| == |e.owners|
    && (e.owners[b] != e.me ==> w.next[b] == w.unallocated[b])
    && (w.unallocated[b] <= High(w) ==> w.low <= w.unallocated[b] && w.phases[w.unallocated[b] - w.low] == Uninitialized)
    && w.lowestUncommitted == w.highestCommit + 1
    && (w.lowestUncommitted <= High(w) ==> w.low <= w.lowestUncommitted <= StopAt(e, w))
  }

  lemma InvAsserted(e: Epoch, w: Window, b: nat)
    requires Inv(e, w) && b < e.nb
    ensures Asserted(e, w, b)
  {
    hide Aligned;
    hide Bucket;
    assert BucketInv(e, w, b);
    if w.unallocated[b] <= High(w) {
      assert SplitAt(e, w, w.unallocated[b] - w.low);
    }
  }

  /** They hold in every run. */
  lemma AssertionsHold(e: Epoch, run: seq<Window>, t: nat, b: nat)
    requires IsRun(e, run) && t < |run| && b < e.nb
    ensures Asserted(e, run[t], b)
  {
    hide Inv;
    hide Asserted;
    RunKeepsInv(e, run, t);
    InvAsserted(e, run[t], b);
  }

  /** The steps of a sequence move its phase as the window assumes. */
  lemma OperationsMovePhase(s: SeqState, source: NodeId, d: Digest, batch: seq<RequestAck>, requests: set<nat>, r: nat)
    ensures ApplyPrepare(s, source, d).0.phase == Uninitialized <==> s.phase == Uninitialized
    ensures ApplyCommit(s, source, d).0.phase == Uninitialized <==> s.phase == Uninitialized
    ensures ApplyHash(s, d).0.phase == Uninitialized <==> s.phase == Uninitialized
    ensures s.phase == Uninitialized ==> Allocate(s, batch, requests).0.phase != Uninitialized
    ensures r in s.outstanding ==> (Satisfy(s, r).0.phase == Uninitialized <==> s.phase == Uninitialized)
  {
    hide Advance;
    forall s ensures Advance(s).0.phase == Uninitialized <==> s.phase == Uninitialized {
      PhaseAfterAdvance(s);
    }
  }

  // ---------------------------------------------------------------- messages

  datatype Applyable = Past | Current | Future | Invalid

  class ActiveEpoch {
    const e: Epoch
    var sequences: seq<seq<Entry>>
    var lowestUnallocated: seq<nat>
    var nextSeqNo: seq<nat>
    var lowestUncommitted: nat
    var highestCommit: nat          // of the commit state
    var checkpoint: nat             // its low watermark

    ghost function Low(): nat
      reads this`sequences, this`checkpoint
    {
      if sequences != [] && sequences[0] != [] then sequences[0][0].seqNo else checkpoint + 1
    }

    ghost function View(): Window
      reads this
    {
      Window(Low(), Phases(Flat(sequences)), lowestUnallocated, nextSeqNo, lowestUncommitted, highestCommit, checkpoint)
    }

    ghost predicate Tiled()
      reads this
    {
      Blocks(sequences, e.ci) && Numbered(Flat(sequences), Low())
    }

    ghost predicate Sound()
      reads this
    {
      Tiled() && Inv(e, View()) && (sequences == [] ==> checkpoint == e.base)
    }

    ghost predicate Valid()
      reads this
    {
      Sound() && sequences != []
    }

    constructor (e: Epoch)
      requires e.Valid()
      ensures Sound() && this.e == e && Begins(e, View())
    {
      var unallocated := seq(e.nb, _ => 0);
      var i := 0;
      while i < e.nb
        invariant i <= e.nb && |unallocated| == e.nb
        invariant forall b :: 0 <= b < e.nb && FirstIn(e.start, b, e.nb) <= e.start + i ==>
                  unallocated[b] == FirstIn(e.start, b, e.nb)
      {
        var firstSeqNo := e.start + i + 1;
        FirstInUnique(e.start, firstSeqNo, e.nb);
        unallocated := unallocated[Bucket(firstSeqNo, e.nb) := firstSeqNo];
        i := i + 1;
      }
      this.e := e;
      sequences := [];
      lowestUnallocated, nextSeqNo := unallocated, unallocated;
      highestCommit, lowestUncommitted, checkpoint := e.start, e.start + 1, e.base;
      new;
      BeginsInv(e, View());
    }
  
    method LowWatermark() returns (low: nat)
      requires Valid()
      ensures low == View().low
    {
      low := sequences[0][0].seqNo;
    }

    method HighWatermark() returns (high: nat)
      requires Sound()
      ensures high == High(View()) && (sequences == [] ==> high == checkpoint)
    {
      if |sequences| == 0 {
        return checkpoint;
      }
      var interval := sequences[|sequences| - 1];
      FlatLast(sequences, e.ci);
      high := interval[|interval| - 1].seqNo;
    }

    /** The lookup never fails inside the watermarks. */
    method Sequence(seqNo: nat) returns (q: nat, r: nat)
      requires Valid() && View().low <= seqNo <= High(View())
      ensures q < |sequences| && r < e.ci && BlockStart(0, e.ci, q) + r == seqNo - View().low
      ensures sequences[q][r] == Entry(seqNo, View().phases[seqNo - View().low])
    {
      var low := LowWatermark();
      LookupFinds(sequences, e.ci, low, seqNo);
      q, r := (seqNo - low) / e.ci, (seqNo - low) % e.ci;
      assert q < |sequences| && sequences[q][r].seqNo == seqNo;
    }

    /** A sequence changes its phase in place. */
    method SetPhase(q: nat, r: nat, phase: Phase)
      requires Tiled() && q < |sequences| && r < e.ci
      modifies this`sequences
      ensures Tiled() && |sequences| == old(|sequences|)
      ensures BlockStart(0, e.ci, q) + r < |old(View()).phases|
      ensures View() == old(View()).(phases := old(View()).phases[BlockStart(0, e.ci, q) + r := phase])
    {
      var x := sequences[q][r].(phase := phase);
      FlatUpdate(sequences, e.ci, q, r, x);
      FlatAt(sequences, e.ci, q, r);
      sequences := sequences[q := sequences[q][r := x]];
      hide Flat;
      hide BlockStart;
    }

    /** One more block at the high end. */
    method AddBlock()
      requires Sound() && High(View()) < e.expiration && High(View()) < StopAt(e, View())
      modifies this`sequences
      ensures Valid() && View() == Extended(e, old(View()))
    {
      ExtendKeepsInv(e, View());
      var high := HighWatermark();
      var block := seq(e.ci, i requires 0 <= i < e.ci => Entry(high + 1 + i, Uninitialized));
      assert (sequences + [block])[..|sequences|] == sequences;
      sequences := sequences + [block];
      assert Flat(sequences) == old(Flat(sequences)) + block;
      assert View() == Extended(e, old(View()));
    }

    /** The window is extended as far as the epoch and the commit state allow.  Each new block has its N
        entry, whose numbers are returned. */
    method ExtendWindow() returns (firsts: seq<nat>)
      requires Sound()
      modifies this`sequences
      ensures Valid()
      ensures High(View()) == e.expiration || High(View()) == StopAt(e, View())
      ensures Grown(old(View()), View()) && Opens(e, High(old(View())) + 1, High(View()) + 1, firsts)
    {
      hide Flat;
      hide Phases;
      hide Bucket;
      hide BucketInv;
      hide SplitAt;
      hide Aligned;
      hide Numbered;
      hide Blocks;
      hide Grown;
      hide Opens;
      hide Extended;
      assert High(View()) <= e.expiration && High(View()) <= StopAt(e, View());
      firsts := [];
      GrownNot(View());
      OpensNone(e, High(View()) + 1);
      var high := HighWatermark();
      while high < e.expiration && high < checkpoint + 2 * e.ci
        invariant Sound() && high == High(View()) && (sequences == [] ==> high == checkpoint)
        invariant Grown(old(View()), View()) && Opens(e, High(old(View())) + 1, high + 1, firsts)
        decreases e.expiration - high
      {
        ghost var w := View();
        AddBlock();
        GrownFurther(e, old(View()), w);
        OpensFurther(e, High(old(View())) + 1, high + 1, firsts);
        ExtendedHigh(e, w);
        firsts := firsts + [high + 1];
        high := HighWatermark();
      }
      assert sequences == [] ==> high == checkpoint == e.base < e.expiration;
    }

    method DropBlock()
      requires Valid() && |sequences| > 1 && View().low - 1 + e.ci <= checkpoint
      modifies this`sequences
      ensures Valid() && |View().phases| == |old(View()).phases| - e.ci && View() == Dropped(e, old(View()))
    {
      hide Aligned;
      hide Bucket;
      hide BucketInv;
      hide SplitAt;
      hide Flat;
      hide Phases;
      hide Numbered;
      hide Blocks;
      BlocksDropped(sequences, e.ci, Low());
      DropKeepsInv(e, View());
      sequences := sequences[1..];
      assert View() == Dropped(e, old(View()));
    }

    /** The stable checkpoint moves the low end, after the high end has been extended; `done` says that the
        epoch has reached its end. */
    method MoveLowWatermark(seqNo: nat) returns (done: bool, firsts: seq<nat>)
      requires Valid() && e.base <= seqNo <= checkpoint && Aligned(seqNo - e.base, e.ci)
      modifies this`sequences
      ensures Valid()
      ensures done <==> seqNo == e.expiration
      ensures done ==> View() == old(View()) && firsts == []
      ensures !done ==> MovedUp(old(View()), View()) && Opens(e, High(old(View())) + 1, High(View()) + 1, firsts)
      ensures !done ==> View().low >= seqNo && (seqNo <= old(View()).low ==> View().low == old(View()).low)
      ensures !done && e.ci > 1 && seqNo > old(View()).low ==> View().low == seqNo + 1
    {
      hide Aligned;
      hide Flat;
      hide Phases;
      hide Bucket;
      hide BucketInv;
      hide SplitAt;
      hide Numbered;
      hide Blocks;
      hide Opens;
      hide Extended;
      hide Dropped;
      if seqNo == e.expiration {
        return true, [];
      }
      firsts := ExtendWindow();
      ghost var high := High(View());
      GrownMovesUp(old(View()), View());
      hide Grown;
      hide MovedUp;
      var low := LowWatermark();
      while seqNo > low
        invariant Valid() && low == View().low && checkpoint == old(checkpoint)
        invariant MovedUp(old(View()), View()) && High(View()) == high
        invariant High(View()) == e.expiration || High(View()) == StopAt(e, View())
        invariant low == old(View()).low || (e.ci > 1 ==> low <= seqNo + 1)
        invariant seqNo <= old(View()).low ==> low == old(View()).low
        decreases seqNo - low
      {
        ghost var w := View();
        MayDrop(e, w, sequences, seqNo);
        DropBlock();
        DroppedMovesUp(e, old(View()), w);
        DroppedHigh(e, w);
        low := LowWatermark();
      }
      if low == seqNo {
        AlignedApart(low - 1 - e.base, seqNo - e.base, e.ci);
      }
      done := false;
    }

    /** Where a preprepare belongs. */
    method FilterPreprepare(source: NodeId, seqNo: nat) returns (r: Applyable)
      requires Valid()
      ensures r == Current <==>
              var b := Bucket(seqNo, e.nb);
              e.owners[b] == source && View().low <= seqNo <= High(View()) && seqNo == nextSeqNo[b]
      ensures r == Invalid <==> e.owners[Bucket(seqNo, e.nb)] != source || seqNo > e.expiration
      ensures r == Future <==>
              && e.owners[Bucket(seqNo, e.nb)] == source && seqNo <= e.expiration
              && (seqNo > High(View()) || (seqNo >= View().low && seqNo > nextSeqNo[Bucket(seqNo, e.nb)]))
      ensures r == Past <==>
              && e.owners[Bucket(seqNo, e.nb)] == source && seqNo <= High(View())
              && (seqNo < View().low || seqNo < nextSeqNo[Bucket(seqNo, e.nb)])
    {
      var b := Bucket(seqNo, e.nb);
      if e.owners[b] != source {
        return Invalid;
      }
      if seqNo > e.expiration {
        return Invalid;
      }
      var high := HighWatermark();
      if seqNo > high {
        return Future;
      }
      var low := LowWatermark();
      if seqNo < low {
        return Past;
      }
      if seqNo < nextSeqNo[b] {
        return Past;
      }
      r := if seqNo > nextSeqNo[b] then Future else Current;
    }

    /** The lowest unallocated sequence of a bucket gets its batch; `phase` is where that takes it. */
    method AllocateNext(b: nat, phase: Phase)
      requires Valid() && b < e.nb && lowestUnallocated[b] <= High(View()) && phase != Uninitialized
      modifies this`sequences, this`lowestUnallocated, this`nextSeqNo
      ensures Valid() && old(View()).low <= old(lowestUnallocated[b])
      ensures View() == WithBatch(e, old(View()), b, phase)
    {
      hide Flat;
      hide Phases;
      hide Numbered;
      hide Aligned;
      hide Bucket;
      hide BucketInv;
      hide SplitAt;
      AllocateKeepsInv(e, View(), b, phase);
      var i, j := Sequence(lowestUnallocated[b]);
      assert sequences[i][j].phase == Uninitialized;
      SetPhase(i, j, phase);
      lowestUnallocated := lowestUnallocated[b := lowestUnallocated[b] + e.nb];
      if e.owners[b] != e.me {
        nextSeqNo := nextSeqNo[b := nextSeqNo[b] + e.nb];
      }
      assert View() == WithBatch(e, old(View()), b, phase);
    }

    /** The replica's own preprepare comes back after it was sent. */
    method ReturnOwn(b: nat, phase: Phase)
      requires Valid() && b < e.nb && e.owners[b] == e.me && phase != Uninitialized
      requires View().low <= nextSeqNo[b] <= High(View()) && nextSeqNo[b] < lowestUnallocated[b]
      modifies this`sequences, this`nextSeqNo
      ensures Valid() && View() == Returned(e, Touched(old(View()), old(nextSeqNo[b]), phase), b)
    {
      hide Flat;
      hide Phases;
      hide Numbered;
      hide Aligned;
      OwnReturns(e, View(), b, phase);
      hide Bucket;
      hide BucketInv;
      hide SplitAt;
      var i, j := Sequence(nextSeqNo[b]);
      SetPhase(i, j, phase);
      nextSeqNo := nextSeqNo[b := nextSeqNo[b] + e.nb];
      assert View() == Returned(e, Touched(old(View()), old(nextSeqNo[b]), phase), b);
    }

    /** A preprepare that is current.  In another's bucket it is for the lowest unallocated number, whose
        sequence has no batch yet. */
    method StepPreprepare(source: NodeId, seqNo: nat, phase: Phase) returns (r: Applyable)
      requires Valid() && phase != Uninitialized
      requires source == e.me ==> seqNo < lowestUnallocated[Bucket(seqNo, e.nb)]
      modifies this`sequences, this`lowestUnallocated, this`nextSeqNo
      ensures Valid()
      ensures r != Current ==> View() == old(View())
      ensures
        var b := Bucket(seqNo, e.nb);
        r == Current && source != e.me ==>
          && seqNo == old(lowestUnallocated[b]) && old(View()).low <= seqNo <= High(old(View()))
          && View() == WithBatch(e, old(View()), b, phase)
      ensures
        var b := Bucket(seqNo, e.nb);
        r == Current && source == e.me ==>
          && old(View()).low <= seqNo <= High(old(View()))
          && View() == Returned(e, Touched(old(View()), seqNo, phase), b)
    {
      r := FilterPreprepare(source, seqNo);
      if r == Current {
        var b := Bucket(seqNo, e.nb);
        assert BucketInv(e, View(), b);
        if source == e.me {
          ReturnOwn(b, phase);
        } else {
          assert seqNo == lowestUnallocated[b];
          AllocateNext(b, phase);
        }
      }
    }

    /** A bucket of the replica's own proposes while it has batches and room. */
    method ProposeFrom(b: nat, batches: nat, phase: Phase) returns (used: nat)
      requires Valid() && b < e.nb && e.owners[b] == e.me && phase != Uninitialized
      modifies this`sequences, this`lowestUnallocated, this`nextSeqNo
      ensures Valid() && used <= batches && (used == batches || lowestUnallocated[b] > High(View()))
      ensures Proposes(e, old(View()), View(), b, phase)
      ensures lowestUnallocated[b] == BlockStart(old(lowestUnallocated[b]), e.nb, used)
    {
      hide Flat;
      hide Phases;
      hide Numbered;
      hide Blocks;
      hide Aligned;
      hide Bucket;
      hide SplitAt;
      hide Proposes;
      used := 0;
      ProposesNothing(e, View(), b, phase);
      var high := HighWatermark();
      while lowestUnallocated[b] <= high && used < batches
        invariant Valid() && used <= batches && high == High(View())
        invariant Proposes(e, old(View()), View(), b, phase)
        invariant lowestUnallocated[b] == BlockStart(old(lowestUnallocated[b]), e.nb, used)
        decreases batches - used
      {
        ghost var w := View();
        AllocateNext(b, phase);
        ProposesFurther(e, old(View()), w, b, phase);
        BatchKeepsHigh(e, w, b, phase);
        hide WithBatch;
        used := used + 1;
      }
    }

    /** The committed sequences from the lowest uncommitted one on go to the commit state, in order. */
    method CommitReady() returns (commits: seq<nat>)
      requires Valid()
      modifies this`lowestUncommitted, this`highestCommit
      ensures Valid() && highestCommit == old(highestCommit) + |commits|
      ensures forall i :: 0 <= i < |commits| ==> commits[i] == old(highestCommit) + 1 + i <= StopAt(e, View())
      ensures View() == old(View()).(lowestUncommitted := lowestUncommitted, highestCommit := highestCommit)
      ensures CommitsAll(View(), commits)
    {
      hide Flat;
      hide Phases;
      hide Numbered;
      hide Aligned;
      hide Bucket;
      hide BucketInv;
      hide SplitAt;
      commits := [];
      var high := HighWatermark();
      while lowestUncommitted <= high
        invariant Valid() && high == High(View())
        invariant highestCommit == old(highestCommit) + |commits|
        invariant forall i :: 0 <= i < |commits| ==> commits[i] == old(highestCommit) + 1 + i <= StopAt(e, View())
        invariant View() == old(View()).(lowestUncommitted := lowestUncommitted, highestCommit := highestCommit)
        invariant forall i :: 0 <= i < |commits| ==> PhaseAt(View(), commits[i]) == Some(Committed)
        decreases high + 1 - lowestUncommitted
      {
        var i, j := Sequence(lowestUncommitted);
        if sequences[i][j].phase != Committed {
          break;
        }
        CommitKeepsInv(e, View());
        commits := commits + [lowestUncommitted];
        highestCommit := lowestUncommitted;
        lowestUncommitted := lowestUncommitted + 1;
      }
    }

    /** A commit message moves its sequence to `phase`; if that commits the lowest uncommitted one, the
        commit state gets it and those that follow. */
    method ApplyCommitMsg(seqNo: nat, phase: Phase) returns (commits: seq<nat>)
      requires Valid() && View().low <= seqNo <= High(View())
      requires phase == Uninitialized <==> View().phases[seqNo - View().low] == Uninitialized
      modifies this`sequences, this`lowestUncommitted, this`highestCommit
      ensures Valid() && View().phases == Touched(old(View()), seqNo, phase).phases && View().low == old(View()).low
      ensures highestCommit == old(highestCommit) + |commits|
      ensures forall i :: 0 <= i < |commits| ==> commits[i] == old(highestCommit) + 1 + i <= StopAt(e, View())
      ensures commits != [] <==> phase == Committed && seqNo == old(lowestUncommitted)
      ensures commits != [] ==> CommitsAll(View(), commits)
    {
      hide Flat;
      hide Phases;
      hide Numbered;
      hide Aligned;
      hide Bucket;
      hide BucketInv;
      hide SplitAt;
      var i, j := Sequence(seqNo);
      TouchKeepsInv(e, View(), seqNo, phase);
      SetPhase(i, j, phase);
      if phase != Committed || seqNo != lowestUncommitted {
        return [];
      }
      commits := CommitReady();
    }

    /** The result of a checkpoint lets the window grow by an interval. */
    method ApplyCheckpointResult(seqNo: nat)
      requires Valid() && seqNo == checkpoint + e.ci <= highestCommit
      modifies this`checkpoint
      ensures Valid() && View() == Checkpointed(e, old(View()))
    {
      CheckpointKeepsInv(e, View());
      checkpoint := seqNo;
    }
  }

  lemma OwnReturns(e: Epoch, w: Window, b: nat, phase: Phase)
    requires Inv(e, w) && b < e.nb && e.owners[b] == e.me && w.next[b] < w.unallocated[b]
    requires w.low <= w.next[b] <= High(w) && phase != Uninitialized
    ensures Inv(e, Returned(e, Touched(w, w.next[b], phase), b))
  {
    assert BucketInv(e, w, b) && SplitAt(e, w, w.next[b] - w.low);
    TouchKeepsInv(e, w, w.next[b], phase);
    ReturnKeepsInv(e, Touched(w, w.next[b], phase), b);
  }

  lemma DroppedHigh(e: Epoch, w: Window)
    requires e.ci <= |w.phases|
    ensures var w' := Dropped(e, w); High(w') == High(w) && w'.low == w.low + e.ci && w'.checkpoint == w.checkpoint
  {
  }

  /** A checkpoint above the low end covers the oldest block, and another one follows. */
  lemma MayDrop(e: Epoch, w: Window, blocks: seq<seq<Entry>>, seqNo: nat)
    requires Inv(e, w) && Blocks(blocks, e.ci) && w.phases == Phases(Flat(blocks))
    requires w.low < seqNo <= w.checkpoint && e.base <= seqNo != e.expiration && Aligned(seqNo - e.base, e.ci)
    requires High(w) == e.expiration || High(w) == StopAt(e, w)
    ensures |blocks| > 1 && w.low - 1 + e.ci <= seqNo && e.ci <= |w.phases|
  {
    hide BucketInv;
    hide SplitAt;
    hide Flat;
    hide Phases;
    AlignedApart(w.low - 1 - e.base, seqNo - e.base, e.ci);
    hide Aligned;
    SeveralBlocks(e, w, blocks, seqNo);
  }

  lemma SeveralBlocks(e: Epoch, w: Window, blocks: seq<seq<Entry>>, seqNo: nat)
    requires Bounds(e, w) && Blocks(blocks, e.ci) && w.phases == Phases(Flat(blocks))
    requires w.low - 1 + e.ci <= seqNo < High(w)
    ensures |blocks| > 1
  {
    assert BlockStart(0, e.ci, 1) == e.ci;
    FlatLength(blocks, e.ci);
  }

  lemma BlocksDropped(blocks: seq<seq<Entry>>, ci: nat, low: nat)
    requires ci > 0 && |blocks| > 1 && Blocks(blocks, ci) && Numbered(Flat(blocks), low)
    ensures Blocks(blocks[1..], ci) && Numbered(Flat(blocks[1..]), low + ci)
    ensures ci < |Phases(Flat(blocks))| && Phases(Flat(blocks[1..])) == Phases(Flat(blocks))[ci..]
    ensures blocks[1] != [] && blocks[1][0].seqNo == low + ci
  {
    var rest := blocks[1..];
    FlatTail(blocks);
    FlatLast(rest, ci);
    FlatAt(rest, ci, 0, 0);
    hide Flat;
    assert Flat(rest) == Flat(blocks)[ci..];
    NumberedDrop(Flat(blocks), low, ci);
    hide Numbered;
    hide Phases;
  }

  lemma NumberedDrop(entries: seq<Entry>, low: nat, n: nat)
    requires n <= |entries| && Numbered(entries, low)
    ensures Numbered(entries[n..], low + n) && |Phases(entries)| == |entries|
    ensures Phases(entries[n..]) == Phases(entries)[n..]
  {
    var rest := entries[n..];
    forall k | 0 <= k < |rest| ensures rest[k] == entries[n + k] {
    }
  }

  lemma FlatLast(blocks: seq<seq<Entry>>, ci: nat)
    requires ci > 0 && Blocks(blocks, ci) && blocks != []
    ensures Flat(blocks) != [] && Flat(blocks)[|Flat(blocks)| - 1] == blocks[|blocks| - 1][ci - 1]
  {
    FlatLength(blocks[..|blocks| - 1], ci);
  }
}
