/** A leader's ready requests from epoch to epoch: checkpoints, garbage collection, and the iterator that
    every epoch sends back to the front. */
module LeaderEpochs {
  import opened Types
  import opened ClientWindows
  import opened Buckets
  import opened RequestOrder
  import opened Proposals

  /** One bucket that the replica leads in the current epoch. */
  datatype Epoch = Epoch(frame: Frame, queues: Queues, queued: seq<Ready>, proposed: seq<Ready>)

  datatype State = State(
    interval: nat,                   // sequence numbers per checkpoint
    seqNo: nat,                      // the last checkpoint
    now: map<nat, ClientState>,      // the clients as of that checkpoint
    high: map<nat, nat>,             // the highest request number allocated to each client
    valid: map<(nat, nat), nat>,     // from when on each allocated request may be proposed
    mark: map<nat, nat>,             // each client's ready mark
    consumed: seq<Ready>,            // the ready list: what the iterator has passed
    pending: seq<Ready>,             // and what it has not
    epoch: Option<Epoch>)

  function Contents(st: State): seq<Ready> {
    st.consumed + st.pending
  }

  // ---------------------------------------------------------------- steps

  /** All requests as one bucket, to say what is uncommitted. */
  function Whole(clients: map<nat, ClientState>): Frame {
    Frame(1, 0, clients)
  }

  function CommittedIn(clients: map<nat, ClientState>): set<(nat, nat)> {
    set id, r | id in clients && 0 <= r <= clients[id].low + clients[id].width && IsCommitted(r, clients[id]) :: (id, r)
  }

  /** The epoch's leader with the tracker's part of its state. */
  function LeaderOf(st: State): Leader
    requires st.epoch.Some?
  {
    var e := st.epoch.value;
    Leader(st.pending, st.mark, CommittedIn(st.now), e.queues, e.queued, e.proposed)
  }

  datatype Event =
    | GetReady(ack: RequestAck)                          // the request at its client's ready mark has a strong quorum
    | PassMark(id: nat)                                  // it is committed
    | Take                                               // the iterator hands out the next ready request
    | MoveTo(toSeqNo: nat)
    | CutBatch
    | MoveWindow(clients: map<nat, ClientState>)         // the next checkpoint
    | EndEpoch
    | NewEpoch(nb: nat, bucket: nat, base: nat, size: nat)

  /** Client states at the next checkpoint: what is committed stays so, and windows only move up. */
  ghost predicate Follows(before: map<nat, ClientState>, after: map<nat, ClientState>, high: map<nat, nat>) {
    && before.Keys == after.Keys == high.Keys
    && (forall id, r :: id in before && IsCommitted(r, before[id]) ==> IsCommitted(r, after[id]))
    && (forall id :: id in before ==> high[id] <= after[id].low + after[id].width)
  }

  /** Requests that the new checkpoint commits are no longer ready. */
  function GoneAt(items: seq<Ready>, clients: map<nat, ClientState>): set<Ready> {
    set x | x in items && x.ack.clientId in clients && IsCommitted(x.ack.reqNo, clients[x.ack.clientId])
  }

  /** New numbers may be proposed from the checkpoint after this one. */
  function Allocated(st: State, clients: map<nat, ClientState>): map<(nat, nat), nat>
    requires clients.Keys <= st.high.Keys
  {
    st.valid + map id, r | id in clients && st.high[id] < r <= clients[id].low + clients[id].width ::
      (id, r) := st.seqNo + st.interval + st.interval
  }

  /** A bucket's requests commit only if its leader proposed them. */
  ghost predicate OnlyProposedCommit(st: State, clients: map<nat, ClientState>)
  {
    st.epoch.Some? && st.epoch.value.frame.Valid() ==>
      var f := st.epoch.value.frame;
      forall id, r :: id in f.clients && id in clients && Eligible(f, id, r) && IsCommitted(r, clients[id]) ==>
                        r in Numbers(id, st.epoch.value.proposed)
  }

  ghost predicate Possible(st: State, event: Event) {
    match event
    case GetReady(ack) =>
      var id, r := ack.clientId, ack.reqNo;
      && id in st.now && id in st.mark && r == st.mark[id] && (id, r) in st.valid && !IsCommitted(r, st.now[id])
    case PassMark(id) => id in st.now && id in st.mark && IsCommitted(st.mark[id], st.now[id])
    case Take =>
      && st.epoch.Some? && st.pending != [] && st.epoch.value.frame.Valid()
      && st.pending[0].ack.clientId in st.epoch.value.frame.clients
      && (Wanted(st.epoch.value.frame, LeaderOf(st), st.pending[0]) ==> Queue(st.epoch.value.queues, st.pending[0]).Some?)
    case MoveTo(_) => st.epoch.Some?
    case CutBatch => st.epoch.Some?
    case MoveWindow(clients) => Follows(st.now, clients, st.high) && OnlyProposedCommit(st, clients)
    case EndEpoch => true
    case NewEpoch(nb, bucket, _, _) => bucket < nb
  }

  ghost function Result(st: State, event: Event): State
    requires Possible(st, event)
  {
    match event
    case GetReady(ack) =>
      st.(pending := st.pending + [Ready(ack, st.valid[(ack.clientId, ack.reqNo)])],
          mark := st.mark[ack.clientId := ack.reqNo + 1])
    case PassMark(id) => st.(mark := st.mark[id := st.mark[id] + 1])
    case Take =>
      var e, x := st.epoch.value, st.pending[0];
      st.(consumed := st.consumed + [x], pending := st.pending[1..],
          epoch := if Wanted(e.frame, LeaderOf(st), x)
                   then Some(e.(queues := Queue(e.queues, x).value, queued := e.queued + [x])) else st.epoch)
    case MoveTo(toSeqNo) => st.(epoch := Some(st.epoch.value.(queues := Advance(st.epoch.value.queues, toSeqNo))))
    case CutBatch =>
      var e := st.epoch.value;
      st.(epoch := Some(e.(queues := e.queues.(pending := []), proposed := e.proposed + e.queues.pending)))
    case MoveWindow(clients) =>
      st.(seqNo := st.seqNo + st.interval, now := clients,
          high := map id | id in clients :: clients[id].low + clients[id].width,
          valid := Allocated(st, clients),
          consumed := Kept(st.consumed, GoneAt(Contents(st), clients)),
          pending := Kept(st.pending, GoneAt(Contents(st), clients)))
    case EndEpoch => st.(epoch := None)
    case NewEpoch(nb, bucket, base, size) =>
      st.(consumed := [], pending := st.consumed + st.pending,
          epoch := Some(Epoch(Frame(nb, bucket, st.now), Queues(size, st.interval, base, [], [], []), [], [])))
  }

  // ---------------------------------------------------------------- the invariant

  /** Later numbers of a client never become valid earlier, and nothing waits beyond the next checkpoint. */
  ghost predicate ValidityInv(st: State) {
    && (forall id, r :: (id, r) in st.valid ==> id in st.high && r <= st.high[id])
    && (forall id, r, r' :: (id, r) in st.valid && (id, r') in st.valid && r < r' ==>
        st.valid[(id, r)] <= st.valid[(id, r')])
    && (forall p :: p in st.valid ==> st.valid[p] <= st.seqNo || st.valid[p] == st.seqNo + st.interval)
  }

  /** A ready request below its client's mark, with the validity it was allocated. */
  predicate Item(st: State, x: Ready) {
    var id, r := x.ack.clientId, x.ack.reqNo;
    id in st.mark && r < st.mark[id] && (id, r) in st.valid && x.validAfter == st.valid[(id, r)]
  }

  ghost predicate Items(st: State, items: seq<Ready>) {
    forall i :: 0 <= i < |items| ==> Item(st, items[i])
  }

  /** The ready list holds every client's uncommitted requests below its ready mark, in order, and nothing
      that is committed. */
  ghost predicate ReadyInv(st: State) {
    && st.mark.Keys == st.now.Keys == st.high.Keys
    && Items(st, Contents(st))
    && (forall id :: id in st.now ==> Open(Whole(st.now), id, Contents(st)) == Upto(Whole(st.now), id, st.mark[id]))
    && (forall i :: 0 <= i < |Contents(st)| ==> !Done(st, Contents(st)[i]))
  }

  predicate Done(st: State, x: Ready) {
    x.ack.clientId in st.now && IsCommitted(x.ack.reqNo, st.now[x.ack.clientId])
  }

  ghost predicate EpochInv(st: State) {
    st.epoch.Some? ==>
      var e := st.epoch.value;
      && e.frame.Valid() && e.frame.clients.Keys == st.now.Keys
      && (forall id, r :: id in st.now && IsCommitted(r, e.frame.clients[id]) ==> IsCommitted(r, st.now[id]))
      && LeaderInv(e.frame, LeaderOf(st)) && Items(st, e.queues.nextReady)
  }

  ghost predicate StateInv(st: State) {
    ValidityInv(st) && ReadyInv(st) && EpochInv(st)
  }

  // ---------------------------------------------------------------- filtering

  /** What of `nums` is still eligible in `f`. */
  function Still(f: Frame, id: nat, nums: seq<nat>): seq<nat>
    requires f.Valid() && id in f.clients
  {
    if nums == [] then []
    else
      var last := nums[|nums| - 1];
      Still(f, id, nums[..|nums| - 1]) + (if Eligible(f, id, last) then [last] else [])
  }

  ghost predicate Narrows(f: Frame, f': Frame, id: nat) {
    f.Valid() && f'.Valid() && id in f.clients && id in f'.clients && forall r :: Eligible(f', id, r) ==> Eligible(f, id, r)
  }

  lemma StillAppend(f: Frame, id: nat, nums: seq<nat>, r: nat)
    requires f.Valid() && id in f.clients
    ensures Still(f, id, nums + [r]) == Still(f, id, nums) + (if Eligible(f, id, r) then [r] else [])
  {
    assert (nums + [r])[..|nums|] == nums;
  }

  lemma {:induction false} UptoNarrows(f: Frame, f': Frame, id: nat, m: nat)
    requires Narrows(f, f', id)
    ensures Upto(f', id, m) == Still(f', id, Upto(f, id, m))
  {
    hide Eligible;
    if m > 0 {
      UptoNarrows(f, f', id, m - 1);
      StillAppend(f', id, Upto(f, id, m - 1), m - 1);
      assert Upto(f, id, m - 1) + [] == Upto(f, id, m - 1) && Upto(f', id, m - 1) + [] == Upto(f', id, m - 1);
    }
  }

  lemma {:induction false} OpenNarrows(f: Frame, f': Frame, id: nat, items: seq<Ready>)
    requires Narrows(f, f', id)
    ensures Open(f', id, items) == Still(f', id, Open(f, id, items))
  {
    hide Eligible;
    if items != [] {
      var init, ack := items[..|items| - 1], items[|items| - 1].ack;
      OpenNarrows(f, f', id, init);
      StillAppend(f', id, Open(f, id, init), ack.reqNo);
      assert Open(f, id, init) + [] == Open(f, id, init) && Open(f', id, init) + [] == Open(f', id, init);
    }
  }

  /** Completeness of the ready list survives narrowing to a bucket and to a later checkpoint. */
  lemma StillComplete(f: Frame, f': Frame, id: nat, items: seq<Ready>, m: nat)
    requires Narrows(f, f', id) && Open(f, id, items) == Upto(f, id, m)
    ensures Open(f', id, items) == Upto(f', id, m)
  {
    UptoNarrows(f, f', id, m);
    OpenNarrows(f, f', id, items);
  }

  // ---------------------------------------------------------------- the ready list

  lemma WholeEligible(clients: map<nat, ClientState>, id: nat, r: nat)
    requires id in clients
    ensures Eligible(Whole(clients), id, r) <==> !IsCommitted(r, clients[id])
  {
  }

  lemma BucketNarrows(clients: map<nat, ClientState>, nb: nat, bucket: nat, id: nat)
    requires id in clients && bucket < nb
    ensures Narrows(Whole(clients), Frame(nb, bucket, clients), id)
  {
    forall r ensures Eligible(Frame(nb, bucket, clients), id, r) ==> Eligible(Whole(clients), id, r) {
      WholeEligible(clients, id, r);
    }
  }

  lemma CheckpointNarrows(before: map<nat, ClientState>, after: map<nat, ClientState>, high: map<nat, nat>, id: nat)
    requires Follows(before, after, high) && id in before
    ensures Narrows(Whole(before), Whole(after), id)
  {
    forall r ensures Eligible(Whole(after), id, r) ==> Eligible(Whole(before), id, r) {
      WholeEligible(before, id, r);
      WholeEligible(after, id, r);
    }
  }

  lemma GetReadyKeepsReady(st: State, ack: RequestAck)
    requires ValidityInv(st) && ReadyInv(st) && Possible(st, GetReady(ack))
    ensures ReadyInv(Result(st, GetReady(ack)))
  {
    hide Open;
    hide Upto;
    hide IsCommitted;
    var st', item := Result(st, GetReady(ack)), Ready(ack, st.valid[(ack.clientId, ack.reqNo)]);
    assert Contents(st') == Contents(st) + [item];
    forall id | id in st'.now ensures Open(Whole(st'.now), id, Contents(st')) == Upto(Whole(st'.now), id, st'.mark[id]) {
      OpenConcat(Whole(st.now), id, Contents(st), [item]);
      OpenSingle(Whole(st.now), id, item);
      WholeEligible(st.now, ack.clientId, ack.reqNo);
      UptoStep(Whole(st.now), id, ack.reqNo);
      assert Open(Whole(st.now), id, Contents(st)) + [] == Open(Whole(st.now), id, Contents(st));
    }
  }

  lemma UptoStep(f: Frame, id: nat, m: nat)
    requires f.Valid() && id in f.clients
    ensures Upto(f, id, m + 1) == Upto(f, id, m) + (if Eligible(f, id, m) then [m] else [])
  {
  }

  lemma PassMarkKeepsReady(st: State, id: nat)
    requires ReadyInv(st) && Possible(st, PassMark(id))
    ensures ReadyInv(Result(st, PassMark(id)))
  {
    hide Open;
    hide Upto;
    hide IsCommitted;
    WholeEligible(st.now, id, st.mark[id]);
    UptoStep(Whole(st.now), id, st.mark[id]);
    assert Upto(Whole(st.now), id, st.mark[id]) + [] == Upto(Whole(st.now), id, st.mark[id]);
  }

  lemma {:induction false} KeptNotGone(items: seq<Ready>, gone: set<Ready>, i: nat)
    requires i < |Kept(items, gone)|
    ensures Kept(items, gone)[i] in items && Kept(items, gone)[i] !in gone
  {
    var init := items[..|items| - 1];
    if i < |Kept(init, gone)| {
      KeptNotGone(init, gone, i);
    }
  }

  lemma AllocatedKeeps(st: State, clients: map<nat, ClientState>)
    requires ValidityInv(st) && Follows(st.now, clients, st.high)
    ensures forall p :: p in st.valid ==> p in Allocated(st, clients) && Allocated(st, clients)[p] == st.valid[p]
  {
  }

  lemma CheckpointKeepsReady(st: State, clients: map<nat, ClientState>)
    requires ValidityInv(st) && ReadyInv(st) && Possible(st, MoveWindow(clients))
    ensures ReadyInv(Result(st, MoveWindow(clients)))
  {
    hide Open;
    hide Upto;
    hide IsCommitted;
    hide ValidityInv;
    hide Allocated;
    hide OnlyProposedCommit;
    var st', gone := Result(st, MoveWindow(clients)), GoneAt(Contents(st), clients);
    KeptConcat(st.consumed, st.pending, gone);
    assert Contents(st') == Kept(Contents(st), gone);
    AllocatedKeeps(st, clients);
    forall i | 0 <= i < |Contents(st')| ensures Item(st', Contents(st')[i]) && !Done(st', Contents(st')[i]) {
      KeptNotGone(Contents(st), gone, i);
    }
    forall id | id in st'.now ensures Open(Whole(st'.now), id, Contents(st')) == Upto(Whole(st'.now), id, st'.mark[id]) {
      GoneNotEligible(st, clients, id);
      KeptOpen(Whole(clients), id, Contents(st), gone);
      CheckpointNarrows(st.now, clients, st.high, id);
      StillComplete(Whole(st.now), Whole(clients), id, Contents(st), st.mark[id]);
    }
  }

  lemma GoneNotEligible(st: State, clients: map<nat, ClientState>, id: nat)
    requires id in clients
    ensures forall x :: x in GoneAt(Contents(st), clients) && x.ack.clientId == id ==>
            !Eligible(Whole(clients), id, x.ack.reqNo)
  {
    forall x | x in GoneAt(Contents(st), clients) && x.ack.clientId == id
      ensures !Eligible(Whole(clients), id, x.ack.reqNo)
    {
      WholeEligible(clients, id, x.ack.reqNo);
    }
  }

  lemma SameContents(st: State, st': State)
    requires ReadyInv(st) && Contents(st') == Contents(st)
    requires st'.now == st.now && st'.mark == st.mark && st'.high == st.high && st'.valid == st.valid
    ensures ReadyInv(st')
  {
    hide Open;
    hide Upto;
    hide IsCommitted;
  }

  /** Pushes, garbage collection, checkpoints and resets keep the ready list complete and in order. */
  lemma EventKeepsReady(st: State, event: Event)
    requires StateInv(st) && Possible(st, event)
    ensures ReadyInv(Result(st, event))
  {
    hide ReadyInv;
    hide EpochInv;
    hide Queue;
    hide Wanted;
    hide LeaderOf;
    hide Follows;
    hide Allocated;
    match event {
      case GetReady(ack) => GetReadyKeepsReady(st, ack);
      case PassMark(id) => PassMarkKeepsReady(st, id);
      case Take =>
        assert Contents(Result(st, event)) == Contents(st);
        SameContents(st, Result(st, event));
      case MoveTo(_) => SameContents(st, Result(st, event));
      case CutBatch => SameContents(st, Result(st, event));
      case MoveWindow(clients) => CheckpointKeepsReady(st, clients);
      case EndEpoch => SameContents(st, Result(st, event));
      case NewEpoch(_, _, _, _) => SameContents(st, Result(st, event));
    }
  }

  /** Allocation gives later numbers later validity, at every checkpoint. */
  lemma EventKeepsValidity(st: State, event: Event)
    requires ValidityInv(st) && Possible(st, event) && st.high.Keys == st.now.Keys
    ensures ValidityInv(Result(st, event))
  {
    hide IsCommitted;
    hide OnlyProposedCommit;
    if event.MoveWindow? {
      CheckpointKeepsValidity(st, event.clients);
    }
  }

  lemma AllocatedAt(st: State, clients: map<nat, ClientState>, id: nat, r: nat)
    requires ValidityInv(st) && Follows(st.now, clients, st.high) && (id, r) in Allocated(st, clients)
    ensures id in clients && r <= clients[id].low + clients[id].width
    ensures var v := Allocated(st, clients)[(id, r)];
            if (id, r) in st.valid then v == st.valid[(id, r)] <= st.seqNo + st.interval && r <= st.high[id]
            else v == st.seqNo + st.interval + st.interval && r > st.high[id]
  {
    hide IsCommitted;
  }

  lemma CheckpointKeepsValidity(st: State, clients: map<nat, ClientState>)
    requires ValidityInv(st) && Possible(st, MoveWindow(clients))
    ensures ValidityInv(Result(st, MoveWindow(clients)))
  {
    hide IsCommitted;
    hide OnlyProposedCommit;
    hide Allocated;
    hide Kept;
    hide GoneAt;
    var st', valid := Result(st, MoveWindow(clients)), Allocated(st, clients);
    forall id, r | (id, r) in valid ensures id in st'.high && r <= st'.high[id] {
      AllocatedAt(st, clients, id, r);
    }
    forall id, r, r' | (id, r) in valid && (id, r') in valid && r < r' ensures valid[(id, r)] <= valid[(id, r')] {
      AllocatedAt(st, clients, id, r);
      AllocatedAt(st, clients, id, r');
    }
    forall p | p in valid ensures valid[p] <= st'.seqNo || valid[p] == st'.seqNo + st'.interval {
      assert (p.0, p.1) == p;
      AllocatedAt(st, clients, p.0, p.1);
    }
  }

  // ---------------------------------------------------------------- the epoch

  lemma CommittedInExact(clients: map<nat, ClientState>, id: nat, r: nat)
    ensures (id, r) in CommittedIn(clients) <==> id in clients && IsCommitted(r, clients[id])
  {
  }

  /** The step of the epoch's leader that an event amounts to. */
  function LeaderStep(st: State, event: Event): Step
    requires event.GetReady? ==> (event.ack.clientId, event.ack.reqNo) in st.valid
  {
    match event
    case GetReady(ack) => BecomeReady(ack.clientId, Ready(ack, st.valid[(ack.clientId, ack.reqNo)]))
    case PassMark(id) => PassCommitted(id)
    case Take => Visit
    case MoveTo(toSeqNo) => AdvanceTo(toSeqNo)
    case CutBatch => Cut
    case MoveWindow(clients) => MarkCommitted(CommittedIn(clients), GoneAt(Contents(st), clients))
    case _ => Cut
  }

  lemma AtMostReady(st: State, ack: RequestAck)
    requires StateInv(st) && st.epoch.Some? && Possible(st, GetReady(ack))
    ensures AtMost(st.epoch.value.queues.nextReady + st.pending, Ready(ack, st.valid[(ack.clientId, ack.reqNo)]))
  {
    hide LeaderInv;
    hide Open;
    hide Upto;
    hide IsCommitted;
    var waiting := st.epoch.value.queues.nextReady;
    var all := waiting + st.pending;
    forall i | 0 <= i < |all| && all[i].ack.clientId == ack.clientId
      ensures all[i].validAfter <= st.valid[(ack.clientId, ack.reqNo)]
    {
      assert i >= |waiting| ==> Contents(st)[|st.consumed| + i - |waiting|] == all[i];
      assert Item(st, all[i]);
    }
  }

  lemma GetReadyEnabled(st: State, ack: RequestAck)
    requires StateInv(st) && st.epoch.Some? && Possible(st, GetReady(ack))
    ensures LeaderInv(st.epoch.value.frame, LeaderOf(st))
    ensures Enabled(st.epoch.value.frame, LeaderOf(st), LeaderStep(st, GetReady(ack)))
  {
    hide LeaderInv;
    hide IsCommitted;
    hide AtMost;
    LeaderMarks(st);
    AtMostReady(st, ack);
    CommittedInExact(st.now, ack.clientId, ack.reqNo);
    hide CommittedIn;
  }

  lemma LeaderMarks(st: State)
    requires StateInv(st) && st.epoch.Some?
    ensures var f := st.epoch.value.frame; f.Valid() && st.mark.Keys == f.clients.Keys
  {
    hide LeaderInv;
    hide Open;
    hide Upto;
  }

  lemma PassMarkEnabled(st: State, id: nat)
    requires StateInv(st) && st.epoch.Some? && Possible(st, PassMark(id))
    ensures LeaderInv(st.epoch.value.frame, LeaderOf(st))
    ensures Enabled(st.epoch.value.frame, LeaderOf(st), PassCommitted(id))
  {
    hide LeaderInv;
    hide IsCommitted;
    LeaderMarks(st);
    CommittedInExact(st.now, id, st.mark[id]);
    hide CommittedIn;
  }

  lemma CommittedGrows(st: State, clients: map<nat, ClientState>)
    requires Follows(st.now, clients, st.high)
    ensures CommittedIn(st.now) + CommittedIn(clients) == CommittedIn(clients)
  {
    hide IsCommitted;
    forall p | p in CommittedIn(st.now) ensures p in CommittedIn(clients) {
      CommittedInExact(st.now, p.0, p.1);
      CommittedInExact(clients, p.0, p.1);
      assert (p.0, p.1) == p;
    }
  }

  lemma CheckpointEnabled(st: State, clients: map<nat, ClientState>)
    requires StateInv(st) && st.epoch.Some? && Possible(st, MoveWindow(clients))
    ensures LeaderInv(st.epoch.value.frame, LeaderOf(st))
    ensures Enabled(st.epoch.value.frame, LeaderOf(st), LeaderStep(st, MoveWindow(clients)))
  {
    hide LeaderInv;
    hide IsCommitted;
    hide Numbers;
    hide Eligible;
    hide CommittedIn;
    hide ValidityInv;
    hide ReadyInv;
    LeaderMarks(st);
    var f, l, requests := st.epoch.value.frame, LeaderOf(st), CommittedIn(clients);
    forall p | p in requests && p.0 in f.clients && Eligible(f, p.0, p.1) ensures p.1 in Numbers(p.0, l.proposed) {
      CommittedInExact(clients, p.0, p.1);
      assert (p.0, p.1) == p;
    }
    forall x | x in GoneAt(Contents(st), clients) ensures IsMarkedAfter(f, l, requests, x) {
      CommittedInExact(clients, x.ack.clientId, x.ack.reqNo);
    }
  }

  /** Within an epoch every event is a step of its leader. */
  lemma EventIsStep(st: State, event: Event)
    requires StateInv(st) && st.epoch.Some? && Possible(st, event) && !event.EndEpoch? && !event.NewEpoch?
    ensures LeaderInv(st.epoch.value.frame, LeaderOf(st))
    ensures Enabled(st.epoch.value.frame, LeaderOf(st), LeaderStep(st, event))
    ensures
      var st' := Result(st, event);
      && st'.epoch.Some? && st'.epoch.value.frame == st.epoch.value.frame
      && LeaderOf(st') == Proposals.After(st.epoch.value.frame, LeaderOf(st), LeaderStep(st, event))
  {
    hide LeaderInv;
    hide ValidityInv;
    hide ReadyInv;
    hide IsCommitted;
    LeaderMarks(st);
    match event {
      case GetReady(ack) => GetReadyEnabled(st, ack);
      case PassMark(id) => PassMarkEnabled(st, id);
      case Take =>
      case MoveTo(_) =>
      case CutBatch =>
      case MoveWindow(clients) =>
        CheckpointEnabled(st, clients);
        CommittedGrows(st, clients);
    }
  }

  lemma ItemsKept(st: State, event: Event)
    requires StateInv(st) && st.epoch.Some? && Possible(st, event) && !event.EndEpoch? && !event.NewEpoch?
    ensures Items(Result(st, event), Result(st, event).epoch.value.queues.nextReady)
  {
    hide LeaderInv;
    hide IsCommitted;
    hide Open;
    hide Upto;
    var st', waiting := Result(st, event), st.epoch.value.queues.nextReady;
    if event.Take? {
      assert Contents(st)[|st.consumed|] == st.pending[0];
      hide LeaderOf;
      hide Wanted;
    } else if event.MoveTo? {
      AdvanceKeepsLine(st.epoch.value.queues, event.toSeqNo);
      hide Advance;
    } else if event.MoveWindow? {
      AllocatedKeeps(st, event.clients);
      hide Allocated;
    }
  }

  lemma FrameStaysBelow(st: State, event: Event)
    requires StateInv(st) && st.epoch.Some? && Possible(st, event) && !event.EndEpoch? && !event.NewEpoch?
    ensures
      var st', f := Result(st, event), st.epoch.value.frame;
      && f.Valid() && f.clients.Keys == st'.now.Keys
      && (forall id, r :: id in st'.now && IsCommitted(r, f.clients[id]) ==> IsCommitted(r, st'.now[id]))
  {
    hide LeaderInv;
    hide IsCommitted;
    hide ValidityInv;
    hide ReadyInv;
    hide Items;
  }

  lemma EventKeepsEpoch(st: State, event: Event)
    requires StateInv(st) && Possible(st, event)
    ensures EpochInv(Result(st, event))
  {
    hide LeaderInv;
    hide ValidityInv;
    hide ReadyInv;
    hide IsCommitted;
    hide Items;
    hide Follows;
    hide LeaderOf;
    hide LeaderStep;
    if event.NewEpoch? {
      NewEpochBegins(st, event.nb, event.bucket, event.base, event.size);
    } else if st.epoch.Some? && !event.EndEpoch? {
      EventIsStep(st, event);
      StepKeepsInv(st.epoch.value.frame, LeaderOf(st), LeaderStep(st, event));
      ItemsKept(st, event);
      FrameStaysBelow(st, event);
    }
  }

  lemma ReadyInOrder(st: State, i: nat, j: nat)
    requires ReadyInv(st) && i < j < |Contents(st)| && Contents(st)[i].ack.clientId == Contents(st)[j].ack.clientId
    ensures Contents(st)[i].ack.reqNo < Contents(st)[j].ack.reqNo
  {
    hide IsCommitted;
    var items, id := Contents(st), Contents(st)[i].ack.clientId;
    assert Item(st, items[i]) && !Done(st, items[i]) && !Done(st, items[j]);
    WholeEligible(st.now, id, items[i].ack.reqNo);
    WholeEligible(st.now, id, items[j].ack.reqNo);
    UptoExact(Whole(st.now), id, st.mark[id], 0);
    OpenAscends(Whole(st.now), id, items, i, j);
  }

  lemma {:induction false} OpenAscends(f: Frame, id: nat, items: seq<Ready>, i: nat, j: nat)
    requires f.Valid() && id in f.clients && i < j < |items|
    requires items[i].ack.clientId == id && Eligible(f, id, items[i].ack.reqNo)
    requires items[j].ack.clientId == id && Eligible(f, id, items[j].ack.reqNo)
    requires forall a, b :: 0 <= a < b < |Open(f, id, items)| ==> Open(f, id, items)[a] < Open(f, id, items)[b]
    ensures items[i].ack.reqNo < items[j].ack.reqNo
  {
    hide Eligible;
    var front, back := items[..j], items[j..];
    assert items == front + back && back == [items[j]] + back[1..];
    OpenConcat(f, id, front, back);
    OpenConcat(f, id, [items[j]], back[1..]);
    OpenSingle(f, id, items[j]);
    InOpen(f, id, front, i);
    var open := Open(f, id, items);
    var a :| 0 <= a < |Open(f, id, front)| && Open(f, id, front)[a] == items[i].ack.reqNo;
    assert open[a] == items[i].ack.reqNo && open[|Open(f, id, front)|] == items[j].ack.reqNo;
  }

  /** A new epoch begins with the iterator at the front of a complete list in order of validity. */
  lemma NewEpochBegins(st: State, nb: nat, bucket: nat, base: nat, size: nat)
    requires StateInv(st) && Possible(st, NewEpoch(nb, bucket, base, size))
    ensures
      var st' := Result(st, NewEpoch(nb, bucket, base, size));
      Begins(st'.epoch.value.frame, LeaderOf(st')) && EpochInv(st')
  {
    hide Open;
    hide Upto;
    hide IsCommitted;
    var st' := Result(st, NewEpoch(nb, bucket, base, size));
    var f, items := st'.epoch.value.frame, Contents(st);
    forall i, j | 0 <= i < j < |items| && items[i].ack.clientId == items[j].ack.clientId
      ensures items[i].validAfter <= items[j].validAfter
    {
      ReadyInOrder(st, i, j);
      assert Item(st, items[i]) && Item(st, items[j]);
    }
    forall id | id in f.clients ensures Open(f, id, items) == Upto(f, id, st.mark[id]) {
      BucketNarrows(st.now, nb, bucket, id);
      StillComplete(Whole(st.now), f, id, items, st.mark[id]);
    }
    forall p | p in CommittedIn(st.now) && p.0 in f.clients ensures IsCommitted(p.1, f.clients[p.0]) {
      CommittedInExact(st.now, p.0, p.1);
      assert (p.0, p.1) == p;
    }
    forall i | 0 <= i < |items| ensures items[i].ack.clientId in f.clients {
      assert Item(st, items[i]);
    }
    hide CommittedIn;
    BeginsInv(f, LeaderOf(st'));
  }

  // ---------------------------------------------------------------- runs

  /** After the tracker was built from a checkpoint: numbers of the previous checkpoint's window are valid at
      once, those the checkpoint added only after the next one. */
  ghost predicate StartsAt(st: State) {
    && st.mark.Keys == st.now.Keys == st.high.Keys
    && st.consumed == [] && st.pending == [] && st.epoch.None?
    && (forall id :: id in st.now ==> st.mark[id] == st.now[id].low && st.high[id] == st.now[id].low + st.now[id].width)
    && (forall id, r :: (id, r) in st.valid <==> id in st.now && st.now[id].low <= r <= st.high[id])
    && (forall id, r :: (id, r) in st.valid ==>
          st.valid[(id, r)] == st.seqNo + if r + st.now[id].consumed > st.high[id] then st.interval else 0)
  }

  lemma StartsInv(st: State)
    requires StartsAt(st)
    ensures StateInv(st)
  {
    hide IsCommitted;
    assert Contents(st) == [];
    forall p | p in st.valid ensures st.valid[p] <= st.seqNo || st.valid[p] == st.seqNo + st.interval {
      assert (p.0, p.1) == p;
    }
    forall id | id in st.now ensures Upto(Whole(st.now), id, st.mark[id]) == [] {
      forall r | 0 <= r < st.mark[id] ensures !Eligible(Whole(st.now), id, r) {
        BelowLow(st.now[id], r);
      }
      UptoSame(Whole(st.now), id, 0, st.mark[id]);
    }
  }

  lemma BelowLow(state: ClientState, r: nat)
    requires r < state.low
    ensures IsCommitted(r, state)
  {
  }

  lemma EventKeepsInv(st: State, event: Event)
    requires StateInv(st) && Possible(st, event)
    ensures StateInv(Result(st, event))
  {
    hide Result;
    hide ValidityInv;
    hide EpochInv;
    assert st.high.Keys == st.now.Keys;
    hide ReadyInv;
    EventKeepsValidity(st, event);
    EventKeepsReady(st, event);
    EventKeepsEpoch(st, event);
  }

  ghost predicate Next(st: State, st': State) {
    exists event :: Possible(st, event) && st' == Result(st, event)
  }

  ghost predicate IsRun(run: seq<State>) {
    run != [] && StartsAt(run[0]) && forall t :: 0 < t < |run| ==> Next(run[t - 1], run[t])
  }

  lemma {:induction false} RunKeepsInv(run: seq<State>, t: nat)
    requires IsRun(run) && t < |run|
    ensures StateInv(run[t])
  {
    hide StateInv;
    if t == 0 {
      StartsInv(run[0]);
    } else {
      RunKeepsInv(run, t - 1);
      assert Next(run[t - 1], run[t]);
      var event :| Possible(run[t - 1], event) && run[t] == Result(run[t - 1], event);
      EventKeepsInv(run[t - 1], event);
    }
  }

  ghost predicate Waiting(st: State, x: Ready)
    requires st.epoch.Some? && st.epoch.value.frame.Valid()
  {
    x in st.pending && x.ack.clientId in st.epoch.value.frame.clients && Wanted(st.epoch.value.frame, LeaderOf(st), x)
  }

  /** An epoch's queues start from the last commit, not from the last checkpoint.  If the commit lies in the
      interval after the checkpoint, the leader's assertion passes for everything it will queue exactly if the
      two are the same or nothing that is ready waits for the next checkpoint. */
  lemma StartAssertionIff(run: seq<State>, t: nat, nb: nat, bucket: nat, base: nat, size: nat)
    requires IsRun(run) && t < |run| && Possible(run[t], NewEpoch(nb, bucket, base, size))
    requires run[t].seqNo <= base < run[t].seqNo + run[t].interval
    ensures
      var st := Result(run[t], NewEpoch(nb, bucket, base, size));
      (forall x :: Waiting(st, x) ==> Queue(st.epoch.value.queues, x).Some?) <==>
      base == st.seqNo || forall x :: Waiting(st, x) ==> x.validAfter != st.seqNo + st.interval
  {
    hide IsRun;
    hide Open;
    hide Upto;
    hide EpochInv;
    RunKeepsInv(run, t);
    var st := Result(run[t], NewEpoch(nb, bucket, base, size));
    forall x | Waiting(st, x) ensures x.validAfter <= st.seqNo || x.validAfter == st.seqNo + st.interval {
      var i :| 0 <= i < |st.pending| && st.pending[i] == x;
      assert Item(run[t], Contents(run[t])[i]);
    }
    hide Waiting;
  }

  /** A correct leader is never rejected: in every epoch of a run, across checkpoints, garbage collection and
      iterator resets, everything it has proposed in its bucket is taken by a follower that began the epoch
      from the same checkpoint, and no batch is over the size. */
  lemma NeverRejected(run: seq<State>, t: nat)
    requires IsRun(run) && t < |run| && run[t].epoch.Some?
    ensures
      var e := run[t].epoch.value;
      e.frame.Valid() && Taken(e.frame, Initial(e.frame), Acks(e.proposed)).Some? && |e.queues.pending| <= e.queues.size
  {
    hide IsRun;
    hide ValidityInv;
    hide ReadyInv;
    RunKeepsInv(run, t);
    ProposedTaken(run[t].epoch.value.frame, LeaderOf(run[t]));
  }

  // ---------------------------------------------------------------- nothing is left behind

  /** What was put into the bucket is proposed or still in it, and what waits there waits for the next
      checkpoint. */
  ghost predicate AllQueued(e: Epoch) {
    && multiset(e.queued) == multiset(e.proposed + Line(e.queues))
    && forall i :: 0 <= i < |e.queues.nextReady| ==> e.queues.nextReady[i].validAfter == e.queues.current + e.queues.interval
  }

  ghost predicate QueuedInv(st: State) {
    st.epoch.Some? ==> AllQueued(st.epoch.value)
  }

  lemma QueueAdds(q: Queues, x: Ready)
    requires Queue(q, x).Some?
    ensures multiset(Line(Queue(q, x).value)) == multiset(Line(q)) + multiset{x}
  {
    if q.current >= x.validAfter {
      assert Line(Queue(q, x).value) == q.pending + q.ready + [x] + q.nextReady;
    } else {
      assert Line(Queue(q, x).value) == Line(q) + [x];
    }
  }

  lemma TakeKeepsQueued(e: Epoch, x: Ready)
    requires AllQueued(e) && Queue(e.queues, x).Some?
    ensures AllQueued(e.(queues := Queue(e.queues, x).value, queued := e.queued + [x]))
  {
    QueueAdds(e.queues, x);
    hide Line;
  }

  lemma MoveKeepsQueued(e: Epoch, toSeqNo: nat)
    requires AllQueued(e)
    ensures AllQueued(e.(queues := Advance(e.queues, toSeqNo)))
  {
    AdvanceKeepsLine(e.queues, toSeqNo);
    hide Line;
    hide Advance;
  }

  lemma CutKeepsQueued(e: Epoch)
    requires AllQueued(e)
    ensures AllQueued(e.(queues := e.queues.(pending := []), proposed := e.proposed + e.queues.pending))
  {
    var q := e.queues.(pending := []);
    assert e.proposed + e.queues.pending + Line(q) == e.proposed + Line(e.queues);
  }

  lemma EventKeepsQueued(st: State, event: Event)
    requires QueuedInv(st) && Possible(st, event)
    ensures QueuedInv(Result(st, event))
  {
    hide Wanted;
    hide Follows;
    hide OnlyProposedCommit;
    hide Advance;
    hide Queue;
    hide AllQueued;
    hide Kept;
    hide Allocated;
    hide GoneAt;
    if event.Take? {
      if Wanted(st.epoch.value.frame, LeaderOf(st), st.pending[0]) {
        TakeKeepsQueued(st.epoch.value, st.pending[0]);
      }
    } else if event.MoveTo? {
      MoveKeepsQueued(st.epoch.value, event.toSeqNo);
    } else if event.CutBatch? {
      CutKeepsQueued(st.epoch.value);
    } else if event.NewEpoch? {
      EmptyQueued(Result(st, event).epoch.value);
    }
  }

  lemma EmptyQueued(e: Epoch)
    requires e.queued == e.proposed == Line(e.queues) == [] && e.queues.nextReady == []
    ensures AllQueued(e)
  {
  }

  lemma {:induction false} RunKeepsQueued(run: seq<State>, t: nat)
    requires IsRun(run) && t < |run|
    ensures QueuedInv(run[t])
  {
    hide QueuedInv;
    if t == 0 {
      StartsQueued(run[0]);
    } else {
      RunKeepsQueued(run, t - 1);
      assert Next(run[t - 1], run[t]);
      var event :| Possible(run[t - 1], event) && run[t] == Result(run[t - 1], event);
      EventKeepsQueued(run[t - 1], event);
    }
  }

  lemma StartsQueued(st: State)
    requires StartsAt(st)
    ensures QueuedInv(st)
  {
  }

  /** In every run, once the bucket has been advanced to where a queued request is valid, the request is in
      the batch, ready for it or proposed; and if the batch has room left, it is not waiting for it. */
  lemma ValidIsOffered(run: seq<State>, t: nat, toSeqNo: nat, x: Ready)
    requires IsRun(run) && t < |run| && Possible(run[t], MoveTo(toSeqNo))
    requires x in run[t].epoch.value.queued && x.validAfter <= toSeqNo
    ensures
      var e := Result(run[t], MoveTo(toSeqNo)).epoch.value;
      && (x in e.proposed || x in e.queues.pending || x in e.queues.ready)
      && (|e.queues.pending| < e.queues.size ==> x !in e.queues.ready)
  {
    hide IsRun;
    RunKeepsQueued(run, t);
    var e, e' := run[t].epoch.value, Result(run[t], MoveTo(toSeqNo)).epoch.value;
    hide Fill;
    hide Crossed;
    var q, q' := e.queues, e'.queues;
    AdvanceMeans(q, toSeqNo);
    hide Advance;
    assert x in multiset(e.queued);
    assert x in e.proposed + Line(q);
    if x !in e.proposed {
      assert x in q.pending + q.ready || x in q.nextReady;
      assert x in q.nextReady ==> toSeqNo >= q.current + q.interval;
      assert x in q'.pending + q'.ready;
    }
  }
}
