/** How a leader turns ready requests into batches, and why no follower rejects one. */
module Proposals {
  import opened Types
  import opened ClientWindows
  import opened RequestOrder

  /** A request with a strong quorum, and the sequence number after which it may be proposed. */
  datatype Ready = Ready(ack: RequestAck, validAfter: nat)

  // ---------------------------------------------------------------- the append list

  function Kept(items: seq<Ready>, gone: set<Ready>): seq<Ready> {
    if items == [] then []
    else
      var last := items[|items| - 1];
      Kept(items[..|items| - 1], gone) + (if last in gone then [] else [last])
  }

  lemma {:induction false} KeptConcat(a: seq<Ready>, b: seq<Ready>, gone: set<Ready>)
    ensures Kept(a + b, gone) == Kept(a, gone) + Kept(b, gone)
    decreases |b|
  {
    if b == [] {
      assert a + b == a;
    } else {
      var init := b[..|b| - 1];
      assert (a + b)[..|a + b| - 1] == a + init && (a + b)[|a + b| - 1] == b[|b| - 1];
      KeptConcat(a, init, gone);
    }
  }

  /** A list with one iterator, which can be sent back to the front and loses elements on garbage
      collection. */
  class AppendList {
    var consumed: seq<Ready>
    var pending: seq<Ready>

    ghost function Contents(): seq<Ready>
      reads this
    {
      consumed + pending
    }

    constructor ()
      ensures Contents() == [] && consumed == []
    {
      consumed, pending := [], [];
    }

    method ResetIterator()
      modifies this
      ensures Contents() == old(Contents()) && consumed == []
    {
      pending := consumed + pending;
      consumed := [];
    }

    method Next() returns (value: Ready)
      requires pending != []
      modifies this
      ensures value == old(pending[0]) && Contents() == old(Contents())
      ensures consumed == old(consumed) + [value] && pending == old(pending[1..])
    {
      value := pending[0];
      pending := pending[1..];
      consumed := consumed + [value];
    }

    method PushBack(value: Ready)
      modifies this`pending
      ensures Contents() == old(Contents()) + [value] && pending == old(pending) + [value]
    {
      pending := pending + [value];
    }

    static method Sweep(items: seq<Ready>, gone: set<Ready>) returns (kept: seq<Ready>)
      ensures kept == Kept(items, gone)
    {
      kept := [];
      for i := 0 to |items|
        invariant kept == Kept(items[..i], gone)
      {
        assert items[..i + 1][..i] == items[..i];
        if items[i] !in gone {
          kept := kept + [items[i]];
        }
      }
      assert items[..|items|] == items;
    }

    method GarbageCollect(gone: set<Ready>)
      modifies this
      ensures consumed == Kept(old(consumed), gone) && pending == Kept(old(pending), gone)
      ensures Contents() == Kept(old(Contents()), gone)
    {
      KeptConcat(consumed, pending, gone);
      consumed := Sweep(consumed, gone);
      pending := Sweep(pending, gone);
    }
  }

  // ---------------------------------------------------------------- one proposal bucket

  datatype Queues = Queues(
    size: nat,                 // requests per batch
    interval: nat,
    current: nat,              // checkpoint
    pending: seq<Ready>,
    ready: seq<Ready>,
    nextReady: seq<Ready>)

  /** Queueing; none where the source's assertion fails. */
  function Queue(q: Queues, r: Ready): Option<Queues> {
    if q.current >= r.validAfter then Some(q.(ready := q.ready + [r]))
    else if r.validAfter != q.current + q.interval then None
    else Some(q.(nextReady := q.nextReady + [r]))
  }

  function Crossed(q: Queues, toSeqNo: nat): Queues {
    if toSeqNo >= q.current + q.interval
    then q.(current := q.current + q.interval, ready := q.ready + q.nextReady, nextReady := [])
    else q
  }

  function Fill(q: Queues): Queues
    decreases |q.ready|
  {
    if |q.pending| < q.size && q.ready != []
    then Fill(q.(pending := q.pending + [q.ready[0]], ready := q.ready[1..]))
    else q
  }

  function Advance(q: Queues, toSeqNo: nat): Queues {
    Fill(Crossed(q, toSeqNo))
  }

  function Line(q: Queues): seq<Ready> {
    q.pending + q.ready + q.nextReady
  }

  /** Advancing moves requests forward without changing their order, and never beyond a batch's size. */
  lemma {:induction false} FillKeepsLine(q: Queues)
    ensures Line(Fill(q)) == Line(q)
    ensures Fill(q).nextReady == q.nextReady && Fill(q).current == q.current
    ensures Fill(q).size == q.size && Fill(q).interval == q.interval
    ensures |q.pending| <= q.size ==> |Fill(q).pending| <= q.size
    ensures |Fill(q).pending| >= q.size || Fill(q).ready == []
    decreases |q.ready|
  {
    if |q.pending| < q.size && q.ready != [] {
      var q' := q.(pending := q.pending + [q.ready[0]], ready := q.ready[1..]);
      FillKeepsLine(q');
      assert q.pending + q.ready == q'.pending + q'.ready;
    }
  }

  lemma AdvanceKeepsLine(q: Queues, toSeqNo: nat)
    ensures Line(Advance(q, toSeqNo)) == Line(q)
    ensures |q.pending| <= q.size ==> |Advance(q, toSeqNo).pending| <= q.size
    ensures Advance(q, toSeqNo).nextReady == [] ||
            (Advance(q, toSeqNo).nextReady == q.nextReady && Advance(q, toSeqNo).current == q.current)
    ensures Advance(q, toSeqNo).size == q.size && Advance(q, toSeqNo).interval == q.interval
  {
    FillKeepsLine(Crossed(q, toSeqNo));
    if toSeqNo >= q.current + q.interval {
      assert q.pending + (q.ready + q.nextReady) + [] == q.pending + q.ready + q.nextReady;
    }
  }

  /** What advancing to `toSeqNo` makes of `q`: reaching the next checkpoint releases what waited for it,
      and the batch is filled from the front until it is full or nothing is left. */
  predicate AdvancedTo(q: Queues, q': Queues, toSeqNo: nat) {
    && q'.size == q.size && q'.interval == q.interval
    && (if toSeqNo >= q.current + q.interval
        then q'.current == q.current + q.interval && q'.nextReady == []
             && q'.pending + q'.ready == q.pending + q.ready + q.nextReady
        else q'.current == q.current && q'.nextReady == q.nextReady
             && q'.pending + q'.ready == q.pending + q.ready)
    && q.pending <= q'.pending && (|q.pending| <= q.size ==> |q'.pending| <= q.size)
    && (|q'.pending| >= q.size || q'.ready == [])
  }

  lemma {:induction false} FillFills(q: Queues)
    ensures q.pending <= Fill(q).pending && Fill(q).pending + Fill(q).ready == q.pending + q.ready
    decreases |q.ready|
  {
    if |q.pending| < q.size && q.ready != [] {
      var q' := q.(pending := q.pending + [q.ready[0]], ready := q.ready[1..]);
      FillFills(q');
      assert q.pending + q.ready == q'.pending + q'.ready;
    }
  }

  lemma AdvanceMeans(q: Queues, toSeqNo: nat)
    ensures AdvancedTo(q, Advance(q, toSeqNo), toSeqNo)
  {
    FillKeepsLine(Crossed(q, toSeqNo));
    FillFills(Crossed(q, toSeqNo));
    Associative(q.pending, q.ready, q.nextReady);
  }

  class ProposalBucket {
    const requestCount: nat
    const checkpointInterval: nat
    var currentCheckpoint: nat
    var pending: seq<Ready>
    var readyList: seq<Ready>
    var nextReadyList: seq<Ready>

    ghost function View(): Queues
      reads this
    {
      Queues(requestCount, checkpointInterval, currentCheckpoint, pending, readyList, nextReadyList)
    }

    constructor (baseCheckpoint: nat, checkpointInterval: nat, batchSize: nat)
      ensures View() == Queues(batchSize, checkpointInterval, baseCheckpoint, [], [], [])
    {
      currentCheckpoint, this.checkpointInterval, requestCount := baseCheckpoint, checkpointInterval, batchSize;
      pending, readyList, nextReadyList := [], [], [];
    }

    method QueueRequest(r: Ready)
      requires Queue(View(), r).Some?
      modifies this`readyList, this`nextReadyList
      ensures View() == Queue(old(View()), r).value
    {
      if currentCheckpoint >= r.validAfter {
        readyList := readyList + [r];
      } else {
        assert r.validAfter == currentCheckpoint + checkpointInterval;
        nextReadyList := nextReadyList + [r];
      }
    }

    method AdvanceTo(toSeqNo: nat)
      modifies this
      ensures View() == Advance(old(View()), toSeqNo)
      ensures AdvancedTo(old(View()), View(), toSeqNo)
    {
      AdvanceMeans(View(), toSeqNo);
      if toSeqNo >= currentCheckpoint + checkpointInterval {
        currentCheckpoint := currentCheckpoint + checkpointInterval;
        readyList := readyList + nextReadyList;
        nextReadyList := [];
      }
      while |pending| < requestCount
        invariant Fill(View()) == Advance(old(View()), toSeqNo)
        decreases |readyList|
      {
        if |readyList| == 0 {
          break;
        }
        pending := pending + [readyList[0]];
        readyList := readyList[1..];
      }
    }

    /** A batch is cut when it is full. */
    method HasPending(forSeqNo: nat) returns (full: bool)
      modifies this
      ensures View() == Advance(old(View()), forSeqNo)
      ensures full <==> pending != [] && |pending| == requestCount
    {
      AdvanceTo(forSeqNo);
      full := |pending| > 0 && |pending| == requestCount;
    }

    method Next() returns (batch: seq<Ready>)
      modifies this`pending
      ensures batch == old(pending) && View() == old(View()).(pending := [])
    {
      batch := pending;
      pending := [];
    }
  }

  // ---------------------------------------------------------------- the leader in an epoch

  /** A leader's side of one bucket since the epoch began. */
  datatype Leader = Leader(
    list: seq<Ready>,              // ready requests that the iterator has still to visit
    mark: map<nat, nat>,           // every client's ready mark
    committed: set<(nat, nat)>,    // requests marked committed
    queues: Queues,
    queued: seq<Ready>,            // everything put into the bucket, in order
    proposed: seq<Ready>)          // everything cut into batches, in order

  predicate IsMarked(f: Frame, l: Leader, id: nat, r: nat)
    requires id in f.clients
  {
    IsCommitted(r, f.clients[id]) || (id, r) in l.committed
  }

  function Acks(items: seq<Ready>): seq<RequestAck> {
    seq(|items|, i requires 0 <= i < |items| => items[i].ack)
  }

  function Numbers(id: nat, items: seq<Ready>): seq<nat> {
    Nums(id, Acks(items))
  }

  /** A client's numbers in a list that the bucket has still to take. */
  function Open(f: Frame, id: nat, items: seq<Ready>): seq<nat>
    requires f.Valid() && id in f.clients
  {
    if items == [] then []
    else
      var ack := items[|items| - 1].ack;
      Open(f, id, items[..|items| - 1]) + (if ack.clientId == id && Eligible(f, id, ack.reqNo) then [ack.reqNo] else [])
  }

  /** A client's later requests never become valid earlier. */
  predicate Monotone(items: seq<Ready>) {
    forall i, j :: 0 <= i < j < |items| && items[i].ack.clientId == items[j].ack.clientId ==>
                     items[i].validAfter <= items[j].validAfter
  }

  predicate AtMost(items: seq<Ready>, x: Ready) {
    forall i :: 0 <= i < |items| && items[i].ack.clientId == x.ack.clientId ==> items[i].validAfter <= x.validAfter
  }

  lemma {:induction false} NumbersConcat(id: nat, a: seq<Ready>, b: seq<Ready>)
    ensures Numbers(id, a + b) == Numbers(id, a) + Numbers(id, b)
    decreases |b|
  {
    if b == [] {
      assert a + b == a;
    } else {
      var init := b[..|b| - 1];
      assert (a + b)[..|a + b| - 1] == a + init;
      assert Acks(a + b)[..|a + b| - 1] == Acks(a + init) && Acks(b)[..|b| - 1] == Acks(init);
      NumbersConcat(id, a, init);
    }
  }

  lemma {:induction false} OpenConcat(f: Frame, id: nat, a: seq<Ready>, b: seq<Ready>)
    requires f.Valid() && id in f.clients
    ensures Open(f, id, a + b) == Open(f, id, a) + Open(f, id, b)
    decreases |b|
  {
    if b == [] {
      assert a + b == a;
    } else {
      var init := b[..|b| - 1];
      assert (a + b)[..|a + b| - 1] == a + init && (a + b)[|a + b| - 1] == b[|b| - 1];
      OpenConcat(f, id, a, init);
    }
  }

  /** All requests are of known clients. */
  predicate Known(f: Frame, items: seq<Ready>) {
    forall i :: 0 <= i < |items| ==> items[i].ack.clientId in f.clients
  }

  ghost predicate ClientInv(f: Frame, l: Leader, id: nat)
    requires f.Valid() && id in f.clients && id in l.mark
  {
    && Numbers(id, l.queued) + Open(f, id, l.list) == Upto(f, id, l.mark[id])
    && Numbers(id, l.proposed + Line(l.queues)) == Numbers(id, l.queued)
    && (forall r :: (id, r) in l.committed && Eligible(f, id, r) ==> r in Numbers(id, l.proposed))
  }

  ghost predicate QueueInv(l: Leader) {
    && |l.queues.pending| <= l.queues.size
    && (forall i :: 0 <= i < |l.queues.nextReady| ==> l.queues.nextReady[i].validAfter > l.queues.current)
    && Monotone(l.queues.nextReady + l.list)
  }

  ghost predicate LeaderInv(f: Frame, l: Leader) {
    && f.Valid() && l.mark.Keys == f.clients.Keys
    && Known(f, l.list) && Known(f, l.proposed + Line(l.queues))
    && QueueInv(l)
    && forall id :: id in f.clients ==> ClientInv(f, l, id)
  }

  /** When an epoch begins the iterator is at the front of a list that holds every uncommitted request that
      has become ready, in order, and the queues are empty. */
  ghost predicate Begins(f: Frame, l: Leader) {
    && f.Valid() && l.mark.Keys == f.clients.Keys && Known(f, l.list) && Monotone(l.list)
    && (forall id :: id in f.clients ==> Open(f, id, l.list) == Upto(f, id, l.mark[id]))
    && (forall p :: p in l.committed && p.0 in f.clients ==> IsCommitted(p.1, f.clients[p.0]))
    && l.queued == [] && l.proposed == []
    && l.queues.pending == [] && l.queues.ready == [] && l.queues.nextReady == []
  }

  lemma BeginsInv(f: Frame, l: Leader)
    requires Begins(f, l)
    ensures LeaderInv(f, l)
  {
    assert l.queues.nextReady + l.list == l.list;
    assert l.proposed + Line(l.queues) == [] == l.queued;
    hide Line;
    forall id | id in f.clients ensures ClientInv(f, l, id) {
      BeginsClient(f, l, id);
    }
  }

  lemma BeginsClient(f: Frame, l: Leader, id: nat)
    requires Begins(f, l) && id in f.clients
    ensures ClientInv(f, l, id)
  {
    hide Open;
    hide Upto;
    assert l.proposed + Line(l.queues) == [] == l.queued;
    assert Numbers(id, []) == [];
  }

  datatype Step =
    | BecomeReady(id: nat, item: Ready)           // the request at a client's ready mark has a strong quorum
    | PassCommitted(id: nat)                      // it is marked committed
    | Visit                                       // the iterator takes the next ready request
    | AdvanceTo(toSeqNo: nat)
    | Cut
    | MarkCommitted(requests: set<(nat, nat)>, gone: set<Ready>)  // a checkpoint

  predicate Enabled(f: Frame, l: Leader, step: Step)
    requires f.Valid() && l.mark.Keys == f.clients.Keys
  {
    match step
    case BecomeReady(id, item) =>
      && id in f.clients && item.ack.clientId == id && item.ack.reqNo == l.mark[id] && !IsMarked(f, l, id, l.mark[id])
      && AtMost(l.queues.nextReady + l.list, item)
    case PassCommitted(id) => id in f.clients && IsMarked(f, l, id, l.mark[id])
    case Visit =>
      l.list != [] && l.list[0].ack.clientId in f.clients && (Wanted(f, l, l.list[0]) ==> Queue(l.queues, l.list[0]).Some?)
    case AdvanceTo(_) => true
    case Cut => true
    case MarkCommitted(requests, gone) =>
      && (forall p :: p in requests && p.0 in f.clients && Eligible(f, p.0, p.1) ==> p.1 in Numbers(p.0, l.proposed))
      && (forall x :: x in gone ==> IsMarkedAfter(f, l, requests, x))
  }

  predicate IsMarkedAfter(f: Frame, l: Leader, requests: set<(nat, nat)>, x: Ready) {
    var id, r := x.ack.clientId, x.ack.reqNo;
    id in f.clients && (IsMarked(f, l, id, r) || (id, r) in requests)
  }

  predicate Wanted(f: Frame, l: Leader, x: Ready)
    requires f.Valid() && x.ack.clientId in f.clients
  {
    !IsMarked(f, l, x.ack.clientId, x.ack.reqNo) && InBucket(f, x.ack.clientId, x.ack.reqNo)
  }

  function After(f: Frame, l: Leader, step: Step): Leader
    requires f.Valid() && l.mark.Keys == f.clients.Keys && Enabled(f, l, step)
  {
    match step
    case BecomeReady(id, item) => l.(list := l.list + [item], mark := l.mark[id := l.mark[id] + 1])
    case PassCommitted(id) => l.(mark := l.mark[id := l.mark[id] + 1])
    case Visit =>
      if Wanted(f, l, l.list[0])
      then l.(list := l.list[1..], queues := Queue(l.queues, l.list[0]).value, queued := l.queued + [l.list[0]])
      else l.(list := l.list[1..])
    case AdvanceTo(toSeqNo) => l.(queues := Advance(l.queues, toSeqNo))
    case Cut => l.(queues := l.queues.(pending := []), proposed := l.proposed + l.queues.pending)
    case MarkCommitted(requests, gone) => l.(committed := l.committed + requests, list := Kept(l.list, gone))
  }

  // ---------------------------------------------------------------- every step keeps the invariant

  /** What has been proposed is below the mark and not in the list any more. */
  lemma ProposedIsGone(f: Frame, l: Leader, id: nat, r: nat)
    requires f.Valid() && id in f.clients && id in l.mark && ClientInv(f, l, id) && r in Numbers(id, l.proposed)
    ensures r < l.mark[id] && r !in Open(f, id, l.list)
  {
    hide Open;
    hide Numbers;
    hide Upto;
    NumbersConcat(id, l.proposed, Line(l.queues));
    var queued, open, all := Numbers(id, l.queued), Open(f, id, l.list), Upto(f, id, l.mark[id]);
    assert r in queued;
    assert r in all;
    UptoExact(f, id, l.mark[id], r);
    var i :| 0 <= i < |queued| && queued[i] == r;
    forall j | 0 <= j < |open| ensures open[j] != r {
      assert all[i] == r && all[|queued| + j] == open[j];
    }
  }

  lemma MarkedIsClosed(f: Frame, l: Leader, id: nat, r: nat)
    requires f.Valid() && id in f.clients && id in l.mark && ClientInv(f, l, id)
    requires IsMarked(f, l, id, r) && Eligible(f, id, r)
    ensures r < l.mark[id] && r !in Open(f, id, l.list)
  {
    assert (id, r) in l.committed;
    ProposedIsGone(f, l, id, r);
  }

  lemma {:induction false} InOpen(f: Frame, id: nat, items: seq<Ready>, i: nat)
    requires f.Valid() && id in f.clients && i < |items| && items[i].ack.clientId == id &&
             Eligible(f, id, items[i].ack.reqNo)
    ensures items[i].ack.reqNo in Open(f, id, items)
  {
    if i < |items| - 1 {
      InOpen(f, id, items[..|items| - 1], i);
    }
  }

  lemma OpenSingle(f: Frame, id: nat, x: Ready)
    requires f.Valid() && id in f.clients
    ensures Open(f, id, [x]) == if x.ack.clientId == id && Eligible(f, id, x.ack.reqNo) then [x.ack.reqNo] else []
    ensures Numbers(id, [x]) == if x.ack.clientId == id then [x.ack.reqNo] else []
  {
    assert [x][..0] == [] && Acks([x]) == [x.ack];
    var acks := [x.ack];
    assert acks[..|acks| - 1] == [];
    assert Nums(id, acks) == Nums(id, []) + (if x.ack.clientId == id then [x.ack.reqNo] else []);
  }

  lemma BecomeReadyKeepsClient(f: Frame, l: Leader, step: Step, id: nat)
    requires LeaderInv(f, l) && step.BecomeReady? && Enabled(f, l, step) && id in f.clients
    ensures ClientInv(f, After(f, l, step), id)
  {
    hide Eligible;
    hide QueueInv;
    hide Known;
    hide Open;
    hide Numbers;
    hide Line;
    assert ClientInv(f, l, id);
    var l' := After(f, l, step);
    assert Open(f, id, l'.list) == Open(f, id, l.list) + Open(f, id, [step.item]) by {
      OpenConcat(f, id, l.list, [step.item]);
    }
    assert Upto(f, id, l'.mark[id]) == Upto(f, id, l.mark[id]) + Open(f, id, [step.item]) by {
      OpenSingle(f, id, step.item);
    }
    hide Upto;
  }

  lemma PassCommittedKeepsClient(f: Frame, l: Leader, step: Step, id: nat)
    requires LeaderInv(f, l) && step.PassCommitted? && Enabled(f, l, step) && id in f.clients
    ensures ClientInv(f, After(f, l, step), id)
  {
    assert ClientInv(f, l, id);
    if id == step.id && Eligible(f, id, l.mark[id]) {
      MarkedIsClosed(f, l, id, l.mark[id]);
      assert false;
    }
  }

  lemma VisitOpens(f: Frame, l: Leader, id: nat)
    requires LeaderInv(f, l) && l.list != [] && id in f.clients
    ensures Open(f, id, l.list) ==
            (if l.list[0].ack.clientId == id && Wanted(f, l, l.list[0]) then [l.list[0].ack.reqNo] else [])
            + Open(f, id, l.list[1..])
  {
    var x := l.list[0];
    assert l.list == [x] + l.list[1..];
    OpenConcat(f, id, [x], l.list[1..]);
    OpenSingle(f, id, x);
    assert ClientInv(f, l, id);
    if x.ack.clientId == id && Eligible(f, id, x.ack.reqNo) {
      InOpen(f, id, l.list, 0);
      if IsMarked(f, l, id, x.ack.reqNo) {
        MarkedIsClosed(f, l, id, x.ack.reqNo);
        assert false;
      }
    }
  }

  /** A request that is queued as ready has no earlier one of its client among those still to wait. */
  lemma NoneWaiting(l: Leader, id: nat)
    requires QueueInv(l) && l.list != [] && l.list[0].ack.clientId == id && l.queues.current >= l.list[0].validAfter
    ensures Numbers(id, l.queues.nextReady) == []
  {
    var waiting := l.queues.nextReady;
    forall i | 0 <= i < |waiting| ensures waiting[i].ack.clientId != id {
      assert (waiting + l.list)[i] == waiting[i] && (waiting + l.list)[|waiting|] == l.list[0];
    }
    NoneOf(id, waiting);
  }

  lemma {:induction false} NoneOf(id: nat, items: seq<Ready>)
    requires forall i :: 0 <= i < |items| ==> items[i].ack.clientId != id
    ensures Numbers(id, items) == []
  {
    if items != [] {
      NoneOf(id, items[..|items| - 1]);
      assert Acks(items)[..|items| - 1] == Acks(items[..|items| - 1]);
    }
  }

  lemma QueueKeepsLine(l: Leader, x: Ready, id: nat)
    requires QueueInv(l) && l.list != [] && x == l.list[0] && Queue(l.queues, x).Some?
    ensures Numbers(id, l.proposed + Line(Queue(l.queues, x).value)) ==
            Numbers(id, l.proposed + Line(l.queues)) + Numbers(id, [x])
  {
    var q := l.queues;
    var front := l.proposed + q.pending + q.ready;
    assert l.proposed + Line(q) == front + q.nextReady;
    NumbersConcat(id, front, q.nextReady);
    if q.current >= x.validAfter {
      assert l.proposed + Line(Queue(q, x).value) == front + [x] + q.nextReady;
      NumbersConcat(id, front + [x], q.nextReady);
      NumbersConcat(id, front, [x]);
      if x.ack.clientId == id {
        NoneWaiting(l, id);
      } else {
        NoneOf(id, [x]);
      }
    } else {
      assert l.proposed + Line(Queue(q, x).value) == front + (q.nextReady + [x]);
      NumbersConcat(id, front, q.nextReady + [x]);
      NumbersConcat(id, q.nextReady, [x]);
    }
  }

  lemma VisitWantedKeepsClient(f: Frame, l: Leader, id: nat)
    requires LeaderInv(f, l) && Enabled(f, l, Visit) && Wanted(f, l, l.list[0]) && id in f.clients
    ensures ClientInv(f, After(f, l, Visit), id)
  {
    hide Upto;
    hide Eligible;
    hide Wanted;
    hide Known;
    hide Open;
    hide QueueInv;
    hide Numbers;
    hide Line;
    hide Queue;
    var x, rest := l.list[0], l.list[1..];
    assert ClientInv(f, l, id);
    VisitOpens(f, l, id);
    QueueKeepsLine(l, x, id);
    NumbersConcat(id, l.queued, [x]);
    OpenSingle(f, id, x);
    assert Numbers(id, l.queued + [x]) + Open(f, id, rest) == Numbers(id, l.queued) + Open(f, id, l.list);
  }

  lemma VisitKeepsClient(f: Frame, l: Leader, id: nat)
    requires LeaderInv(f, l) && Enabled(f, l, Visit) && id in f.clients
    ensures ClientInv(f, After(f, l, Visit), id)
  {
    hide Upto;
    hide Eligible;
    hide Wanted;
    hide Known;
    hide Open;
    hide QueueInv;
    hide Numbers;
    hide Line;
    hide Queue;
    if Wanted(f, l, l.list[0]) {
      VisitWantedKeepsClient(f, l, id);
    } else {
      VisitOpens(f, l, id);
      assert [] + Open(f, id, l.list[1..]) == Open(f, id, l.list[1..]);
      assert ClientInv(f, l, id);
    }
  }

  lemma AdvanceKeepsClient(f: Frame, l: Leader, step: Step, id: nat)
    requires LeaderInv(f, l) && step.AdvanceTo? && Enabled(f, l, step) && id in f.clients
    ensures ClientInv(f, After(f, l, step), id)
  {
    hide Advance;
    hide Line;
    hide Upto;
    hide Open;
    hide Numbers;
    assert ClientInv(f, l, id);
    AdvanceKeepsLine(l.queues, step.toSeqNo);
  }

  lemma CutKeepsClient(f: Frame, l: Leader, id: nat)
    requires LeaderInv(f, l) && id in f.clients
    ensures ClientInv(f, After(f, l, Cut), id)
  {
    hide Upto;
    hide Open;
    hide Numbers;
    assert ClientInv(f, l, id);
    var l' := After(f, l, Cut);
    assert l'.proposed + Line(l'.queues) == l.proposed + Line(l.queues);
    NumbersConcat(id, l.proposed, l.queues.pending);
    hide Line;
  }

  lemma {:induction false} KeptOpen(f: Frame, id: nat, items: seq<Ready>, gone: set<Ready>)
    requires f.Valid() && id in f.clients
    requires forall i :: 0 <= i < |items| && items[i] in gone && items[i].ack.clientId == id ==>
             !Eligible(f, id, items[i].ack.reqNo)
    ensures Open(f, id, Kept(items, gone)) == Open(f, id, items)
  {
    if items != [] {
      var init, last := items[..|items| - 1], items[|items| - 1];
      KeptOpen(f, id, init, gone);
      if last !in gone {
        OpenConcat(f, id, Kept(init, gone), [last]);
        OpenSingle(f, id, last);
      } else {
        assert Kept(init, gone) + [] == Kept(init, gone);
      }
    }
  }

  lemma MarkKeepsClient(f: Frame, l: Leader, step: Step, id: nat)
    requires LeaderInv(f, l) && step.MarkCommitted? && Enabled(f, l, step) && id in f.clients
    ensures ClientInv(f, After(f, l, step), id)
  {
    hide Upto;
    hide Open;
    hide Numbers;
    hide Line;
    assert ClientInv(f, l, id);
    forall i | 0 <= i < |l.list| && l.list[i] in step.gone && l.list[i].ack.clientId == id
      ensures !Eligible(f, id, l.list[i].ack.reqNo)
    {
      var r := l.list[i].ack.reqNo;
      assert IsMarkedAfter(f, l, step.requests, l.list[i]);
      if Eligible(f, id, r) {
        InOpen(f, id, l.list, i);
        if IsMarked(f, l, id, r) {
          MarkedIsClosed(f, l, id, r);
        } else {
          assert (id, r) in step.requests;
          ProposedIsGone(f, l, id, r);
        }
        assert false;
      }
    }
    KeptOpen(f, id, l.list, step.gone);
  }

  lemma {:induction false} KeptSubset(items: seq<Ready>, gone: set<Ready>, x: Ready)
    ensures x in Kept(items, gone) ==> x in items
  {
    if items != [] {
      KeptSubset(items[..|items| - 1], gone, x);
    }
  }

  lemma {:induction false} KeptMonotone(front: seq<Ready>, items: seq<Ready>, gone: set<Ready>)
    requires Monotone(front + items)
    ensures Monotone(front + Kept(items, gone))
  {
    if items != [] {
      var init, last := items[..|items| - 1], items[|items| - 1];
      var all := front + items;
      assert all[..|all| - 1] == front + init;
      KeptMonotone(front, init, gone);
      var kept := front + Kept(init, gone);
      if last !in gone {
        assert front + Kept(items, gone) == kept + [last];
        forall i | 0 <= i < |kept| && kept[i].ack.clientId == last.ack.clientId
          ensures kept[i].validAfter <= last.validAfter
        {
          if i >= |front| {
            KeptSubset(init, gone, kept[i]);
            var j :| 0 <= j < |init| && init[j] == kept[i];
            assert all[|front| + j] == kept[i] && all[|all| - 1] == last;
          } else {
            assert all[i] == kept[i] && all[|all| - 1] == last;
          }
        }
      } else {
        assert front + Kept(items, gone) == kept;
      }
    }
  }

  lemma VisitKeepsQueue(f: Frame, l: Leader)
    requires LeaderInv(f, l) && Enabled(f, l, Visit)
    ensures QueueInv(After(f, l, Visit))
  {
    hide ClientInv;
    hide Known;
    hide Wanted;
    var x, waiting := l.list[0], l.queues.nextReady;
    assert waiting + l.list == waiting + [x] + l.list[1..];
    VisitMonotone(waiting, l.list);
  }

  lemma AdvanceKeepsQueue(f: Frame, l: Leader, toSeqNo: nat)
    requires LeaderInv(f, l)
    ensures QueueInv(l.(queues := Advance(l.queues, toSeqNo)))
  {
    hide ClientInv;
    hide Known;
    var waiting := l.queues.nextReady;
    AdvanceKeepsLine(l.queues, toSeqNo);
    hide Advance;
    hide Line;
    if Advance(l.queues, toSeqNo).nextReady == [] {
      assert [] + l.list == (waiting + l.list)[|waiting|..];
    }
  }

  lemma StepKeepsQueue(f: Frame, l: Leader, step: Step)
    requires LeaderInv(f, l) && Enabled(f, l, step)
    ensures QueueInv(After(f, l, step))
  {
    hide ClientInv;
    hide Known;
    hide Advance;
    hide Queue;
    hide Wanted;
    hide Kept;
    var l' := After(f, l, step);
    var waiting := l.queues.nextReady;
    match step {
      case BecomeReady(id, item) =>
        assert waiting + l'.list == waiting + l.list + [item];
      case PassCommitted(id) =>
      case Visit => VisitKeepsQueue(f, l);
      case AdvanceTo(toSeqNo) => AdvanceKeepsQueue(f, l, toSeqNo);
      case Cut =>
      case MarkCommitted(requests, gone) =>
        KeptMonotone(waiting, l.list, gone);
    }
  }

  lemma VisitMonotone(waiting: seq<Ready>, list: seq<Ready>)
    requires list != [] && Monotone(waiting + list)
    ensures Monotone(waiting + list[1..])
  {
    var all, less := waiting + list, waiting + list[1..];
    forall i, j | 0 <= i < j < |less| && less[i].ack.clientId == less[j].ack.clientId
      ensures less[i].validAfter <= less[j].validAfter
    {
      var i', j' := if i < |waiting| then i else i + 1, if j < |waiting| then j else j + 1;
      assert all[i'] == less[i] && all[j'] == less[j];
    }
  }

  lemma KnownParts(f: Frame, a: seq<Ready>, b: seq<Ready>)
    ensures Known(f, a + b) <==> Known(f, a) && Known(f, b)
  {
    var all := a + b;
    if Known(f, all) {
      assert forall i :: 0 <= i < |a| ==> all[i] == a[i];
      assert forall i :: 0 <= i < |b| ==> all[|a| + i] == b[i];
    }
  }

  lemma StepKeepsKnown(f: Frame, l: Leader, step: Step)
    requires LeaderInv(f, l) && Enabled(f, l, step)
    ensures Known(f, After(f, l, step).list)
    ensures var l' := After(f, l, step); Known(f, l'.proposed + Line(l'.queues))
  {
    hide ClientInv;
    hide QueueInv;
    var l', q := After(f, l, step), l.queues;
    match step {
      case BecomeReady(id, item) =>
      case PassCommitted(id) =>
      case Visit =>
        var x := l.list[0];
        KnownParts(f, l.proposed + q.pending + q.ready, q.nextReady);
        assert l.proposed + Line(q) == l.proposed + q.pending + q.ready + q.nextReady;
        if Wanted(f, l, x) {
          var line := if q.current >= x.validAfter then l.proposed + q.pending + q.ready + [x] + q.nextReady
                      else l.proposed + q.pending + q.ready + (q.nextReady + [x]);
          assert l'.proposed + Line(l'.queues) == line;
        }
      case AdvanceTo(toSeqNo) => AdvanceKeepsLine(q, toSeqNo);
      case Cut => assert l'.proposed + Line(l'.queues) == l.proposed + Line(q);
      case MarkCommitted(requests, gone) =>
        forall i | 0 <= i < |l'.list| ensures l'.list[i].ack.clientId in f.clients {
          KeptSubset(l.list, gone, l'.list[i]);
        }
    }
  }

  lemma StepKeepsClient(f: Frame, l: Leader, step: Step, id: nat)
    requires LeaderInv(f, l) && Enabled(f, l, step) && id in f.clients
    ensures id in After(f, l, step).mark && ClientInv(f, After(f, l, step), id)
  {
    hide QueueInv;
    hide Known;
    hide ClientInv;
    hide Enabled;
    match step {
      case BecomeReady(_, _) => BecomeReadyKeepsClient(f, l, step, id);
      case PassCommitted(_) => PassCommittedKeepsClient(f, l, step, id);
      case Visit => VisitKeepsClient(f, l, id);
      case AdvanceTo(_) => AdvanceKeepsClient(f, l, step, id);
      case Cut => CutKeepsClient(f, l, id);
      case MarkCommitted(_, _) => MarkKeepsClient(f, l, step, id);
    }
  }

  lemma StepKeepsMarks(f: Frame, l: Leader, step: Step)
    requires LeaderInv(f, l) && Enabled(f, l, step)
    ensures After(f, l, step).mark.Keys == f.clients.Keys
  {
    hide QueueInv;
    hide Known;
    hide ClientInv;
  }

  /** Every step keeps the invariant. */
  lemma StepKeepsInv(f: Frame, l: Leader, step: Step)
    requires LeaderInv(f, l) && Enabled(f, l, step)
    ensures LeaderInv(f, After(f, l, step))
  {
    hide QueueInv;
    hide Known;
    hide Enabled;
    hide ClientInv;
    hide After;
    StepKeepsMarks(f, l, step);
    StepKeepsQueue(f, l, step);
    StepKeepsKnown(f, l, step);
    forall id | id in f.clients ensures ClientInv(f, After(f, l, step), id) {
      StepKeepsClient(f, l, step, id);
    }
  }

  lemma ProposedInOrder(f: Frame, l: Leader, id: nat)
    requires LeaderInv(f, l) && id in f.clients
    ensures InOrder(f, id, Nums(id, Acks(l.proposed)))
  {
    assert ClientInv(f, l, id);
    NumbersConcat(id, l.proposed, Line(l.queues));
    assert Nums(id, Acks(l.proposed)) <= Upto(f, id, l.mark[id]);
  }

  /** Everything proposed is taken by a follower that began the epoch from the same checkpoint. */
  lemma ProposedTaken(f: Frame, l: Leader)
    requires LeaderInv(f, l)
    ensures Taken(f, Initial(f), Acks(l.proposed)).Some?
  {
    hide InOrder;
    hide ClientInv;
    KnownParts(f, l.proposed, Line(l.queues));
    forall id | id in f.clients ensures InOrder(f, id, Nums(id, Acks(l.proposed))) {
      ProposedInOrder(f, l, id);
    }
    InOrderAccepted(f, Acks(l.proposed));
  }
}
