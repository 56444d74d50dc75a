/** The order in which a bucket takes each client's requests within an epoch. */
module RequestOrder {
  import opened Types
  import opened Buckets
  import opened ClientWindows

  /** A bucket of an epoch, with the clients as of the checkpoint that the epoch began from. */
  datatype Frame = Frame(nb: nat, bucket: nat, clients: map<nat, ClientState>)
  {
    predicate Valid() {
      bucket < nb
    }
  }

  predicate InBucket(f: Frame, id: nat, r: nat)
    requires f.Valid()
  {
    Bucket(id + r, f.nb) == f.bucket
  }

  /** A request that the bucket has still to take. */
  predicate Eligible(f: Frame, id: nat, r: nat)
    requires f.Valid() && id in f.clients
  {
    InBucket(f, id, r) && !IsCommitted(r, f.clients[id])
  }

  /** A client's requests for the bucket below `m`, in ascending order. */
  function Upto(f: Frame, id: nat, m: nat): seq<nat>
    requires f.Valid() && id in f.clients
  {
    if m == 0 then [] else Upto(f, id, m - 1) + (if Eligible(f, id, m - 1) then [m - 1] else [])
  }

  /** `Upto` is what its name says: exactly the eligible numbers below `m`, once each. */
  lemma {:induction false} UptoExact(f: Frame, id: nat, m: nat, r: nat)
    requires f.Valid() && id in f.clients
    ensures r in Upto(f, id, m) <==> r < m && Eligible(f, id, r)
    ensures forall i, j :: 0 <= i < j < |Upto(f, id, m)| ==> Upto(f, id, m)[i] < Upto(f, id, m)[j]
  {
    if m > 0 {
      UptoExact(f, id, m - 1, r);
      var before := Upto(f, id, m - 1);
      forall i | 0 <= i < |before| ensures before[i] < m - 1 {
        UptoExact(f, id, m - 1, before[i]);
      }
    }
  }

  lemma {:induction false} UptoGrows(f: Frame, id: nat, n: nat, m: nat)
    requires f.Valid() && id in f.clients && n <= m
    ensures Upto(f, id, n) <= Upto(f, id, m)
    ensures n < m && Eligible(f, id, n) ==>
              |Upto(f, id, n)| < |Upto(f, id, m)| && Upto(f, id, m)[|Upto(f, id, n)|] == n
    decreases m
  {
    if n < m {
      UptoGrows(f, id, n, m - 1);
    }
  }

  lemma {:induction false} UptoSame(f: Frame, id: nat, n: nat, m: nat)
    requires f.Valid() && id in f.clients && n <= m
    requires forall r :: n <= r < m ==> !Eligible(f, id, r)
    ensures Upto(f, id, n) == Upto(f, id, m)
    decreases m
  {
    if n < m {
      UptoSame(f, id, n, m - 1);
      assert !Eligible(f, id, m - 1);
    }
  }

  // ---------------------------------------------------------------- skipping committed requests

  /** Where the source's loop ends: the first uncommitted number from `r` on in steps of `nb`. */
  function Skip(state: ClientState, nb: nat, r: nat): nat
    requires nb > 0
    decreases state.low + state.width + 1 - r
  {
    if !IsCommitted(r, state) then r else Skip(state, nb, r + nb)
  }

  lemma {:induction false} SkipFindsNext(f: Frame, id: nat, r: nat)
    requires f.Valid() && id in f.clients && InBucket(f, id, r)
    ensures Skip(f.clients[id], f.nb, r) >= r && Eligible(f, id, Skip(f.clients[id], f.nb, r))
    ensures forall x :: r <= x < Skip(f.clients[id], f.nb, r) ==> !Eligible(f, id, x)
    decreases f.clients[id].low + f.clients[id].width + 1 - r
  {
    if IsCommitted(r, f.clients[id]) {
      BucketStep(id + r, f.nb);
      assert id + r + f.nb == id + (r + f.nb);
      SkipFindsNext(f, id, r + f.nb);
      NoneBetween(f, id, r);
    }
  }

  lemma NoneBetween(f: Frame, id: nat, r: nat)
    requires f.Valid() && id in f.clients && InBucket(f, id, r)
    ensures forall x :: r < x < r + f.nb ==> !Eligible(f, id, x)
  {
    forall x | r < x < r + f.nb ensures !Eligible(f, id, x) {
      if InBucket(f, id, x) {
        BucketApart(id + r, id + x, f.nb);
        assert false;
      }
    }
  }

  /** Taking a request moves on to the next eligible one. */
  lemma TakeNext(f: Frame, id: nat, r: nat)
    requires f.Valid() && id in f.clients && Eligible(f, id, r)
    ensures
      var next := Skip(f.clients[id], f.nb, r + f.nb);
      next > r && Eligible(f, id, next) && Upto(f, id, next) == Upto(f, id, r) + [r]
  {
    var next := Skip(f.clients[id], f.nb, r + f.nb);
    BucketStep(id + r, f.nb);
    assert id + r + f.nb == id + (r + f.nb);
    SkipFindsNext(f, id, r + f.nb);
    NoneBetween(f, id, r);
    assert Upto(f, id, r + 1) == Upto(f, id, r) + [r];
    UptoSame(f, id, r + 1, next);
  }

  /** The first request of the bucket at or above the low watermark. */
  function FirstOf(f: Frame, id: nat): nat
    requires f.Valid() && id in f.clients
  {
    f.clients[id].low + Distance(id + f.clients[id].low, f.bucket, f.nb)
  }

  lemma FirstIsLeast(f: Frame, id: nat)
    requires f.Valid() && id in f.clients
    ensures InBucket(f, id, FirstOf(f, id))
    ensures forall r: nat :: r < FirstOf(f, id) ==> !Eligible(f, id, r)
  {
    var low := f.clients[id].low;
    DistanceReaches(id + low, f.bucket, f.nb);
    assert id + low + Distance(id + low, f.bucket, f.nb) == id + FirstOf(f, id);
    forall r: nat | r < FirstOf(f, id) ensures !Eligible(f, id, r) {
      if r >= low && InBucket(f, id, r) {
        BucketApart(id + r, id + FirstOf(f, id), f.nb);
        assert false;
      }
    }
  }

  function StartOf(f: Frame, id: nat): nat
    requires f.Valid() && id in f.clients
  {
    Skip(f.clients[id], f.nb, FirstOf(f, id))
  }

  lemma StartsEmpty(f: Frame, id: nat)
    requires f.Valid() && id in f.clients
    ensures Eligible(f, id, StartOf(f, id)) && Upto(f, id, StartOf(f, id)) == []
  {
    FirstIsLeast(f, id);
    SkipFindsNext(f, id, FirstOf(f, id));
    UptoSame(f, id, 0, StartOf(f, id));
  }

  // ---------------------------------------------------------------- taking batches

  function Initial(f: Frame): map<nat, nat>
    requires f.Valid()
  {
    map id | id in f.clients :: StartOf(f, id)
  }

  /** The next expected numbers after a batch; none if it is rejected. */
  function Taken(f: Frame, next: map<nat, nat>, batch: seq<RequestAck>): (r: Option<map<nat, nat>>)
    requires f.Valid() && next.Keys == f.clients.Keys
    ensures r.Some? ==> r.value.Keys == f.clients.Keys
  {
    if batch == [] then Some(next)
    else
      match Taken(f, next, batch[..|batch| - 1])
      case None => None
      case Some(n) =>
        var ack := batch[|batch| - 1];
        if ack.clientId !in n || n[ack.clientId] != ack.reqNo then None
        else Some(n[ack.clientId := Skip(f.clients[ack.clientId], f.nb, ack.reqNo + f.nb)])
  }

  function Nums(id: nat, acks: seq<RequestAck>): seq<nat> {
    if acks == [] then []
    else
      var ack := acks[|acks| - 1];
      Nums(id, acks[..|acks| - 1]) + (if ack.clientId == id then [ack.reqNo] else [])
  }

  /** What has been taken of every client is exactly what comes before the number expected next. */
  ghost predicate TakenExactly(f: Frame, next: map<nat, nat>, acks: seq<RequestAck>)
    requires f.Valid() && next.Keys == f.clients.Keys
  {
    forall id :: id in f.clients ==> Eligible(f, id, next[id]) && Nums(id, acks) == Upto(f, id, next[id])
  }

  /** Whatever batches a bucket accepts in an epoch, what it has taken of each client is an initial segment
      of the client's uncommitted requests for the bucket: ascending, without gap, and none twice. */
  lemma {:induction false} AcceptedInOrder(f: Frame, acks: seq<RequestAck>)
    requires f.Valid() && Taken(f, Initial(f), acks).Some?
    ensures TakenExactly(f, Taken(f, Initial(f), acks).value, acks)
  {
    if acks == [] {
      forall id | id in f.clients ensures Eligible(f, id, Initial(f)[id]) && Upto(f, id, Initial(f)[id]) == [] {
        StartsEmpty(f, id);
      }
    } else {
      var init, ack := acks[..|acks| - 1], acks[|acks| - 1];
      AcceptedInOrder(f, init);
      TakeNext(f, ack.clientId, ack.reqNo);
      hide Upto;
      hide Skip;
      hide Eligible;
      hide Initial;
    }
  }

  ghost predicate InOrder(f: Frame, id: nat, nums: seq<nat>)
    requires f.Valid() && id in f.clients
  {
    exists m: nat :: nums <= Upto(f, id, m)
  }

  /** Conversely, whatever is in that order is accepted. */
  lemma {:induction false} InOrderAccepted(f: Frame, acks: seq<RequestAck>)
    requires f.Valid() && forall i :: 0 <= i < |acks| ==> acks[i].clientId in f.clients
    requires forall id :: id in f.clients ==> InOrder(f, id, Nums(id, acks))
    ensures Taken(f, Initial(f), acks).Some?
  {
    if acks != [] {
      var init, ack := acks[..|acks| - 1], acks[|acks| - 1];
      forall id | id in f.clients ensures InOrder(f, id, Nums(id, init)) {
        var m: nat :| Nums(id, acks) <= Upto(f, id, m);
        assert Nums(id, init) <= Upto(f, id, m);
      }
      InOrderAccepted(f, init);
      AcceptedInOrder(f, init);
      var next := Taken(f, Initial(f), init).value[ack.clientId];
      var m: nat :| Nums(ack.clientId, acks) <= Upto(f, ack.clientId, m);
      if next < m {
        UptoGrows(f, ack.clientId, next, m);
      } else {
        UptoGrows(f, ack.clientId, m, next);
        assert false;
      }
    }
  }

  lemma {:induction false} InNums(id: nat, acks: seq<RequestAck>, i: nat)
    requires i < |acks| && acks[i].clientId == id
    ensures acks[i].reqNo in Nums(id, acks)
  {
    if i < |acks| - 1 {
      InNums(id, acks[..|acks| - 1], i);
    }
  }

  /** No request is accepted twice in an epoch, and a client's requests only in ascending order. */
  lemma {:induction false} NoneTwice(f: Frame, acks: seq<RequestAck>, i: nat, j: nat)
    requires f.Valid() && Taken(f, Initial(f), acks).Some?
    requires i < j < |acks| && acks[i].clientId == acks[j].clientId
    ensures acks[i].reqNo < acks[j].reqNo
    decreases |acks|
  {
    var init := acks[..|acks| - 1];
    if j < |init| {
      NoneTwice(f, init, i, j);
    } else {
      AcceptedInOrder(f, init);
      InNums(acks[i].clientId, init, i);
      UptoExact(f, acks[i].clientId, acks[j].reqNo, acks[i].reqNo);
    }
  }

  lemma {:induction false} TakenConcat(f: Frame, next: map<nat, nat>, a: seq<RequestAck>, b: seq<RequestAck>)
    requires f.Valid() && next.Keys == f.clients.Keys
    ensures Taken(f, next, a + b) == match Taken(f, next, a)
                                     case None => None
                                     case Some(n) => Taken(f, n, b)
    decreases |b|
  {
    if b == [] {
      assert a + b == a;
    } else {
      var init := b[..|b| - 1];
      assert (a + b)[..|a + b| - 1] == a + init && (a + b)[|a + b| - 1] == b[|b| - 1];
      TakenConcat(f, next, a, init);
    }
  }

  // ---------------------------------------------------------------- the outstanding requests object

  class BucketOutstanding {
    const f: Frame
    var nextReqNo: map<nat, nat>

    ghost predicate Valid()
      reads this
    {
      f.Valid() && nextReqNo.Keys == f.clients.Keys
    }

    static method SkipPreviouslyCommitted(state: ClientState, nb: nat, reqNo: nat) returns (next: nat)
      requires nb > 0
      ensures next == Skip(state, nb, reqNo)
    {
      next := reqNo;
      while IsCommitted(next, state)
        invariant Skip(state, nb, next) == Skip(state, nb, reqNo)
        decreases state.low + state.width + 1 - next
      {
        next := next + nb;
      }
    }

    static method FirstUncommitted(f: Frame, id: nat) returns (first: nat)
      requires f.Valid() && id in f.clients
      ensures first == FirstOf(f, id)
    {
      FirstIsLeast(f, id);
      var low := f.clients[id].low;
      var j := 0;
      while !InBucket(f, id, low + j)
        invariant low + j <= FirstOf(f, id)
        decreases FirstOf(f, id) - (low + j)
      {
        j := j + 1;
      }
      FirstUnique(f, id, j);
      first := low + j;
    }

    constructor (f: Frame)
      requires f.Valid()
      ensures Valid() && this.f == f && nextReqNo == Initial(f)
    {
      var todo: set<nat>, next: map<nat, nat> := f.clients.Keys, map[];
      while todo != {}
        invariant todo <= f.clients.Keys && next.Keys == f.clients.Keys - todo
        invariant forall id :: id in next ==> next[id] == StartOf(f, id)
        decreases |todo|
      {
        var id :| id in todo;
        var first := FirstUncommitted(f, id);
        var start := SkipPreviouslyCommitted(f.clients[id], f.nb, first);
        next := next[id := start];
        todo := todo - {id};
      }
      this.f, nextReqNo := f, next;
      assert next == Initial(f);
    }

    /** A batch is accepted if and only if each of its requests is the one its client is expected to have
        next in the bucket. */
    method ApplyAcks(batch: seq<RequestAck>) returns (accepted: bool)
      requires Valid()
      modifies this`nextReqNo
      ensures Valid() && (accepted <==> Taken(f, old(nextReqNo), batch).Some?)
      ensures accepted ==> nextReqNo == Taken(f, old(nextReqNo), batch).value
    {
      for i := 0 to |batch|
        invariant Valid() && Taken(f, old(nextReqNo), batch[..i]) == Some(nextReqNo)
      {
        assert batch[..i + 1][..i] == batch[..i];
        var req := batch[i];
        if req.clientId !in nextReqNo || nextReqNo[req.clientId] != req.reqNo {
          TakenConcat(f, old(nextReqNo), batch[..i + 1], batch[i + 1..]);
          assert batch[..i + 1] + batch[i + 1..] == batch;
          return false;
        }
        var next := SkipPreviouslyCommitted(f.clients[req.clientId], f.nb, req.reqNo + f.nb);
        nextReqNo := nextReqNo[req.clientId := next];
      }
      assert batch[..|batch|] == batch;
      accepted := true;
    }
  }

  lemma FirstUnique(f: Frame, id: nat, j: nat)
    requires f.Valid() && id in f.clients && j < f.nb && InBucket(f, id, f.clients[id].low + j)
    ensures f.clients[id].low + j == FirstOf(f, id)
  {
    var low := f.clients[id].low;
    FirstIsLeast(f, id);
    if low + j < FirstOf(f, id) {
      BucketApart(id + (low + j), id + FirstOf(f, id), f.nb);
    } else if FirstOf(f, id) < low + j {
      BucketApart(id + FirstOf(f, id), id + (low + j), f.nb);
    }
  }
}
