/** The processor's two passes: nothing leaves before the log entries it depends on are on disk. */
module WriteAheadDiscipline {
  import opened Types
  import opened Intervals
  import opened WriteAheadLog
  import Sequences
  import ReplicaVotes

  datatype Message =
    | Preprepare(seqNo: nat, batch: seq<RequestAck>)
    | Prepare(seqNo: nat, digest: Digest)
    | Commit(seqNo: nat, digest: Digest)
    | NewEpochEcho(config: NewEpochConfig)
    | Free(id: nat)                                    // a message that depends on no log entry

  datatype Task =
    | Append(index: nat, entry: Entry)
    | TruncateTo(index: nat)
    | Transmit(targets: seq<NodeId>, msg: Message)
    | Work(id: nat)                                    // hashing, the application, state transfer

  datatype Effect =
    | Wrote(index: nat, entry: Entry)
    | Cleared(index: nat)
    | Synced
    | Sent(dest: NodeId, msg: Message)
    | Looped(msg: Message)
    | Did(id: nat)

  // ---------------------------------------------------------------- what a message depends on

  ghost predicate HasQ(entries: set<Entry>, s: nat, d: Digest) {
    exists batch :: QEntry(s, d, batch) in entries
  }

  ghost predicate Backed(m: Message, entries: set<Entry>) {
    match m
    case Preprepare(s, batch) => exists d :: QEntry(s, d, batch) in entries
    case Prepare(s, d) => HasQ(entries, s, d)
    case Commit(s, d) => PEntry(s, d) in entries
    case NewEpochEcho(k) =>
      && NEntry(k.startingCheckpoint.seqNo + 1, k.config) in entries
      && forall i :: 0 <= i < |k.finalPreprepares| ==>
                       HasQ(entries, k.startingCheckpoint.seqNo + 1 + i, k.finalPreprepares[i])
    case Free(_) => true
  }

  lemma BackedGrows(m: Message, a: set<Entry>, b: set<Entry>)
    requires Backed(m, a) && a <= b
    ensures Backed(m, b)
  {
    if m.NewEpochEcho? {
      var k := m.config;
      forall i | 0 <= i < |k.finalPreprepares|
        ensures HasQ(b, k.startingCheckpoint.seqNo + 1 + i, k.finalPreprepares[i])
      {
        assert HasQ(a, k.startingCheckpoint.seqNo + 1 + i, k.finalPreprepares[i]);
      }
    }
  }

  function Appended(tasks: seq<Task>): set<Entry> {
    set i | 0 <= i < |tasks| && tasks[i].Append? :: tasks[i].entry
  }

  // ---------------------------------------------------------------- the two passes

  function Written(tasks: seq<Task>): seq<Effect> {
    if tasks == [] then []
    else
      var t := tasks[|tasks| - 1];
      Written(tasks[..|tasks| - 1]) +
      match t
      case Append(index, entry) => [Wrote(index, entry)]
      case TruncateTo(index) => [Cleared(index)]
      case Transmit(_, _) => []
      case Work(id) => [Did(id)]
  }

  function SentTo(me: NodeId, targets: seq<NodeId>, msg: Message): seq<Effect> {
    if targets == [] then []
    else
      var dest := targets[|targets| - 1];
      SentTo(me, targets[..|targets| - 1], msg) + [if dest == me then Looped(msg) else Sent(dest, msg)]
  }

  function Transmitted(me: NodeId, tasks: seq<Task>): seq<Effect> {
    if tasks == [] then []
    else
      var t := tasks[|tasks| - 1];
      Transmitted(me, tasks[..|tasks| - 1]) + if t.Transmit? then SentTo(me, t.targets, t.msg) else []
  }

  function Processed(me: NodeId, tasks: seq<Task>): seq<Effect> {
    Written(tasks) + [Synced] + Transmitted(me, tasks)
  }

  predicate Fallible(t: Task) {
    t.Append? || t.TruncateTo? || t.Work?
  }

  /** Task `k` is the first that fails; past the last task it is the sync. */
  ghost predicate StopsAt(tasks: seq<Task>, fails: seq<bool>, k: nat)
    requires |fails| == |tasks| + 1
  {
    && k <= |tasks| && fails[k] && (k < |tasks| ==> Fallible(tasks[k]))
    && forall j :: 0 <= j < k && Fallible(tasks[j]) ==> !fails[j]
  }

  function InOrder(pieces: seq<seq<Effect>>): seq<Effect> {
    if pieces == [] then [] else InOrder(pieces[..|pieces| - 1]) + pieces[|pieces| - 1]
  }

  /** Every task that is not a transmission has one effect, its own. */
  predicate WriteOf(t: Task, piece: seq<Effect>) {
    match t
    case Append(index, entry) => piece == [Wrote(index, entry)]
    case TruncateTo(index) => piece == [Cleared(index)]
    case Transmit(_, _) => piece == []
    case Work(id) => piece == [Did(id)]
  }

  ghost predicate WritePieces(tasks: seq<Task>, pieces: seq<seq<Effect>>) {
    |pieces| == |tasks| && forall j :: 0 <= j < |tasks| ==> WriteOf(tasks[j], pieces[j])
  }

  ghost predicate Writes(tasks: seq<Task>, out: seq<Effect>) {
    exists pieces :: WritePieces(tasks, pieces) && out == InOrder(pieces)
  }

  /** A transmission has one effect per target, in their order: the message goes to another node, or comes
      back to this one. */
  predicate SendOf(me: NodeId, t: Task, piece: seq<Effect>) {
    if t.Transmit?
    then |piece| == |t.targets|
         && forall k :: 0 <= k < |piece| ==>
                          && (t.targets[k] != me ==> piece[k] == Sent(t.targets[k], t.msg))
                          && (t.targets[k] == me ==> piece[k] == Looped(t.msg))
    else piece == []
  }

  ghost predicate SendPieces(me: NodeId, tasks: seq<Task>, pieces: seq<seq<Effect>>) {
    |pieces| == |tasks| && forall j :: 0 <= j < |tasks| ==> SendOf(me, tasks[j], pieces[j])
  }

  ghost predicate Sends(me: NodeId, tasks: seq<Task>, out: seq<Effect>) {
    exists pieces :: SendPieces(me, tasks, pieces) && out == InOrder(pieces)
  }

  lemma WritesStep(tasks: seq<Task>, t: Task, out: seq<Effect>, piece: seq<Effect>)
    requires Writes(tasks, out) && WriteOf(t, piece)
    ensures Writes(tasks + [t], out + piece)
  {
    var pieces :| WritePieces(tasks, pieces) && out == InOrder(pieces);
    var more := pieces + [piece];
    assert more[..|pieces|] == pieces;
    assert WritePieces(tasks + [t], more) && out + piece == InOrder(more);
  }

  lemma {:induction false} WrittenWrites(tasks: seq<Task>)
    ensures Writes(tasks, Written(tasks))
  {
    if tasks == [] {
      assert WritePieces([], []);
    } else {
      var front, t := tasks[..|tasks| - 1], tasks[|tasks| - 1];
      WrittenWrites(front);
      hide Writes;
      var piece := Written(tasks)[|Written(front)|..];
      assert Written(tasks) == Written(front) + piece && WriteOf(t, piece);
      WritesStep(front, t, Written(front), piece);
      assert front + [t] == tasks;
    }
  }

  lemma {:induction false} SentToSends(me: NodeId, targets: seq<NodeId>, msg: Message)
    ensures SendOf(me, Transmit(targets, msg), SentTo(me, targets, msg))
  {
    if targets != [] {
      var init := targets[..|targets| - 1];
      SentToSends(me, init, msg);
    }
  }

  lemma SendsStep(me: NodeId, tasks: seq<Task>, t: Task, out: seq<Effect>, piece: seq<Effect>)
    requires Sends(me, tasks, out) && SendOf(me, t, piece)
    ensures Sends(me, tasks + [t], out + piece)
  {
    hide SendOf;
    var pieces :| SendPieces(me, tasks, pieces) && out == InOrder(pieces);
    var more := pieces + [piece];
    assert more[..|pieces|] == pieces;
    assert SendPieces(me, tasks + [t], more) && out + piece == InOrder(more);
  }

  lemma {:induction false} TransmittedSends(me: NodeId, tasks: seq<Task>)
    ensures Sends(me, tasks, Transmitted(me, tasks))
  {
    if tasks == [] {
      assert SendPieces(me, [], []);
    } else {
      var front, t := tasks[..|tasks| - 1], tasks[|tasks| - 1];
      TransmittedSends(me, front);
      hide Sends;
      var piece := if t.Transmit? then SentTo(me, t.targets, t.msg) else [];
      if t.Transmit? {
        SentToSends(me, t.targets, t.msg);
      }
      SendsStep(me, front, t, Transmitted(me, front), piece);
      assert front + [t] == tasks;
    }
  }

  class Processor {
    const nodeId: NodeId
    ghost var trace: seq<Effect>

    constructor (nodeId: NodeId)
      ensures trace == [] && this.nodeId == nodeId
    {
      this.nodeId := nodeId;
      trace := [];
    }

    /** Processes one action list.  `fails` tells which calls into the log and the application fail; the
        last flag is the sync's. */
    method Process(tasks: seq<Task>, fails: seq<bool>) returns (ok: bool)
      requires |fails| == |tasks| + 1
      modifies this`trace
      ensures ok ==> trace == old(trace) + Processed(nodeId, tasks)
      ensures ok ==> exists written, sent :: Writes(tasks, written) && Sends(nodeId, tasks, sent)
                                             && trace == old(trace) + (written + [Synced] + sent)
      ensures !ok ==> exists k :: 0 <= k <= |tasks| && trace == old(trace) + Written(tasks[..k])
      ensures !ok ==> exists k: nat, written :: StopsAt(tasks, fails, k) && Writes(tasks[..k], written)
                                                && trace == old(trace) + written
      ensures ok <==> !fails[|tasks|] && forall i :: 0 <= i < |tasks| && Fallible(tasks[i]) ==> !fails[i]
    {
      hide Writes;
      hide Sends;
      for i := 0 to |tasks|
        invariant trace == old(trace) + Written(tasks[..i])
        invariant forall j :: 0 <= j < i && Fallible(tasks[j]) ==> !fails[j]
      {
        assert tasks[..i + 1][..i] == tasks[..i];
        var t := tasks[i];
        if Fallible(t) && fails[i] {
          WrittenWrites(tasks[..i]);
          assert StopsAt(tasks, fails, i);
          return false;
        }
        match t {
          case Append(index, entry) => trace := trace + [Wrote(index, entry)];
          case TruncateTo(index) => trace := trace + [Cleared(index)];
          case Transmit(_, _) =>
          case Work(id) => trace := trace + [Did(id)];
        }
      }
      assert tasks[..|tasks|] == tasks;
      WrittenWrites(tasks);
      if fails[|tasks|] {
        assert StopsAt(tasks, fails, |tasks|);
        return false;
      }
      trace := trace + [Synced];
      TransmitAll(tasks);
      TransmittedSends(nodeId, tasks);
      ok := true;
      assert trace == old(trace) + (Written(tasks) + [Synced] + Transmitted(nodeId, tasks));
    }

    /** The second pass. */
    method TransmitAll(tasks: seq<Task>)
      modifies this`trace
      ensures trace == old(trace) + Transmitted(nodeId, tasks)
    {
      for i := 0 to |tasks|
        invariant trace == old(trace) + Transmitted(nodeId, tasks[..i])
      {
        assert tasks[..i + 1][..i] == tasks[..i];
        if tasks[i].Transmit? {
          Send(tasks[i].targets, tasks[i].msg);
        }
      }
      assert tasks[..|tasks|] == tasks;
    }

    method Send(targets: seq<NodeId>, msg: Message)
      modifies this`trace
      ensures trace == old(trace) + SentTo(nodeId, targets, msg)
    {
      for i := 0 to |targets|
        invariant trace == old(trace) + SentTo(nodeId, targets[..i], msg)
      {
        assert targets[..i + 1][..i] == targets[..i];
        trace := trace + [if targets[i] == nodeId then Looped(msg) else Sent(targets[i], msg)];
      }
      assert targets[..|targets|] == targets;
    }
  }

  // ---------------------------------------------------------------- traces

  function WrittenIn(trace: seq<Effect>): set<Entry> {
    set i | 0 <= i < |trace| && trace[i].Wrote? :: trace[i].entry
  }

  /** What is on disk: everything written before the last sync. */
  function OnDisk(trace: seq<Effect>): set<Entry> {
    if trace == [] then {}
    else
      var init := trace[..|trace| - 1];
      if trace[|trace| - 1].Synced? then WrittenIn(init) else OnDisk(init)
  }

  predicate Leaves(x: Effect) {
    x.Sent? || x.Looped?
  }

  /** No message leaves, or comes back to its sender, unless what it depends on is on disk. */
  ghost predicate Safe(trace: seq<Effect>) {
    forall i :: 0 <= i < |trace| && Leaves(trace[i]) ==> Backed(trace[i].msg, OnDisk(trace[..i]))
  }

  lemma WrittenInConcat(a: seq<Effect>, b: seq<Effect>)
    ensures WrittenIn(a + b) == WrittenIn(a) + WrittenIn(b)
  {
    var all := a + b;
    assert forall i :: 0 <= i < |a| ==> all[i] == a[i];
    assert forall i :: 0 <= i < |b| ==> all[|a| + i] == b[i];
    forall e | e in WrittenIn(all) ensures e in WrittenIn(a) + WrittenIn(b) {
      var i :| 0 <= i < |all| && all[i].Wrote? && all[i].entry == e;
      assert i >= |a| ==> b[i - |a|] == all[i];
    }
  }

  lemma {:induction false} OnDiskStable(base: seq<Effect>, more: seq<Effect>)
    requires forall i :: 0 <= i < |more| ==> !more[i].Synced?
    ensures OnDisk(base + more) == OnDisk(base)
    decreases |more|
  {
    if more == [] {
      assert base + more == base;
    } else {
      var init := more[..|more| - 1];
      OnDiskStable(base, init);
      assert (base + more)[..|base + more| - 1] == base + init;
    }
  }

  lemma {:induction false} WrittenIsQuiet(tasks: seq<Task>)
    ensures forall i :: 0 <= i < |Written(tasks)| ==> !Leaves(Written(tasks)[i]) && !Written(tasks)[i].Synced?
    ensures WrittenIn(Written(tasks)) == Appended(tasks)
  {
    if tasks != [] {
      var init, t := tasks[..|tasks| - 1], tasks[|tasks| - 1];
      WrittenIsQuiet(init);
      var last: seq<Effect> := match t
        case Append(index, entry) => [Wrote(index, entry)]
        case TruncateTo(index) => [Cleared(index)]
        case Transmit(_, _) => []
        case Work(id) => [Did(id)];
      WrittenInConcat(Written(init), last);
      assert Appended(tasks) == Appended(init) + if t.Append? then {t.entry} else {} by {
        assert tasks == init + [t];
      }
      assert WrittenIn(last) == if t.Append? then {t.entry} else {} by {
        assert t.Append? ==> last[0].entry == t.entry;
      }
    }
  }

  lemma {:induction false} SentToContent(me: NodeId, targets: seq<NodeId>, msg: Message)
    ensures forall i :: 0 <= i < |SentTo(me, targets, msg)| ==>
                          Leaves(SentTo(me, targets, msg)[i]) && SentTo(me, targets, msg)[i].msg == msg
  {
    if targets != [] {
      SentToContent(me, targets[..|targets| - 1], msg);
    }
  }

  /** Whatever the second pass sends is in the list. */
  lemma {:induction false} TransmittedContent(me: NodeId, tasks: seq<Task>, i: nat)
    requires i < |Transmitted(me, tasks)|
    ensures Leaves(Transmitted(me, tasks)[i])
    ensures exists j :: 0 <= j < |tasks| && tasks[j].Transmit? && tasks[j].msg == Transmitted(me, tasks)[i].msg
  {
    var init, t := tasks[..|tasks| - 1], tasks[|tasks| - 1];
    if i < |Transmitted(me, init)| {
      TransmittedContent(me, init, i);
      var j :| 0 <= j < |init| && init[j].Transmit? && init[j].msg == Transmitted(me, init)[i].msg;
      assert tasks[j] == init[j];
    } else {
      SentToContent(me, t.targets, t.msg);
      assert tasks[|tasks| - 1] == t;
    }
  }

  /** Every message of a list is backed by what the list itself or `before` has appended. */
  ghost predicate Disciplined(before: set<Entry>, tasks: seq<Task>) {
    forall i :: 0 <= i < |tasks| && tasks[i].Transmit? ==> Backed(tasks[i].msg, before + Appended(tasks))
  }

  lemma ProcessKeepsSafe(me: NodeId, trace: seq<Effect>, tasks: seq<Task>)
    requires Safe(trace) && Disciplined(WrittenIn(trace), tasks)
    ensures Safe(trace + Processed(me, tasks))
    ensures WrittenIn(trace + Processed(me, tasks)) == WrittenIn(trace) + Appended(tasks)
  {
    var written, out := Written(tasks), Transmitted(me, tasks);
    var synced := trace + written + [Synced];
    var all := trace + Processed(me, tasks);
    assert all == synced + out;
    WrittenIsQuiet(tasks);
    WrittenInConcat(trace, written);
    WrittenInConcat(trace + written, [Synced]);
    WrittenInConcat(synced, out);
    forall i | 0 <= i < |out| ensures Leaves(out[i]) {
      TransmittedContent(me, tasks, i);
    }
    assert OnDisk(synced) == WrittenIn(trace) + Appended(tasks) by {
      assert synced[..|synced| - 1] == trace + written;
    }
    forall i | |trace| <= i < |synced| ensures !Leaves(all[i]) {
      assert all[i] == if i < |trace| + |written| then written[i - |trace|] else Synced;
    }
    forall i | 0 <= i < |all| && Leaves(all[i]) ensures Backed(all[i].msg, OnDisk(all[..i])) {
      if i < |trace| {
        assert all[..i] == trace[..i] && all[i] == trace[i];
      } else {
        var j := i - |synced|;
        assert all[i] == out[j] && all[..i] == synced + out[..j];
        OnDiskStable(synced, out[..j]);
        TransmittedContent(me, tasks, j);
      }
    }
  }

  // ---------------------------------------------------------------- whole runs

  /** The lists that a processor was given, one after the other. */
  function TraceOf(me: NodeId, lists: seq<seq<Task>>): seq<Effect> {
    if lists == [] then [] else TraceOf(me, lists[..|lists| - 1]) + Processed(me, lists[|lists| - 1])
  }

  function AppendedBy(lists: seq<seq<Task>>): set<Entry> {
    if lists == [] then {} else AppendedBy(lists[..|lists| - 1]) + Appended(lists[|lists| - 1])
  }

  ghost predicate AllDisciplined(lists: seq<seq<Task>>) {
    forall n :: 0 <= n < |lists| ==> Disciplined(AppendedBy(lists[..n]), lists[n])
  }

  /** Over any number of action lists, and also if the processor then fails in the middle of one: no
      Preprepare, Prepare, Commit or NewEpochEcho leaves it unless its entries were written and synced. */
  lemma {:induction false} RunSafe(me: NodeId, lists: seq<seq<Task>>)
    requires AllDisciplined(lists)
    ensures Safe(TraceOf(me, lists)) && WrittenIn(TraceOf(me, lists)) == AppendedBy(lists)
  {
    if lists != [] {
      var init, last := lists[..|lists| - 1], lists[|lists| - 1];
      forall n | 0 <= n < |init| ensures Disciplined(AppendedBy(init[..n]), init[n]) {
        assert init[..n] == lists[..n] && init[n] == lists[n];
      }
      RunSafe(me, init);
      assert Disciplined(AppendedBy(lists[..|lists| - 1]), last);
      ProcessKeepsSafe(me, TraceOf(me, init), last);
    }
  }

  lemma FailureSafe(me: NodeId, lists: seq<seq<Task>>, tasks: seq<Task>)
    requires AllDisciplined(lists)
    ensures Safe(TraceOf(me, lists) + Written(tasks))
  {
    RunSafe(me, lists);
    WrittenIsQuiet(tasks);
    var trace, all := TraceOf(me, lists), TraceOf(me, lists) + Written(tasks);
    forall i | |trace| <= i < |all| ensures !Leaves(all[i]) {
      assert all[i] == Written(tasks)[i - |trace|];
    }
    forall i | 0 <= i < |all| && Leaves(all[i]) ensures Backed(all[i].msg, OnDisk(all[..i])) {
      assert all[..i] == trace[..i] && all[i] == trace[i];
    }
  }

  // ---------------------------------------------------------------- what the state machine hands over

  lemma AppendedConcat(a: seq<Task>, b: seq<Task>)
    ensures Appended(a + b) == Appended(a) + Appended(b)
  {
    var all := a + b;
    assert forall i :: 0 <= i < |a| ==> all[i] == a[i];
    assert forall i :: 0 <= i < |b| ==> all[|a| + i] == b[i];
    forall e | e in Appended(all) ensures e in Appended(a) + Appended(b) {
      var i :| 0 <= i < |all| && all[i].Append? && all[i].entry == e;
      assert i >= |a| ==> b[i - |a|] == all[i];
    }
  }

  /** Lists that each back their own messages can be joined. */
  lemma DisciplinedConcat(before: set<Entry>, a: seq<Task>, b: seq<Task>)
    requires Disciplined(before, a) && Disciplined(before, b)
    ensures Disciplined(before, a + b)
  {
    AppendedConcat(a, b);
    var all := a + b;
    forall i | 0 <= i < |all| && all[i].Transmit? ensures Backed(all[i].msg, before + Appended(all)) {
      if i < |a| {
        assert all[i] == a[i];
        BackedGrows(all[i].msg, before + Appended(a), before + Appended(all));
      } else {
        assert all[i] == b[i - |a|];
        BackedGrows(all[i].msg, before + Appended(b), before + Appended(all));
      }
    }
  }

  /** The action of a sequence, as a task for the processor. */
  function TaskOf(seqNo: nat, index: nat, targets: seq<NodeId>, a: Sequences.Action): Task {
    match a
    case Hash(_) => Work(0)
    case PersistQ(d, batch) => Append(index, QEntry(seqNo, d, batch))
    case PersistP(d) => Append(index, PEntry(seqNo, d))
    case SendPreprepare(batch) => Transmit(targets, Preprepare(seqNo, batch))
    case SendPrepare(d) => Transmit(targets, Prepare(seqNo, d))
    case SendCommit(d) => Transmit(targets, Commit(seqNo, d))
  }

  function TasksOf(seqNo: nat, index: nat, targets: seq<NodeId>, out: seq<Sequences.Action>): seq<Task> {
    seq(|out|, i requires 0 <= i < |out| => TaskOf(seqNo, index + i, targets, out[i]))
  }

  lemma SequenceDisciplined(before: set<Entry>, seqNo: nat, index: nat, targets: seq<NodeId>,
                            out: seq<Sequences.Action>)
    requires Sequences.PersistsFirst(out)
    ensures Disciplined(before, TasksOf(seqNo, index, targets, out))
  {
    var tasks := TasksOf(seqNo, index, targets, out);
    forall i | 0 <= i < |tasks| && tasks[i].Transmit? ensures Backed(tasks[i].msg, before + Appended(tasks)) {
      assert Sequences.IsSend(out[i]);
      var j :| 0 <= j < i && Sequences.Supports(out[j], out[i]);
      assert tasks[j].Append? && tasks[j].entry in Appended(tasks);
      if out[i].SendPrepare? {
        assert QEntry(seqNo, out[i].digest, out[j].batch) in before + Appended(tasks);
      }
    }
  }

  /** Every list that an operation of a sequence hands over backs its own messages. */
  lemma OperationsDisciplined(before: set<Entry>, seqNo: nat, index: nat, targets: seq<NodeId>, s: Sequences.SeqState,
                              source: NodeId, d: Digest, batch: seq<RequestAck>, requests: set<nat>, r: nat)
    ensures Disciplined(before, TasksOf(seqNo, index, targets, Sequences.ApplyPrepare(s, source, d).1))
    ensures Disciplined(before, TasksOf(seqNo, index, targets, Sequences.ApplyHash(s, d).1))
    ensures s.phase == Sequences.Uninitialized ==>
              Disciplined(before, TasksOf(seqNo, index, targets, Sequences.Allocate(s, batch, requests).1))
    ensures r in s.outstanding ==>
              Disciplined(before, TasksOf(seqNo, index, targets, Sequences.Satisfy(s, r).1))
  {
    hide Disciplined;
    hide Sequences.PersistsFirst;
    hide Sequences.Allocate;
    hide Sequences.Satisfy;
    hide Sequences.ApplyPrepare;
    hide Sequences.ApplyHash;
    hide TasksOf;
    Sequences.OperationsPersistFirst(s, source, d, batch, requests, r);
    SequenceDisciplined(before, seqNo, index, targets, Sequences.ApplyPrepare(s, source, d).1);
    SequenceDisciplined(before, seqNo, index, targets, Sequences.ApplyHash(s, d).1);
    if s.phase == Sequences.Uninitialized {
      SequenceDisciplined(before, seqNo, index, targets, Sequences.Allocate(s, batch, requests).1);
    }
    if r in s.outstanding {
      SequenceDisciplined(before, seqNo, index, targets, Sequences.Satisfy(s, r).1);
    }
  }

  function Appends(index: nat, entries: seq<Entry>): seq<Task> {
    seq(|entries|, i requires 0 <= i < |entries| => Append(index + i, entries[i]))
  }

  lemma EchoLogStep(c: NetworkConfig, k: NewEpochConfig, stop: nat, batch: Digest -> seq<RequestAck>, n: nat)
    requires 0 < n <= |k.finalPreprepares| && c.checkpointInterval > 0
    ensures
      var before, log := ReplicaVotes.EchoLog(c, [], k, stop, batch, n - 1), ReplicaVotes.EchoLog(c, [], k, stop, batch, n);
      before <= log && LogHasQ(log, k.startingCheckpoint.seqNo + n, k.finalPreprepares[n - 1])
  {
    hide Aligned;
    var before, log := ReplicaVotes.EchoLog(c, [], k, stop, batch, n - 1), ReplicaVotes.EchoLog(c, [], k, stop, batch, n);
    var s, d := k.startingCheckpoint.seqNo + n, k.finalPreprepares[n - 1];
    assert log[|before|] == QEntry(s, d, if d == NullDigest then [] else batch(d));
  }

  lemma {:induction false} EchoLogHas(c: NetworkConfig, k: NewEpochConfig, stop: nat,
                                      batch: Digest -> seq<RequestAck>, n: nat)
    requires n <= |k.finalPreprepares| && c.checkpointInterval > 0
    ensures
      var log := ReplicaVotes.EchoLog(c, [], k, stop, batch, n);
      && NEntry(k.startingCheckpoint.seqNo + 1, k.config) in log
      && forall i :: 0 <= i < n ==> LogHasQ(log, k.startingCheckpoint.seqNo + 1 + i, k.finalPreprepares[i])
  {
    if n > 0 {
      EchoLogHas(c, k, stop, batch, n - 1);
      EchoLogStep(c, k, stop, batch, n);
      hide ReplicaVotes.EchoLog;
      var before, log := ReplicaVotes.EchoLog(c, [], k, stop, batch, n - 1), ReplicaVotes.EchoLog(c, [], k, stop, batch, n);
      assert forall e :: e in before ==> e in log;
      forall i | 0 <= i < n ensures LogHasQ(log, k.startingCheckpoint.seqNo + 1 + i, k.finalPreprepares[i]) {
        if i < n - 1 {
          assert LogHasQ(before, k.startingCheckpoint.seqNo + 1 + i, k.finalPreprepares[i]);
        }
      }
    }
  }

  ghost predicate LogHasQ(log: Log, s: nat, d: Digest) {
    exists batch :: QEntry(s, d, batch) in log
  }

  /** The list that ends in a NewEpochEcho backs it with the N entry and all the Q entries before it. */
  lemma EchoDisciplined(before: set<Entry>, c: NetworkConfig, k: NewEpochConfig, stop: nat,
                        batch: Digest -> seq<RequestAck>, index: nat)
    requires c.checkpointInterval > 0
    ensures Disciplined(before, Appends(index, ReplicaVotes.EchoLog(c, [], k, stop, batch, |k.finalPreprepares|)) +
                                [Transmit(c.nodes, NewEpochEcho(k))])
  {
    hide ReplicaVotes.EchoLog;
    var log := ReplicaVotes.EchoLog(c, [], k, stop, batch, |k.finalPreprepares|);
    var tasks := Appends(index, log) + [Transmit(c.nodes, NewEpochEcho(k))];
    EchoLogHas(c, k, stop, batch, |k.finalPreprepares|);
    var entries := before + Appended(tasks);
    forall i | 0 <= i < |log| ensures log[i] in entries {
      assert tasks[i] == Append(index + i, log[i]);
    }
    assert forall e :: e in log ==> e in entries;
    forall i | 0 <= i < |k.finalPreprepares|
      ensures HasQ(entries, k.startingCheckpoint.seqNo + 1 + i, k.finalPreprepares[i])
    {
      assert LogHasQ(log, k.startingCheckpoint.seqNo + 1 + i, k.finalPreprepares[i]);
    }
  }

  // ---------------------------------------------------------------- every list that is handed over

  /** A call of a sequence whose actions reach the processor. */
  datatype Call =
    | DoPrepare(source: NodeId, digest: Digest)
    | DoHash(digest: Digest)
    | DoAllocate(batch: seq<RequestAck>, outstanding: set<nat>)
    | DoSatisfy(request: nat)

  predicate Callable(s: Sequences.SeqState, call: Call) {
    match call
    case DoAllocate(_, _) => s.phase == Sequences.Uninitialized
    case DoSatisfy(request) => request in s.outstanding
    case _ => true
  }

  function CallActions(s: Sequences.SeqState, call: Call): seq<Sequences.Action>
    requires Callable(s, call)
  {
    match call
    case DoPrepare(source, d) => Sequences.ApplyPrepare(s, source, d).1
    case DoHash(d) => Sequences.ApplyHash(s, d).1
    case DoAllocate(batch, outstanding) => Sequences.Allocate(s, batch, outstanding).1
    case DoSatisfy(request) => Sequences.Satisfy(s, request).1
  }

  /** What the state machine joins into one action list: the actions of a sequence, the entries and message of
      an echoed configuration, and tasks whose messages depend on no log entry. */
  datatype Piece =
    | FromSequence(seqNo: nat, index: nat, targets: seq<NodeId>, s: Sequences.SeqState, call: Call)
    | FromEcho(c: NetworkConfig, config: NewEpochConfig, stop: nat, batch: Digest -> seq<RequestAck>, index: nat)
    | Others(tasks: seq<Task>)

  predicate IsPiece(p: Piece) {
    match p
    case FromSequence(_, _, _, s, call) => Callable(s, call)
    case FromEcho(c, _, _, _, _) => c.checkpointInterval > 0
    case Others(tasks) => forall i :: 0 <= i < |tasks| && tasks[i].Transmit? ==> tasks[i].msg.Free?
  }

  function PieceTasks(p: Piece): seq<Task>
    requires IsPiece(p)
  {
    match p
    case FromSequence(seqNo, index, targets, s, call) => TasksOf(seqNo, index, targets, CallActions(s, call))
    case FromEcho(c, k, stop, batch, index) =>
      Appends(index, ReplicaVotes.EchoLog(c, [], k, stop, batch, |k.finalPreprepares|))
      + [Transmit(c.nodes, NewEpochEcho(k))]
    case Others(tasks) => tasks
  }

  ghost predicate ArePieces(pieces: seq<Piece>) {
    forall i :: 0 <= i < |pieces| ==> IsPiece(pieces[i])
  }

  function Joined(pieces: seq<Piece>): seq<Task>
    requires forall i :: 0 <= i < |pieces| ==> IsPiece(pieces[i])
  {
    if pieces == [] then [] else Joined(pieces[..|pieces| - 1]) + PieceTasks(pieces[|pieces| - 1])
  }

  lemma PieceDisciplined(before: set<Entry>, p: Piece)
    requires IsPiece(p)
    ensures Disciplined(before, PieceTasks(p))
  {
    match p {
      case FromSequence(seqNo, index, targets, s, call) =>
        var d := if call.DoPrepare? || call.DoHash? then call.digest else NullDigest;
        var source := if call.DoPrepare? then call.source else 0;
        var batch := if call.DoAllocate? then call.batch else [];
        var outstanding := if call.DoAllocate? then call.outstanding else {};
        var request := if call.DoSatisfy? then call.request else 0;
        hide Disciplined;
        hide TasksOf;
        hide Sequences.ApplyPrepare;
        hide Sequences.ApplyHash;
        hide Sequences.Allocate;
        hide Sequences.Satisfy;
        OperationsDisciplined(before, seqNo, index, targets, s, source, d, batch, outstanding, request);
      case FromEcho(c, k, stop, batch, index) => EchoDisciplined(before, c, k, stop, batch, index);
      case Others(tasks) =>
    }
  }

  lemma {:induction false} JoinedDisciplined(before: set<Entry>, pieces: seq<Piece>)
    requires ArePieces(pieces)
    ensures Disciplined(before, Joined(pieces))
  {
    if pieces != [] {
      var init, last := pieces[..|pieces| - 1], pieces[|pieces| - 1];
      JoinedDisciplined(before, init);
      PieceDisciplined(before, last);
      hide PieceTasks;
      hide Disciplined;
      DisciplinedConcat(before, Joined(init), PieceTasks(last));
    }
  }

  /** The action lists of a state machine, each joined from its pieces. */
  ghost predicate AreHandedOver(lists: seq<seq<Task>>) {
    forall n :: 0 <= n < |lists| ==> IsJoined(lists[n])
  }

  ghost predicate IsJoined(tasks: seq<Task>) {
    exists pieces :: ArePieces(pieces) && tasks == Joined(pieces)
  }

  /** Over any number of lists joined from what the state machine produces, also if the processor fails in the
      middle of another one, no guarded message leaves before its entries were written and synced. */
  lemma HandedOverSafe(me: NodeId, lists: seq<seq<Task>>, tasks: seq<Task>)
    requires AreHandedOver(lists)
    ensures Safe(TraceOf(me, lists)) && Safe(TraceOf(me, lists) + Written(tasks))
  {
    hide Safe;
    hide TraceOf;
    forall n | 0 <= n < |lists| ensures Disciplined(AppendedBy(lists[..n]), lists[n]) {
      assert IsJoined(lists[n]);
      var pieces :| ArePieces(pieces) && lists[n] == Joined(pieces);
      JoinedDisciplined(AppendedBy(lists[..n]), pieces);
    }
    RunSafe(me, lists);
    FailureSafe(me, lists, tasks);
  }
}
