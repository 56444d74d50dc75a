/** Epoch change messages and their parsed, indexed form. */
module EpochChanges {
  import opened Types

  datatype SetEntry = SetEntry(epoch: nat, seqNo: nat, digest: Digest)

  datatype EpochChange = EpochChange(
    newEpoch: nat,
    checkpoints: seq<Checkpoint>,
    pSet: seq<SetEntry>,
    qSet: seq<SetEntry>)

  datatype ParsedEpochChange = ParsedEpochChange(
    underlying: EpochChange,
    pSet: map<nat, SetEntry>,
    qSet: map<nat, map<nat, Digest>>,
    lowWatermark: nat)

  ghost predicate DistinctSeqNos(entries: seq<SetEntry>) {
    forall i, j :: 0 <= i < j < |entries| ==> entries[i].seqNo != entries[j].seqNo
  }

  ghost predicate DistinctSlots(entries: seq<SetEntry>) {
    forall i, j :: 0 <= i < j < |entries| ==>
                     entries[i].seqNo != entries[j].seqNo || entries[i].epoch != entries[j].epoch
  }

  ghost predicate DistinctCheckpoints(checkpoints: seq<Checkpoint>) {
    forall i, j :: 0 <= i < j < |checkpoints| ==> checkpoints[i].seqNo != checkpoints[j].seqNo
  }

  /** The messages that parsing accepts.  Nothing is asked of the checkpoints but that there is one. */
  ghost predicate Parseable(m: EpochChange) {
    m.checkpoints != [] && DistinctSeqNos(m.pSet) && DistinctSlots(m.qSet)
  }

  function Last<T>(s: seq<T>): T
    requires s != []
  {
    s[|s| - 1]
  }

  function Init<T>(s: seq<T>): seq<T>
    requires s != []
  {
    s[..|s| - 1]
  }

  function PIndex(entries: seq<SetEntry>): map<nat, SetEntry> {
    if entries == [] then map[] else PIndex(Init(entries))[Last(entries).seqNo := Last(entries)]
  }

  function Views(index: map<nat, map<nat, Digest>>, s: nat): map<nat, Digest> {
    if s in index then index[s] else map[]
  }

  function QIndex(entries: seq<SetEntry>): map<nat, map<nat, Digest>> {
    if entries == [] then map[]
    else
      var index, entry := QIndex(Init(entries)), Last(entries);
      index[entry.seqNo := Views(index, entry.seqNo)[entry.epoch := entry.digest]]
  }

  function Lowest(checkpoints: seq<Checkpoint>): nat
    requires checkpoints != []
  {
    if |checkpoints| == 1 then checkpoints[0].seqNo
    else
      var low := Lowest(Init(checkpoints));
      if low > Last(checkpoints).seqNo then Last(checkpoints).seqNo else low
  }

  function Parsed(m: EpochChange): ParsedEpochChange
    requires m.checkpoints != []
  {
    ParsedEpochChange(m, PIndex(m.pSet), QIndex(m.qSet), Lowest(m.checkpoints))
  }

  predicate HasP(index: map<nat, SetEntry>, s: nat, e: nat, d: Digest) {
    s in index && index[s] == SetEntry(e, s, d)
  }

  predicate HasQ(index: map<nat, map<nat, Digest>>, s: nat, e: nat, d: Digest) {
    e in Views(index, s) && Views(index, s)[e] == d
  }

  lemma {:induction false} PIndexContent(entries: seq<SetEntry>, s: nat, e: nat, d: Digest)
    requires DistinctSeqNos(entries)
    ensures HasP(PIndex(entries), s, e, d) <==> SetEntry(e, s, d) in entries
    ensures s in PIndex(entries) ==> PIndex(entries)[s].seqNo == s && PIndex(entries)[s] in entries
  {
    if entries != [] {
      PIndexContent(Init(entries), s, e, d);
      assert entries == Init(entries) + [Last(entries)];
    }
  }

  lemma QIndexStep(entries: seq<SetEntry>, s: nat)
    requires entries != []
    ensures
      var last := Last(entries);
      Views(QIndex(entries), s) ==
      if last.seqNo == s then Views(QIndex(Init(entries)), s)[last.epoch := last.digest] else Views(QIndex(Init(entries)), s)
  {
  }

  lemma {:induction false} QIndexContent(entries: seq<SetEntry>, s: nat, e: nat, d: Digest)
    requires DistinctSlots(entries)
    ensures HasQ(QIndex(entries), s, e, d) <==> SetEntry(e, s, d) in entries
    ensures e in Views(QIndex(entries), s) <==>
            exists i :: 0 <= i < |entries| && entries[i].seqNo == s && entries[i].epoch == e
  {
    if entries != [] {
      var init, last := Init(entries), Last(entries);
      QIndexContent(init, s, e, d);
      QIndexStep(entries, s);
      hide QIndex;
      assert entries == init + [last];
      if last.seqNo == s && last.epoch == e {
        assert entries[|entries| - 1] == last;
        assert SetEntry(e, s, d) !in init;
      }
    }
  }

  lemma {:induction false} LowestIsLeast(checkpoints: seq<Checkpoint>)
    requires checkpoints != []
    ensures exists i :: 0 <= i < |checkpoints| && checkpoints[i].seqNo == Lowest(checkpoints)
    ensures forall i :: 0 <= i < |checkpoints| ==> Lowest(checkpoints) <= checkpoints[i].seqNo
  {
    if |checkpoints| == 1 {
      assert checkpoints[0].seqNo == Lowest(checkpoints);
    } else {
      assert checkpoints[|checkpoints| - 1] == Last(checkpoints);
      LowestIsLeast(Init(checkpoints));
      var i :| 0 <= i < |checkpoints| - 1 && Init(checkpoints)[i].seqNo == Lowest(Init(checkpoints));
      assert checkpoints[i].seqNo == Lowest(Init(checkpoints));
    }
  }

  /** The parsed form holds exactly the entries of an accepted message and its least checkpoint. */
  lemma ParsedContent(m: EpochChange, s: nat, e: nat, d: Digest)
    requires Parseable(m)
    ensures HasP(Parsed(m).pSet, s, e, d) <==> SetEntry(e, s, d) in m.pSet
    ensures HasQ(Parsed(m).qSet, s, e, d) <==> SetEntry(e, s, d) in m.qSet
    ensures exists i :: 0 <= i < |m.checkpoints| && m.checkpoints[i].seqNo == Parsed(m).lowWatermark
    ensures forall i :: 0 <= i < |m.checkpoints| ==> Parsed(m).lowWatermark <= m.checkpoints[i].seqNo
  {
    PIndexContent(m.pSet, s, e, d);
    QIndexContent(m.qSet, s, e, d);
    LowestIsLeast(m.checkpoints);
  }

  lemma PrefixStep<T>(s: seq<T>, k: nat)
    requires k < |s|
    ensures s[..k + 1] != [] && Init(s[..k + 1]) == s[..k] && Last(s[..k + 1]) == s[k]
  {
  }

  method ParsePSet(entries: seq<SetEntry>) returns (r: Option<map<nat, SetEntry>>)
    ensures r.Some? <==> DistinctSeqNos(entries)
    ensures r.Some? ==> r.value == PIndex(entries)
  {
    var index: map<nat, SetEntry> := map[];
    for k := 0 to |entries|
      invariant DistinctSeqNos(entries[..k])
      invariant index == PIndex(entries[..k])
    {
      var entry := entries[k];
      PrefixStep(entries, k);
      PIndexContent(entries[..k], entry.seqNo, entry.epoch, entry.digest);
      if entry.seqNo in index {
        var i :| 0 <= i < k && entries[..k][i] == index[entry.seqNo];
        assert entries[i].seqNo == entries[k].seqNo;
        return None;
      }
      forall i | 0 <= i < k ensures entries[i].seqNo != entry.seqNo {
        var prior := entries[..k][i];
        PIndexContent(entries[..k], prior.seqNo, prior.epoch, prior.digest);
      }
      index := index[entry.seqNo := entry];
    }
    assert entries[..|entries|] == entries;
    return Some(index);
  }

  method ParseQSet(entries: seq<SetEntry>) returns (r: Option<map<nat, map<nat, Digest>>>)
    ensures r.Some? <==> DistinctSlots(entries)
    ensures r.Some? ==> r.value == QIndex(entries)
  {
    var index: map<nat, map<nat, Digest>> := map[];
    for k := 0 to |entries|
      invariant DistinctSlots(entries[..k])
      invariant index == QIndex(entries[..k])
    {
      var entry := entries[k];
      PrefixStep(entries, k);
      QIndexContent(entries[..k], entry.seqNo, entry.epoch, entry.digest);
      var views := if entry.seqNo in index then index[entry.seqNo] else map[];
      if entry.epoch in views {
        var i :| 0 <= i < k && entries[..k][i].seqNo == entry.seqNo && entries[..k][i].epoch == entry.epoch;
        assert entries[i].seqNo == entries[k].seqNo;
        return None;
      }
      forall i | 0 <= i < k ensures entries[i].seqNo != entry.seqNo || entries[i].epoch != entry.epoch {
        assert entries[..k][i] == entries[i];
      }
      index := index[entry.seqNo := views[entry.epoch := entry.digest]];
    }
    assert entries[..|entries|] == entries;
    return Some(index);
  }

  /** Parsing succeeds exactly on the parseable messages.  The loop over the checkpoints compares
      against a table that is never filled, so repeated checkpoint numbers are not rejected. */
  method ParseEpochChange(m: EpochChange) returns (r: Option<ParsedEpochChange>)
    ensures r.Some? <==> Parseable(m)
    ensures r.Some? ==> r.value == Parsed(m)
  {
    if m.checkpoints == [] {
      return None;
    }
    var low := m.checkpoints[0].seqNo;
    var seen: map<nat, Checkpoint> := map[];
    for k := 0 to |m.checkpoints|
      invariant seen == map[]
      invariant low == if k == 0 then m.checkpoints[0].seqNo else Lowest(m.checkpoints[..k])
    {
      var checkpoint := m.checkpoints[k];
      PrefixStep(m.checkpoints, k);
      if low > checkpoint.seqNo {
        low := checkpoint.seqNo;
      }
      if checkpoint.seqNo in seen {
        return None;
      }
    }
    assert m.checkpoints[..|m.checkpoints|] == m.checkpoints;
    var pSet := ParsePSet(m.pSet);
    if pSet.None? {
      return None;
    }
    var qSet := ParseQSet(m.qSet);
    if qSet.None? {
      return None;
    }
    r := Some(ParsedEpochChange(m, pSet.value, qSet.value, low));
  }

  /** A message may name one checkpoint twice and still be accepted. */
  lemma RepeatedCheckpointAccepted(epoch: nat, checkpoint: Checkpoint)
    ensures
      var m := EpochChange(epoch, [checkpoint, checkpoint], [], []);
      Parseable(m) && !DistinctCheckpoints(m.checkpoints)
  {
    assert [checkpoint, checkpoint][0].seqNo == [checkpoint, checkpoint][1].seqNo;
  }
}
