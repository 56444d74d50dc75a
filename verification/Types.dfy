/** Values shared by the components of the replica state machine. */
module Types {

  datatype Option<+T> = None | Some(value: T)

  type NodeId = nat

  /** The acknowledgement of one client request; request digests are compared only for equality. */
  datatype RequestAck = RequestAck(clientId: nat, reqNo: nat, digest: nat)

  /** The digest of a batch.  Hashing is a free constructor over the request digests it reads,
      and the absent digest of a no-op batch is a value of its own. */
  datatype Digest = NullDigest | BatchDigest(requests: seq<nat>)

  function HashBatch(batch: seq<RequestAck>): Digest {
    BatchDigest(seq(|batch|, i requires 0 <= i < |batch| => batch[i].digest))
  }

  datatype NetworkConfig = NetworkConfig(
    nodes: seq<NodeId>,
    f: nat,
    numberOfBuckets: nat,
    checkpointInterval: nat,
    maxEpochLength: nat)
  {
    predicate Valid() {
      && (forall i, j :: 0 <= i < j < |nodes| ==> nodes[i] != nodes[j])
      && |nodes| >= 3 * f + 1
      && numberOfBuckets > 0
      && checkpointInterval > 0
    }
  }

  datatype EpochConfig = EpochConfig(number: nat, leaders: seq<NodeId>, plannedExpiration: nat)

  /** A checkpoint number with the application's value for it. */
  datatype Checkpoint = Checkpoint(seqNo: nat, value: nat)

  datatype NewEpochConfig = NewEpochConfig(
    config: EpochConfig,
    startingCheckpoint: Checkpoint,
    finalPreprepares: seq<Digest>)

  lemma Associative<T>(a: seq<T>, b: seq<T>, c: seq<T>)
    ensures a + (b + c) == a + b + c
  {
  }
}
