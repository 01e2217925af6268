/**
 From the resolver to the plan: the metadata that resolving both sides leaves behind describes one
 tensor, ready to be planned, exactly when every replica has the extents of the first.
 */
module ResolvedModel {
  import opened Basics
  import opened SequenceFacts
  import opened Sequences
  import opened ParamMeta
  import opened TransferPlan
  import opened Resharding
  import opened ModelResharding

  function Snapshots(replicas: seq<seq<ParameterShardMeta>>): seq<seq<Shard>>
    reads set r, s | r in replicas && s in r :: s
  {
    if replicas == [] then []
    else
      assert replicas[|replicas| - 1] in replicas;
      Snapshots(replicas[..|replicas| - 1]) + [Snapshot(replicas[|replicas| - 1])]
  }

  lemma {:induction false} SnapshotsByIndex(replicas: seq<seq<ParameterShardMeta>>)
    ensures |Snapshots(replicas)| == |replicas|
    ensures forall r | 0 <= r < |replicas| :: Snapshots(replicas)[r] == Snapshot(replicas[r])
  {
    if replicas != [] { SnapshotsByIndex(replicas[..|replicas| - 1]); }
  }

  ghost predicate ReadyReplica(replicas: seq<seq<ParameterShardMeta>>, r: nat, n: nat, dim: nat)
    requires r < |replicas|
    reads set r, s | r in replicas && s in r :: s
  {
    assert replicas[r] in replicas;
    OffsetsAssigned(replicas[r], n, dim)
  }

  /** One side of a parameter as the resolver leaves it: its replicas, with their offsets, of one name. */
  ghost predicate Side(replicas: seq<seq<ParameterShardMeta>>, name: string, n: nat, dim: nat)
    reads set r, s | r in replicas && s in r :: s
  {
    && replicas != [] && replicas[0] != [] && dim < n
    && (forall r | 0 <= r < |replicas| :: ReadyReplica(replicas, r, n, dim))
    && forall replica <- replicas :: forall shard <- replica :: shard.info.name == name
  }

  /** The metadata of that side. */
  ghost function MetaOf(replicas: seq<seq<ParameterShardMeta>>, name: string, n: nat, dim: nat): ParameterMeta
    requires Side(replicas, name, n, dim)
    reads set r, s | r in replicas && s in r :: s
  {
    assert ReadyReplica(replicas, 0, n, dim);
    ParameterMeta(name, GlobalShape(replicas[0], n, dim), Snapshots(replicas))
  }

  /** Every replica has shards and the extents of the first replica. */
  ghost predicate OneTensor(replicas: seq<seq<ParameterShardMeta>>, name: string, n: nat, dim: nat)
    requires Side(replicas, name, n, dim)
    reads set r, s | r in replicas && s in r :: s
  {
    assert ReadyReplica(replicas, 0, n, dim);
    forall r | 0 <= r < |replicas| ::
      assert ReadyReplica(replicas, r, n, dim);
      replicas[r] != [] && SameExtents(replicas[r], replicas[0], n, dim)
  }

  /** The resolved metadata is consistent exactly when its replicas are replicas of one tensor. */
  lemma SideIsResolved(replicas: seq<seq<ParameterShardMeta>>, name: string, n: nat, dim: nat)
    requires Side(replicas, name, n, dim)
    ensures ResolvedMeta(MetaOf(replicas, name, n, dim), dim) <==> OneTensor(replicas, name, n, dim)
  {
    var meta := MetaOf(replicas, name, n, dim);
    SnapshotsByIndex(replicas);
    forall r | 0 <= r < |replicas|
      ensures |Snapshot(replicas[r])| == |replicas[r]|
      ensures forall k | 0 <= k < |replicas[r]| :: Snapshot(replicas[r])[k].info.name == name
      ensures OffsetsAssigned(replicas[r], n, dim) && OffsetsAssigned(replicas[0], n, dim)
      ensures Resolved(meta.replicas[r], meta.globalShape, dim)
         <==> replicas[r] != [] && SameExtents(replicas[r], replicas[0], n, dim)
    {
      assert replicas[r] in replicas && ReadyReplica(replicas, r, n, dim) && ReadyReplica(replicas, 0, n, dim);
      SnapshotByIndex(replicas[r]);
      forall k | 0 <= k < |replicas[r]| ensures replicas[r][k].info.name == name { assert replicas[r][k] in replicas[r]; }
      if replicas[r] != [] { ResolvedIffSameExtents(replicas[r], replicas[0], n, dim); }
    }
  }

  lemma {:induction false} NoDefect(replica: seq<ParameterShardMeta>, n: nat, k: nat)
    requires k <= |replica| && Dims(replica, n) && n > 0
    requires forall i | 0 <= i < |replica| :: |replica[i].globalOffset| == n
    ensures |Snapshot(replica)| == |replica| && FirstDefect(Snapshot(replica)[..k]).None?
  {
    SnapshotByIndex(replica);
    if k > 0 {
      NoDefect(replica, n, k - 1);
      TakeInit(Snapshot(replica), k - 1);
      assert replica[k - 1] in replica;
    }
  }

  lemma SideHasNoDefect(replicas: seq<seq<ParameterShardMeta>>, name: string, n: nat, dim: nat)
    requires Side(replicas, name, n, dim)
    ensures forall r | 0 <= r < |Snapshots(replicas)| :: FirstDefect(Snapshots(replicas)[r]).None?
  {
    SnapshotsByIndex(replicas);
    forall r | 0 <= r < |replicas| ensures FirstDefect(Snapshot(replicas[r])).None? {
      assert ReadyReplica(replicas, r, n, dim);
      NoDefect(replicas[r], n, |replicas[r]|);
      TakeAll(Snapshot(replicas[r]));
    }
  }

  /**
   A parameter resolved on both sides with the same global shape, on distinct ranks of each
   inference engine, is ready for planning exactly when both sides are replicas of one tensor.
   */
  lemma ResolvedIsReady(
    w: World, name: string, inf: seq<seq<ParameterShardMeta>>, train: seq<seq<ParameterShardMeta>>, n: nat,
    layout: Layout, dims: string -> nat)
    requires Side(inf, name, n, layout.infDim(name)) && Side(train, name, n, layout.trainDim(name))
    requires MetaOf(inf, name, n, layout.infDim(name)).globalShape
          == MetaOf(train, name, n, layout.trainDim(name)).globalShape
    requires dims(name) == n && EngineRanksDistinct(Snapshots(inf), w.instanceWorldSize)
    ensures ParameterReady(
        w, MetaOf(inf, name, n, layout.infDim(name)), MetaOf(train, name, n, layout.trainDim(name)), name, layout, dims)
      <==> OneTensor(inf, name, n, layout.infDim(name)) && OneTensor(train, name, n, layout.trainDim(name))
  {
    SideIsResolved(inf, name, n, layout.infDim(name));
    SideIsResolved(train, name, n, layout.trainDim(name));
    SnapshotsByIndex(inf);
    SnapshotsByIndex(train);
    SideHasNoDefect(inf, name, n, layout.infDim(name));
    var infs, all := ReceiversDistinct(w, Snapshots(inf), w.numInferEngines);
  }
}
