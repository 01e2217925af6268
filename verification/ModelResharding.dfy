/**
 The end-to-end statement for whole models: resolved metadata on both sides, any
 number of parameters, and each inference rank executing only what its local plan lists.
 */
module ModelResharding {
  import opened Basics
  import opened SequenceFacts
  import opened Sequences
  import opened PowersOfTwo
  import opened ParamMeta
  import opened TransferPlan
  import opened PlanAgreement
  import opened Resharding

  // ---------------------------------------------------------------- what the resolver establishes

  /** Every shard has the extents of the first replica outside dim, and the replica the same extent along dim. */
  ghost predicate SameExtents(replica: seq<ParameterShardMeta>, first: seq<ParameterShardMeta>, n: nat, dim: nat)
    requires Dims(replica, n) && Dims(first, n) && first != [] && dim < n
  {
    && (forall k, i | 0 <= k < |replica| && 0 <= i < n && i != dim ::
          replica[k].info.shape[i] == first[0].info.shape[i])
    && DimSum(replica, dim) == DimSum(first, dim)
  }

  lemma {:induction false} SnapshotByIndex(replica: seq<ParameterShardMeta>)
    ensures |Snapshot(replica)| == |replica|
    ensures forall k | 0 <= k < |replica| :: Snapshot(replica)[k] == Shard(replica[k].info, replica[k].globalOffset)
  {
    if replica != [] { SnapshotByIndex(replica[..|replica| - 1]); }
  }

  lemma {:induction false} ExtentIsDimSum(replica: seq<ParameterShardMeta>, k: nat, n: nat, dim: nat)
    requires k <= |replica| && Dims(replica, n) && dim < n
    ensures |Snapshot(replica)| == |replica|
    ensures forall i | 0 <= i < k :: dim < |Snapshot(replica)[i].info.shape|
    ensures Extent(Snapshot(replica), k, dim) == DimSum(replica[..k], dim)
  {
    SnapshotByIndex(replica);
    if k > 0 {
      ExtentIsDimSum(replica, k - 1, n, dim);
      assert replica[..k][..k - 1] == replica[..k - 1];
    }
  }

  /** Once its offsets are assigned, a replica tiles the global tensor if and only if its extents agree with the first replica's. */
  lemma ResolvedIffSameExtents(
    replica: seq<ParameterShardMeta>, first: seq<ParameterShardMeta>, n: nat, dim: nat)
    requires OffsetsAssigned(replica, n, dim) && replica != [] && Dims(first, n) && first != [] && dim < n
    ensures Resolved(Snapshot(replica), GlobalShape(first, n, dim), dim) <==> SameExtents(replica, first, n, dim)
  {
    SnapshotByIndex(replica);
    var shards, shape := Snapshot(replica), GlobalShape(first, n, dim);
    forall k | 0 <= k <= |replica|
      ensures forall i | 0 <= i < k :: dim < |shards[i].info.shape|
      ensures Extent(shards, k, dim) == DimSum(replica[..k], dim)
    {
      ExtentIsDimSum(replica, k, n, dim);
    }
    TakeAll(replica);
    if Resolved(shards, shape, dim) {
      forall k, i | 0 <= k < |replica| && 0 <= i < n && i != dim
        ensures replica[k].info.shape[i] == first[0].info.shape[i]
      {
        assert shards[k].info.shape[i] == shape[i];
      }
    }
  }

  // ---------------------------------------------------------------- one receiver per rank

  function GlobalRanks(shards: seq<Shard>): seq<nat> {
    seq(|shards|, i requires 0 <= i < |shards| => shards[i].info.globalRank)
  }

  function Ranks(receivers: seq<ShardOffset>): seq<nat> {
    seq(|receivers|, i requires 0 <= i < |receivers| => receivers[i].rank)
  }

  /** All shards of one engine, replica by replica. */
  ghost predicate EngineRanksDistinct(replicas: seq<seq<Shard>>, instance: nat) {
    && Distinct(GlobalRanks(Flatten(replicas)))
    && forall i | 0 <= i < |Flatten(replicas)| :: Flatten(replicas)[i].info.globalRank < instance
  }

  /** The transfer ranks of shards whose engine starts at this rank. */
  function Lifted(shards: seq<Shard>, start: nat): seq<nat> {
    seq(|shards|, i requires 0 <= i < |shards| => shards[i].info.globalRank + start)
  }

  lemma ReceiverRanks(w: World, shards: seq<Shard>, engine: nat, start: nat)
    requires FirstDefect(shards).None? && start == engine * w.instanceWorldSize
    ensures Ranks(ReceiversOf(w, (engine, shards))) == Lifted(shards, start)
  {
    PlacedByIndex(w, shards, engine, true);
  }

  /** From this position on, the list holds one engine's replicas. */
  ghost predicate HoldsEngine(infs: seq<(nat, seq<Shard>)>, base: nat, engine: nat, replicas: seq<seq<Shard>>) {
    base + |replicas| == |infs| && forall i | 0 <= i < |replicas| :: infs[base + i] == (engine, replicas[i])
  }

  /** The receivers of one more replica of an engine, and their transfer ranks. */
  lemma NextReplica(
    w: World, infs: seq<(nat, seq<Shard>)>, k: nat, some: seq<ShardOffset>, block: seq<Shard>, before: seq<ShardOffset>,
    engine: nat, last: seq<Shard>, start: nat)
    returns (receivers: seq<ShardOffset>)
    requires 0 < k <= |infs| && Receivers(w, infs, k - 1) == before && infs[k - 1] == (engine, last)
    requires FirstDefect(last).None? && Ranks(before) == Ranks(some) + Lifted(block, start)
    requires start == engine * w.instanceWorldSize
    ensures receivers == Receivers(w, infs, k) && Ranks(receivers) == Ranks(some) + Lifted(block + last, start)
  {
    receivers := before + ReceiversOf(w, (engine, last));
    ReceiverRanks(w, last, engine, start);
    EngineBlockStep(some, before, ReceiversOf(w, (engine, last)), block, last, start);
  }

  lemma {:induction false} EngineBlock(
    w: World, replicas: seq<seq<Shard>>, infs: seq<(nat, seq<Shard>)>, base: nat, some: seq<ShardOffset>, engine: nat,
    start: nat, r: nat)
    returns (receivers: seq<ShardOffset>, block: seq<Shard>)
    requires r <= |replicas| && HoldsEngine(infs, base, engine, replicas)
    requires Receivers(w, infs, base) == some
    requires forall i | 0 <= i < |replicas| :: FirstDefect(replicas[i]).None?
    requires start == engine * w.instanceWorldSize
    ensures receivers == Receivers(w, infs, base + r) && block == Flatten(replicas[..r])
    ensures Ranks(receivers) == Ranks(some) + Lifted(block, start)
  {
    if r == 0 {
      receivers, block := some, [];
      EmptySuffix(Ranks(some));
    } else {
      var last := replicas[r - 1];
      var before, done := EngineBlock(w, replicas, infs, base, some, engine, start, r - 1);
      assert infs[base + (r - 1)] == (engine, last);
      receivers := NextReplica(w, infs, base + r, some, done, before, engine, last, start);
      block := done + last;
      TakeNext(replicas, r - 1);
      FlattenSnoc(replicas[..r - 1], last);
    }
  }

  lemma EngineBlockStep(
    base: seq<ShardOffset>, before: seq<ShardOffset>, now: seq<ShardOffset>,
    shards: seq<Shard>, last: seq<Shard>, start: nat)
    requires Ranks(before) == Ranks(base) + Lifted(shards, start) && Ranks(now) == Lifted(last, start)
    ensures Ranks(before + now) == Ranks(base) + Lifted(shards + last, start)
  {
    assert Ranks(before + now) == Ranks(before) + Ranks(now);
    assert Lifted(shards + last, start) == Lifted(shards, start) + Lifted(last, start);
  }

  lemma {:induction false} ReceiversOfPrefix(w: World, some: seq<(nat, seq<Shard>)>, all: seq<(nat, seq<Shard>)>, k: nat)
    requires k <= |some| && some <= all
    ensures Receivers(w, some, k) == Receivers(w, all, k)
  {
    if k > 0 { ReceiversOfPrefix(w, some, all, k - 1); }
  }

  ghost predicate DistinctBelow(receivers: seq<ShardOffset>, bound: nat) {
    DistinctRanks(receivers) && forall i | 0 <= i < |receivers| :: receivers[i].rank < bound
  }

  /** One more engine adds its shards, lifted to the engine's first rank. */
  lemma NextEngine(
    w: World, replicas: seq<seq<Shard>>, engines: nat, start: nat, before: seq<(nat, seq<Shard>)>, some: seq<ShardOffset>)
    returns (infs: seq<(nat, seq<Shard>)>, all: seq<ShardOffset>)
    requires forall i | 0 <= i < |replicas| :: FirstDefect(replicas[i]).None?
    requires before == EngineReplicas(replicas, engines) && some == Receivers(w, before, |before|)
    requires start == engines * w.instanceWorldSize
    ensures infs == EngineReplicas(replicas, engines + 1) && all == Receivers(w, infs, |infs|)
    ensures Ranks(all) == Ranks(some) + Lifted(Flatten(replicas), start)
  {
    infs := EngineReplicas(replicas, engines + 1);
    EngineSplit(replicas, engines, before, infs);
    ReceiversOfPrefix(w, before, infs, |before|);
    TakeAll(replicas);
    var block;
    all, block := EngineBlock(w, replicas, infs, |before|, some, engines, start, |replicas|);
  }

  lemma EngineSplit(replicas: seq<seq<Shard>>, engines: nat, before: seq<(nat, seq<Shard>)>, infs: seq<(nat, seq<Shard>)>)
    requires before == EngineReplicas(replicas, engines) && infs == EngineReplicas(replicas, engines + 1)
    ensures before <= infs && HoldsEngine(infs, |before|, engines, replicas)
  {
  }

  /** Shards on distinct ranks of one instance sit on distinct transfer ranks across all engines. */
  lemma {:induction false} ReceiversDistinct(w: World, replicas: seq<seq<Shard>>, engines: nat)
    returns (infs: seq<(nat, seq<Shard>)>, all: seq<ShardOffset>)
    requires EngineRanksDistinct(replicas, w.instanceWorldSize)
    requires forall i | 0 <= i < |replicas| :: FirstDefect(replicas[i]).None?
    ensures infs == EngineReplicas(replicas, engines) && all == Receivers(w, infs, |infs|)
    ensures DistinctBelow(all, engines * w.instanceWorldSize)
    decreases engines
  {
    infs, all := [], [];
    if engines > 0 {
      var start := (engines - 1) * w.instanceWorldSize;
      assert start + w.instanceWorldSize == engines * w.instanceWorldSize;
      var before, some := ReceiversDistinct(w, replicas, engines - 1);
      infs, all := NextEngine(w, replicas, engines - 1, start, before, some);
      BlockDistinct(some, all, Flatten(replicas), w.instanceWorldSize, start);
    }
  }

  lemma BlockDistinct(some: seq<ShardOffset>, all: seq<ShardOffset>, block: seq<Shard>, inst: nat, start: nat)
    requires DistinctBelow(some, start)
    requires Distinct(GlobalRanks(block)) && forall i | 0 <= i < |block| :: block[i].info.globalRank < inst
    requires Ranks(all) == Ranks(some) + Lifted(block, start)
    ensures DistinctBelow(all, start + inst)
  {
    var ranks := Ranks(all);
    forall i | 0 <= i < |all|
      ensures all[i].rank == if i < |some| then some[i].rank else GlobalRanks(block)[i - |some|] + start
    {
      assert ranks[i] == all[i].rank;
      if i < |some| { assert ranks[i] == Ranks(some)[i]; }
    }
  }

  // ---------------------------------------------------------------- whole models

  /** The dimension each parameter is sharded along on the two sides. */
  datatype Layout = Layout(infDim: string -> nat, trainDim: string -> nat)

  type Dict = map<string, ParameterMeta>

  /** Every listed parameter describes one tensor on both sides and has one shard per inference rank. */
  ghost predicate ModelReady(w: World, infer: Dict, train: Dict, names: seq<string>, layout: Layout, dims: string -> nat) {
    && w.numInferEngines > 0
    && UniformModel(infer, train, dims)
    && (forall name <- names :: name in infer && name in train)
    && (forall name <- names :: ParameterReady(w, infer[name], train[name], name, layout, dims))
  }

  ghost predicate ParameterReady(
    w: World, inf: ParameterMeta, train: ParameterMeta, name: string, layout: Layout, dims: string -> nat) {
    && inf.name == name
    && SameTensor(inf, layout.infDim(name), train, layout.trainDim(name))
    && dims(name) == |inf.globalShape|
    && DistinctRanks(AllReceivers(w, inf))
  }

  lemma ReceiverNames(w: World, inf: ParameterMeta, infDim: nat, o: ShardOffset)
    requires ResolvedMeta(inf, infDim) && o in AllReceivers(w, inf)
    ensures o.shard.info.name == inf.name && |o.start| == |inf.globalShape|
  {
    var infs := EngineReplicas(inf.replicas, w.numInferEngines);
    var i, k := ReceiverAt(w, infs, |infs|, o);
    var e, r := EngineReplicaAt(inf.replicas, w.numInferEngines, i);
    assert Resolved(inf.replicas[r], inf.globalShape, infDim);
  }

  lemma {:induction false} ReceiverAt(w: World, infs: seq<(nat, seq<Shard>)>, m: nat, o: ShardOffset)
    returns (i: nat, k: nat)
    requires m <= |infs| && o in Receivers(w, infs, m)
    ensures i < m && k < |infs[i].1| && o.shard == infs[i].1[k] && o.start == infs[i].1[k].offset
    ensures ShardDefect(o.shard).None? && o == Placed(w, o.shard, infs[i].0, true)
  {
    if o in Receivers(w, infs, m - 1) {
      i, k := ReceiverAt(w, infs, m - 1, o);
    } else {
      i := m - 1;
      var inf := infs[i];
      PlacedByIndex(w, inf.1, inf.0, true);
      var j :| 0 <= j < |ReceiversOf(w, inf)| && ReceiversOf(w, inf)[j] == o;
      k := j;
    }
  }

  /** The operations of a parameter write only that parameter. */
  lemma ParameterOperations(
    w: World, inf: ParameterMeta, train: ParameterMeta, name: string, layout: Layout, dims: string -> nat)
    requires w.numInferEngines > 0 && ParameterReady(w, inf, train, name, layout, dims)
    ensures UniformReplicas(inf.replicas, dims(name)) && UniformReplicas(train.replicas, dims(name))
    ensures ParameterPlan(w, inf, train, None, dims(name)).Ok?
    ensures forall op <- ParameterPlan(w, inf, train, None, dims(name)).value ::
      && op.recvShard.info.name == name && op.sendShard.info.name == name
      && SoundOperation(w, op, AllReceivers(w, inf), train.replicas, dims(name))
  {
    var n := dims(name);
    var infs := EngineReplicas(inf.replicas, w.numInferEngines);
    SameTensorIsReady(w, inf, layout.infDim(name), train, layout.trainDim(name));
    ParameterWrites(w, inf, layout.infDim(name), train, layout.trainDim(name), 0, seq(n, _ => 0));
    PairsSound(w, infs, train.replicas, |infs|, n);
    forall op <- ParameterPlan(w, inf, train, None, n).value
      ensures op.recvShard.info.name == name && op.sendShard.info.name == name
    {
      SendNames(w, op, AllReceivers(w, inf), train, layout.trainDim(name), n);
      var o, source :| o in AllReceivers(w, inf) && IsTrainShard(w, train.replicas, source) && Moves(op, o, source, n);
      ReceiverNames(w, inf, layout.infDim(name), o);
    }
  }

  lemma ForeignWrites(ops: seq<Operation>, other: string, recv: nat, name: string, c: Coord)
    requires other != name && forall op <- ops :: op.recvShard.info.name == other
    ensures Count(Hits(recv, name, c), ops) == 0
  {
    FilterNone(Hits(recv, name, c), ops);
  }

  /** In the plan of the listed parameters, name is written exactly as its own parameter plan writes it. */
  lemma {:induction false} NamesWrite(
    w: World, infer: Dict, train: Dict, names: seq<string>, layout: Layout, dims: string -> nat,
    recv: nat, name: string, c: Coord)
    requires ModelReady(w, infer, train, names, layout, dims) && Distinct(names)
    requires name in infer && |c| == |infer[name].globalShape|
    ensures NamesPlan(w, infer, train, names, None, dims).Ok?
    ensures Count(Hits(recv, name, c), NamesPlan(w, infer, train, names, None, dims).value)
         == if name in names then Count(Receives(recv, c), AllReceivers(w, infer[name])) else 0
  {
    if names != [] {
      var init, last := names[..|names| - 1], names[|names| - 1];
      NamesWrite(w, infer, train, init, layout, dims, recv, name, c);
      assert last in names;
      ParameterOperations(w, infer[last], train[last], last, layout, dims);
      var before, now := NamesPlan(w, infer, train, init, None, dims).value, ParameterPlan(w, infer[last], train[last], None, dims(last)).value;
      FilterConcat(Hits(recv, name, c), before, now);
      if last == name {
        ParameterWrites(w, infer[name], layout.infDim(name), train[name], layout.trainDim(name), recv, c);
        assert name !in init;
      } else {
        ForeignWrites(now, last, recv, name, c);
      }
    }
  }

  /** Every operation of the plan belongs to one listed parameter and moves an overlap of its shards. */
  lemma {:induction false} NamesSound(
    w: World, infer: Dict, train: Dict, names: seq<string>, layout: Layout, dims: string -> nat, op: Operation)
    returns (name: string)
    requires ModelReady(w, infer, train, names, layout, dims)
    requires NamesPlan(w, infer, train, names, None, dims).Ok?
    requires op in NamesPlan(w, infer, train, names, None, dims).value
    ensures name in names && op.recvShard.info.name == name && op.sendShard.info.name == name
    ensures SoundOperation(w, op, AllReceivers(w, infer[name]), train[name].replicas, dims(name))
  {
    var init, last := names[..|names| - 1], names[|names| - 1];
    if op in NamesPlan(w, infer, train, init, None, dims).value {
      name := NamesSound(w, infer, train, init, layout, dims, op);
    } else {
      assert last in names;
      ParameterOperations(w, infer[last], train[last], last, layout, dims);
      name := last;
    }
  }

  /** The training ranks hold the global value of every listed parameter. */
  ghost predicate TrainHolds<V(!new)>(
    w: World, train: Dict, names: seq<string>, memory: Memory<V>, global: (string, Coord) -> V) {
    forall name <- names | name in train ::
      HoldsGlobal(w, train[name].replicas, name, memory, (g: Coord) => global(name, g))
  }

  /**
   End to end, for a model: executing on rank o.rank any operations that permute what the
   plan addresses to that rank, in any order and mixed with operations for other ranks,
   writes each element of its shard of each common parameter exactly once, with the value
   the global tensor has at that element's global coordinate, and writes nothing else.
   */
  lemma ModelResharded<V(!new)>(
    w: World, infer: Dict, train: Dict, names: seq<string>, layout: Layout, dims: string -> nat,
    ops: seq<Operation>, trainMemory: Memory<V>, inferMemory: Memory<V>, global: (string, Coord) -> V,
    name: string, o: ShardOffset, c: Coord)
    requires ModelReady(w, infer, train, names, layout, dims) && Distinct(names)
    requires name in names && o in AllReceivers(w, infer[name]) && |c| == |infer[name].globalShape|
    requires TrainHolds(w, train, names, trainMemory, global)
    ensures NamesPlan(w, infer, train, names, None, dims).Ok?
    ensures |o.start| == |c|
    ensures
      multiset(Filter(RecvsAt(o.rank), ops))
      == multiset(Filter(RecvsAt(o.rank), NamesPlan(w, infer, train, names, None, dims).value))
      ==>
      && Count(Hits(o.rank, name, c), ops) == (if LocalTo(c, o) then 1 else 0)
      && Execute(ops, trainMemory, inferMemory)(o.rank, name, c)
         == if LocalTo(c, o) then global(name, Shift(c, o.start)) else inferMemory(o.rank, name, c)
  {
    NamesWrite(w, infer, train, names, layout, dims, o.rank, name, c);
    ReceiverNames(w, infer[name], layout.infDim(name), o);
    var plan := NamesPlan(w, infer, train, names, None, dims).value;
    var receivers := AllReceivers(w, infer[name]);
    OneReceiver(receivers, o, c);
    if multiset(Filter(RecvsAt(o.rank), ops)) == multiset(Filter(RecvsAt(o.rank), plan)) {
      HitsAreReceived(ops, o.rank, name, c);
      HitsAreReceived(plan, o.rank, name, c);
      CountPermutation(Hits(o.rank, name, c), Filter(RecvsAt(o.rank), ops), Filter(RecvsAt(o.rank), plan));
      forall op <- ops
        ensures Delivers(op, trainMemory, o.rank, name, c, global(name, Shift(c, o.start)))
      {
        if WritesAt(op, o.rank, name, c) {
          FilterMembers(RecvsAt(o.rank), ops);
          FilterMembers(RecvsAt(o.rank), plan);
          assert op in multiset(Filter(RecvsAt(o.rank), plan));
          var owner := NamesSound(w, infer, train, names, layout, dims, op);
          SoundDelivers(
            w, op, receivers, o, train[name].replicas, dims(name), name, c, trainMemory, (g: Coord) => global(name, g));
        }
      }
      ExecuteMeaning(ops, trainMemory, inferMemory, o.rank, name, c, global(name, Shift(c, o.start)));
    }
  }

  lemma HitsAreReceived(ops: seq<Operation>, recv: nat, name: string, c: Coord)
    ensures Count(Hits(recv, name, c), Filter(RecvsAt(recv), ops)) == Count(Hits(recv, name, c), ops)
  {
    FilterTwiceIs(Hits(recv, name, c), RecvsAt(recv), Hits(recv, name, c), ops);
  }
}
