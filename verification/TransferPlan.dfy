/**
 The transfer planner: replicas are paired round-robin, every pair of overlapping shards
 becomes one operation, and each rank keeps the operations it takes part in, grouped by
 peer and stably sorted. A rank may prune shards of other ranks while planning.
 */
module TransferPlan {
  import opened Basics
  import opened SequenceFacts
  import opened Sequences
  import opened ParamMeta
  import opened PowersOfTwo

  datatype Interval = Interval(start: int, stop: int)

  /** A shard placed in the global tensor and on its transfer rank. */
  datatype ShardOffset = ShardOffset(shard: Shard, start: seq<int>, end: seq<int>, rank: nat)

  datatype Region = Region(inf: ShardOffset, train: ShardOffset, start: seq<int>, end: seq<int>)

  datatype Operation = Operation(
    sendRank: nat, sendShard: Shard, sendOffset: seq<int>,
    recvRank: nat, recvShard: Shard, recvOffset: seq<int>,
    overlapShape: seq<int>, trainSlices: seq<Interval>, infSlices: seq<Interval>)

  datatype PlanError = NoReplicas | EmptyReplica | EmptyOffset | DimensionMismatch | KeyMismatch

  function IntMax(a: int, b: int): int { if a >= b then a else b }

  function IntMin(a: int, b: int): int { if a <= b then a else b }

  /** World geometry shared by every planning process. */
  datatype World = World(inferWorldSize: nat, instanceWorldSize: nat, numInferEngines: nat)

  // ---------------------------------------------------------------- what a plan is

  function TransferRank(w: World, shard: Shard, engine: nat, isInfer: bool): nat {
    if isInfer then shard.info.globalRank + engine * w.instanceWorldSize
    else shard.info.globalRank + w.inferWorldSize
  }

  function AddSeq(a: seq<int>, b: seq<int>): seq<int>
    requires |a| == |b|
  {
    seq(|a|, i requires 0 <= i < |a| => a[i] + b[i])
  }

  function SubSeq(a: seq<int>, b: seq<int>): seq<int>
    requires |a| == |b|
  {
    seq(|a|, i requires 0 <= i < |a| => a[i] - b[i])
  }

  function Intervals(offset: seq<int>, shape: seq<int>): seq<Interval>
    requires |offset| == |shape|
  {
    seq(|offset|, i requires 0 <= i < |offset| => Interval(offset[i], offset[i] + shape[i]))
  }

  function ShardDefect(shard: Shard): Option<PlanError> {
    if shard.offset == [] then Some(EmptyOffset)
    else if |shard.offset| != |shard.info.shape| then Some(DimensionMismatch)
    else None
  }

  function FirstDefect(shards: seq<Shard>): Option<PlanError> {
    if shards == [] then None
    else
      match FirstDefect(shards[..|shards| - 1])
      case Some(e) => Some(e)
      case None => ShardDefect(shards[|shards| - 1])
  }

  function Placed(w: World, shard: Shard, engine: nat, isInfer: bool): ShardOffset
    requires ShardDefect(shard).None?
  {
    ShardOffset(shard, shard.offset, AddSeq(shard.offset, shard.info.shape), TransferRank(w, shard, engine, isInfer))
  }

  /** The shards of a replica, restricted to one transfer rank if only is given. */
  function Offsets(w: World, shards: seq<Shard>, engine: nat, isInfer: bool, only: Option<nat>): seq<ShardOffset>
    requires FirstDefect(shards).None?
  {
    if shards == [] then []
    else
      var last := Placed(w, shards[|shards| - 1], engine, isInfer);
      Offsets(w, shards[..|shards| - 1], engine, isInfer, only)
      + (if only.Some? && last.rank != only.value then [] else [last])
  }

  function OverlapStart(a: ShardOffset, b: ShardOffset): seq<int>
    requires |a.start| == |b.start|
  {
    seq(|a.start|, i requires 0 <= i < |a.start| => IntMax(a.start[i], b.start[i]))
  }

  function OverlapEnd(a: ShardOffset, b: ShardOffset): seq<int>
    requires |a.end| == |b.end|
  {
    seq(|a.end|, i requires 0 <= i < |a.end| => IntMin(a.end[i], b.end[i]))
  }

  ghost predicate Dimensional(s: ShardOffset, n: nat) {
    |s.start| == |s.end| == n
  }

  ghost predicate AllDimensional(shards: seq<ShardOffset>, n: nat) {
    forall i | 0 <= i < |shards| :: Dimensional(shards[i], n)
  }

  predicate Overlaps(a: ShardOffset, b: ShardOffset)
    requires |a.start| == |b.start| == |a.end| == |b.end|
  {
    forall i | 0 <= i < |a.start| :: OverlapStart(a, b)[i] < OverlapEnd(a, b)[i]
  }

  function RegionsOf(inf: ShardOffset, trains: seq<ShardOffset>, n: nat): seq<Region>
    requires Dimensional(inf, n) && AllDimensional(trains, n)
  {
    if trains == [] then []
    else
      var train := trains[|trains| - 1];
      RegionsOf(inf, trains[..|trains| - 1], n)
      + (if Overlaps(inf, train) then [Region(inf, train, OverlapStart(inf, train), OverlapEnd(inf, train))] else [])
  }

  function AllRegions(infs: seq<ShardOffset>, trains: seq<ShardOffset>, n: nat): seq<Region>
    requires AllDimensional(infs, n) && AllDimensional(trains, n)
  {
    if infs == [] then []
    else AllRegions(infs[..|infs| - 1], trains, n) + RegionsOf(infs[|infs| - 1], trains, n)
  }

  ghost predicate RegionDimensional(r: Region, n: nat) {
    Dimensional(r.inf, n) && Dimensional(r.train, n) && |r.start| == |r.end| == n
  }

  /** The operation that moves the overlap of a training and an inference shard. */
  function OperationFor(r: Region, n: nat): Operation
    requires RegionDimensional(r, n)
  {
    var shape := SubSeq(r.end, r.start);
    var infOffset := SubSeq(r.start, r.inf.start);
    var trainOffset := SubSeq(r.start, r.train.start);
    Operation(
      r.train.rank, r.train.shard, trainOffset,
      r.inf.rank, r.inf.shard, infOffset,
      shape, Intervals(trainOffset, shape), Intervals(infOffset, shape))
  }

  function OperationsFor(regions: seq<Region>, n: nat): seq<Operation>
    requires forall i | 0 <= i < |regions| :: RegionDimensional(regions[i], n)
  {
    if regions == [] then []
    else OperationsFor(regions[..|regions| - 1], n) + [OperationFor(regions[|regions| - 1], n)]
  }

  ghost predicate Uniform(shards: seq<Shard>, n: nat) {
    forall i | 0 <= i < |shards| :: |shards[i].info.shape| == n
  }

  // ---------------------------------------------------------------- plans of parameters

  lemma {:induction false} OffsetsDimensional(
    w: World, shards: seq<Shard>, engine: nat, isInfer: bool, only: Option<nat>, n: nat)
    requires Uniform(shards, n) && FirstDefect(shards).None?
    ensures AllDimensional(Offsets(w, shards, engine, isInfer, only), n)
  {
    if shards != [] { OffsetsDimensional(w, shards[..|shards| - 1], engine, isInfer, only, n); }
  }

  lemma {:induction false} RegionsOfDimensional(inf: ShardOffset, trains: seq<ShardOffset>, n: nat)
    requires Dimensional(inf, n) && AllDimensional(trains, n)
    ensures forall r <- RegionsOf(inf, trains, n) :: RegionDimensional(r, n)
  {
    if trains != [] { RegionsOfDimensional(inf, trains[..|trains| - 1], n); }
  }

  lemma {:induction false} RegionsDimensional(infs: seq<ShardOffset>, trains: seq<ShardOffset>, n: nat)
    requires AllDimensional(infs, n) && AllDimensional(trains, n)
    ensures forall r <- AllRegions(infs, trains, n) :: RegionDimensional(r, n)
  {
    if infs != [] {
      RegionsDimensional(infs[..|infs| - 1], trains, n);
      RegionsOfDimensional(infs[|infs| - 1], trains, n);
    }
  }

  /** The rank to prune by on one side: a rank only prunes shards of its own side. */
  function OnlyOn(w: World, only: Option<nat>, isInfer: bool): Option<nat> {
    if only.Some? && ((only.value < w.inferWorldSize) == isInfer) then only else None
  }

  /** The inference replicas of all engines, engine by engine. */
  function EngineReplicas(replicas: seq<seq<Shard>>, engines: nat): seq<(nat, seq<Shard>)> {
    if engines == 0 then []
    else
      EngineReplicas(replicas, engines - 1)
      + seq(|replicas|, i requires 0 <= i < |replicas| => (engines - 1, replicas[i]))
  }

  function ReplicaDefect(shards: seq<Shard>): Option<PlanError> {
    if shards == [] then Some(EmptyReplica) else FirstDefect(shards)
  }

  function PairRegions(w: World, inf: (nat, seq<Shard>), train: seq<Shard>, only: Option<nat>, n: nat): seq<Region>
    requires Uniform(inf.1, n) && Uniform(train, n)
    requires FirstDefect(inf.1).None? && FirstDefect(train).None?
  {
    OffsetsDimensional(w, inf.1, inf.0, true, OnlyOn(w, only, true), n);
    OffsetsDimensional(w, train, 0, false, OnlyOn(w, only, false), n);
    AllRegions(
      Offsets(w, inf.1, inf.0, true, OnlyOn(w, only, true)),
      Offsets(w, train, 0, false, OnlyOn(w, only, false)), n)
  }

  lemma PairRegionsDimensional(w: World, inf: (nat, seq<Shard>), train: seq<Shard>, only: Option<nat>, n: nat)
    requires Uniform(inf.1, n) && Uniform(train, n)
    requires FirstDefect(inf.1).None? && FirstDefect(train).None?
    ensures forall r <- PairRegions(w, inf, train, only, n) :: RegionDimensional(r, n)
  {
    OffsetsDimensional(w, inf.1, inf.0, true, OnlyOn(w, only, true), n);
    OffsetsDimensional(w, train, 0, false, OnlyOn(w, only, false), n);
    RegionsDimensional(
      Offsets(w, inf.1, inf.0, true, OnlyOn(w, only, true)),
      Offsets(w, train, 0, false, OnlyOn(w, only, false)), n);
  }

  /** The operations between one inference replica and its training replica. */
  function PairPlan(w: World, inf: (nat, seq<Shard>), train: seq<Shard>, only: Option<nat>, n: nat)
    : Result<seq<Operation>, PlanError>
    requires Uniform(inf.1, n) && Uniform(train, n)
  {
    if train == [] then Err(EmptyReplica)
    else if ReplicaDefect(inf.1).Some? then Err(ReplicaDefect(inf.1).value)
    else if FirstDefect(train).Some? then Err(FirstDefect(train).value)
    else
      PairRegionsDimensional(w, inf, train, only, n);
      Ok(OperationsFor(PairRegions(w, inf, train, only, n), n))
  }

  ghost predicate UniformPairs(infs: seq<(nat, seq<Shard>)>, n: nat) {
    forall i | 0 <= i < |infs| :: Uniform(infs[i].1, n)
  }

  ghost predicate UniformReplicas(replicas: seq<seq<Shard>>, n: nat) {
    forall i | 0 <= i < |replicas| :: Uniform(replicas[i], n)
  }

  /** The training replica that the k-th inference replica is dealt to, counting round and round. */
  function Dealt(k: nat, count: nat): (i: nat)
    requires count > 0
    ensures i < count
  {
    if k < count then k else Dealt(k - count, count)
  }

  lemma {:induction false} DealtIsModulo(k: nat, count: nat)
    requires count > 0
    ensures Dealt(k, count) == k % count
  {
    if k < count {
      DivUnique(k, count, 0);
    } else {
      DealtIsModulo(k - count, count);
      DivBounds(k - count, count);
      assert ((k - count) / count + 1) * count == (k - count) / count * count + count;
      DivUnique(k, count, (k - count) / count + 1);
    }
  }

  /** Two plans one after the other; the first error wins. */
  function Followed(
    before: Result<seq<Operation>, PlanError>, now: Result<seq<Operation>, PlanError>): Result<seq<Operation>, PlanError>
  {
    match (before, now)
    case (Err(e), _) => Err(e)
    case (_, Err(e)) => Err(e)
    case (Ok(a), Ok(b)) => Ok(a + b)
  }

  /** The first k inference replicas, dealt round-robin to the training replicas. */
  function PairsPlan(
    w: World, infs: seq<(nat, seq<Shard>)>, trains: seq<seq<Shard>>, k: nat, only: Option<nat>, n: nat)
    : Result<seq<Operation>, PlanError>
    requires k <= |infs| && trains != [] && UniformPairs(infs, n) && UniformReplicas(trains, n)
  {
    if k == 0 then Ok([])
    else
      Followed(
        PairsPlan(w, infs, trains, k - 1, only, n), PairPlan(w, infs[k - 1], trains[Dealt(k - 1, |trains|)], only, n))
  }

  lemma {:induction false} EngineReplicasUniform(replicas: seq<seq<Shard>>, engines: nat, n: nat)
    requires UniformReplicas(replicas, n)
    ensures UniformPairs(EngineReplicas(replicas, engines), n)
  {
    if engines > 0 { EngineReplicasUniform(replicas, engines - 1, n); }
  }

  function ParameterPlan(w: World, inf: ParameterMeta, train: ParameterMeta, only: Option<nat>, n: nat)
    : Result<seq<Operation>, PlanError>
    requires UniformReplicas(inf.replicas, n) && UniformReplicas(train.replicas, n)
  {
    var infs := EngineReplicas(inf.replicas, w.numInferEngines);
    EngineReplicasUniform(inf.replicas, w.numInferEngines, n);
    if infs == [] || train.replicas == [] then Err(NoReplicas)
    else PairsPlan(w, infs, train.replicas, |infs|, only, n)
  }

  // ---------------------------------------------------------------- plans of models

  function Codes(s: string): seq<int> {
    seq(|s|, i requires 0 <= i < |s| => s[i] as int)
  }

  predicate NameBefore(a: string, b: string) {
    LexLe(Codes(a), Codes(b))
  }

  function NameLe(): (string, string) -> bool {
    (a, b) => NameBefore(a, b)
  }

  function MetaDict(metas: seq<ParameterMeta>): map<string, ParameterMeta> {
    if metas == [] then map[]
    else MetaDict(metas[..|metas| - 1])[metas[|metas| - 1].name := metas[|metas| - 1]]
  }

  /** The distinct names that occur in metas and belong to keep, in order of first occurrence. */
  function NamesIn(metas: seq<ParameterMeta>, keep: set<string>): seq<string> {
    if metas == [] then []
    else
      var names := NamesIn(metas[..|metas| - 1], keep);
      var name := metas[|metas| - 1].name;
      if name in keep && name !in names then names + [name] else names
  }

  /** Tied embeddings are the only name that may exist on the inference side alone. */
  predicate AllowedAlias(extra: string, inferKeys: set<string>, trainKeys: set<string>) {
    if extra == "lm_head.weight" then "model.embed_tokens.weight" in inferKeys && "model.embed_tokens.weight" in trainKeys
    else extra == "model.embed_tokens.weight" && "lm_head.weight" in inferKeys && "lm_head.weight" in trainKeys
  }

  predicate KeysMatch(inferKeys: set<string>, trainKeys: set<string>, strict: bool) {
    if strict then inferKeys == trainKeys
    else
      && trainKeys <= inferKeys
      && forall extra | extra in inferKeys - trainKeys :: AllowedAlias(extra, inferKeys, trainKeys)
  }

  ghost predicate UniformModel(infer: map<string, ParameterMeta>, train: map<string, ParameterMeta>, dims: string -> nat)
  {
    && (forall name | name in infer :: UniformReplicas(infer[name].replicas, dims(name)))
    && (forall name | name in train :: UniformReplicas(train[name].replicas, dims(name)))
  }

  /** The operations of the listed parameters, in list order. */
  function NamesPlan(
    w: World, infer: map<string, ParameterMeta>, train: map<string, ParameterMeta>, names: seq<string>,
    only: Option<nat>, dims: string -> nat)
    : Result<seq<Operation>, PlanError>
    requires UniformModel(infer, train, dims) && forall name <- names :: name in infer && name in train
  {
    if names == [] then Ok([])
    else
      match NamesPlan(w, infer, train, names[..|names| - 1], only, dims)
      case Err(e) => Err(e)
      case Ok(before) =>
        var name := names[|names| - 1];
        match ParameterPlan(w, infer[name], train[name], only, dims(name))
        case Err(e) => Err(e)
        case Ok(ops) => Ok(before + ops)
  }

  function CommonNames(infer: seq<ParameterMeta>, train: seq<ParameterMeta>): (names: seq<string>)
    ensures forall name :: name in names <==> name in MetaDict(infer) && name in MetaDict(train)
  {
    NamesInMembers(infer, MetaDict(train).Keys);
    SortMembers(NameLe(), NamesIn(infer, MetaDict(train).Keys));
    Sort(NameLe(), NamesIn(infer, MetaDict(train).Keys))
  }

  lemma {:induction false} NamesInMembers(metas: seq<ParameterMeta>, keep: set<string>)
    ensures forall name :: name in NamesIn(metas, keep) <==> name in MetaDict(metas) && name in keep
    ensures Distinct(NamesIn(metas, keep))
  {
    if metas != [] { NamesInMembers(metas[..|metas| - 1], keep); }
  }

  lemma SortMembers<T>(le: (T, T) -> bool, s: seq<T>)
    ensures forall x :: x in Sort(le, s) <==> x in s
  {
    SortPermutes(le, s);
    forall x ensures x in Sort(le, s) <==> x in s {
      assert x in s <==> x in multiset(s);
      assert x in Sort(le, s) <==> x in multiset(Sort(le, s));
    }
  }

  /** The operations of the whole model; only = None is the global plan. */
  function ModelPlan(
    w: World, infer: seq<ParameterMeta>, train: seq<ParameterMeta>, strict: bool, only: Option<nat>, dims: string -> nat)
    : Result<seq<Operation>, PlanError>
    requires UniformModel(MetaDict(infer), MetaDict(train), dims)
  {
    if infer == [] || train == [] then Ok([])
    else if !KeysMatch(MetaDict(infer).Keys, MetaDict(train).Keys, strict) then Err(KeyMismatch)
    else NamesPlan(w, MetaDict(infer), MetaDict(train), CommonNames(infer, train), only, dims)
  }

  // ---------------------------------------------------------------- local plans

  function SendsFrom(rank: nat): Operation -> bool { (op: Operation) => op.sendRank == rank }

  function RecvsAt(rank: nat): Operation -> bool { (op: Operation) => op.recvRank == rank }

  /** Ordered by parameter name, then send offset, then receive offset. */
  predicate OperationBefore(a: Operation, b: Operation) {
    var nameA, nameB := a.sendShard.info.name, b.sendShard.info.name;
    if nameA != nameB then NameBefore(nameA, nameB)
    else if a.sendOffset != b.sendOffset then LexLe(a.sendOffset, b.sendOffset)
    else LexLe(a.recvOffset, b.recvOffset)
  }

  function OperationLe(): (Operation, Operation) -> bool {
    (a, b) => OperationBefore(a, b)
  }

  function PeerKey(isTrain: bool): Operation -> int {
    (op: Operation) => PeerOf(op, isTrain) as int
  }

  type PeerPlan = map<nat, seq<Operation>>

  /** The operations grouped by peer, each group stably sorted. */
  function GroupByPeer(ops: seq<Operation>, isTrain: bool): PeerPlan {
    map peer: nat | peer in PeerSet(ops, isTrain) :: Sort(OperationLe(), Group(ops, PeerKey(isTrain), peer))
  }

  function PeerSet(ops: seq<Operation>, isTrain: bool): set<nat> {
    set i | 0 <= i < |ops| :: PeerOf(ops[i], isTrain)
  }

  function PeerOf(op: Operation, isTrain: bool): nat {
    if isTrain then op.recvRank else op.sendRank
  }

  function LocalPlan(w: World, plan: seq<Operation>, rank: nat): PeerPlan {
    if rank >= w.inferWorldSize then GroupByPeer(Filter(SendsFrom(rank), plan), true)
    else GroupByPeer(Filter(RecvsAt(rank), plan), false)
  }

  function OpsWith(plan: PeerPlan, peer: nat): seq<Operation> {
    if peer in plan then plan[peer] else []
  }

  // ---------------------------------------------------------------- loops over the shared buffer

  datatype Cell = Blank | Number(value: int) | Slice(slice: Interval)

  ghost predicate Holds(buffer: array<Cell>, numbers: seq<int>)
    reads buffer
  {
    && buffer.Length == |numbers|
    && forall i | 0 <= i < |numbers| :: buffer[i] == Number(numbers[i])
  }

  function Numbers(cells: seq<Cell>): seq<int>
    requires forall i | 0 <= i < |cells| :: cells[i].Number?
  {
    seq(|cells|, i requires 0 <= i < |cells| => cells[i].value)
  }

  function Slices(cells: seq<Cell>): seq<Interval>
    requires forall i | 0 <= i < |cells| :: cells[i].Slice?
  {
    seq(|cells|, i requires 0 <= i < |cells| => cells[i].slice)
  }

  class TransferPlanBuilder {
    const world: World

    constructor (world: World)
      ensures this.world == world
    {
      this.world := world;
    }

    /** Writes the end of a shard into the buffer and copies it out. */
    method EndOffset(shard: Shard, buffer: array<Cell>) returns (end: seq<int>)
      requires |shard.offset| == |shard.info.shape| == buffer.Length
      modifies buffer
      ensures end == AddSeq(shard.offset, shard.info.shape)
    {
      for i := 0 to |shard.offset|
        invariant forall j | 0 <= j < i :: buffer[j] == Number(shard.offset[j] + shard.info.shape[j])
      {
        buffer[i] := Number(shard.offset[i] + shard.info.shape[i]);
      }
      end := Numbers(buffer[..]);
    }

    method CreateShardOffsets(
      replica: seq<Shard>, engine: nat, isInfer: bool, only: Option<nat>, buffer: array<Cell>)
      returns (r: Result<seq<ShardOffset>, PlanError>)
      requires Uniform(replica, buffer.Length)
      modifies buffer
      ensures r == if replica == [] then Err(EmptyReplica)
                   else if FirstDefect(replica).Some? then Err(FirstDefect(replica).value)
                   else Ok(Offsets(world, replica, engine, isInfer, only))
    {
      if replica == [] {
        return Err(EmptyReplica);
      }
      var shardMap: seq<ShardOffset> := [];
      for k := 0 to |replica|
        invariant FirstDefect(replica[..k]).None?
        invariant shardMap == Offsets(world, replica[..k], engine, isInfer, only)
      {
        var shard := replica[k];
        TakeInit(replica, k);
        if shard.offset == [] {
          DefectOfPrefix(replica, k + 1);
          return Err(EmptyOffset);
        }
        if |shard.offset| != |shard.info.shape| {
          DefectOfPrefix(replica, k + 1);
          return Err(DimensionMismatch);
        }
        var rank := TransferRank(world, shard, engine, isInfer);
        if only.Some? && rank != only.value {
          continue;
        }
        var end := EndOffset(shard, buffer);
        shardMap := shardMap + [ShardOffset(shard, shard.offset, end, rank)];
      }
      TakeAll(replica);
      return Ok(shardMap);
    }

    method FindOverlap(inf: ShardOffset, train: ShardOffset, n: nat)
      returns (hasOverlap: bool, start: seq<int>, end: seq<int>)
      requires Dimensional(inf, n) && Dimensional(train, n)
      ensures hasOverlap == Overlaps(inf, train)
      ensures hasOverlap ==> start == OverlapStart(inf, train) && end == OverlapEnd(inf, train)
    {
      start, end := [], [];
      hasOverlap := true;
      for dim := 0 to n
        invariant start == OverlapStart(inf, train)[..dim] && end == OverlapEnd(inf, train)[..dim]
        invariant forall i | 0 <= i < dim :: OverlapStart(inf, train)[i] < OverlapEnd(inf, train)[i]
        invariant hasOverlap
      {
        var s := IntMax(inf.start[dim], train.start[dim]);
        var e := IntMin(inf.end[dim], train.end[dim]);
        if s >= e {
          assert OverlapStart(inf, train)[dim] >= OverlapEnd(inf, train)[dim];
          return false, start, end;
        }
        start, end := start + [s], end + [e];
      }
    }

    method FindOverlappingRegions(infs: seq<ShardOffset>, trains: seq<ShardOffset>, n: nat)
      returns (regions: seq<Region>)
      requires AllDimensional(infs, n) && AllDimensional(trains, n)
      ensures regions == AllRegions(infs, trains, n)
    {
      regions := [];
      for k := 0 to |infs|
        invariant regions == AllRegions(infs[..k], trains, n)
      {
        ghost var before := regions;
        for t := 0 to |trains|
          invariant regions == before + RegionsOf(infs[k], trains[..t], n)
        {
          var hasOverlap, start, end := FindOverlap(infs[k], trains[t], n);
          if hasOverlap {
            regions := regions + [Region(infs[k], trains[t], start, end)];
          }
          TakeInit(trains, t);
        }
        TakeAll(trains);
        TakeInit(infs, k);
      }
      TakeAll(infs);
    }

    /** Writes the coordinates of to relative to from into the buffer and copies them out. */
    method RelativeOffset(to: seq<int>, from: seq<int>, buffer: array<Cell>) returns (offset: seq<int>)
      requires |to| == |from| == buffer.Length
      modifies buffer
      ensures offset == SubSeq(to, from)
    {
      for i := 0 to buffer.Length
        invariant forall j | 0 <= j < i :: buffer[j] == Number(to[j] - from[j])
      {
        buffer[i] := Number(to[i] - from[i]);
      }
      offset := Numbers(buffer[..]);
    }

    /** Writes the slices of a shape at an offset into the buffer and copies them out. */
    method SlicesAt(offset: seq<int>, shape: seq<int>, buffer: array<Cell>) returns (slices: seq<Interval>)
      requires |offset| == |shape| == buffer.Length
      modifies buffer
      ensures slices == Intervals(offset, shape)
    {
      for i := 0 to buffer.Length
        invariant forall j | 0 <= j < i :: buffer[j] == Slice(Interval(offset[j], offset[j] + shape[j]))
      {
        buffer[i] := Slice(Interval(offset[i], offset[i] + shape[i]));
      }
      slices := Slices(buffer[..]);
    }

    /** Every tuple is copied out of the buffer before the buffer is overwritten. */
    method BuildRegionOperation(region: Region, buffer: array<Cell>) returns (op: Operation)
      requires RegionDimensional(region, buffer.Length)
      requires region.inf.rank < world.inferWorldSize <= region.train.rank
      modifies buffer
      ensures op == OperationFor(region, buffer.Length)
    {
      var shape := SubSeq(region.end, region.start);
      var infOffset := RelativeOffset(region.start, region.inf.start, buffer);
      var trainOffset := RelativeOffset(region.start, region.train.start, buffer);
      var trainSlices := SlicesAt(trainOffset, shape, buffer);
      var infSlices := SlicesAt(infOffset, shape, buffer);
      op := Operation(
        region.train.rank, region.train.shard, trainOffset,
        region.inf.rank, region.inf.shard, infOffset,
        shape, trainSlices, infSlices);
    }

    method BuildRegionsPlan(regions: seq<Region>, buffer: array<Cell>) returns (plan: seq<Operation>)
      requires forall i | 0 <= i < |regions| ::
        RegionDimensional(regions[i], buffer.Length)
        && regions[i].inf.rank < world.inferWorldSize <= regions[i].train.rank
      modifies buffer
      ensures plan == OperationsFor(regions, buffer.Length)
    {
      plan := [];
      for i := 0 to |regions|
        invariant plan == OperationsFor(regions[..i], buffer.Length)
      {
        var op := BuildRegionOperation(regions[i], buffer);
        plan := plan + [op];
        TakeInit(regions, i);
      }
      TakeAll(regions);
    }

    method BuildPairPlan(inf: (nat, seq<Shard>), train: seq<Shard>, only: Option<nat>, n: nat)
      returns (r: Result<seq<Operation>, PlanError>)
      requires Uniform(inf.1, n) && Uniform(train, n) && ReceiversInWorld(world, inf)
      ensures r == PairPlan(world, inf, train, only, n)
    {
      if train == [] {
        return Err(EmptyReplica);
      }
      var buffer := new Cell[n](_ => Blank);
      var infs := CreateShardOffsets(inf.1, inf.0, true, OnlyOn(world, only, true), buffer);
      if infs.Err? {
        return Err(infs.error);
      }
      var trains := CreateShardOffsets(train, 0, false, OnlyOn(world, only, false), buffer);
      if trains.Err? {
        return Err(trains.error);
      }
      OffsetsDimensional(world, inf.1, inf.0, true, OnlyOn(world, only, true), n);
      OffsetsDimensional(world, train, 0, false, OnlyOn(world, only, false), n);
      var regions := FindOverlappingRegions(infs.value, trains.value, n);
      assert regions == PairRegions(world, inf, train, only, n);
      PairRegionFacts(world, inf, train, only, n);
      var plan := BuildRegionsPlan(regions, buffer);
      return Ok(plan);
    }

    method BuildParameterPlan(inf: ParameterMeta, train: ParameterMeta, only: Option<nat>, n: nat)
      returns (r: Result<seq<Operation>, PlanError>)
      requires UniformReplicas(inf.replicas, n) && UniformReplicas(train.replicas, n)
      requires forall pair <- EngineReplicas(inf.replicas, world.numInferEngines) :: ReceiversInWorld(world, pair)
      ensures r == ParameterPlan(world, inf, train, only, n)
    {
      var infs := EngineReplicas(inf.replicas, world.numInferEngines);
      if infs == [] || train.replicas == [] {
        return Err(NoReplicas);
      }
      EngineReplicasUniform(inf.replicas, world.numInferEngines, n);
      var plan: seq<Operation> := [];
      for k := 0 to |infs|
        invariant PairsPlan(world, infs, train.replicas, k, only, n) == Ok(plan)
      {
        assert infs[k] in infs;
        DealtIsModulo(k, |train.replicas|);
        var dealt := k % |train.replicas|;
        var pair := BuildPairPlan(infs[k], train.replicas[dealt], only, n);
        PairsNext(world, infs, train.replicas, k + 1, only, n, plan, dealt, pair);
        if pair.Err? {
          return Err(pair.error);
        }
        plan := plan + pair.value;
      }
      return Ok(plan);
    }

    method BuildNamesPlan(
      infer: map<string, ParameterMeta>, train: map<string, ParameterMeta>, names: seq<string>, only: Option<nat>,
      dims: string -> nat)
      returns (r: Result<seq<Operation>, PlanError>)
      requires UniformModel(infer, train, dims) && ModelInWorld(world, infer)
      requires forall name <- names :: name in infer && name in train
      ensures r == NamesPlan(world, infer, train, names, only, dims)
    {
      var plan: seq<Operation> := [];
      for i := 0 to |names|
        invariant NamesPlan(world, infer, train, names[..i], only, dims) == Ok(plan)
      {
        var name := names[i];
        TakeInit(names, i);
        var ops := BuildParameterPlan(infer[name], train[name], only, dims(name));
        if ops.Err? {
          NamesFailure(world, infer, train, names, i + 1, only, dims);
          return Err(ops.error);
        }
        plan := plan + ops.value;
      }
      TakeAll(names);
      return Ok(plan);
    }

    method BuildModelPlan(
      infer: seq<ParameterMeta>, train: seq<ParameterMeta>, strict: bool, only: Option<nat>, dims: string -> nat)
      returns (r: Result<seq<Operation>, PlanError>)
      requires UniformModel(MetaDict(infer), MetaDict(train), dims) && ModelInWorld(world, MetaDict(infer))
      ensures r == ModelPlan(world, infer, train, strict, only, dims)
    {
      if infer == [] || train == [] {
        return Ok([]);
      }
      var inferDict, trainDict := MetaDict(infer), MetaDict(train);
      if !KeysMatch(inferDict.Keys, trainDict.Keys, strict) {
        return Err(KeyMismatch);
      }
      r := BuildNamesPlan(inferDict, trainDict, CommonNames(infer, train), only, dims);
    }

    /** Groups by peer in one pass, then sorts every group. */
    method GroupOperationsByRank(ops: seq<Operation>, isTrain: bool) returns (plan: PeerPlan)
      ensures plan == GroupByPeer(ops, isTrain)
    {
      var grouped: map<nat, seq<Operation>> := map[];
      for i := 0 to |ops|
        invariant GroupedSoFar(grouped, ops[..i], isTrain)
      {
        var peer := PeerOf(ops[i], isTrain);
        var bucket := if peer in grouped then grouped[peer] else [];
        GroupedStep(grouped, ops, i, isTrain);
        grouped := grouped[peer := bucket + [ops[i]]];
      }
      TakeAll(ops);
      plan := map peer | peer in grouped :: Sort(OperationLe(), grouped[peer]);
    }

    method KeepOperations(ops: seq<Operation>, keep: Operation -> bool) returns (kept: seq<Operation>)
      ensures kept == Filter(keep, ops)
    {
      kept := [];
      for i := 0 to |ops|
        invariant kept == Filter(keep, ops[..i])
      {
        assert ops[..i + 1] == ops[..i] + [ops[i]];
        FilterConcat(keep, ops[..i], [ops[i]]);
        if keep(ops[i]) {
          kept := kept + [ops[i]];
        }
      }
      TakeAll(ops);
    }

    /** The plan of one rank; the planner prunes when the model has more than 10000 shards. */
    method BuildLocalPlan(
      infer: seq<ParameterMeta>, train: seq<ParameterMeta>, strict: bool, rank: nat, dims: string -> nat)
      returns (r: Result<PeerPlan, PlanError>)
      requires UniformModel(MetaDict(infer), MetaDict(train), dims) && ModelInWorld(world, MetaDict(infer))
      ensures r == LocalResult(world, ModelPlan(world, infer, train, strict, PruneRank(world, infer, train, rank), dims), rank)
    {
      var isTrain := rank >= world.inferWorldSize;
      var totalShards := ShardCount(infer) * world.numInferEngines + ShardCount(train);
      var only := if totalShards > 10000 then Some(rank) else None;
      var plan := BuildModelPlan(infer, train, strict, only, dims);
      if plan.Err? {
        return Err(plan.error);
      }
      var ops := KeepOperations(plan.value, if isTrain then SendsFrom(rank) else RecvsAt(rank));
      var grouped := GroupOperationsByRank(ops, isTrain);
      return Ok(grouped);
    }
  }

  function PruneRank(w: World, infer: seq<ParameterMeta>, train: seq<ParameterMeta>, rank: nat): Option<nat> {
    if ShardCount(infer) * w.numInferEngines + ShardCount(train) > 10000 then Some(rank) else None
  }

  function LocalResult(w: World, plan: Result<seq<Operation>, PlanError>, rank: nat): Result<PeerPlan, PlanError> {
    match plan
    case Err(e) => Err(e)
    case Ok(ops) => Ok(LocalPlan(w, ops, rank))
  }

  function ShardCount(metas: seq<ParameterMeta>): nat {
    if metas == [] then 0
    else ShardCount(metas[..|metas| - 1]) + |Flatten(metas[|metas| - 1].replicas)|
  }

  // ---------------------------------------------------------------- lemmas for the loops

  /** Every inference shard of the replica sits on an inference rank. */
  ghost predicate ReceiversInWorld(w: World, inf: (nat, seq<Shard>)) {
    forall k | 0 <= k < |inf.1| :: TransferRank(w, inf.1[k], inf.0, true) < w.inferWorldSize
  }

  ghost predicate ModelInWorld(w: World, infer: map<string, ParameterMeta>) {
    forall name | name in infer ::
      forall pair <- EngineReplicas(infer[name].replicas, w.numInferEngines) :: ReceiversInWorld(w, pair)
  }

  lemma {:induction false} OffsetRanks(w: World, shards: seq<Shard>, engine: nat, isInfer: bool, only: Option<nat>)
    requires FirstDefect(shards).None?
    ensures forall o <- Offsets(w, shards, engine, isInfer, only) ::
      exists k | 0 <= k < |shards| :: o.rank == TransferRank(w, shards[k], engine, isInfer)
  {
    if shards != [] {
      var init := shards[..|shards| - 1];
      OffsetRanks(w, init, engine, isInfer, only);
      forall o <- Offsets(w, shards, engine, isInfer, only)
        ensures exists k | 0 <= k < |shards| :: o.rank == TransferRank(w, shards[k], engine, isInfer)
      {
        if o in Offsets(w, init, engine, isInfer, only) {
          var k :| 0 <= k < |init| && o.rank == TransferRank(w, init[k], engine, isInfer);
          assert shards[k] == init[k];
        } else {
          assert o.rank == TransferRank(w, shards[|shards| - 1], engine, isInfer);
        }
      }
    }
  }

  lemma {:induction false} RegionsOfSources(inf: ShardOffset, trains: seq<ShardOffset>, n: nat)
    requires Dimensional(inf, n) && AllDimensional(trains, n)
    ensures forall r <- RegionsOf(inf, trains, n) :: r.inf == inf && r.train in trains
  {
    if trains != [] { RegionsOfSources(inf, trains[..|trains| - 1], n); }
  }

  lemma {:induction false} RegionSources(infs: seq<ShardOffset>, trains: seq<ShardOffset>, n: nat)
    requires AllDimensional(infs, n) && AllDimensional(trains, n)
    ensures forall r <- AllRegions(infs, trains, n) :: r.inf in infs && r.train in trains
  {
    if infs != [] {
      RegionSources(infs[..|infs| - 1], trains, n);
      RegionsOfSources(infs[|infs| - 1], trains, n);
    }
  }

  lemma PairRegionRanks(w: World, inf: (nat, seq<Shard>), train: seq<Shard>, only: Option<nat>, n: nat)
    requires Uniform(inf.1, n) && Uniform(train, n) && ReceiversInWorld(w, inf)
    requires FirstDefect(inf.1).None? && FirstDefect(train).None?
    ensures forall r <- PairRegions(w, inf, train, only, n) :: r.inf.rank < w.inferWorldSize <= r.train.rank
  {
    var infs := Offsets(w, inf.1, inf.0, true, OnlyOn(w, only, true));
    var trains := Offsets(w, train, 0, false, OnlyOn(w, only, false));
    OffsetsDimensional(w, inf.1, inf.0, true, OnlyOn(w, only, true), n);
    OffsetsDimensional(w, train, 0, false, OnlyOn(w, only, false), n);
    RegionSources(infs, trains, n);
    OffsetRanks(w, inf.1, inf.0, true, OnlyOn(w, only, true));
    OffsetRanks(w, train, 0, false, OnlyOn(w, only, false));
  }

  lemma PairRegionFacts(w: World, inf: (nat, seq<Shard>), train: seq<Shard>, only: Option<nat>, n: nat)
    requires Uniform(inf.1, n) && Uniform(train, n) && ReceiversInWorld(w, inf)
    requires FirstDefect(inf.1).None? && FirstDefect(train).None?
    ensures var regions := PairRegions(w, inf, train, only, n);
      forall i | 0 <= i < |regions| ::
        RegionDimensional(regions[i], n) && regions[i].inf.rank < w.inferWorldSize <= regions[i].train.rank
  {
    var regions := PairRegions(w, inf, train, only, n);
    PairRegionsDimensional(w, inf, train, only, n);
    PairRegionRanks(w, inf, train, only, n);
    forall i | 0 <= i < |regions|
      ensures RegionDimensional(regions[i], n) && regions[i].inf.rank < w.inferWorldSize <= regions[i].train.rank
    {
      assert regions[i] in regions;
    }
  }

  lemma {:induction false} PairsFailure(
    w: World, infs: seq<(nat, seq<Shard>)>, trains: seq<seq<Shard>>, k: nat, m: nat, only: Option<nat>, n: nat)
    requires k <= m <= |infs| && trains != [] && UniformPairs(infs, n) && UniformReplicas(trains, n)
    requires PairsPlan(w, infs, trains, k, only, n).Err?
    ensures PairsPlan(w, infs, trains, m, only, n) == PairsPlan(w, infs, trains, k, only, n)
    decreases m
  {
    if k < m { PairsFailure(w, infs, trains, k, m - 1, only, n); }
  }

  /** One more pair: its error stops the plan, its operations extend it. */
  lemma PairsNext(
    w: World, infs: seq<(nat, seq<Shard>)>, trains: seq<seq<Shard>>, k: nat, only: Option<nat>, n: nat,
    plan: seq<Operation>, t: nat, pair: Result<seq<Operation>, PlanError>)
    requires k <= |infs| && trains != [] && UniformPairs(infs, n) && UniformReplicas(trains, n)
    requires 0 < k && PairsPlan(w, infs, trains, k - 1, only, n) == Ok(plan)
    requires t == Dealt(k - 1, |trains|) && pair == PairPlan(w, infs[k - 1], trains[t], only, n)
    ensures PairsPlan(w, infs, trains, k, only, n) == if pair.Err? then Err(pair.error) else Ok(plan + pair.value)
    ensures pair.Err? ==> PairsPlan(w, infs, trains, |infs|, only, n) == Err(pair.error)
  {
    if pair.Err? { PairsFailure(w, infs, trains, k, |infs|, only, n); }
  }

  lemma {:induction false} NamesFailure(
    w: World, infer: map<string, ParameterMeta>, train: map<string, ParameterMeta>, names: seq<string>, k: nat,
    only: Option<nat>, dims: string -> nat)
    requires UniformModel(infer, train, dims) && forall name <- names :: name in infer && name in train
    requires k <= |names| && NamesPlan(w, infer, train, names[..k], only, dims).Err?
    ensures NamesPlan(w, infer, train, names, only, dims) == NamesPlan(w, infer, train, names[..k], only, dims)
    decreases |names|
  {
    if k < |names| {
      assert names[..|names| - 1][..k] == names[..k];
      NamesFailure(w, infer, train, names[..|names| - 1], k, only, dims);
    } else {
      assert names[..k] == names;
    }
  }

  ghost predicate GroupedSoFar(grouped: map<nat, seq<Operation>>, ops: seq<Operation>, isTrain: bool) {
    && grouped.Keys == PeerSet(ops, isTrain)
    && forall peer | peer in grouped :: grouped[peer] == Group(ops, PeerKey(isTrain), peer)
  }

  lemma GroupedStep(grouped: map<nat, seq<Operation>>, ops: seq<Operation>, i: nat, isTrain: bool)
    requires i < |ops| && GroupedSoFar(grouped, ops[..i], isTrain)
    ensures var peer := PeerOf(ops[i], isTrain);
      var bucket := if peer in grouped then grouped[peer] else [];
      GroupedSoFar(grouped[peer := bucket + [ops[i]]], ops[..i + 1], isTrain)
  {
    var peer := PeerOf(ops[i], isTrain);
    PeerSetSnoc(ops, i, isTrain);
    if peer !in grouped { AbsentPeer(ops[..i], isTrain, peer); }
    forall p: nat | p in PeerSet(ops[..i + 1], isTrain)
      ensures Group(ops[..i + 1], PeerKey(isTrain), p)
           == Group(ops[..i], PeerKey(isTrain), p) + (if p == peer then [ops[i]] else [])
    {
      GroupSnoc(ops, i, PeerKey(isTrain), p);
    }
  }

  lemma PeerSetSnoc(ops: seq<Operation>, i: nat, isTrain: bool)
    requires i < |ops|
    ensures PeerSet(ops[..i + 1], isTrain) == PeerSet(ops[..i], isTrain) + {PeerOf(ops[i], isTrain)}
  {
    var before, after := ops[..i], ops[..i + 1];
    forall p: nat
      ensures p in PeerSet(after, isTrain) <==> p in PeerSet(before, isTrain) + {PeerOf(ops[i], isTrain)}
    {
      if p in PeerSet(before, isTrain) {
        var j :| 0 <= j < |before| && p == PeerOf(before[j], isTrain);
        assert after[j] == before[j];
      }
      if p in PeerSet(after, isTrain) {
        var j :| 0 <= j < |after| && p == PeerOf(after[j], isTrain);
        assert j < i ==> before[j] == after[j];
      }
      assert after[i] == ops[i];
    }
  }

  lemma AbsentPeer(ops: seq<Operation>, isTrain: bool, peer: nat)
    requires peer !in PeerSet(ops, isTrain)
    ensures Group(ops, PeerKey(isTrain), peer) == []
  {
    forall op <- ops ensures !HasKey(PeerKey(isTrain), peer)(op) {
      var j :| 0 <= j < |ops| && ops[j] == op;
      assert PeerOf(ops[j], isTrain) in PeerSet(ops, isTrain);
    }
    FilterNone(HasKey(PeerKey(isTrain), peer), ops);
  }

  lemma {:induction false} DefectOfPrefix(shards: seq<Shard>, k: nat)
    requires k <= |shards| && FirstDefect(shards[..k]).Some?
    ensures FirstDefect(shards) == FirstDefect(shards[..k])
    decreases |shards|
  {
    if k < |shards| {
      assert shards[..|shards| - 1][..k] == shards[..k];
      DefectOfPrefix(shards[..|shards| - 1], k);
    } else {
      assert shards[..k] == shards;
    }
  }
}
