/**
 End-to-end correctness of a transfer plan: every element of every inference shard is
 written by exactly one operation, which reads the training element at the same global
 coordinate, so executing the plan in any order fills the inference side correctly.
 */
module Resharding {
  import opened Basics
  import opened SequenceFacts
  import opened Sequences
  import opened ParamMeta
  import opened TransferPlan
  import opened PlanAgreement

  type Coord = seq<int>

  // ---------------------------------------------------------------- geometry of replicas

  function Extent(replica: seq<Shard>, k: nat, dim: nat): nat
    requires k <= |replica| && forall i | 0 <= i < k :: dim < |replica[i].info.shape|
  {
    if k == 0 then 0 else Extent(replica, k - 1, dim) + replica[k - 1].info.shape[dim]
  }

  /** A replica whose shards tile a tensor of this shape along dim, offset by running sums. */
  ghost predicate Resolved(replica: seq<Shard>, shape: seq<nat>, dim: nat) {
    && replica != [] && dim < |shape|
    && (forall k | 0 <= k < |replica| :: |replica[k].info.shape| == |replica[k].offset| == |shape|)
    && (forall k, i | 0 <= k < |replica| && 0 <= i < |shape| && i != dim ::
          replica[k].offset[i] == 0 && replica[k].info.shape[i] == shape[i])
    && (forall k | 0 <= k < |replica| :: replica[k].offset[dim] == Extent(replica, k, dim))
    && Extent(replica, |replica|, dim) == shape[dim]
  }

  ghost predicate ResolvedMeta(meta: ParameterMeta, dim: nat) {
    && (forall r | 0 <= r < |meta.replicas| :: Resolved(meta.replicas[r], meta.globalShape, dim))
    && (forall r, k | 0 <= r < |meta.replicas| && 0 <= k < |meta.replicas[r]| ::
          meta.replicas[r][k].info.name == meta.name)
  }

  predicate InBox(c: Coord, low: seq<int>, high: seq<int>)
    requires |low| == |high|
  {
    |c| == |low| && forall i | 0 <= i < |low| :: low[i] <= c[i] < high[i]
  }

  function Shift(c: Coord, delta: seq<int>): Coord
    requires |c| == |delta|
  {
    AddSeq(c, delta)
  }

  /** c is a local coordinate of the shard. */
  predicate LocalTo(c: Coord, o: ShardOffset) {
    && |c| == |o.start| == |o.end|
    && InBox(Shift(c, o.start), o.start, o.end)
  }

  function ContainsGlobal(g: Coord): ShardOffset -> bool {
    (o: ShardOffset) => |o.start| == |o.end| && InBox(g, o.start, o.end)
  }

  lemma OwnerByExtent(w: World, replica: seq<Shard>, k: nat, shape: seq<nat>, dim: nat, g: Coord)
    requires Resolved(replica, shape, dim) && k < |replica|
    requires InBox(g, seq(|shape|, _ => 0), shape)
    ensures ShardDefect(replica[k]).None?
    ensures ContainsGlobal(g)(Placed(w, replica[k], 0, false))
       <==> Extent(replica, k, dim) <= g[dim] < Extent(replica, k + 1, dim)
  {
    var placed := Placed(w, replica[k], 0, false);
    assert placed.start[dim] == Extent(replica, k, dim) && placed.end[dim] == Extent(replica, k + 1, dim);
    forall i | 0 <= i < |shape| && i != dim
      ensures placed.start[i] <= g[i] < placed.end[i]
    {
    }
  }

  /** In a resolved replica exactly one shard holds each global coordinate. */
  lemma {:induction false} OneOwner(w: World, replica: seq<Shard>, k: nat, shape: seq<nat>, dim: nat, g: Coord)
    requires Resolved(replica, shape, dim) && k <= |replica|
    requires InBox(g, seq(|shape|, _ => 0), shape)
    ensures FirstDefect(replica[..k]).None?
    ensures Count(ContainsGlobal(g), Offsets(w, replica[..k], 0, false, None))
         == if g[dim] < Extent(replica, k, dim) then 1 else 0
  {
    if k > 0 {
      OneOwner(w, replica, k - 1, shape, dim, g);
      OwnerByExtent(w, replica, k - 1, shape, dim, g);
      assert replica[..k][..k - 1] == replica[..k - 1];
      FilterSnoc(ContainsGlobal(g), Offsets(w, replica[..k], 0, false, None));
    }
  }

  // ---------------------------------------------------------------- who writes a coordinate

  /** op writes local coordinate c of parameter name on inference rank recv. */
  predicate WritesAt(op: Operation, recv: nat, name: string, c: Coord) {
    && op.recvRank == recv && op.recvShard.info.name == name
    && |c| == |op.infSlices|
    && forall i | 0 <= i < |c| :: op.infSlices[i].start <= c[i] < op.infSlices[i].stop
  }

  function Hits(recv: nat, name: string, c: Coord): Operation -> bool {
    (op: Operation) => WritesAt(op, recv, name, c)
  }

  /** The training-side coordinate that op copies into c. */
  function SourceCoord(op: Operation, c: Coord): Coord
    requires |c| == |op.recvOffset| == |op.sendOffset|
  {
    AddSeq(SubSeq(c, op.recvOffset), op.sendOffset)
  }

  /** The operation of an overlap writes c exactly when both shards hold the global coordinate of c. */
  lemma RegionWrites(inf: ShardOffset, train: ShardOffset, n: nat, c: Coord)
    requires Dimensional(inf, n) && Dimensional(train, n) && Overlaps(inf, train) && |c| == n
    ensures var op := OperationFor(Region(inf, train, OverlapStart(inf, train), OverlapEnd(inf, train)), n);
      && (WritesAt(op, inf.rank, inf.shard.info.name, c)
          <==> LocalTo(c, inf) && ContainsGlobal(Shift(c, inf.start))(train))
      && (WritesAt(op, inf.rank, inf.shard.info.name, c)
          ==> LocalTo(SourceCoord(op, c), train) && Shift(SourceCoord(op, c), train.start) == Shift(c, inf.start))
  {
    var op := OperationFor(Region(inf, train, OverlapStart(inf, train), OverlapEnd(inf, train)), n);
    var g := Shift(c, inf.start);
    forall i | 0 <= i < n
      ensures op.infSlices[i].start <= c[i] < op.infSlices[i].stop
         <==> inf.start[i] <= g[i] < inf.end[i] && train.start[i] <= g[i] < train.end[i]
    {
    }
    assert Shift(SourceCoord(op, c), train.start) == g;
  }

  function OverlapOperation(inf: ShardOffset, train: ShardOffset, n: nat): Operation
    requires Dimensional(inf, n) && Dimensional(train, n)
  {
    OperationFor(Region(inf, train, OverlapStart(inf, train), OverlapEnd(inf, train)), n)
  }

  lemma OneOverlap(inf: ShardOffset, train: ShardOffset, n: nat)
    requires Dimensional(inf, n) && Dimensional(train, n)
    ensures forall i | 0 <= i < |RegionsOf(inf, [train], n)| :: RegionDimensional(RegionsOf(inf, [train], n)[i], n)
    ensures OperationsFor(RegionsOf(inf, [train], n), n)
         == if Overlaps(inf, train) then [OverlapOperation(inf, train, n)] else []
  {
    assert [train][..0] == [];
    var region := Region(inf, train, OverlapStart(inf, train), OverlapEnd(inf, train));
    assert [region][..0] == [];
  }

  lemma OneOverlapWrites(inf: ShardOffset, train: ShardOffset, n: nat, recv: nat, name: string, c: Coord)
    requires Dimensional(inf, n) && Dimensional(train, n) && inf.shard.info.name == name && |c| == n
    ensures forall i | 0 <= i < |RegionsOf(inf, [train], n)| :: RegionDimensional(RegionsOf(inf, [train], n)[i], n)
    ensures Count(Hits(recv, name, c), OperationsFor(RegionsOf(inf, [train], n), n))
         == if inf.rank == recv && LocalTo(c, inf) && ContainsGlobal(Shift(c, inf.start))(train) then 1 else 0
  {
    OneOverlap(inf, train, n);
    if Overlaps(inf, train) {
      RegionWrites(inf, train, n, c);
      CountOne(Hits(recv, name, c), OverlapOperation(inf, train, n));
    } else if LocalTo(c, inf) {
      DisjointShards(inf, train, n, c);
    }
  }

  lemma CountOne<T>(hit: T -> bool, x: T)
    ensures Count(hit, [x]) == if hit(x) then 1 else 0
  {
    assert Filter(hit, [x]) == (if hit(x) then [x] else []) + Filter(hit, [x][1..]);
  }

  /** Among one inference shard's operations, c is written once for each training shard holding it. */
  lemma {:induction false} ShardWrites(
    inf: ShardOffset, trains: seq<ShardOffset>, n: nat, recv: nat, name: string, c: Coord)
    requires Dimensional(inf, n) && AllDimensional(trains, n) && inf.shard.info.name == name && |c| == n
    ensures forall i | 0 <= i < |RegionsOf(inf, trains, n)| :: RegionDimensional(RegionsOf(inf, trains, n)[i], n)
    ensures Count(Hits(recv, name, c), OperationsFor(RegionsOf(inf, trains, n), n))
         == if inf.rank == recv && LocalTo(c, inf) then Count(ContainsGlobal(Shift(c, inf.start)), trains) else 0
  {
    if trains != [] {
      var init, train := trains[..|trains| - 1], trains[|trains| - 1];
      ShardWrites(inf, init, n, recv, name, c);
      OneOverlapWrites(inf, train, n, recv, name, c);
      RegionsOfSnoc(inf, init, train, n);
      assert trains == init + [train];
      var before, now := RegionsOf(inf, init, n), RegionsOf(inf, [train], n);
      OperationsForConcat(before, now, n);
      FilterConcat(Hits(recv, name, c), OperationsFor(before, n), OperationsFor(now, n));
      if LocalTo(c, inf) {
        FilterSnoc(ContainsGlobal(Shift(c, inf.start)), trains);
      }
    }
  }

  lemma DisjointShards(inf: ShardOffset, train: ShardOffset, n: nat, c: Coord)
    requires Dimensional(inf, n) && Dimensional(train, n) && !Overlaps(inf, train) && LocalTo(c, inf)
    ensures !ContainsGlobal(Shift(c, inf.start))(train)
  {
    var i :| 0 <= i < n && OverlapStart(inf, train)[i] >= OverlapEnd(inf, train)[i];
  }

  lemma {:induction false} OperationsForConcat(a: seq<Region>, b: seq<Region>, n: nat)
    requires forall i | 0 <= i < |a| :: RegionDimensional(a[i], n)
    requires forall i | 0 <= i < |b| :: RegionDimensional(b[i], n)
    ensures OperationsFor(a + b, n) == OperationsFor(a, n) + OperationsFor(b, n)
  {
    if b == [] {
      assert a + b == a;
    } else {
      OperationsForConcat(a, b[..|b| - 1], n);
      assert (a + b)[..|a + b| - 1] == a + b[..|b| - 1];
    }
  }

  function Receives(recv: nat, c: Coord): ShardOffset -> bool {
    (o: ShardOffset) => o.rank == recv && LocalTo(c, o)
  }

  ghost predicate Named(shards: seq<ShardOffset>, name: string) {
    forall i | 0 <= i < |shards| :: shards[i].shard.info.name == name
  }

  /** Every inference shard of one replica pair, when the training replica holds each coordinate once. */
  lemma {:induction false} RegionsWrite(
    infs: seq<ShardOffset>, trains: seq<ShardOffset>, n: nat, recv: nat, name: string, c: Coord)
    requires AllDimensional(infs, n) && AllDimensional(trains, n) && Named(infs, name) && |c| == n
    requires forall i | 0 <= i < |infs| && LocalTo(c, infs[i]) ::
      Count(ContainsGlobal(Shift(c, infs[i].start)), trains) == 1
    ensures forall i | 0 <= i < |AllRegions(infs, trains, n)| :: RegionDimensional(AllRegions(infs, trains, n)[i], n)
    ensures Count(Hits(recv, name, c), OperationsFor(AllRegions(infs, trains, n), n)) == Count(Receives(recv, c), infs)
  {
    if infs != [] {
      var init, last := infs[..|infs| - 1], infs[|infs| - 1];
      assert forall i | 0 <= i < |init| :: init[i] == infs[i];
      RegionsWrite(init, trains, n, recv, name, c);
      ShardWrites(last, trains, n, recv, name, c);
      var before, now := AllRegions(init, trains, n), RegionsOf(last, trains, n);
      OperationsForConcat(before, now, n);
      FilterConcat(Hits(recv, name, c), OperationsFor(before, n), OperationsFor(now, n));
      FilterSnoc(Receives(recv, c), infs);
    }
  }

  // ---------------------------------------------------------------- whole parameters

  lemma {:induction false} PlacedByIndex(w: World, shards: seq<Shard>, engine: nat, isInfer: bool)
    requires FirstDefect(shards).None?
    ensures |Offsets(w, shards, engine, isInfer, None)| == |shards|
    ensures forall i | 0 <= i < |shards| ::
      ShardDefect(shards[i]).None? && Offsets(w, shards, engine, isInfer, None)[i] == Placed(w, shards[i], engine, isInfer)
  {
    if shards != [] { PlacedByIndex(w, shards[..|shards| - 1], engine, isInfer); }
  }

  lemma {:induction false} NoDefect(shards: seq<Shard>)
    requires forall i | 0 <= i < |shards| :: ShardDefect(shards[i]).None?
    ensures FirstDefect(shards).None?
  {
    if shards != [] { NoDefect(shards[..|shards| - 1]); }
  }

  lemma {:induction false} ExtentMonotone(replica: seq<Shard>, j: nat, k: nat, dim: nat)
    requires j <= k <= |replica| && forall i | 0 <= i < |replica| :: dim < |replica[i].info.shape|
    ensures Extent(replica, j, dim) <= Extent(replica, k, dim)
  {
    if j < k { ExtentMonotone(replica, j, k - 1, dim); }
  }

  /** A local coordinate of any shard of a resolved replica is a coordinate of the global tensor. */
  lemma LocalIsGlobal(w: World, replica: seq<Shard>, k: nat, shape: seq<nat>, dim: nat, engine: nat, isInfer: bool, c: Coord)
    requires Resolved(replica, shape, dim) && k < |replica| && LocalTo(c, Placed(w, replica[k], engine, isInfer))
    ensures InBox(Shift(c, replica[k].offset), seq(|shape|, _ => 0), shape)
  {
    ExtentMonotone(replica, k + 1, |replica|, dim);
    var shard := replica[k];
    assert shard.offset[dim] + shard.info.shape[dim] == Extent(replica, k + 1, dim) <= shape[dim];
    ShiftedInside(c, shard.offset, shard.info.shape, shape);
  }

  lemma ShiftedInside(c: Coord, offset: seq<nat>, extent: seq<nat>, shape: seq<nat>)
    requires |c| == |offset| == |extent| == |shape|
    requires InBox(Shift(c, offset), offset, AddSeq(offset, extent))
    requires forall i | 0 <= i < |shape| :: offset[i] + extent[i] <= shape[i]
    ensures InBox(Shift(c, offset), seq(|shape|, _ => 0), shape)
  {
    forall i | 0 <= i < |shape|
      ensures 0 <= Shift(c, offset)[i] < shape[i]
    {
      assert offset[i] <= Shift(c, offset)[i] < AddSeq(offset, extent)[i];
    }
  }

  lemma PairWrites(
    w: World, inf: (nat, seq<Shard>), train: seq<Shard>, shape: seq<nat>, infDim: nat, trainDim: nat,
    recv: nat, name: string, c: Coord)
    requires Resolved(inf.1, shape, infDim) && Resolved(train, shape, trainDim) && |c| == |shape|
    requires forall k | 0 <= k < |inf.1| :: inf.1[k].info.name == name
    ensures FirstDefect(inf.1).None? && PairPlan(w, inf, train, None, |shape|).Ok?
    ensures Count(Hits(recv, name, c), PairPlan(w, inf, train, None, |shape|).value)
         == Count(Receives(recv, c), Offsets(w, inf.1, inf.0, true, None))
  {
    var n := |shape|;
    NoDefect(inf.1);
    NoDefect(train);
    var infs, trains := Offsets(w, inf.1, inf.0, true, None), Offsets(w, train, 0, false, None);
    OffsetsDimensional(w, inf.1, inf.0, true, None, n);
    OffsetsDimensional(w, train, 0, false, None, n);
    PlacedByIndex(w, inf.1, inf.0, true);
    TakeAll(train);
    forall i | 0 <= i < |infs| && LocalTo(c, infs[i])
      ensures Count(ContainsGlobal(Shift(c, infs[i].start)), trains) == 1
    {
      LocalIsGlobal(w, inf.1, i, shape, infDim, inf.0, true, c);
      OneOwner(w, train, |train|, shape, trainDim, Shift(c, inf.1[i].offset));
    }
    RegionsWrite(infs, trains, n, recv, name, c);
  }

  function ReceiversOf(w: World, inf: (nat, seq<Shard>)): seq<ShardOffset> {
    if FirstDefect(inf.1).Some? then [] else Offsets(w, inf.1, inf.0, true, None)
  }

  /** All inference shards of the first k engine replicas, placed on their ranks. */
  function Receivers(w: World, infs: seq<(nat, seq<Shard>)>, k: nat): seq<ShardOffset>
    requires k <= |infs|
  {
    if k == 0 then [] else Receivers(w, infs, k - 1) + ReceiversOf(w, infs[k - 1])
  }

  ghost predicate PairsReady(
    infs: seq<(nat, seq<Shard>)>, trains: seq<seq<Shard>>, shape: seq<nat>, infDim: nat, trainDim: nat, name: string) {
    && trains != []
    && UniformPairs(infs, |shape|) && UniformReplicas(trains, |shape|)
    && (forall i | 0 <= i < |infs| :: PairReady(infs[i].1, shape, infDim, name))
    && (forall i | 0 <= i < |trains| :: Resolved(trains[i], shape, trainDim))
  }

  ghost predicate PairReady(inf: seq<Shard>, shape: seq<nat>, infDim: nat, name: string) {
    && Resolved(inf, shape, infDim)
    && forall j | 0 <= j < |inf| :: inf[j].info.name == name
  }

  ghost predicate PlanCounted(
    plan: Result<seq<Operation>, PlanError>, receivers: seq<ShardOffset>, recv: nat, name: string, c: Coord) {
    plan.Ok? && Count(Hits(recv, name, c), plan.value) == Count(Receives(recv, c), receivers)
  }

  lemma OnePairCounted(
    w: World, infs: seq<(nat, seq<Shard>)>, trains: seq<seq<Shard>>, k: nat, shape: seq<nat>, infDim: nat,
    trainDim: nat, recv: nat, name: string, c: Coord)
    requires k < |infs| && |c| == |shape| && PairsReady(infs, trains, shape, infDim, trainDim, name)
    ensures PlanCounted(
      PairPlan(w, infs[k], trains[Dealt(k, |trains|)], None, |shape|), ReceiversOf(w, infs[k]), recv, name, c)
  {
    assert PairReady(infs[k].1, shape, infDim, name);
    PairWrites(w, infs[k], trains[Dealt(k, |trains|)], shape, infDim, trainDim, recv, name, c);
  }

  /** The plan of the first k pairs is the plans of the pairs, one after the other. */
  lemma {:induction false} PairsPlanParts(
    w: World, infs: seq<(nat, seq<Shard>)>, trains: seq<seq<Shard>>, parts: seq<seq<Operation>>, n: nat)
    requires |parts| <= |infs| && trains != [] && UniformPairs(infs, n) && UniformReplicas(trains, n)
    requires forall j: nat | j < |parts| :: PairPlan(w, infs[j], trains[Dealt(j, |trains|)], None, n) == Ok(parts[j])
    ensures PairsPlan(w, infs, trains, |parts|, None, n) == Ok(Flatten(parts))
  {
    if parts != [] {
      PairsPlanParts(w, infs, trains, parts[..|parts| - 1], n);
    }
  }

  lemma {:induction false} ReceiversParts(w: World, infs: seq<(nat, seq<Shard>)>, parts: seq<seq<ShardOffset>>)
    requires |parts| <= |infs|
    requires forall j: nat | j < |parts| :: ReceiversOf(w, infs[j]) == parts[j]
    ensures Receivers(w, infs, |parts|) == Flatten(parts)
  {
    if parts != [] {
      ReceiversParts(w, infs, parts[..|parts| - 1]);
    }
  }

  lemma {:induction false} PartsCounted<T, U>(f: T -> bool, parts: seq<seq<T>>, g: U -> bool, others: seq<seq<U>>)
    requires |parts| == |others|
    requires forall j: nat | j < |parts| :: Count(f, parts[j]) == Count(g, others[j])
    ensures Count(f, Flatten(parts)) == Count(g, Flatten(others))
  {
    if parts != [] {
      var k := |parts| - 1;
      PartsCounted(f, parts[..k], g, others[..k]);
      CountsAdd(f, Flatten(parts[..k]), parts[k], g, Flatten(others[..k]), others[k]);
    }
  }

  /** The plan of all pairs writes c once for each receiver of c among them. */
  lemma PairsWrite(
    w: World, infs: seq<(nat, seq<Shard>)>, trains: seq<seq<Shard>>, shape: seq<nat>, infDim: nat,
    trainDim: nat, recv: nat, name: string, c: Coord)
    requires |c| == |shape| && PairsReady(infs, trains, shape, infDim, trainDim, name)
    ensures PlanCounted(PairsPlan(w, infs, trains, |infs|, None, |shape|), Receivers(w, infs, |infs|), recv, name, c)
  {
    forall j: nat | j < |infs|
      ensures PlanCounted(
        PairPlan(w, infs[j], trains[Dealt(j, |trains|)], None, |shape|), ReceiversOf(w, infs[j]), recv, name, c)
    {
      OnePairCounted(w, infs, trains, j, shape, infDim, trainDim, recv, name, c);
    }
    var parts := seq(|infs|, j requires 0 <= j < |infs| =>
      PairPlan(w, infs[j], trains[Dealt(j, |trains|)], None, |shape|).value);
    var others := seq(|infs|, j requires 0 <= j < |infs| => ReceiversOf(w, infs[j]));
    PairsPlanParts(w, infs, trains, parts, |shape|);
    ReceiversParts(w, infs, others);
    PartsCounted(Hits(recv, name, c), parts, Receives(recv, c), others);
  }

  lemma CountsAdd<T, U>(f: T -> bool, a: seq<T>, b: seq<T>, g: U -> bool, x: seq<U>, y: seq<U>)
    requires Count(f, a) == Count(g, x) && Count(f, b) == Count(g, y)
    ensures Count(f, a + b) == Count(g, x + y)
  {
    FilterConcat(f, a, b);
    FilterConcat(g, x, y);
  }

  // ---------------------------------------------------------------- one parameter, all replicas and engines

  lemma {:induction false} EngineReplicaAt(replicas: seq<seq<Shard>>, engines: nat, i: nat) returns (e: nat, r: nat)
    requires i < |EngineReplicas(replicas, engines)|
    ensures e < engines && r < |replicas| && EngineReplicas(replicas, engines)[i] == (e, replicas[r])
  {
    var before := EngineReplicas(replicas, engines - 1);
    if i < |before| {
      e, r := EngineReplicaAt(replicas, engines - 1, i);
    } else {
      e, r := engines - 1, i - |before|;
    }
  }

  /** Every replica of every engine is among the engine replicas. */
  lemma {:induction false} EngineReplicaIndex(replicas: seq<seq<Shard>>, engines: nat, e: nat, r: nat) returns (i: nat)
    requires e < engines && r < |replicas|
    ensures i < |EngineReplicas(replicas, engines)| && EngineReplicas(replicas, engines)[i] == (e, replicas[r])
  {
    if e == engines - 1 {
      i := |EngineReplicas(replicas, engines - 1)| + r;
    } else {
      i := EngineReplicaIndex(replicas, engines - 1, e, r);
    }
  }

  /** Train and infer metadata of one parameter that describe the same global tensor. */
  ghost predicate SameTensor(inf: ParameterMeta, infDim: nat, train: ParameterMeta, trainDim: nat) {
    && ResolvedMeta(inf, infDim) && ResolvedMeta(train, trainDim)
    && inf.name == train.name && inf.globalShape == train.globalShape
    && inf.replicas != [] && train.replicas != []
  }

  function AllReceivers(w: World, inf: ParameterMeta): seq<ShardOffset> {
    var infs := EngineReplicas(inf.replicas, w.numInferEngines);
    Receivers(w, infs, |infs|)
  }

  lemma SameTensorIsReady(w: World, inf: ParameterMeta, infDim: nat, train: ParameterMeta, trainDim: nat)
    requires SameTensor(inf, infDim, train, trainDim)
    ensures PairsReady(EngineReplicas(inf.replicas, w.numInferEngines), train.replicas, inf.globalShape, infDim, trainDim, inf.name)
    ensures UniformReplicas(inf.replicas, |inf.globalShape|) && UniformReplicas(train.replicas, |inf.globalShape|)
  {
    var infs, n := EngineReplicas(inf.replicas, w.numInferEngines), |inf.globalShape|;
    forall r | 0 <= r < |inf.replicas|
      ensures Uniform(inf.replicas[r], n) && PairReady(inf.replicas[r], inf.globalShape, infDim, inf.name)
    {
      assert Resolved(inf.replicas[r], inf.globalShape, infDim);
    }
    forall i | 0 <= i < |infs|
      ensures Uniform(infs[i].1, n) && PairReady(infs[i].1, inf.globalShape, infDim, inf.name)
    {
      var e, r := EngineReplicaAt(inf.replicas, w.numInferEngines, i);
    }
    forall r | 0 <= r < |train.replicas|
      ensures Uniform(train.replicas[r], n)
    {
      assert Resolved(train.replicas[r], train.globalShape, trainDim);
    }
  }

  /** The plan of a parameter writes each coordinate once for each inference shard that holds it. */
  lemma ParameterWrites(
    w: World, inf: ParameterMeta, infDim: nat, train: ParameterMeta, trainDim: nat, recv: nat, c: Coord)
    requires SameTensor(inf, infDim, train, trainDim) && w.numInferEngines > 0 && |c| == |inf.globalShape|
    ensures UniformReplicas(inf.replicas, |inf.globalShape|) && UniformReplicas(train.replicas, |inf.globalShape|)
    ensures PlanCounted(
      ParameterPlan(w, inf, train, None, |inf.globalShape|), AllReceivers(w, inf), recv, inf.name, c)
  {
    var infs := EngineReplicas(inf.replicas, w.numInferEngines);
    SameTensorIsReady(w, inf, infDim, train, trainDim);
    var i := EngineReplicaIndex(inf.replicas, w.numInferEngines, 0, 0);
    PairsWrite(w, infs, train.replicas, inf.globalShape, infDim, trainDim, recv, inf.name, c);
  }

  // ---------------------------------------------------------------- where operations read

  /** op moves the overlap of these two shards. */
  ghost predicate Moves(op: Operation, inf: ShardOffset, train: ShardOffset, n: nat) {
    && Dimensional(inf, n) && Dimensional(train, n) && Overlaps(inf, train)
    && op == OverlapOperation(inf, train, n)
  }

  ghost predicate MovesAmong(op: Operation, infs: seq<ShardOffset>, trains: seq<ShardOffset>, n: nat) {
    exists inf, train :: inf in infs && train in trains && Moves(op, inf, train, n)
  }

  ghost predicate AllMoveAmong(ops: seq<Operation>, infs: seq<ShardOffset>, trains: seq<ShardOffset>, n: nat) {
    forall op <- ops :: MovesAmong(op, infs, trains, n)
  }

  ghost predicate AllDimensionalRegions(regions: seq<Region>, n: nat) {
    forall i | 0 <= i < |regions| :: RegionDimensional(regions[i], n)
  }

  lemma {:induction false} ShardSources(inf: ShardOffset, trains: seq<ShardOffset>, n: nat)
    returns (regions: seq<Region>, ops: seq<Operation>)
    requires Dimensional(inf, n) && AllDimensional(trains, n)
    ensures regions == RegionsOf(inf, trains, n) && AllDimensionalRegions(regions, n)
    ensures ops == OperationsFor(regions, n) && AllMoveAmong(ops, [inf], trains, n)
  {
    if trains == [] {
      regions, ops := [], [];
    } else {
      var init, train := trains[..|trains| - 1], trains[|trains| - 1];
      var before, done := ShardSources(inf, init, n);
      var now, last := OneSource(inf, train, n);
      assert trains == init + [train];
      RegionsOfSnoc(inf, init, train, n);
      OperationsForConcat(before, now, n);
      ShardSourcesStep(done, last, inf, init, train, n);
      regions, ops := before + now, done + last;
    }
  }

  lemma OneSource(inf: ShardOffset, train: ShardOffset, n: nat) returns (regions: seq<Region>, ops: seq<Operation>)
    requires Dimensional(inf, n) && Dimensional(train, n)
    ensures regions == RegionsOf(inf, [train], n) && AllDimensionalRegions(regions, n)
    ensures ops == OperationsFor(regions, n) == if Overlaps(inf, train) then [OverlapOperation(inf, train, n)] else []
  {
    OneOverlap(inf, train, n);
    regions := RegionsOf(inf, [train], n);
    ops := OperationsFor(regions, n);
  }

  lemma ShardSourcesStep(
    before: seq<Operation>, now: seq<Operation>, inf: ShardOffset, init: seq<ShardOffset>, train: ShardOffset, n: nat)
    requires Dimensional(inf, n) && Dimensional(train, n)
    requires AllMoveAmong(before, [inf], init, n)
    requires now == if Overlaps(inf, train) then [OverlapOperation(inf, train, n)] else []
    ensures AllMoveAmong(before + now, [inf], init + [train], n)
  {
    MoveAmongMore(before, [inf], init, [inf], init + [train], n);
    forall op <- now ensures MovesAmong(op, [inf], init + [train], n) {
      assert inf in [inf] && train in init + [train] && Moves(op, inf, train, n);
    }
  }

  lemma MoveAmongMore(
    ops: seq<Operation>, infs: seq<ShardOffset>, trains: seq<ShardOffset>, moreInfs: seq<ShardOffset>,
    moreTrains: seq<ShardOffset>, n: nat)
    requires AllMoveAmong(ops, infs, trains, n)
    requires (forall o <- infs :: o in moreInfs) && forall o <- trains :: o in moreTrains
    ensures AllMoveAmong(ops, moreInfs, moreTrains, n)
  {
    forall op <- ops ensures MovesAmong(op, moreInfs, moreTrains, n) {
      var inf, train :| inf in infs && train in trains && Moves(op, inf, train, n);
      assert inf in moreInfs && train in moreTrains;
    }
  }

  lemma {:induction false} RegionSourcesMove(infs: seq<ShardOffset>, trains: seq<ShardOffset>, n: nat)
    requires AllDimensional(infs, n) && AllDimensional(trains, n)
    ensures forall i | 0 <= i < |AllRegions(infs, trains, n)| :: RegionDimensional(AllRegions(infs, trains, n)[i], n)
    ensures AllMoveAmong(OperationsFor(AllRegions(infs, trains, n), n), infs, trains, n)
  {
    if infs != [] {
      var init, last := infs[..|infs| - 1], infs[|infs| - 1];
      RegionSourcesMove(init, trains, n);
      var regions, ops := ShardSources(last, trains, n);
      OperationsForConcat(AllRegions(init, trains, n), regions, n);
      MoveAmongMore(OperationsFor(AllRegions(init, trains, n), n), init, trains, infs, trains, n);
      MoveAmongMore(ops, [last], trains, infs, trains, n);
    }
  }

  ghost predicate IsTrainShard(w: World, replicas: seq<seq<Shard>>, train: ShardOffset) {
    exists r, k | 0 <= r < |replicas| && 0 <= k < |replicas[r]| && ShardDefect(replicas[r][k]).None? ::
      train == Placed(w, replicas[r][k], 0, false)
  }

  /** op moves an overlap between one of the receivers and a training shard. */
  ghost predicate SoundOperation(
    w: World, op: Operation, receivers: seq<ShardOffset>, replicas: seq<seq<Shard>>, n: nat) {
    exists inf, train :: inf in receivers && IsTrainShard(w, replicas, train) && Moves(op, inf, train, n)
  }

  lemma PairSound(w: World, inf: (nat, seq<Shard>), trains: seq<seq<Shard>>, t: nat, n: nat)
    requires t < |trains| && Uniform(inf.1, n) && Uniform(trains[t], n) && PairPlan(w, inf, trains[t], None, n).Ok?
    ensures forall op <- PairPlan(w, inf, trains[t], None, n).value :: SoundOperation(w, op, ReceiversOf(w, inf), trains, n)
  {
    var infs, placed := Offsets(w, inf.1, inf.0, true, None), Offsets(w, trains[t], 0, false, None);
    OffsetsDimensional(w, inf.1, inf.0, true, None, n);
    OffsetsDimensional(w, trains[t], 0, false, None, n);
    RegionSourcesMove(infs, placed, n);
    PlacedByIndex(w, trains[t], 0, false);
    forall op <- PairPlan(w, inf, trains[t], None, n).value
      ensures SoundOperation(w, op, ReceiversOf(w, inf), trains, n)
    {
      var i, train :| i in infs && train in placed && Moves(op, i, train, n);
      var k :| 0 <= k < |placed| && placed[k] == train;
      assert train == Placed(w, trains[t][k], 0, false);
    }
  }

  lemma {:induction false} PairsSound(
    w: World, infs: seq<(nat, seq<Shard>)>, trains: seq<seq<Shard>>, k: nat, n: nat)
    requires k <= |infs| && trains != [] && UniformPairs(infs, n) && UniformReplicas(trains, n)
    requires PairsPlan(w, infs, trains, k, None, n).Ok?
    ensures forall op <- PairsPlan(w, infs, trains, k, None, n).value ::
      SoundOperation(w, op, Receivers(w, infs, k), trains, n)
    decreases k
  {
    if k > 0 {
      PairsSound(w, infs, trains, k - 1, n);
      PairSound(w, infs[k - 1], trains, Dealt(k - 1, |trains|), n);
      forall op <- PairsPlan(w, infs, trains, k, None, n).value
        ensures SoundOperation(w, op, Receivers(w, infs, k), trains, n)
      {
        if op in PairsPlan(w, infs, trains, k - 1, None, n).value {
          MoreReceivers(w, op, Receivers(w, infs, k - 1), Receivers(w, infs, k), trains, n);
        } else {
          MoreReceivers(w, op, ReceiversOf(w, infs[k - 1]), Receivers(w, infs, k), trains, n);
        }
      }
    }
  }

  lemma MoreReceivers(
    w: World, op: Operation, fewer: seq<ShardOffset>, more: seq<ShardOffset>, trains: seq<seq<Shard>>, n: nat)
    requires SoundOperation(w, op, fewer, trains, n) && forall o <- fewer :: o in more
    ensures SoundOperation(w, op, more, trains, n)
  {
    var inf, train :| inf in fewer && IsTrainShard(w, trains, train) && Moves(op, inf, train, n);
    assert inf in more;
  }

  // ---------------------------------------------------------------- executing a plan

  /** The contents of a side: rank, parameter name, local coordinate. */
  type Memory<!V> = (nat, string, Coord) -> V

  function ReadCoord(op: Operation, c: Coord): Coord {
    if |c| == |op.recvOffset| == |op.sendOffset| then SourceCoord(op, c) else c
  }

  /** One operation copies the overlap from the training side to the inference side. */
  function Apply<V>(op: Operation, train: Memory<V>, infer: Memory<V>): Memory<V> {
    (rank: nat, name: string, c: Coord) =>
      if WritesAt(op, rank, name, c) then train(op.sendRank, op.sendShard.info.name, ReadCoord(op, c))
      else infer(rank, name, c)
  }

  function Execute<V>(ops: seq<Operation>, train: Memory<V>, infer: Memory<V>): Memory<V> {
    if ops == [] then infer else Apply(ops[|ops| - 1], train, Execute(ops[..|ops| - 1], train, infer))
  }

  /** Whatever op writes into this coordinate is v. */
  ghost predicate Delivers<V>(op: Operation, train: Memory<V>, recv: nat, name: string, c: Coord, v: V) {
    WritesAt(op, recv, name, c) ==> train(op.sendRank, op.sendShard.info.name, ReadCoord(op, c)) == v
  }

  /** A coordinate that is written at all ends up with the value all its writers deliver; others are untouched. */
  lemma {:induction false} ExecuteMeaning<V>(
    ops: seq<Operation>, train: Memory<V>, infer: Memory<V>, recv: nat, name: string, c: Coord, v: V)
    requires forall op <- ops :: Delivers(op, train, recv, name, c, v)
    ensures Execute(ops, train, infer)(recv, name, c)
         == if Count(Hits(recv, name, c), ops) == 0 then infer(recv, name, c) else v
  {
    if ops != [] {
      var init, last := ops[..|ops| - 1], ops[|ops| - 1];
      assert forall op <- init :: op in ops;
      ExecuteMeaning(init, train, infer, recv, name, c, v);
      FilterSnoc(Hits(recv, name, c), ops);
      assert Delivers(last, train, recv, name, c, v);
    }
  }

  /** The training side holds the global tensor: every placed shard carries its box of it. */
  ghost predicate HoldsGlobal<V(!new)>(w: World, replicas: seq<seq<Shard>>, name: string, train: Memory<V>, global: Coord -> V) {
    forall r, k, t | 0 <= r < |replicas| && 0 <= k < |replicas[r]| && ShardDefect(replicas[r][k]).None?
                     && LocalTo(t, Placed(w, replicas[r][k], 0, false)) ::
      train(TransferRank(w, replicas[r][k], 0, false), name, t) == global(Shift(t, replicas[r][k].offset))
  }

  ghost predicate DistinctRanks(receivers: seq<ShardOffset>) {
    forall i, j | 0 <= i < j < |receivers| :: receivers[i].rank != receivers[j].rank
  }

  /** An operation that writes on o's rank writes into o, and delivers the global tensor there. */
  lemma SoundDelivers<V(!new)>(
    w: World, op: Operation, receivers: seq<ShardOffset>, o: ShardOffset, replicas: seq<seq<Shard>>, n: nat,
    name: string, c: Coord, train: Memory<V>, global: Coord -> V)
    requires SoundOperation(w, op, receivers, replicas, n) && DistinctRanks(receivers) && o in receivers
    requires HoldsGlobal(w, replicas, name, train, global) && op.sendShard.info.name == name && |c| == |o.start|
    ensures Delivers(op, train, o.rank, name, c, global(Shift(c, o.start)))
  {
    if WritesAt(op, o.rank, name, c) {
      var inf, source :| inf in receivers && IsTrainShard(w, replicas, source) && Moves(op, inf, source, n);
      var i :| 0 <= i < |receivers| && receivers[i] == inf;
      var j :| 0 <= j < |receivers| && receivers[j] == o;
      assert inf == o;
      RegionWrites(inf, source, n, c);
      var r, k :| 0 <= r < |replicas| && 0 <= k < |replicas[r]| && ShardDefect(replicas[r][k]).None?
                  && source == Placed(w, replicas[r][k], 0, false);
      assert LocalTo(SourceCoord(op, c), Placed(w, replicas[r][k], 0, false));
    }
  }

  lemma {:induction false} OneReceiver(receivers: seq<ShardOffset>, o: ShardOffset, c: Coord)
    requires DistinctRanks(receivers) && o in receivers
    ensures Count(Receives(o.rank, c), receivers) == if LocalTo(c, o) then 1 else 0
  {
    var init, last := receivers[..|receivers| - 1], receivers[|receivers| - 1];
    FilterSnoc(Receives(o.rank, c), receivers);
    if last == o {
      forall x <- init ensures !Receives(o.rank, c)(x) {
        var i :| 0 <= i < |init| && init[i] == x;
        assert receivers[i].rank != receivers[|init|].rank;
      }
      FilterNone(Receives(o.rank, c), init);
    } else {
      var i :| 0 <= i < |receivers| && receivers[i] == o;
      assert init[i] == o;
      OneReceiver(init, o, c);
    }
  }

  /**
   End to end, for one parameter: whatever the number of dimensions, shards, replicas and
   engines, the planned operations write each element of an inference shard exactly once
   and nothing outside it, and executing them in any order leaves there the element of
   the global tensor at the shard's own global coordinate.
   */
  lemma ParameterResharded<V(!new)>(
    w: World, inf: ParameterMeta, infDim: nat, train: ParameterMeta, trainDim: nat, ops: seq<Operation>,
    trainMemory: Memory<V>, inferMemory: Memory<V>, global: Coord -> V, o: ShardOffset, c: Coord)
    requires SameTensor(inf, infDim, train, trainDim) && w.numInferEngines > 0 && |c| == |inf.globalShape|
    requires DistinctRanks(AllReceivers(w, inf)) && o in AllReceivers(w, inf) && |o.start| == |c|
    requires HoldsGlobal(w, train.replicas, inf.name, trainMemory, global)
    ensures UniformReplicas(inf.replicas, |inf.globalShape|) && UniformReplicas(train.replicas, |inf.globalShape|)
    ensures ParameterPlan(w, inf, train, None, |inf.globalShape|).Ok?
    ensures multiset(ops) == multiset(ParameterPlan(w, inf, train, None, |inf.globalShape|).value) ==>
      && Count(Hits(o.rank, inf.name, c), ops) == (if LocalTo(c, o) then 1 else 0)
      && Execute(ops, trainMemory, inferMemory)(o.rank, inf.name, c)
         == if LocalTo(c, o) then global(Shift(c, o.start)) else inferMemory(o.rank, inf.name, c)
  {
    var n := |inf.globalShape|;
    SameTensorIsReady(w, inf, infDim, train, trainDim);
    ParameterWrites(w, inf, infDim, train, trainDim, o.rank, c);
    var plan := ParameterPlan(w, inf, train, None, n).value;
    if multiset(ops) == multiset(plan) {
      CountPermutation(Hits(o.rank, inf.name, c), ops, plan);
      OneReceiver(AllReceivers(w, inf), o, c);
      var infs := EngineReplicas(inf.replicas, w.numInferEngines);
      PairsSound(w, infs, train.replicas, |infs|, n);
      forall op <- ops
        ensures Delivers(op, trainMemory, o.rank, inf.name, c, global(Shift(c, o.start)))
      {
        assert op in multiset(plan);
        SendNames(w, op, AllReceivers(w, inf), train, trainDim, n);
        SoundDelivers(
          w, op, AllReceivers(w, inf), o, train.replicas, n, inf.name, c, trainMemory, global);
      }
      ExecuteMeaning(ops, trainMemory, inferMemory, o.rank, inf.name, c, global(Shift(c, o.start)));
    }
  }

  lemma SendNames(
    w: World, op: Operation, receivers: seq<ShardOffset>, train: ParameterMeta, trainDim: nat, n: nat)
    requires SoundOperation(w, op, receivers, train.replicas, n) && ResolvedMeta(train, trainDim)
    ensures op.sendShard.info.name == train.name
  {
  }
}
