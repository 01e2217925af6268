/**
 The planning processes never talk, yet both ends of every pair list the same
 operations in the same order, whether or not either of them pruned.
 */
module PlanAgreement {
  import opened Basics
  import opened SequenceFacts
  import opened Sequences
  import opened ParamMeta
  import opened TransferPlan

  function PlacedAt(rank: nat): ShardOffset -> bool { (o: ShardOffset) => o.rank == rank }

  function TrainAt(rank: nat): Region -> bool { (r: Region) => r.train.rank == rank }

  function InfAt(rank: nat): Region -> bool { (r: Region) => r.inf.rank == rank }

  /** The operations rank takes part in. */
  function Concerns(w: World, rank: nat): Operation -> bool {
    if rank >= w.inferWorldSize then SendsFrom(rank) else RecvsAt(rank)
  }

  function Restricted(w: World, plan: Result<seq<Operation>, PlanError>, rank: nat): Result<seq<Operation>, PlanError> {
    match plan
    case Err(e) => Err(e)
    case Ok(ops) => Ok(Filter(Concerns(w, rank), ops))
  }

  lemma FilterSnoc<T>(keep: T -> bool, s: seq<T>)
    requires s != []
    ensures keep(s[|s| - 1]) ==> Filter(keep, s) == Filter(keep, s[..|s| - 1]) + [s[|s| - 1]]
    ensures !keep(s[|s| - 1]) ==> Filter(keep, s) == Filter(keep, s[..|s| - 1])
  {
    SnocOf(s);
    FilterConcat(keep, s[..|s| - 1], [s[|s| - 1]]);
    FilterOne(keep, s[|s| - 1]);
    EmptySuffix(Filter(keep, s[..|s| - 1]));
  }

  lemma {:induction false} OffsetsPruned(w: World, shards: seq<Shard>, engine: nat, isInfer: bool, rank: nat)
    requires FirstDefect(shards).None?
    ensures Offsets(w, shards, engine, isInfer, Some(rank))
         == Filter(PlacedAt(rank), Offsets(w, shards, engine, isInfer, None))
  {
    if shards != [] {
      OffsetsPruned(w, shards[..|shards| - 1], engine, isInfer, rank);
      FilterSnoc(PlacedAt(rank), Offsets(w, shards, engine, isInfer, None));
    }
  }

  lemma FilterDimensional(shards: seq<ShardOffset>, keep: ShardOffset -> bool, n: nat)
    requires AllDimensional(shards, n)
    ensures AllDimensional(Filter(keep, shards), n)
  {
    FilterMembers(keep, shards);
  }

  lemma RegionsOfSnoc(inf: ShardOffset, trains: seq<ShardOffset>, last: ShardOffset, n: nat)
    requires Dimensional(inf, n) && AllDimensional(trains, n) && Dimensional(last, n)
    ensures AllDimensional(trains + [last], n)
    ensures RegionsOf(inf, trains + [last], n) == RegionsOf(inf, trains, n) + RegionsOf(inf, [last], n)
  {
    assert (trains + [last])[..|trains|] == trains;
    assert [last][..0] == [];
  }

  lemma {:induction false} RegionsOfPrunedTrain(inf: ShardOffset, trains: seq<ShardOffset>, n: nat, rank: nat)
    requires Dimensional(inf, n) && AllDimensional(trains, n) && AllDimensional(Filter(PlacedAt(rank), trains), n)
    ensures RegionsOf(inf, Filter(PlacedAt(rank), trains), n) == Filter(TrainAt(rank), RegionsOf(inf, trains, n))
  {
    if trains != [] {
      var init, last := trains[..|trains| - 1], trains[|trains| - 1];
      FilterDimensional(init, PlacedAt(rank), n);
      RegionsOfPrunedTrain(inf, init, n, rank);
      FilterSnoc(PlacedAt(rank), trains);
      RegionsOfSnoc(inf, Filter(PlacedAt(rank), init), last, n);
      RegionsOfSnoc(inf, init, last, n);
      assert trains == init + [last];
      FilterConcat(TrainAt(rank), RegionsOf(inf, init, n), RegionsOf(inf, [last], n));
      OneRegion(inf, last, n, rank);
    }
  }

  lemma OneRegion(inf: ShardOffset, train: ShardOffset, n: nat, rank: nat)
    requires Dimensional(inf, n) && Dimensional(train, n)
    ensures Filter(TrainAt(rank), RegionsOf(inf, [train], n))
         == if train.rank == rank then RegionsOf(inf, [train], n) else []
  {
    RegionsOfSources(inf, [train], n);
    if train.rank == rank {
      FilterAll(TrainAt(rank), RegionsOf(inf, [train], n));
    } else {
      FilterNone(TrainAt(rank), RegionsOf(inf, [train], n));
    }
  }

  lemma {:induction false} RegionsPrunedTrain(infs: seq<ShardOffset>, trains: seq<ShardOffset>, n: nat, rank: nat)
    requires AllDimensional(infs, n) && AllDimensional(trains, n) && AllDimensional(Filter(PlacedAt(rank), trains), n)
    ensures AllRegions(infs, Filter(PlacedAt(rank), trains), n) == Filter(TrainAt(rank), AllRegions(infs, trains, n))
  {
    if infs != [] {
      var init, last := infs[..|infs| - 1], infs[|infs| - 1];
      RegionsPrunedTrain(init, trains, n, rank);
      RegionsOfPrunedTrain(last, trains, n, rank);
      FilterConcat(TrainAt(rank), AllRegions(init, trains, n), RegionsOf(last, trains, n));
    }
  }

  lemma {:induction false} RegionsPrunedInf(infs: seq<ShardOffset>, trains: seq<ShardOffset>, n: nat, rank: nat)
    requires AllDimensional(infs, n) && AllDimensional(trains, n) && AllDimensional(Filter(PlacedAt(rank), infs), n)
    ensures AllRegions(Filter(PlacedAt(rank), infs), trains, n) == Filter(InfAt(rank), AllRegions(infs, trains, n))
  {
    if infs != [] {
      var init, last := infs[..|infs| - 1], infs[|infs| - 1];
      var keep := PlacedAt(rank);
      FilterDimensional(init, keep, n);
      RegionsPrunedInf(init, trains, n, rank);
      FilterSnoc(keep, infs);
      FilterConcat(InfAt(rank), AllRegions(init, trains, n), RegionsOf(last, trains, n));
      RegionsOfSources(last, trains, n);
      if last.rank == rank {
        assert Filter(keep, infs)[..|Filter(keep, init)|] == Filter(keep, init);
        FilterAll(InfAt(rank), RegionsOf(last, trains, n));
      } else {
        FilterNone(InfAt(rank), RegionsOf(last, trains, n));
      }
    }
  }

  lemma {:induction false} OperationsFiltered(
    regions: seq<Region>, n: nat, keepRegion: Region -> bool, keepOp: Operation -> bool)
    requires forall i | 0 <= i < |regions| :: RegionDimensional(regions[i], n)
    requires forall i | 0 <= i < |regions| :: keepRegion(regions[i]) == keepOp(OperationFor(regions[i], n))
    ensures forall i | 0 <= i < |Filter(keepRegion, regions)| :: RegionDimensional(Filter(keepRegion, regions)[i], n)
    ensures OperationsFor(Filter(keepRegion, regions), n) == Filter(keepOp, OperationsFor(regions, n))
  {
    if regions != [] {
      var init, last := regions[..|regions| - 1], regions[|regions| - 1];
      OperationsFiltered(init, n, keepRegion, keepOp);
      FilterSnoc(keepRegion, regions);
      FilterSnoc(keepOp, OperationsFor(regions, n));
      if keepRegion(last) {
        var kept := Filter(keepRegion, regions);
        assert kept[..|kept| - 1] == Filter(keepRegion, init);
      }
    }
  }

  /** A pruned pair plan is the full pair plan restricted to the pruning rank. */
  lemma PairPruned(w: World, inf: (nat, seq<Shard>), train: seq<Shard>, rank: nat, n: nat)
    requires Uniform(inf.1, n) && Uniform(train, n)
    ensures PairPlan(w, inf, train, Some(rank), n) == Restricted(w, PairPlan(w, inf, train, None, n), rank)
  {
    if train != [] && ReplicaDefect(inf.1).None? && FirstDefect(train).None? {
      var infs, trains := Offsets(w, inf.1, inf.0, true, None), Offsets(w, train, 0, false, None);
      OffsetsDimensional(w, inf.1, inf.0, true, None, n);
      OffsetsDimensional(w, train, 0, false, None, n);
      PairRegionsDimensional(w, inf, train, None, n);
      var regions := PairRegions(w, inf, train, None, n);
      assert forall i | 0 <= i < |regions| :: regions[i] in regions;
      if rank >= w.inferWorldSize {
        OffsetsPruned(w, train, 0, false, rank);
        FilterDimensional(trains, PlacedAt(rank), n);
        RegionsPrunedTrain(infs, trains, n, rank);
        OperationsFiltered(regions, n, TrainAt(rank), SendsFrom(rank));
      } else {
        OffsetsPruned(w, inf.1, inf.0, true, rank);
        FilterDimensional(infs, PlacedAt(rank), n);
        RegionsPrunedInf(infs, trains, n, rank);
        OperationsFiltered(regions, n, InfAt(rank), RecvsAt(rank));
      }
    }
  }

  lemma RestrictedFollowed(
    w: World, before: Result<seq<Operation>, PlanError>, now: Result<seq<Operation>, PlanError>, rank: nat)
    ensures Restricted(w, Followed(before, now), rank) == Followed(Restricted(w, before, rank), Restricted(w, now, rank))
  {
    if before.Ok? && now.Ok? {
      FilterConcat(Concerns(w, rank), before.value, now.value);
    }
  }

  lemma {:induction false} PairsPruned(
    w: World, infs: seq<(nat, seq<Shard>)>, trains: seq<seq<Shard>>, k: nat, rank: nat, n: nat)
    requires k <= |infs| && trains != [] && UniformPairs(infs, n) && UniformReplicas(trains, n)
    ensures PairsPlan(w, infs, trains, k, Some(rank), n)
         == Restricted(w, PairsPlan(w, infs, trains, k, None, n), rank)
  {
    if k > 0 {
      PairsPruned(w, infs, trains, k - 1, rank, n);
      var inf, train := infs[k - 1], trains[Dealt(k - 1, |trains|)];
      PairPruned(w, inf, train, rank, n);
      RestrictedFollowed(
        w, PairsPlan(w, infs, trains, k - 1, None, n), PairPlan(w, inf, train, None, n), rank);
    }
  }

  lemma ParameterPruned(w: World, inf: ParameterMeta, train: ParameterMeta, rank: nat, n: nat)
    requires UniformReplicas(inf.replicas, n) && UniformReplicas(train.replicas, n)
    ensures ParameterPlan(w, inf, train, Some(rank), n) == Restricted(w, ParameterPlan(w, inf, train, None, n), rank)
  {
    var infs := EngineReplicas(inf.replicas, w.numInferEngines);
    EngineReplicasUniform(inf.replicas, w.numInferEngines, n);
    if infs != [] && train.replicas != [] {
      PairsPruned(w, infs, train.replicas, |infs|, rank, n);
    }
  }

  lemma {:induction false} NamesPruned(
    w: World, infer: map<string, ParameterMeta>, train: map<string, ParameterMeta>, names: seq<string>,
    rank: nat, dims: string -> nat)
    requires UniformModel(infer, train, dims) && forall name <- names :: name in infer && name in train
    ensures NamesPlan(w, infer, train, names, Some(rank), dims)
         == Restricted(w, NamesPlan(w, infer, train, names, None, dims), rank)
  {
    if names != [] {
      var init, name := names[..|names| - 1], names[|names| - 1];
      NamesPruned(w, infer, train, init, rank, dims);
      ParameterPruned(w, infer[name], train[name], rank, dims(name));
      var before := NamesPlan(w, infer, train, init, None, dims);
      var now := ParameterPlan(w, infer[name], train[name], None, dims(name));
      if before.Ok? && now.Ok? {
        FilterConcat(Concerns(w, rank), before.value, now.value);
      }
    }
  }

  /** Pruning changes nothing a rank keeps: its local plan is the one of the global plan. */
  lemma PruningIsInvisible(
    w: World, infer: seq<ParameterMeta>, train: seq<ParameterMeta>, strict: bool, rank: nat, dims: string -> nat)
    requires UniformModel(MetaDict(infer), MetaDict(train), dims)
    ensures LocalResult(w, ModelPlan(w, infer, train, strict, Some(rank), dims), rank)
         == LocalResult(w, ModelPlan(w, infer, train, strict, None, dims), rank)
  {
    if infer != [] && train != [] && KeysMatch(MetaDict(infer).Keys, MetaDict(train).Keys, strict) {
      NamesPruned(w, MetaDict(infer), MetaDict(train), CommonNames(infer, train), rank, dims);
      var global := ModelPlan(w, infer, train, strict, None, dims);
      if global.Ok? {
        FilterIdempotent(Concerns(w, rank), global.value);
      }
    }
  }

  lemma OpsWithIsSortedGroup(ops: seq<Operation>, isTrain: bool, peer: nat)
    ensures OpsWith(GroupByPeer(ops, isTrain), peer) == Sort(OperationLe(), Group(ops, PeerKey(isTrain), peer))
  {
    if peer !in PeerSet(ops, isTrain) {
      AbsentPeer(ops, isTrain, peer);
    }
  }

  function Between(send: nat, recv: nat): Operation -> bool {
    (op: Operation) => op.sendRank == send && op.recvRank == recv
  }

  lemma SenderKeeps(plan: seq<Operation>, send: nat, recv: nat)
    ensures OpsWith(GroupByPeer(Filter(SendsFrom(send), plan), true), recv)
         == Sort(OperationLe(), Filter(Between(send, recv), plan))
  {
    OpsWithIsSortedGroup(Filter(SendsFrom(send), plan), true, recv);
    FilterTwiceIs(HasKey(PeerKey(true), recv), SendsFrom(send), Between(send, recv), plan);
  }

  lemma ReceiverKeeps(plan: seq<Operation>, send: nat, recv: nat)
    ensures OpsWith(GroupByPeer(Filter(RecvsAt(recv), plan), false), send)
         == Sort(OperationLe(), Filter(Between(send, recv), plan))
  {
    OpsWithIsSortedGroup(Filter(RecvsAt(recv), plan), false, send);
    FilterTwiceIs(HasKey(PeerKey(false), send), RecvsAt(recv), Between(send, recv), plan);
  }

  lemma {:induction false} FilterTwiceIs<T(!new)>(f: T -> bool, g: T -> bool, both: T -> bool, s: seq<T>)
    requires forall x :: both(x) == (f(x) && g(x))
    ensures Filter(f, Filter(g, s)) == Filter(both, s)
  {
    if s != [] {
      FilterTwiceIs(f, g, both, s[1..]);
      FilterConcat(f, if g(s[0]) then [s[0]] else [], Filter(g, s[1..]));
    }
  }

  /** What either end keeps for the other: the sorted operations of the global plan between the two. */
  lemma LocalPlanMeaning(w: World, plan: seq<Operation>, send: nat, recv: nat)
    requires recv < w.inferWorldSize <= send
    ensures OpsWith(LocalPlan(w, plan, send), recv) == Sort(OperationLe(), Filter(Between(send, recv), plan))
    ensures OpsWith(LocalPlan(w, plan, recv), send) == Sort(OperationLe(), Filter(Between(send, recv), plan))
  {
    SenderKeeps(plan, send, recv);
    ReceiverKeeps(plan, send, recv);
  }

  /**
   Agreement: from the same metadata a training rank and an inference rank either fail
   alike, or the training rank's list for the inference rank equals the inference rank's
   list for the training rank, element by element, pruned or not on either side.
   */
  lemma BothEndsAgree(
    w: World, infer: seq<ParameterMeta>, train: seq<ParameterMeta>, strict: bool, dims: string -> nat,
    send: nat, sendPrune: Option<nat>, recv: nat, recvPrune: Option<nat>)
    requires UniformModel(MetaDict(infer), MetaDict(train), dims)
    requires recv < w.inferWorldSize <= send
    requires sendPrune == None || sendPrune == Some(send)
    requires recvPrune == None || recvPrune == Some(recv)
    ensures var sender := LocalResult(w, ModelPlan(w, infer, train, strict, sendPrune, dims), send);
            var receiver := LocalResult(w, ModelPlan(w, infer, train, strict, recvPrune, dims), recv);
            match (sender, receiver)
            case (Ok(s), Ok(r)) => OpsWith(s, recv) == OpsWith(r, send)
            case (Err(e), Err(f)) => e == f
            case _ => false
  {
    PruningIsInvisible(w, infer, train, strict, send, dims);
    PruningIsInvisible(w, infer, train, strict, recv, dims);
    var global := ModelPlan(w, infer, train, strict, None, dims);
    if global.Ok? {
      LocalPlanMeaning(w, global.value, send, recv);
    }
  }

  lemma OperationLeIsTotalPreorder()
    ensures TotalPreorder(OperationLe())
  {
    forall a: Operation, b: Operation
      ensures OperationBefore(a, b) || OperationBefore(b, a)
    {
      LexTotal(Codes(a.sendShard.info.name), Codes(b.sendShard.info.name));
      LexTotal(a.sendOffset, b.sendOffset);
      LexTotal(a.recvOffset, b.recvOffset);
    }
    forall a: Operation, b: Operation, c: Operation | OperationBefore(a, b) && OperationBefore(b, c)
      ensures OperationBefore(a, c)
    {
      OperationBeforeTransitive(a, b, c);
    }
  }

  lemma CodesInjective(a: string, b: string)
    requires Codes(a) == Codes(b)
    ensures a == b
  {
    forall i | 0 <= i < |a| ensures a[i] == b[i] {
      assert Codes(a)[i] == Codes(b)[i];
    }
  }

  lemma LexSandwich(a: seq<int>, b: seq<int>, c: seq<int>)
    requires LexLe(a, b) && LexLe(b, c)
    ensures LexLe(a, c)
    ensures a == c ==> a == b
  {
    LexTransitive(a, b, c);
    LexTotal(a, b);
  }

  lemma OperationBeforeTransitive(a: Operation, b: Operation, c: Operation)
    requires OperationBefore(a, b) && OperationBefore(b, c)
    ensures OperationBefore(a, c)
  {
    var na, nb, nc := a.sendShard.info.name, b.sendShard.info.name, c.sendShard.info.name;
    if na != nb && nb != nc {
      LexSandwich(Codes(na), Codes(nb), Codes(nc));
      if na == nc { CodesInjective(na, nb); }
    } else if na == nb == nc {
      if a.sendOffset != b.sendOffset && b.sendOffset != c.sendOffset {
        LexSandwich(a.sendOffset, b.sendOffset, c.sendOffset);
      } else if a.sendOffset == b.sendOffset == c.sendOffset {
        LexTransitive(a.recvOffset, b.recvOffset, c.recvOffset);
      }
    }
  }

  /** Every peer list is sorted by name, send offset and receive offset, and loses no operation. */
  lemma PeerListsSorted(w: World, plan: seq<Operation>, send: nat, recv: nat)
    requires recv < w.inferWorldSize <= send
    ensures Sorted(OperationLe(), OpsWith(LocalPlan(w, plan, send), recv))
    ensures multiset(OpsWith(LocalPlan(w, plan, send), recv)) == multiset(Filter(Between(send, recv), plan))
  {
    LocalPlanMeaning(w, plan, send, recv);
    OperationLeIsTotalPreorder();
    SortSorts(OperationLe(), Filter(Between(send, recv), plan));
    SortPermutes(OperationLe(), Filter(Between(send, recv), plan));
  }
}
