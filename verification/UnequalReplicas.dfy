/**
 What inconsistent metadata does. Which elements a plan writes at all is stated here for any
 metadata, consistent or not; and an input is given that the resolver accepts, whose second
 training replica is one row short, and whose plan leaves an inference element unwritten.
 */
module UnequalReplicas {
  import opened Basics
  import opened SequenceFacts
  import opened Sequences
  import opened ParamMeta
  import opened TransferPlan
  import opened Resharding
  import opened ModelResharding
  import opened ResolvedModel

  // ---------------------------------------------------------------- which elements are written

  /** The inference shard is on this rank, has this element, and the training shard has it too. */
  predicate Feeds(inf: ShardOffset, train: ShardOffset, recv: nat, c: Coord) {
    inf.rank == recv && LocalTo(c, inf) && ContainsGlobal(Shift(c, inf.start))(train)
  }

  ghost predicate FedBy(inf: ShardOffset, trains: seq<ShardOffset>, recv: nat, c: Coord) {
    exists j | 0 <= j < |trains| :: Feeds(inf, trains[j], recv, c)
  }

  ghost predicate SomeFed(infs: seq<ShardOffset>, trains: seq<ShardOffset>, recv: nat, c: Coord) {
    exists i | 0 <= i < |infs| :: FedBy(infs[i], trains, recv, c)
  }

  lemma {:induction false} CountSome<T>(hit: T -> bool, s: seq<T>)
    ensures Count(hit, s) > 0 <==> exists i | 0 <= i < |s| :: hit(s[i])
  {
    if s != [] {
      CountSome(hit, s[1..]);
      forall i | 0 <= i < |s[1..]| ensures s[1..][i] == s[i + 1] {}
      if i :| 0 <= i < |s| && hit(s[i]) {
        if i > 0 { assert hit(s[1..][i - 1]); }
      }
    }
  }

  lemma ShardFed(inf: ShardOffset, trains: seq<ShardOffset>, n: nat, recv: nat, name: string, c: Coord)
    requires Dimensional(inf, n) && AllDimensional(trains, n) && inf.shard.info.name == name && |c| == n
    ensures forall i | 0 <= i < |RegionsOf(inf, trains, n)| :: RegionDimensional(RegionsOf(inf, trains, n)[i], n)
    ensures Count(Hits(recv, name, c), OperationsFor(RegionsOf(inf, trains, n), n)) > 0 <==> FedBy(inf, trains, recv, c)
  {
    ShardWrites(inf, trains, n, recv, name, c);
    if LocalTo(c, inf) {
      var g := Shift(c, inf.start);
      CountSome(ContainsGlobal(g), trains);
      forall j | 0 <= j < |trains| ensures Feeds(inf, trains[j], recv, c) <==> inf.rank == recv && ContainsGlobal(g)(trains[j]) {}
    }
  }

  lemma {:induction false} RegionsFed(
    infs: seq<ShardOffset>, trains: seq<ShardOffset>, n: nat, recv: nat, name: string, c: Coord)
    requires AllDimensional(infs, n) && AllDimensional(trains, n) && Named(infs, name) && |c| == n
    ensures forall i | 0 <= i < |AllRegions(infs, trains, n)| :: RegionDimensional(AllRegions(infs, trains, n)[i], n)
    ensures Count(Hits(recv, name, c), OperationsFor(AllRegions(infs, trains, n), n)) > 0
       <==> SomeFed(infs, trains, recv, c)
  {
    if infs != [] {
      var init, last := infs[..|infs| - 1], infs[|infs| - 1];
      RegionsFed(init, trains, n, recv, name, c);
      ShardFed(last, trains, n, recv, name, c);
      var before, now := AllRegions(init, trains, n), RegionsOf(last, trains, n);
      OperationsForConcat(before, now, n);
      FilterConcat(Hits(recv, name, c), OperationsFor(before, n), OperationsFor(now, n));
      SomeFedNext(infs, trains, recv, c);
    }
  }

  lemma SomeFedNext(infs: seq<ShardOffset>, trains: seq<ShardOffset>, recv: nat, c: Coord)
    requires infs != []
    ensures SomeFed(infs, trains, recv, c)
       <==> SomeFed(infs[..|infs| - 1], trains, recv, c) || FedBy(infs[|infs| - 1], trains, recv, c)
  {
    var init := infs[..|infs| - 1];
    forall i | 0 <= i < |init| ensures init[i] == infs[i] {}
    if i :| 0 <= i < |infs| && FedBy(infs[i], trains, recv, c) {
      if i < |init| { assert FedBy(init[i], trains, recv, c); }
    }
    if i :| 0 <= i < |init| && FedBy(init[i], trains, recv, c) {
      assert FedBy(infs[i], trains, recv, c);
    }
  }

  /** A replica pair brings this element to this rank. */
  ghost predicate PairFeeds(w: World, inf: (nat, seq<Shard>), train: seq<Shard>, recv: nat, c: Coord) {
    && FirstDefect(inf.1).None? && FirstDefect(train).None?
    && SomeFed(Offsets(w, inf.1, inf.0, true, None), Offsets(w, train, 0, false, None), recv, c)
  }

  ghost predicate AllNamed(inf: seq<Shard>, name: string) {
    forall j | 0 <= j < |inf| :: inf[j].info.name == name
  }

  lemma PairFed(w: World, inf: (nat, seq<Shard>), train: seq<Shard>, n: nat, recv: nat, name: string, c: Coord)
    requires Uniform(inf.1, n) && Uniform(train, n) && AllNamed(inf.1, name) && |c| == n
    requires PairPlan(w, inf, train, None, n).Ok?
    ensures Count(Hits(recv, name, c), PairPlan(w, inf, train, None, n).value) > 0 <==> PairFeeds(w, inf, train, recv, c)
  {
    OffsetsDimensional(w, inf.1, inf.0, true, None, n);
    OffsetsDimensional(w, train, 0, false, None, n);
    PlacedByIndex(w, inf.1, inf.0, true);
    RegionsFed(Offsets(w, inf.1, inf.0, true, None), Offsets(w, train, 0, false, None), n, recv, name, c);
  }

  /** Some pair below k brings this element to this rank. */
  ghost predicate PairsFeed(
    w: World, infs: seq<(nat, seq<Shard>)>, trains: seq<seq<Shard>>, k: nat, recv: nat, c: Coord)
    requires k <= |infs| && trains != []
  {
    exists i: nat | i < k :: PairFeeds(w, infs[i], trains[Dealt(i, |trains|)], recv, c)
  }

  lemma PairsFeedNext(
    w: World, infs: seq<(nat, seq<Shard>)>, trains: seq<seq<Shard>>, k: nat, recv: nat, c: Coord, last: bool)
    requires 0 < k <= |infs| && trains != []
    requires last <==> PairFeeds(w, infs[k - 1], trains[Dealt(k - 1, |trains|)], recv, c)
    ensures PairsFeed(w, infs, trains, k, recv, c) <==> PairsFeed(w, infs, trains, k - 1, recv, c) || last
  {
  }

  lemma CountJoined<T>(hit: T -> bool, a: seq<T>, b: seq<T>)
    ensures Count(hit, a + b) > 0 <==> Count(hit, a) > 0 || Count(hit, b) > 0
  {
    FilterConcat(hit, a, b);
  }

  lemma {:induction false} PairsFed(
    w: World, infs: seq<(nat, seq<Shard>)>, trains: seq<seq<Shard>>, k: nat, n: nat, recv: nat, name: string, c: Coord)
    returns (plan: seq<Operation>)
    requires k <= |infs| && trains != [] && UniformPairs(infs, n) && UniformReplicas(trains, n) && |c| == n
    requires forall i | 0 <= i < |infs| :: AllNamed(infs[i].1, name)
    requires PairsPlan(w, infs, trains, k, None, n).Ok?
    ensures PairsPlan(w, infs, trains, k, None, n) == Ok(plan)
    ensures Count(Hits(recv, name, c), plan) > 0 <==> PairsFeed(w, infs, trains, k, recv, c)
  {
    plan := [];
    if k > 0 {
      var inf, train := infs[k - 1], trains[Dealt(k - 1, |trains|)];
      var before := PairsFed(w, infs, trains, k - 1, n, recv, name, c);
      var now := PairPlan(w, inf, train, None, n).value;
      PairFed(w, inf, train, n, recv, name, c);
      CountJoined(Hits(recv, name, c), before, now);
      PairsFeedNext(w, infs, trains, k, recv, c, Count(Hits(recv, name, c), now) > 0);
      plan := before + now;
    }
  }

  /**
   A plan writes an element of a rank if and only if some inference shard on the rank has it
   and the training replica dealt to that shard's replica has a shard with its global
   coordinate. Nothing is assumed about how the replicas relate to one another.
   */
  lemma WrittenIffFed(w: World, inf: ParameterMeta, train: ParameterMeta, n: nat, recv: nat, c: Coord)
    requires UniformReplicas(inf.replicas, n) && UniformReplicas(train.replicas, n) && |c| == n
    requires forall r | 0 <= r < |inf.replicas| :: AllNamed(inf.replicas[r], inf.name)
    requires ParameterPlan(w, inf, train, None, n).Ok?
    ensures var infs := EngineReplicas(inf.replicas, w.numInferEngines);
      && train.replicas != []
      && (Count(Hits(recv, inf.name, c), ParameterPlan(w, inf, train, None, n).value) > 0
          <==> PairsFeed(w, infs, train.replicas, |infs|, recv, c))
  {
    var infs := EngineReplicas(inf.replicas, w.numInferEngines);
    EngineReplicasUniform(inf.replicas, w.numInferEngines, n);
    forall i | 0 <= i < |infs| ensures AllNamed(infs[i].1, inf.name) {
      var e, r := EngineReplicaAt(inf.replicas, w.numInferEngines, i);
    }
    var plan := PairsFed(w, infs, train.replicas, |infs|, n, recv, inf.name, c);
  }

  // ---------------------------------------------------------------- two replicas that do not match

  /** Two tensor-parallel ranks with two shards each; the last shard is one row short. */
  function UnequalInfo(i: nat): ShardInfo {
    var tp := if i < 2 then 0 else 1;
    ShardInfo("w", i, tp, tp, 0, 0, [if i == 3 then 1 else 2])
  }

  ghost predicate AreUnequal(shards: seq<ParameterShardMeta>) {
    |shards| == 4 && Distinct(shards) && forall i | 0 <= i < 4 :: shards[i].info == UnequalInfo(i)
  }

  lemma KeyedPairs(a: ParameterShardMeta, b: ParameterShardMeta, key: ParameterShardMeta -> int, k: int)
    requires key(a) == key(b)
    ensures Group([a, b], key, k) == if key(a) == k then [a, b] else []
  {
    var keep := HasKey(key, k);
    forall x <- [a, b] ensures x == a || x == b {}
    if key(a) == k { FilterAll(keep, [a, b]); } else { FilterNone(keep, [a, b]); }
  }

  lemma TwoKeys(
    a: ParameterShardMeta, b: ParameterShardMeta, c: ParameterShardMeta, d: ParameterShardMeta,
    key: ParameterShardMeta -> int)
    requires key(a) == key(b) == 0 && key(c) == key(d) == 1
    ensures SortedKeys([a, b, c, d], key) == [0, 1]
  {
    assert [a, b, c, d][..3] == [a, b, c] && [a, b, c][..2] == [a, b] && [a, b][..1] == [a] && [a][..0] == [];
    assert DistinctKeys([a], key) == [0] && DistinctKeys([a, b], key) == [0];
    assert DistinctKeys([a, b, c], key) == [0, 1] && DistinctKeys([a, b, c, d], key) == [0, 1];
    SortsTwo();
  }

  lemma SortsTwo()
    ensures Sort(Ascending(), [0, 1]) == [0, 1]
  {
    assert [0, 1][..1] == [0] && [0][..0] == [];
    assert Sort(Ascending(), [0]) == [0];
  }

  lemma TwoGroups(
    a: ParameterShardMeta, b: ParameterShardMeta, c: ParameterShardMeta, d: ParameterShardMeta,
    key: ParameterShardMeta -> int, k: int)
    requires key(a) == key(b) && key(c) == key(d) && key(a) != key(c)
    ensures Group([a, b, c, d], key, k) == if key(a) == k then [a, b] else if key(c) == k then [c, d] else []
  {
    assert [a, b, c, d] == [a, b] + [c, d];
    FilterConcat(HasKey(key, k), [a, b], [c, d]);
    KeyedPairs(a, b, key, k);
    KeyedPairs(c, d, key, k);
  }

  lemma OneColumn(
    a: ParameterShardMeta, b: ParameterShardMeta, c: ParameterShardMeta, d: ParameterShardMeta,
    groups: seq<seq<ParameterShardMeta>>, r: nat)
    requires groups == [[a, b], [c, d]] && r < 2
    ensures Column(groups, 2, r) == if r == 0 then [a, c] else [b, d]
  {
    var first := groups[..1];
    assert first == [[a, b]] && |first[..0]| == 0;
    assert Column(first[..0], 2, r) == [];
    assert Column(first, 2, r) == if r == 0 then [a] else [b];
  }

  lemma TwoColumns(
    a: ParameterShardMeta, b: ParameterShardMeta, c: ParameterShardMeta, d: ParameterShardMeta,
    groups: seq<seq<ParameterShardMeta>>, tp: ParameterShardMeta -> int)
    requires groups == [[a, b], [c, d]] && tp(a) <= tp(c) && tp(b) <= tp(d)
    ensures Columns(groups, 2, 2, tp) == [[a, c], [b, d]]
  {
    OneColumn(a, b, c, d, groups, 0);
    OneColumn(a, b, c, d, groups, 1);
    TwoSorted(a, c, tp);
    TwoSorted(b, d, tp);
    assert Columns(groups, 2, 0, tp) == [];
    assert Columns(groups, 2, 1, tp) == [[a, c]];
  }

  lemma TwoSorted(a: ParameterShardMeta, b: ParameterShardMeta, tp: ParameterShardMeta -> int)
    requires tp(a) <= tp(b)
    ensures Sort(ByRank(tp), [a, b]) == [a, b]
  {
    assert [a, b][..1] == [a] && [a][..0] == [];
    assert Sort(ByRank(tp), [a]) == [a];
  }

  /** The resolver groups them into two replicas without complaint. */
  lemma UnequalAreGrouped(shards: seq<ParameterShardMeta>)
    requires AreUnequal(shards)
    ensures RawReplicas(shards, TpSharding, 2) == Ok([[shards[0], shards[2]], [shards[1], shards[3]]])
  {
    var a, b, c, d := shards[0], shards[1], shards[2], shards[3];
    var key := KeyOf(TpSharding);
    assert shards == [a, b, c, d];
    TwoKeys(a, b, c, d, key);
    TwoGroups(a, b, c, d, key, 0);
    TwoGroups(a, b, c, d, key, 1);
    KeyedGroups(shards, key);
    TwoColumns(a, b, c, d, [[a, b], [c, d]], TpOf());
  }

  lemma KeyedGroups(shards: seq<ParameterShardMeta>, key: ParameterShardMeta -> int)
    ensures Groups(shards, key, [0, 1]) == [Group(shards, key, 0), Group(shards, key, 1)]
  {
    assert [0, 1][..1] == [0] && [0][..0] == [];
    assert Groups(shards, key, []) == [];
    assert Groups(shards, key, [0]) == [Group(shards, key, 0)];
  }

  /** What the resolver leaves: a global shape of four rows, and a second replica of three. */
  function UnequalMeta(): ParameterMeta {
    ParameterMeta(
      "w", [4],
      [[Shard(UnequalInfo(0), [0]), Shard(UnequalInfo(2), [2])], [Shard(UnequalInfo(1), [0]), Shard(UnequalInfo(3), [2])]])
  }

  lemma PairOffsets(a: ParameterShardMeta, b: ParameterShardMeta, first: nat, second: nat)
    requires a.info.shape == [first] && b.info.shape == [second]
    ensures Dims([a, b], 1) && DimSum([a, b], 0) == first + second
    ensures OffsetAt([a, b], 0, 1, 0) == [0] && OffsetAt([a, b], 1, 1, 0) == [first]
  {
    assert [a, b][..1] == [a] && [a, b][..0] == [] && [a][..0] == [];
    assert DimSum([a], 0) == first;
  }

  lemma PairSnapshot(a: ParameterShardMeta, b: ParameterShardMeta)
    ensures Snapshot([a, b]) == [Shard(a.info, a.globalOffset), Shard(b.info, b.globalOffset)]
  {
    SnapshotByIndex([a, b]);
  }

  /** The resolved metadata of these shards is not that of one tensor. */
  lemma UnequalIsNotOneTensor(shards: seq<ParameterShardMeta>, replicas: seq<seq<ParameterShardMeta>>)
    requires AreUnequal(shards) && replicas == [[shards[0], shards[2]], [shards[1], shards[3]]]
    requires forall replica <- replicas :: OffsetsAssigned(replica, 1, 0)
    ensures Side(replicas, "w", 1, 0) && MetaOf(replicas, "w", 1, 0) == UnequalMeta()
    ensures !ResolvedMeta(MetaOf(replicas, "w", 1, 0), 0)
  {
    assert replicas[0] in replicas && replicas[1] in replicas;
    PairOffsets(shards[0], shards[2], 2, 2);
    PairOffsets(shards[1], shards[3], 2, 1);
    assert replicas[0][0].globalOffset == [0] && replicas[0][1].globalOffset == [2];
    assert replicas[1][0].globalOffset == [0] && replicas[1][1].globalOffset == [2];
    forall replica, shard | replica in replicas && shard in replica ensures shard.info.name == "w" {}
    forall r | 0 <= r < |replicas| ensures ReadyReplica(replicas, r, 1, 0) {}
    PairSnapshot(shards[0], shards[2]);
    PairSnapshot(shards[1], shards[3]);
    SnapshotsByIndex(replicas);
    UnequalIsNotResolved();
  }

  lemma UnequalIsNotResolved()
    ensures !ResolvedMeta(UnequalMeta(), 0)
  {
    var short := UnequalMeta().replicas[1];
    assert Extent(short, 2, 0) == Extent(short, 1, 0) + 1 == Extent(short, 0, 0) + 3;
    assert !Resolved(short, [4], 0);
  }

  method NewUnequal() returns (shards: seq<ParameterShardMeta>)
    ensures AreUnequal(shards) && fresh(set s | s in shards)
  {
    var a := new ParameterShardMeta(UnequalInfo(0));
    var b := new ParameterShardMeta(UnequalInfo(1));
    var c := new ParameterShardMeta(UnequalInfo(2));
    var d := new ParameterShardMeta(UnequalInfo(3));
    shards := [a, b, c, d];
  }

  /** So the resolver turns four such shards into inconsistent metadata and reports nothing. */
  method ResolveUnequal() returns (replicas: seq<seq<ParameterShardMeta>>)
    ensures Side(replicas, "w", 1, 0) && MetaOf(replicas, "w", 1, 0) == UnequalMeta()
    ensures !ResolvedMeta(MetaOf(replicas, "w", 1, 0), 0)
  {
    var shards := NewUnequal();
    UnequalAreGrouped(shards);
    UnequalDims(shards);
    var r := ResolveParameter(shards, TpSharding, 2, 1, 0);
    replicas := r.value.0;
    UnequalIsNotOneTensor(shards, replicas);
  }

  lemma UnequalDims(shards: seq<ParameterShardMeta>)
    requires AreUnequal(shards)
    ensures Dims(shards, 1)
  {
  }

  // ---------------------------------------------------------------- the element that is not written

  /** Two inference ranks that each hold the whole parameter. */
  function WholeInfo(rank: nat): ShardInfo { ShardInfo("w", rank, rank, rank, 0, 0, [4]) }

  function WholeMeta(): ParameterMeta {
    ParameterMeta("w", [4], [[Shard(WholeInfo(0), [0])], [Shard(WholeInfo(1), [0])]])
  }

  function SmallWorld(): World { World(2, 2, 1) }

  lemma OnePlaced(w: World, shards: seq<Shard>, engine: nat, isInfer: bool)
    requires |shards| == 1 && ShardDefect(shards[0]).None?
    ensures FirstDefect(shards).None? && Offsets(w, shards, engine, isInfer, None) == [Placed(w, shards[0], engine, isInfer)]
  {
    assert |shards[..0]| == 0;
    assert FirstDefect(shards[..0]).None?;
    PlacedByIndex(w, shards, engine, isInfer);
  }

  lemma TwoPlaced(w: World, shards: seq<Shard>)
    requires |shards| == 2 && ShardDefect(shards[0]).None? && ShardDefect(shards[1]).None?
    ensures FirstDefect(shards).None?
    ensures Offsets(w, shards, 0, false, None) == [Placed(w, shards[0], 0, false), Placed(w, shards[1], 0, false)]
  {
    assert shards[..1][..0] == shards[..0];
    OnePlaced(w, shards[..1], 0, false);
    PlacedByIndex(w, shards, 0, false);
  }

  /** The short replica ends at row 3. */
  lemma ShortOfRow(w: World, trains: seq<ShardOffset>)
    requires trains == [Placed(w, Shard(UnequalInfo(1), [0]), 0, false), Placed(w, Shard(UnequalInfo(3), [2]), 0, false)]
    ensures forall j | 0 <= j < |trains| :: !ContainsGlobal([3])(trains[j])
  {
    assert trains[0].end[0] == 2 && trains[1].end[0] == 3;
    assert [3][0] == 3;
  }

  /** The pair of one whole inference shard and one unequal training replica does not feed row 3 of rank 1. */
  lemma SmallPair(r: nat, inf: seq<Shard>, train: seq<Shard>)
    requires r < 2 && inf == WholeMeta().replicas[r] && train == UnequalMeta().replicas[r]
    ensures Uniform(inf, 1) && Uniform(train, 1) && PairPlan(SmallWorld(), (0, inf), train, None, 1).Ok?
    ensures !PairFeeds(SmallWorld(), (0, inf), train, 1, [3])
  {
    var w := SmallWorld();
    OnePlaced(w, inf, 0, true);
    TwoPlaced(w, train);
    UnfedPair(r, Offsets(w, inf, 0, true, None), Offsets(w, train, 0, false, None));
  }

  lemma UnfedPair(r: nat, infs: seq<ShardOffset>, trains: seq<ShardOffset>)
    requires r < 2 && infs == [Placed(SmallWorld(), WholeMeta().replicas[r][0], 0, true)]
    requires r == 1 ==>
      trains == [
        Placed(SmallWorld(), Shard(UnequalInfo(1), [0]), 0, false), Placed(SmallWorld(), Shard(UnequalInfo(3), [2]), 0, false)]
    ensures !SomeFed(infs, trains, 1, [3])
  {
    if r == 1 {
      ShortOfRow(SmallWorld(), trains);
      assert infs[0].start == [0] && Shift([3], [0]) == [3];
    } else {
      assert infs[0].rank == 0;
    }
    assert !FedBy(infs[0], trains, 1, [3]);
  }

  lemma TwoReplicas(replicas: seq<seq<Shard>>)
    requires |replicas| == 2
    ensures EngineReplicas(replicas, 1) == [(0, replicas[0]), (0, replicas[1])]
  {
    assert EngineReplicas(replicas, 0) == [];
  }

  lemma TwoPairs(w: World, infs: seq<(nat, seq<Shard>)>, trains: seq<seq<Shard>>, n: nat)
    requires |infs| == |trains| == 2 && UniformPairs(infs, n) && UniformReplicas(trains, n)
    requires PairPlan(w, infs[0], trains[0], None, n).Ok? && PairPlan(w, infs[1], trains[1], None, n).Ok?
    ensures PairsPlan(w, infs, trains, 2, None, n).Ok?
  {
    assert PairsPlan(w, infs, trains, 0, None, n).Ok?;
    assert PairsPlan(w, infs, trains, 1, None, n).Ok?;
  }

  lemma WholeIsResolved()
    ensures ResolvedMeta(WholeMeta(), 0)
  {
    forall r | 0 <= r < 2 ensures Resolved(WholeMeta().replicas[r], [4], 0) {
      var replica := WholeMeta().replicas[r];
      assert Extent(replica, 1, 0) == Extent(replica, 0, 0) + 4;
    }
  }

  lemma PlacedIsReceiver(w: World, infs: seq<(nat, seq<Shard>)>, o: ShardOffset)
    requires |infs| == 2 && ReceiversOf(w, infs[1]) == [o]
    ensures o in Receivers(w, infs, 2)
  {
    assert Receivers(w, infs, 2) == Receivers(w, infs, 1) + ReceiversOf(w, infs[1]);
  }

  /** An inference and a training side of two replicas each, on one engine, with no pair that feeds the row. */
  lemma UnfedPlan(w: World, inf: ParameterMeta, train: ParameterMeta, recv: nat, c: Coord)
    requires |inf.replicas| == |train.replicas| == 2 && w.numInferEngines == 1 && |c| == 1
    requires forall r | 0 <= r < 2 ::
      && Uniform(inf.replicas[r], 1) && Uniform(train.replicas[r], 1) && AllNamed(inf.replicas[r], inf.name)
      && PairPlan(w, (0, inf.replicas[r]), train.replicas[r], None, 1).Ok?
      && !PairFeeds(w, (0, inf.replicas[r]), train.replicas[r], recv, c)
    ensures UniformReplicas(inf.replicas, 1) && UniformReplicas(train.replicas, 1)
    ensures var plan := ParameterPlan(w, inf, train, None, 1);
      plan.Ok? && Count(Hits(recv, inf.name, c), plan.value) == 0
  {
    var infs := EngineReplicas(inf.replicas, 1);
    TwoReplicas(inf.replicas);
    EngineReplicasUniform(inf.replicas, 1, 1);
    TwoPairs(w, infs, train.replicas, 1);
    WrittenIffFed(w, inf, train, 1, recv, c);
    forall i: nat | i < 2 ensures !PairFeeds(w, infs[i], train.replicas[Dealt(i, 2)], recv, c) {
      assert Dealt(i, 2) == i;
    }
    assert !PairsFeed(w, infs, train.replicas, 2, recv, c);
  }

  /**
   Inference rank 1 holds all four rows and is dealt the short training replica: planning
   succeeds, and no operation of the plan writes row 3 of the rank.
   */
  lemma RowIsNotWritten(o: ShardOffset)
    requires o == Placed(SmallWorld(), WholeMeta().replicas[1][0], 0, true)
    ensures ResolvedMeta(WholeMeta(), 0) && WholeMeta().globalShape == UnequalMeta().globalShape
    ensures o.rank == 1 && LocalTo([3], o) && o in AllReceivers(SmallWorld(), WholeMeta())
    ensures UniformReplicas(WholeMeta().replicas, 1) && UniformReplicas(UnequalMeta().replicas, 1)
    ensures var plan := ParameterPlan(SmallWorld(), WholeMeta(), UnequalMeta(), None, 1);
      plan.Ok? && Count(Hits(1, "w", [3]), plan.value) == 0
  {
    WholeIsResolved();
    forall r | 0 <= r < 2
      ensures Uniform(WholeMeta().replicas[r], 1) && Uniform(UnequalMeta().replicas[r], 1)
      ensures PairPlan(SmallWorld(), (0, WholeMeta().replicas[r]), UnequalMeta().replicas[r], None, 1).Ok?
      ensures !PairFeeds(SmallWorld(), (0, WholeMeta().replicas[r]), UnequalMeta().replicas[r], 1, [3])
    {
      SmallPair(r, WholeMeta().replicas[r], UnequalMeta().replicas[r]);
    }
    UnfedPlan(SmallWorld(), WholeMeta(), UnequalMeta(), 1, [3]);
    RowIsReceived(o);
  }

  lemma RowIsReceived(o: ShardOffset)
    requires o == Placed(SmallWorld(), WholeMeta().replicas[1][0], 0, true)
    ensures LocalTo([3], o) && o in AllReceivers(SmallWorld(), WholeMeta())
  {
    var replicas := WholeMeta().replicas;
    TwoReplicas(replicas);
    OnePlaced(SmallWorld(), replicas[1], 0, true);
    PlacedIsReceiver(SmallWorld(), EngineReplicas(replicas, 1), o);
    assert Shift([3], o.start) == [3];
  }
}
