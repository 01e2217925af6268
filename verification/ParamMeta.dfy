/**
 Resolution of one parameter's metadata: raw per-rank shards are grouped into replicas,
 the global shape is read off the first replica, and every shard is given its offset in
 the global tensor by a running sum along the sharding dimension of its replica.
 */
module ParamMeta {
  import opened Basics
  import opened SequenceFacts
  import opened Sequences

  datatype ShardingType = NoSharding | TpSharding | DpTpSharding | EpSharding | EpTpSharding

  /** The immutable part of a shard's metadata. */
  datatype ShardInfo = ShardInfo(
    name: string, globalRank: nat, tpRank: int, attnTpRank: int, epRank: int, epTpRank: int, shape: seq<nat>)

  /** A shard as the planner reads it. */
  datatype Shard = Shard(info: ShardInfo, offset: seq<nat>)

  datatype ParameterMeta = ParameterMeta(name: string, globalShape: seq<nat>, replicas: seq<seq<Shard>>)

  class ParameterShardMeta {
    const info: ShardInfo
    var globalOffset: seq<nat>

    constructor (info: ShardInfo)
      ensures this.info == info && globalOffset == []
    {
      this.info := info;
      globalOffset := [];
    }
  }

  function Snapshot(replica: seq<ParameterShardMeta>): seq<Shard>
    reads set s | s in replica
  {
    if replica == [] then []
    else
      Snapshot(replica[..|replica| - 1])
      + [Shard(replica[|replica| - 1].info, replica[|replica| - 1].globalOffset)]
  }

  // ---------------------------------------------------------------- grouping into replicas

  function RankKey(sharding: ShardingType, info: ShardInfo): int {
    match sharding
    case NoSharding => info.globalRank
    case TpSharding => info.tpRank
    case DpTpSharding => info.attnTpRank
    case EpSharding => info.epRank
    case EpTpSharding => info.epTpRank
  }

  /** The keys of items in the order in which they first occur. */
  function DistinctKeys<T>(items: seq<T>, key: T -> int): (keys: seq<int>)
    ensures forall i, j | 0 <= i < j < |keys| :: keys[i] != keys[j]
    ensures forall x <- items :: key(x) in keys
  {
    if items == [] then []
    else
      var keys := DistinctKeys(items[..|items| - 1], key);
      var last := key(items[|items| - 1]);
      if last in keys then keys else keys + [last]
  }

  function HasKey<T>(key: T -> int, k: int): T -> bool {
    x => key(x) == k
  }

  function HasKeyIn<T>(key: T -> int, keys: seq<int>): T -> bool {
    x => key(x) in keys
  }

  function Group<T>(items: seq<T>, key: T -> int, k: int): seq<T> {
    Filter(HasKey(key, k), items)
  }

  function Ascending(): (int, int) -> bool {
    (a, b) => a <= b
  }

  function ByRank<T>(tp: T -> int): (T, T) -> bool {
    (a, b) => tp(a) <= tp(b)
  }

  function SortedKeys<T>(items: seq<T>, key: T -> int): seq<int> {
    Sort(Ascending(), DistinctKeys(items, key))
  }

  function Groups<T>(items: seq<T>, key: T -> int, keys: seq<int>): seq<seq<T>> {
    if keys == [] then [] else Groups(items, key, keys[..|keys| - 1]) + [Group(items, key, keys[|keys| - 1])]
  }

  predicate Even<T>(groups: seq<seq<T>>, n: nat) {
    forall i | 0 <= i < |groups| :: |groups[i]| == n
  }

  function Column<T>(groups: seq<seq<T>>, n: nat, r: nat): seq<T>
    requires Even(groups, n) && r < n
  {
    if groups == [] then [] else Column(groups[..|groups| - 1], n, r) + [groups[|groups| - 1][r]]
  }

  /** The r-th shard of every rank, in rank order, stably re-sorted by tensor-parallel rank. */
  function Columns<T>(groups: seq<seq<T>>, n: nat, upto: nat, tp: T -> int): seq<seq<T>>
    requires Even(groups, n) && upto <= n
  {
    if upto == 0 then []
    else Columns(groups, n, upto - 1, tp) + [Sort(ByRank(tp), Column(groups, n, upto - 1))]
  }

  function Singletons<T>(items: seq<T>): seq<seq<T>> {
    seq(|items|, i requires 0 <= i < |items| => [items[i]])
  }

  datatype MetaError = InconsistentReplicas

  function Replicas<T>(items: seq<T>, sharding: ShardingType, numShards: nat, key: T -> int, tp: T -> int)
    : Result<seq<seq<T>>, MetaError>
    requires items != []
  {
    if sharding == NoSharding then Ok(Singletons(items))
    else if numShards == 1 then Ok([items])
    else
      var groups := Groups(items, key, SortedKeys(items, key));
      var n := |Group(items, key, key(items[0]))|;
      if Even(groups, n) then Ok(Columns(groups, n, n, tp)) else Err(InconsistentReplicas)
  }

  /** The first upto shards of every group. */
  function Truncated<T>(groups: seq<seq<T>>, n: nat, upto: nat): seq<T>
    requires Even(groups, n) && upto <= n
  {
    if groups == [] then []
    else Truncated(groups[..|groups| - 1], n, upto) + groups[|groups| - 1][..upto]
  }

  lemma {:induction false} TruncatedEnds<T>(groups: seq<seq<T>>, n: nat)
    requires Even(groups, n)
    ensures Truncated(groups, n, 0) == []
    ensures Truncated(groups, n, n) == Flatten(groups)
  {
    if groups != [] { TruncatedEnds(groups[..|groups| - 1], n); }
  }

  lemma {:induction false} TruncatedGrows<T>(groups: seq<seq<T>>, n: nat, upto: nat)
    requires Even(groups, n) && upto < n
    ensures multiset(Truncated(groups, n, upto + 1))
         == multiset(Truncated(groups, n, upto)) + multiset(Column(groups, n, upto))
  {
    if groups != [] {
      var last := groups[|groups| - 1];
      TruncatedGrows(groups[..|groups| - 1], n, upto);
      assert last[..upto + 1] == last[..upto] + [last[upto]];
    }
  }

  lemma FlattenMultiset<T>(parts: seq<seq<T>>, part: seq<T>)
    ensures multiset(Flatten(parts + [part])) == multiset(Flatten(parts)) + multiset(part)
  {
    FlattenSnoc(parts, part);
  }

  lemma {:induction false} ColumnsHoldGroups<T>(groups: seq<seq<T>>, n: nat, upto: nat, tp: T -> int)
    requires Even(groups, n) && upto <= n
    ensures multiset(Flatten(Columns(groups, n, upto, tp))) == multiset(Truncated(groups, n, upto))
    decreases upto
  {
    if upto == 0 {
      TruncatedEnds(groups, n);
    } else {
      var column := Column(groups, n, upto - 1);
      ColumnsHoldGroups(groups, n, upto - 1, tp);
      SortPermutes(ByRank(tp), column);
      FlattenMultiset(Columns(groups, n, upto - 1, tp), Sort(ByRank(tp), column));
      TruncatedGrows(groups, n, upto - 1);
    }
  }

  /** Splitting items by a list of distinct keys loses nothing but the items of other keys. */
  lemma {:induction false} GroupsPartition<T>(items: seq<T>, key: T -> int, keys: seq<int>)
    requires forall i, j | 0 <= i < j < |keys| :: keys[i] != keys[j]
    ensures multiset(Flatten(Groups(items, key, keys))) == multiset(Filter(HasKeyIn(key, keys), items))
    decreases |keys|
  {
    if keys == [] {
      FilterNone(HasKeyIn(key, keys), items);
    } else {
      var init, last := keys[..|keys| - 1], keys[|keys| - 1];
      GroupsPartition(items, key, init);
      FlattenSnoc(Groups(items, key, init), Group(items, key, last));
      assert keys == init + [last];
      SplitOffKey(items, key, init, last);
    }
  }

  lemma {:induction false} SplitOffKey<T>(items: seq<T>, key: T -> int, keys: seq<int>, last: int)
    requires last !in keys
    ensures multiset(Filter(HasKeyIn(key, keys + [last]), items))
         == multiset(Filter(HasKeyIn(key, keys), items)) + multiset(Group(items, key, last))
  {
    if items != [] { SplitOffKey(items[1..], key, keys, last); }
  }

  /** Sorting distinct keys keeps them distinct and keeps the set of keys. */
  lemma {:induction false} SortedKeysAreKeys<T>(items: seq<T>, key: T -> int)
    ensures var keys := SortedKeys(items, key);
      && (forall i, j | 0 <= i < j < |keys| :: keys[i] < keys[j])
      && (forall k :: k in keys <==> k in DistinctKeys(items, key))
  {
    var before, keys := DistinctKeys(items, key), SortedKeys(items, key);
    SortPermutes(Ascending(), before);
    SortSorts(Ascending(), before);
    forall k
      ensures k in keys <==> k in before
    {
      assert k in keys <==> k in multiset(keys);
    }
    forall i, j | 0 <= i < j < |keys|
      ensures keys[i] < keys[j]
    {
      if keys[i] == keys[j] {
        TwoOccurrences(keys, i, j);
        AtMostOnce(before, keys[i]);
      }
    }
  }

  /** Every raw shard ends up in exactly one slot of exactly one replica, whatever the sharding. */
  lemma ReplicasPartitionShards<T>(
    items: seq<T>, sharding: ShardingType, numShards: nat, key: T -> int, tp: T -> int)
    requires items != [] && Replicas(items, sharding, numShards, key, tp).Ok?
    ensures multiset(Flatten(Replicas(items, sharding, numShards, key, tp).value)) == multiset(items)
  {
    if sharding == NoSharding {
      FlattenSingletons(items);
    } else if numShards == 1 {
      FlattenSnoc([], items);
    } else {
      var keys := SortedKeys(items, key);
      var groups := Groups(items, key, keys);
      var n := |Group(items, key, key(items[0]))|;
      SortedKeysAreKeys(items, key);
      GroupsPartition(items, key, keys);
      FilterAll(HasKeyIn(key, keys), items);
      ColumnsHoldGroups(groups, n, n, tp);
      TruncatedEnds(groups, n);
    }
  }

  lemma {:induction false} FlattenSingletons<T>(items: seq<T>)
    ensures Flatten(Singletons(items)) == items
  {
    if items != [] {
      var init := items[..|items| - 1];
      FlattenSingletons(init);
      FlattenSnoc(Singletons(init), [items[|items| - 1]]);
      assert Singletons(items) == Singletons(init) + [[items[|items| - 1]]];
    }
  }

  lemma {:induction false} GroupsByIndex<T>(items: seq<T>, key: T -> int, keys: seq<int>)
    ensures |Groups(items, key, keys)| == |keys|
    ensures forall i | 0 <= i < |keys| :: Groups(items, key, keys)[i] == Group(items, key, keys[i])
  {
    if keys != [] { GroupsByIndex(items, key, keys[..|keys| - 1]); }
  }

  /** Grouping fails exactly when two ranks hold different numbers of shards. */
  lemma ReplicasFailure<T>(items: seq<T>, sharding: ShardingType, numShards: nat, key: T -> int, tp: T -> int)
    requires items != []
    ensures Replicas(items, sharding, numShards, key, tp).Err?
       <==> sharding != NoSharding && numShards != 1
            && exists i, j | 0 <= i < |items| && 0 <= j < |items| ::
              |Group(items, key, key(items[i]))| != |Group(items, key, key(items[j]))|
  {
    var keys := SortedKeys(items, key);
    var groups := Groups(items, key, keys);
    var n := |Group(items, key, key(items[0]))|;
    SortedKeysAreKeys(items, key);
    GroupsByIndex(items, key, keys);
    if Even(groups, n) {
      forall i | 0 <= i < |items|
        ensures |Group(items, key, key(items[i]))| == n
      {
        assert items[i] in items && key(items[i]) in keys;
      }
    } else {
      var g :| 0 <= g < |groups| && |groups[g]| != n;
      var i := KeyOccurs(items, key, keys[g]);
    }
  }

  lemma {:induction false} KeyOccurs<T>(items: seq<T>, key: T -> int, k: int) returns (i: nat)
    requires k in DistinctKeys(items, key)
    ensures i < |items| && key(items[i]) == k
  {
    var init := items[..|items| - 1];
    if k in DistinctKeys(init, key) {
      i := KeyOccurs(init, key, k);
    } else {
      i := |items| - 1;
    }
  }

  // ---------------------------------------------------------------- the grouping loops

  lemma DistinctKeysSnoc<T>(items: seq<T>, i: nat, key: T -> int)
    requires i < |items|
    ensures DistinctKeys(items[..i + 1], key)
         == (var before := DistinctKeys(items[..i], key);
             if key(items[i]) in before then before else before + [key(items[i])])
  {
    TakeInit(items, i);
  }

  lemma GroupSnoc<T>(items: seq<T>, i: nat, key: T -> int, k: int)
    requires i < |items|
    ensures Group(items[..i + 1], key, k) == Group(items[..i], key, k) + (if key(items[i]) == k then [items[i]] else [])
  {
    assert items[..i + 1] == items[..i] + [items[i]];
    FilterConcat(HasKey(key, k), items[..i], [items[i]]);
  }

  lemma {:induction false} GroupEmpty<T>(items: seq<T>, key: T -> int, k: int)
    requires k !in DistinctKeys(items, key)
    ensures Group(items, key, k) == []
  {
    FilterNone(HasKey(key, k), items);
  }

  /** Every rank that occurs is listed with its shards, in order. */
  ghost predicate ShardsByRank<T>(items: seq<T>, key: T -> int, rankToShards: map<int, seq<T>>) {
    && (forall k :: k in rankToShards <==> k in DistinctKeys(items, key))
    && forall k | k in rankToShards :: rankToShards[k] == Group(items, key, k)
  }

  lemma ShardsOfRank<T>(items: seq<T>, key: T -> int, rankToShards: map<int, seq<T>>, k: int)
    requires ShardsByRank(items, key, rankToShards) && (k in SortedKeys(items, key) || exists x :: x in items && key(x) == k)
    ensures k in rankToShards && rankToShards[k] == Group(items, key, k)
  {
    SortedKeysAreKeys(items, key);
  }

  /** Collects the shards of every rank, remembering the order in which ranks first occur. */
  method CollectByRank<T>(items: seq<T>, key: T -> int) returns (ranks: seq<int>, rankToShards: map<int, seq<T>>)
    ensures ranks == DistinctKeys(items, key) && ShardsByRank(items, key, rankToShards)
  {
    rankToShards := map[];
    ranks := [];
    for i := 0 to |items|
      invariant ranks == DistinctKeys(items[..i], key)
      invariant forall k :: k in rankToShards <==> k in ranks
      invariant forall k | k in rankToShards :: rankToShards[k] == Group(items[..i], key, k)
    {
      var k := key(items[i]);
      DistinctKeysSnoc(items, i, key);
      forall x
        ensures Group(items[..i + 1], key, x) == Group(items[..i], key, x) + (if k == x then [items[i]] else [])
      {
        GroupSnoc(items, i, key, x);
      }
      if k !in rankToShards {
        GroupEmpty(items[..i], key, k);
        ranks := ranks + [k];
        rankToShards := rankToShards[k := []];
      }
      rankToShards := rankToShards[k := rankToShards[k] + [items[i]]];
    }
    TakeAll(items);
  }

  /** The shard lists in rank order, and the length of the first rank's list. */
  lemma GroupsNext<T>(items: seq<T>, key: T -> int, keys: seq<int>, i: nat)
    requires i < |keys|
    ensures Groups(items, key, keys[..i + 1]) == Groups(items, key, keys[..i]) + [Group(items, key, keys[i])]
  {
    TakeInit(keys, i);
  }

  method ListsInRankOrder<T>(items: seq<T>, key: T -> int) returns (groups: seq<seq<T>>, numReplicas: nat)
    requires items != []
    ensures groups == Groups(items, key, SortedKeys(items, key))
    ensures numReplicas == |Group(items, key, key(items[0]))|
  {
    var ranks, rankToShards := CollectByRank(items, key);
    var sortedRanks := Sort(Ascending(), ranks);
    assert items[0] in items;
    ShardsOfRank(items, key, rankToShards, key(items[0]));
    numReplicas := |rankToShards[key(items[0])]|;
    groups := [];
    for i := 0 to |sortedRanks|
      invariant groups == Groups(items, key, sortedRanks[..i])
    {
      var rank := sortedRanks[i];
      assert rank in sortedRanks;
      ShardsOfRank(items, key, rankToShards, rank);
      GroupsNext(items, key, sortedRanks, i);
      groups := groups + [rankToShards[rank]];
    }
    TakeAll(sortedRanks);
  }

  method BuildColumns<T>(groups: seq<seq<T>>, numReplicas: nat, tp: T -> int) returns (replicas: seq<seq<T>>)
    requires Even(groups, numReplicas)
    ensures replicas == Columns(groups, numReplicas, numReplicas, tp)
  {
    replicas := [];
    for n := 0 to numReplicas
      invariant replicas == Columns(groups, numReplicas, n, tp)
    {
      var replica: seq<T> := [];
      for i := 0 to |groups|
        invariant replica == Column(groups[..i], numReplicas, n)
      {
        replica := replica + [groups[i][n]];
        TakeInit(groups, i);
      }
      TakeAll(groups);
      replicas := replicas + [Sort(ByRank(tp), replica)];
    }
  }

  /** Groups raw shards into replicas as the resolver does. */
  method GroupIntoReplicas<T>(items: seq<T>, sharding: ShardingType, numShards: nat, key: T -> int, tp: T -> int)
    returns (r: Result<seq<seq<T>>, MetaError>)
    requires items != []
    ensures r == Replicas(items, sharding, numShards, key, tp)
  {
    if sharding == NoSharding {
      return Ok(Singletons(items));
    }
    if numShards == 1 {
      return Ok([items]);
    }
    var groups, numReplicas := ListsInRankOrder(items, key);
    if !Even(groups, numReplicas) {
      return Err(InconsistentReplicas);
    }
    var replicas := BuildColumns(groups, numReplicas, tp);
    return Ok(replicas);
  }

  // ---------------------------------------------------------------- shapes and offsets

  function DimSum(replica: seq<ParameterShardMeta>, dim: nat): nat
    requires forall s <- replica :: dim < |s.info.shape|
  {
    if replica == [] then 0
    else DimSum(replica[..|replica| - 1], dim) + replica[|replica| - 1].info.shape[dim]
  }

  ghost predicate Dims(replica: seq<ParameterShardMeta>, n: nat) {
    forall s <- replica :: |s.info.shape| == n
  }

  /** The offset of the k-th shard of a replica. */
  function OffsetAt(replica: seq<ParameterShardMeta>, k: nat, n: nat, dim: nat): seq<nat>
    requires Dims(replica, n) && k <= |replica|
  {
    seq(n, i requires 0 <= i < n => if i == dim then DimSum(replica[..k], dim) else 0)
  }

  function GlobalExtent(replica: seq<ParameterShardMeta>, n: nat, dim: nat, i: nat): nat
    requires Dims(replica, n) && replica != [] && i < n
  {
    if i == dim then DimSum(replica, dim) else replica[0].info.shape[i]
  }

  function GlobalShape(replica: seq<ParameterShardMeta>, n: nat, dim: nat): seq<nat>
    requires Dims(replica, n) && replica != []
  {
    seq(n, i requires 0 <= i < n => GlobalExtent(replica, n, dim, i))
  }

  /** Walks one replica and stores in every shard the running sum of the extents before it. */
  method AssignOffsets(replica: seq<ParameterShardMeta>, n: nat, dim: nat)
    requires Dims(replica, n) && Distinct(replica)
    modifies set s | s in replica
    ensures forall k | 0 <= k < |replica| :: replica[k].globalOffset == OffsetAt(replica, k, n, dim)
  {
    var prev := seq(n, _ => 0);
    for k := 0 to |replica|
      invariant prev == OffsetAt(replica, k, n, dim)
      invariant forall j | 0 <= j < k :: replica[j].globalOffset == OffsetAt(replica, j, n, dim)
    {
      var shard := replica[k];
      shard.globalOffset := prev;
      TakeInit(replica, k);
      for i := 0 to n
        invariant |prev| == n
        invariant forall d | 0 <= d < n :: prev[d] == OffsetAt(replica, if d < i then k + 1 else k, n, dim)[d]
      {
        if i == dim {
          prev := prev[i := prev[i] + shard.info.shape[i]];
        } else {
          prev := prev[i := shard.globalOffset[i]];
        }
      }
    }
  }

  /** Parts whose concatenation permutes distinct items are distinct and disjoint. */
  lemma PartsOfDistinct<T>(parts: seq<seq<T>>, items: seq<T>)
    requires multiset(Flatten(parts)) == multiset(items) && Distinct(items)
    ensures forall i | 0 <= i < |parts| :: Distinct(parts[i]) && forall x <- parts[i] :: x in items
    ensures forall i, j | 0 <= i < j < |parts| :: forall x <- parts[i] :: x !in parts[j]
  {
    var all := Flatten(parts);
    forall i, j | 0 <= i < j < |all|
      ensures all[i] != all[j]
    {
      if all[i] == all[j] {
        TwoOccurrences(all, i, j);
        AtMostOnce(items, all[i]);
      }
    }
    NoRepeatsInParts(parts);
    forall x <- all
      ensures x in items
    {
      assert x in multiset(all);
    }
  }

  lemma {:induction false} NoRepeatsInParts<T>(parts: seq<seq<T>>)
    requires Distinct(Flatten(parts))
    ensures forall i | 0 <= i < |parts| :: Distinct(parts[i]) && forall x <- parts[i] :: x in Flatten(parts)
    ensures forall i, j | 0 <= i < j < |parts| :: forall x <- parts[i] :: x !in parts[j]
  {
    if parts != [] {
      var init, last := parts[..|parts| - 1], parts[|parts| - 1];
      var before, all := Flatten(init), Flatten(parts);
      assert forall i | 0 <= i < |before| :: before[i] == all[i];
      assert forall i | 0 <= i < |last| :: last[i] == all[|before| + i];
      NoRepeatsInParts(init);
      forall i, j | 0 <= i < j < |parts|
        ensures forall x <- parts[i] :: x !in parts[j]
      {
        assert init[i] == parts[i];
        if j < |init| { assert init[j] == parts[j]; }
      }
    }
  }

  /** Offsets are kept per replica, never across replicas. */
  method AssignAllOffsets(
    replicas: seq<seq<ParameterShardMeta>>, ghost shards: seq<ParameterShardMeta>, n: nat, dim: nat)
    requires Dims(shards, n)
    requires forall i | 0 <= i < |replicas| :: Distinct(replicas[i]) && forall x <- replicas[i] :: x in shards
    requires forall i, j | 0 <= i < j < |replicas| :: forall x <- replicas[i] :: x !in replicas[j]
    modifies set s | s in shards
    ensures forall replica <- replicas :: OffsetsAssigned(replica, n, dim)
  {
    for i := 0 to |replicas|
      invariant forall j | 0 <= j < i :: OffsetsAssigned(replicas[j], n, dim)
    {
      assert forall x <- replicas[i] :: x in shards;
      label Before:
      AssignOffsets(replicas[i], n, dim);
      forall j | 0 <= j < i
        ensures OffsetsAssigned(replicas[j], n, dim)
      {
        assert old@Before(OffsetsAssigned(replicas[j], n, dim));
        forall k | 0 <= k < |replicas[j]|
          ensures replicas[j][k].globalOffset == OffsetAt(replicas[j], k, n, dim)
        {
          assert replicas[j][k] in replicas[j] && replicas[j][k] !in replicas[i];
        }
      }
    }
  }

  ghost predicate OffsetsAssigned(replica: seq<ParameterShardMeta>, n: nat, dim: nat)
    reads set s | s in replica
  {
    && Dims(replica, n)
    && forall k | 0 <= k < |replica| :: replica[k].globalOffset == OffsetAt(replica, k, n, dim)
  }

  /**
   The resolver for one parameter: replicas that partition the shards, the global shape
   of the first replica, and in every shard its running-sum offset within its replica.
   */
  method ResolveParameter(
    shards: seq<ParameterShardMeta>, sharding: ShardingType, numShards: nat, n: nat, dim: nat)
    returns (r: Result<(seq<seq<ParameterShardMeta>>, seq<nat>), MetaError>)
    requires shards != [] && Distinct(shards) && Dims(shards, n)
    modifies set s | s in shards
    ensures r.Err? <==> RawReplicas(shards, sharding, numShards).Err?
    ensures r.Err? ==> unchanged(shards)
    ensures r.Ok? ==>
      && r.value.0 == RawReplicas(shards, sharding, numShards).value != []
      && Dims(r.value.0[0], n) && r.value.0[0] != []
      && r.value.1 == GlobalShape(r.value.0[0], n, dim)
      && forall replica <- r.value.0 :: OffsetsAssigned(replica, n, dim)
  {
    var grouped := GroupIntoReplicas(shards, sharding, numShards, KeyOf(sharding), TpOf());
    if grouped.Err? {
      return Err(grouped.error);
    }
    var replicas := grouped.value;
    SoundReplicas(shards, sharding, numShards);
    AssignAllOffsets(replicas, shards, n, dim);
    assert OffsetsAssigned(replicas[0], n, dim);
    return Ok((replicas, GlobalShape(replicas[0], n, dim)));
  }

  lemma SoundReplicas(shards: seq<ParameterShardMeta>, sharding: ShardingType, numShards: nat)
    requires shards != [] && Distinct(shards) && RawReplicas(shards, sharding, numShards).Ok?
    ensures var replicas := RawReplicas(shards, sharding, numShards).value;
      && replicas != [] && replicas[0] != []
      && (forall i | 0 <= i < |replicas| :: Distinct(replicas[i]) && forall x <- replicas[i] :: x in shards)
      && forall i, j | 0 <= i < j < |replicas| :: forall x <- replicas[i] :: x !in replicas[j]
  {
    var replicas := RawReplicas(shards, sharding, numShards).value;
    ReplicasPartitionShards(shards, sharding, numShards, KeyOf(sharding), TpOf());
    PartsOfDistinct(replicas, shards);
    FirstReplicaNonEmpty(shards, sharding, numShards, KeyOf(sharding), TpOf());
    assert replicas[0] in replicas;
  }

  function KeyOf(sharding: ShardingType): ParameterShardMeta -> int {
    (s: ParameterShardMeta) => RankKey(sharding, s.info)
  }

  function TpOf(): ParameterShardMeta -> int {
    (s: ParameterShardMeta) => s.info.tpRank
  }

  function RawReplicas(shards: seq<ParameterShardMeta>, sharding: ShardingType, numShards: nat)
    : Result<seq<seq<ParameterShardMeta>>, MetaError>
    requires shards != []
  {
    Replicas(shards, sharding, numShards, KeyOf(sharding), TpOf())
  }

  lemma FirstReplicaNonEmpty<T>(items: seq<T>, sharding: ShardingType, numShards: nat, key: T -> int, tp: T -> int)
    requires items != [] && Replicas(items, sharding, numShards, key, tp).Ok?
    ensures var replicas := Replicas(items, sharding, numShards, key, tp).value;
      replicas != [] && forall replica <- replicas :: replica != []
  {
    if sharding != NoSharding && numShards != 1 {
      var keys := SortedKeys(items, key);
      var groups := Groups(items, key, keys);
      var n := |Group(items, key, key(items[0]))|;
      SortedKeysAreKeys(items, key);
      GroupsByIndex(items, key, keys);
      assert items[0] in items && key(items[0]) in keys;
      FilterMembers(HasKey(key, key(items[0])), items);
      ColumnsLength(groups, n, n, tp);
      forall i | 0 <= i < n ensures Columns(groups, n, n, tp)[i] != [] {
        ColumnsAt(groups, n, n, tp, i);
        SortNonEmpty(ByRank(tp), Column(groups, n, i));
      }
    }
  }

  lemma {:induction false} ColumnsLength<T>(groups: seq<seq<T>>, n: nat, upto: nat, tp: T -> int)
    requires Even(groups, n) && upto <= n
    ensures |Columns(groups, n, upto, tp)| == upto
    decreases upto
  {
    if upto > 0 { ColumnsLength(groups, n, upto - 1, tp); }
  }

  lemma {:induction false} ColumnsAt<T>(groups: seq<seq<T>>, n: nat, upto: nat, tp: T -> int, i: nat)
    requires Even(groups, n) && i < upto <= n
    ensures |Columns(groups, n, upto, tp)| == upto
    ensures Columns(groups, n, upto, tp)[i] == Sort(ByRank(tp), Column(groups, n, i))
    decreases upto
  {
    ColumnsLength(groups, n, upto - 1, tp);
    SnocParts(Columns(groups, n, upto - 1, tp), Sort(ByRank(tp), Column(groups, n, upto - 1)));
    if i < upto - 1 { ColumnsAt(groups, n, upto - 1, tp, i); }
  }

  lemma SortNonEmpty<T>(le: (T, T) -> bool, s: seq<T>)
    requires s != []
    ensures Sort(le, s) != []
  {
    SortPermutes(le, s);
    assert s[0] in multiset(s);
  }
}
