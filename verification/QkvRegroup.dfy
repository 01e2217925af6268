/**
 Regrouping the fused QKV projection of grouped-query attention: out of the training layout,
 which interleaves query, key and value by key/value group, into one [Q; K; V] block for each
 inference rank.
 */
module QkvRegroup {
  import opened Basics
  import opened Chunks
  import opened PowersOfTwo
  import opened SequenceFacts
  import opened Sequences

  datatype Qkv<T> = Qkv(query: seq<T>, key: seq<T>, value: seq<T>)

  datatype QkvError = NotDivisible | UnsupportedFormat | ShapeMismatch | RankRequired | RankOutOfRange

  datatype Geometry = Geometry(heads: nat, kvHeads: nat, headSize: nat, hidden: nat) {
    predicate Valid() { heads > 0 && kvHeads > 0 && headSize > 0 && hidden > 0 }
  }

  // ---------------------------------------------------------------- reading the training layout

  /** The first n triples of parts, each concatenated. */
  function Interleaved<T>(q: seq<seq<T>>, k: seq<seq<T>>, v: seq<seq<T>>, n: nat): (r: seq<seq<T>>)
    requires n <= |q| && n <= |k| && n <= |v|
    ensures |r| == n && forall i | 0 <= i < n :: r[i] == q[i] + k[i] + v[i]
  {
    if n == 0 then [] else Interleaved(q, k, v, n - 1) + [q[n - 1] + k[n - 1] + v[n - 1]]
  }

  /** Each part cut into query, key and value rows, collected by category. */
  function Separated<T>(parts: seq<seq<T>>, n: nat, querySize: nat, kvSize: nat): Qkv<T>
    requires n <= |parts| && AllSized(parts, querySize + 2 * kvSize)
  {
    if n == 0 then Qkv([], [], [])
    else
      var before, part := Separated(parts, n - 1, querySize, kvSize), parts[n - 1];
      Qkv(
        before.query + Range(part, 0, querySize),
        before.key + Range(part, querySize, querySize + kvSize),
        before.value + Range(part, querySize + kvSize, |part|))
  }

  method SeparateGroups<T>(weight: seq<T>, kvHeads: nat, querySize: nat, kvSize: nat) returns (r: Qkv<T>)
    requires kvHeads > 0 && querySize + 2 * kvSize > 0 && |weight| == kvHeads * (querySize + 2 * kvSize)
    ensures AllSized(SplitEvery(weight, querySize + 2 * kvSize), querySize + 2 * kvSize)
    ensures |SplitEvery(weight, querySize + 2 * kvSize)| == kvHeads
    ensures r == Separated(SplitEvery(weight, querySize + 2 * kvSize), kvHeads, querySize, kvSize)
  {
    var size := querySize + 2 * kvSize;
    SplitExact(weight, kvHeads, size);
    ChunkIsSplit(weight, kvHeads, size);
    var parts := Chunk(weight, kvHeads);
    var query, key, value := [], [], [];
    for n := 0 to kvHeads
      invariant Qkv(query, key, value) == Separated(parts, n, querySize, kvSize)
    {
      var part := parts[n];
      query := query + Range(part, 0, querySize);
      key := key + Range(part, querySize, querySize + kvSize);
      value := value + Range(part, querySize + kvSize, |part|);
    }
    r := Qkv(query, key, value);
  }

  lemma ChunkIsSplit<T>(rows: seq<T>, n: nat, size: nat)
    requires n > 0 && size > 0 && |rows| == n * size
    ensures Chunk(rows, n) == SplitEvery(rows, size)
  {
    MulMonotone(1, n, size);
    CeilDivExact(n, size);
  }

  /** The compact layout: for every key/value group its query heads, its key head, its value head. */
  function Compact<T>(q: seq<seq<T>>, k: seq<seq<T>>, v: seq<seq<T>>, perGroup: nat): seq<T>
    requires perGroup > 0 && |k| == |v| == |SplitEvery(q, perGroup)|
  {
    Flatten(Interleaved(Joined(SplitEvery(q, perGroup)), k, v, |k|))
  }

  lemma TripleRanges<T>(a: seq<T>, b: seq<T>, c: seq<T>)
    ensures var s := a + b + c;
      Range(s, 0, |a|) == a && Range(s, |a|, |a| + |b|) == b && Range(s, |a| + |b|, |s|) == c
  {
  }

  lemma {:induction false} SeparatesTriples<T>(
    q: seq<seq<T>>, k: seq<seq<T>>, v: seq<seq<T>>, parts: seq<seq<T>>, n: nat, querySize: nat, kvSize: nat)
    requires n <= |q| == |k| == |v| == |parts| && parts == Interleaved(q, k, v, |q|)
    requires AllSized(q, querySize) && AllSized(k, kvSize) && AllSized(v, kvSize)
    ensures AllSized(parts, querySize + 2 * kvSize)
    ensures Separated(parts, n, querySize, kvSize) == Qkv(Flatten(q[..n]), Flatten(k[..n]), Flatten(v[..n]))
  {
    if n > 0 {
      SeparatesTriples(q, k, v, parts, n - 1, querySize, kvSize);
      TripleRanges(q[n - 1], k[n - 1], v[n - 1]);
      TakeInit(q, n - 1);
      TakeInit(k, n - 1);
      TakeInit(v, n - 1);
    }
  }

  function SeparatedRows<T>(weight: seq<T>, kvHeads: nat, querySize: nat, kvSize: nat): Qkv<T>
    requires kvHeads > 0 && kvSize > 0 && |weight| == kvHeads * (querySize + 2 * kvSize)
  {
    SplitExact(weight, kvHeads, querySize + 2 * kvSize);
    Separated(SplitEvery(weight, querySize + 2 * kvSize), kvHeads, querySize, kvSize)
  }

  lemma SeparatesParts<T>(q: seq<seq<T>>, k: seq<seq<T>>, v: seq<seq<T>>, querySize: nat, kvSize: nat)
    requires kvSize > 0 && |q| == |k| == |v| > 0
    requires AllSized(q, querySize) && AllSized(k, kvSize) && AllSized(v, kvSize)
    ensures var w, rows := Flatten(Interleaved(q, k, v, |k|)), querySize + 2 * kvSize;
      && |w| == |k| * rows
      && SeparatedRows(w, |k|, querySize, kvSize) == Qkv(Flatten(q), Flatten(k), Flatten(v))
  {
    var parts := Interleaved(q, k, v, |k|);
    SeparatesTriples(q, k, v, parts, |k|, querySize, kvSize);
    FlattenLength(parts, querySize + 2 * kvSize);
    SplitOfParts(parts, querySize + 2 * kvSize);
    TakeAll(q);
    TakeAll(k);
    TakeAll(v);
  }

  /** Separating the compact layout returns every query, key and value head, in head order. */
  lemma SeparatesCompact<T>(
    q: seq<seq<T>>, k: seq<seq<T>>, v: seq<seq<T>>, perGroup: nat, querySize: nat, size: nat)
    returns (weight: seq<T>, rows: Qkv<T>)
    requires perGroup > 0 && size > 0 && |k| == |v| > 0 && |q| == |k| * perGroup && querySize == perGroup * size
    requires AllSized(q, size) && AllSized(k, size) && AllSized(v, size)
    ensures |SplitEvery(q, perGroup)| == |k|
    ensures weight == Compact(q, k, v, perGroup) && |weight| == |k| * (querySize + 2 * size)
    ensures rows == Qkv(Flatten(q), Flatten(k), Flatten(v))
    ensures SeparatedRows(weight, |k|, querySize, size) == rows
  {
    ChunkOfHeads(q, |k|, perGroup, size, querySize);
    SplitJoins(q, perGroup);
    JoinedFlattens(SplitEvery(q, perGroup));
    SeparatesParts(Joined(SplitEvery(q, perGroup)), k, v, querySize, size);
    weight := Compact(q, k, v, perGroup);
    rows := Qkv(Flatten(q), Flatten(k), Flatten(v));
  }

  // ---------------------------------------------------------------- the other training layouts

  /** One head of every group, from rows in which each group repeats its head. */
  function FirstOfGroups<T>(heads: seq<seq<T>>, perGroup: nat, groups: nat): seq<T>
    requires |heads| == groups * perGroup && perGroup > 0
    decreases groups
  {
    if groups == 0 then []
    else
      assert groups * perGroup == (groups - 1) * perGroup + perGroup;
      FirstOfGroups(heads[..(groups - 1) * perGroup], perGroup, groups - 1) + heads[(groups - 1) * perGroup]
  }

  /** Selecting one head of every group undoes the repetition. */
  lemma {:induction false} SelectsRepeated<T>(heads: seq<seq<T>>, perGroup: nat)
    requires perGroup > 0
    ensures |RepeatEach(heads, perGroup)| == |heads| * perGroup
    ensures FirstOfGroups(RepeatEach(heads, perGroup), perGroup, |heads|) == Flatten(heads)
  {
    RepeatedLength(heads, perGroup);
    if heads != [] {
      var init, last := heads[..|heads| - 1], heads[|heads| - 1];
      SelectsRepeated(init, perGroup);
      var repeated := RepeatEach(init, perGroup) + Copies(last, perGroup);
      assert repeated[..(|heads| - 1) * perGroup] == RepeatEach(init, perGroup);
      assert repeated[(|heads| - 1) * perGroup] == last;
    }
  }

  /** Query, key and value rows of a weight, by the layout its row count gives away. */
  function Transformed<T>(weight: seq<T>, g: Geometry): Result<Qkv<T>, QkvError>
    requires g.Valid()
  {
    if g.heads % g.kvHeads != 0 then Err(NotDivisible)
    else
      GroupOf(g);
      TransformedBy(weight, g, g.heads / g.kvHeads, g.headSize * (g.heads / g.kvHeads))
  }

  lemma GroupOf(g: Geometry)
    requires g.Valid() && g.heads % g.kvHeads == 0
    ensures g.heads / g.kvHeads > 0 && g.heads == g.kvHeads * (g.heads / g.kvHeads)
  {
  }

  function TransformedBy<T>(weight: seq<T>, g: Geometry, perGroup: nat, querySize: nat): Result<Qkv<T>, QkvError>
    requires g.Valid() && perGroup > 0 && g.heads == g.kvHeads * perGroup
  {
    if |weight| == g.kvHeads * (querySize + 2 * g.headSize) then
      Ok(SeparatedRows(weight, g.kvHeads, querySize, g.headSize))
    else if |weight| == 3 * g.hidden then
      if g.hidden != g.heads * g.headSize then Err(ShapeMismatch)
      else Ok(Deduplicated(weight, g, perGroup))
    else if |weight| == 4 * g.hidden then
      if g.hidden % g.kvHeads != 0 then Err(NotDivisible)
      else if perGroup != 2 then Err(ShapeMismatch)
      else Ok(SeparatedRows(weight, g.kvHeads, 2 * (g.hidden / g.kvHeads), g.hidden / g.kvHeads))
    else Err(UnsupportedFormat)
  }

  function Deduplicated<T>(weight: seq<T>, g: Geometry, perGroup: nat): Qkv<T>
    requires g.Valid() && perGroup > 0 && g.heads == g.kvHeads * perGroup
    requires g.hidden == g.heads * g.headSize && |weight| == 3 * g.hidden
  {
    var key, value := Range(weight, g.hidden, 2 * g.hidden), Range(weight, 2 * g.hidden, 3 * g.hidden);
    SplitExact(key, g.heads, g.headSize);
    SplitExact(value, g.heads, g.headSize);
    Qkv(
      Range(weight, 0, g.hidden),
      FirstOfGroups(SplitEvery(key, g.headSize), perGroup, g.kvHeads),
      FirstOfGroups(SplitEvery(value, g.headSize), perGroup, g.kvHeads))
  }

  /** A replicated weight comes back as one key and one value head for each group. */
  lemma DeduplicatesReplicated<T>(
    weight: seq<T>, q: seq<seq<T>>, k: seq<seq<T>>, v: seq<seq<T>>, g: Geometry, perGroup: nat)
    requires g.Valid() && perGroup > 0 && g.heads == g.kvHeads * perGroup && g.hidden == g.heads * g.headSize
    requires |q| == g.heads && |k| == |v| == g.kvHeads
    requires AllSized(q, g.headSize) && AllSized(k, g.headSize) && AllSized(v, g.headSize)
    requires weight == Flatten(q) + (Flatten(RepeatEach(k, perGroup)) + Flatten(RepeatEach(v, perGroup)))
    ensures |weight| == 3 * g.hidden
    ensures Deduplicated(weight, g, perGroup) == Qkv(Flatten(q), Flatten(k), Flatten(v))
  {
    FlattenLength(q, g.headSize);
    CutsReplicated(k, g, perGroup);
    CutsReplicated(v, g, perGroup);
    ThreeParts(Flatten(q), Flatten(RepeatEach(k, perGroup)), Flatten(RepeatEach(v, perGroup)), g.hidden);
  }

  lemma ThreeParts<T>(a: seq<T>, b: seq<T>, c: seq<T>, size: nat)
    requires |a| == |b| == |c| == size
    ensures var s := a + (b + c);
      && |s| == 3 * size
      && Range(s, 0, size) == a && Range(s, size, 2 * size) == b && Range(s, 2 * size, 3 * size) == c
  {
    var s := a + (b + c);
    assert forall i | 0 <= i < size :: s[size + i] == b[i] && s[2 * size + i] == c[i];
  }

  lemma CutsReplicated<T>(heads: seq<seq<T>>, g: Geometry, perGroup: nat)
    requires g.Valid() && perGroup > 0 && g.heads == g.kvHeads * perGroup && g.hidden == g.heads * g.headSize
    requires |heads| == g.kvHeads && AllSized(heads, g.headSize)
    ensures |RepeatEach(heads, perGroup)| == g.kvHeads * perGroup
    ensures |Flatten(RepeatEach(heads, perGroup))| == g.hidden
    ensures SplitEvery(Flatten(RepeatEach(heads, perGroup)), g.headSize) == RepeatEach(heads, perGroup)
    ensures FirstOfGroups(RepeatEach(heads, perGroup), perGroup, g.kvHeads) == Flatten(heads)
  {
    SelectsRepeated(heads, perGroup);
    RepeatedSizes(heads, perGroup, g.headSize);
    FlattenLength(RepeatEach(heads, perGroup), g.headSize);
    SplitOfParts(RepeatEach(heads, perGroup), g.headSize);
  }

  lemma {:induction false} RepeatedSizes<T>(parts: seq<seq<T>>, n: nat, size: nat)
    requires AllSized(parts, size)
    ensures AllSized(RepeatEach(parts, n), size)
  {
    if parts != [] { RepeatedSizes(parts[..|parts| - 1], n, size); }
  }

  // ---------------------------------------------------------------- one block for each inference rank

  /** The key or value rows of each inference rank: whole heads repeated, or an even cut. */
  function KvShards<T>(rows: seq<T>, kvHeads: nat, tp: nat): seq<seq<T>>
    requires kvHeads > 0 && tp > 0
  {
    if tp >= kvHeads then RepeatEach(Chunk(rows, kvHeads), tp / kvHeads) else Chunk(rows, tp)
  }

  /** The blocks of the inference ranks; the shortest of the three shard lists decides how many. */
  function RankBlocks<T>(w: Qkv<T>, kvHeads: nat, tp: nat): seq<seq<T>>
    requires kvHeads > 0 && tp > 0
  {
    var q, k, v := Chunk(w.query, tp), KvShards(w.key, kvHeads, tp), KvShards(w.value, kvHeads, tp);
    Interleaved(q, k, v, Min(|q|, Min(|k|, |v|)))
  }

  method MergeBlocks<T>(w: Qkv<T>, kvHeads: nat, tp: nat) returns (merged: seq<T>)
    requires kvHeads > 0 && tp > 0
    ensures merged == Flatten(RankBlocks(w, kvHeads, tp))
  {
    var q, k, v := Chunk(w.query, tp), KvShards(w.key, kvHeads, tp), KvShards(w.value, kvHeads, tp);
    var count := Min(|q|, Min(|k|, |v|));
    merged := [];
    for n := 0 to count
      invariant merged == Flatten(Interleaved(q, k, v, n))
    {
      FlattenSnoc(Interleaved(q, k, v, n), q[n] + k[n] + v[n]);
      merged := merged + (q[n] + k[n] + v[n]);
    }
  }

  /** The merged rows, or one training rank's shard of them. */
  function TrainShard<T>(merged: seq<T>, rank: Option<nat>, trainTp: nat): Result<seq<T>, QkvError> {
    if trainTp <= 1 then Ok(merged)
    else if rank == None then Err(RankRequired)
    else if rank.value >= |Chunk(merged, trainTp)| then Err(RankOutOfRange)
    else Ok(Chunk(merged, trainTp)[rank.value])
  }

  /** The whole conversion; a training size of zero or one keeps the merged rows whole. */
  function Converted<T>(weight: seq<T>, tp: nat, g: Geometry, rank: Option<nat>, trainTp: nat)
    : Result<seq<T>, QkvError>
    requires g.Valid() && tp > 0
  {
    if tp >= g.kvHeads && tp % g.kvHeads != 0 then Err(NotDivisible)
    else match Transformed(weight, g)
      case Err(error) => Err(error)
      case Ok(w) => TrainShard(Flatten(RankBlocks(w, g.kvHeads, tp)), rank, trainTp)
  }

  method Transform<T>(weight: seq<T>, g: Geometry) returns (r: Result<Qkv<T>, QkvError>)
    requires g.Valid()
    ensures r == Transformed(weight, g)
  {
    if g.heads % g.kvHeads != 0 { return Err(NotDivisible); }
    GroupOf(g);
    var perGroup := g.heads / g.kvHeads;
    var querySize := g.headSize * perGroup;
    if |weight| == g.kvHeads * (querySize + 2 * g.headSize) {
      var w := SeparateGroups(weight, g.kvHeads, querySize, g.headSize);
      r := Ok(w);
    } else {
      r := TransformedBy(weight, g, perGroup, querySize);
    }
  }

  method Convert<T>(weight: seq<T>, tp: nat, g: Geometry, rank: Option<nat>, trainTp: nat)
    returns (r: Result<seq<T>, QkvError>)
    requires g.Valid() && tp > 0
    ensures r == Converted(weight, tp, g, rank, trainTp)
  {
    if tp >= g.kvHeads && tp % g.kvHeads != 0 { return Err(NotDivisible); }
    var w := Transform(weight, g);
    if w.Err? { return Err(w.error); }
    var merged := MergeBlocks(w.value, g.kvHeads, tp);
    r := TrainShard(merged, rank, trainTp);
  }

  /** The shards of all training ranks, in rank order, are the merged rows. */
  lemma TrainShardsJoin<T>(merged: seq<T>, trainTp: nat)
    requires trainTp > 1
    ensures Flatten(Chunk(merged, trainTp)) == merged
    ensures forall rank: nat | rank < |Chunk(merged, trainTp)| ::
      TrainShard(merged, Some(rank), trainTp) == Ok(Chunk(merged, trainTp)[rank])
  {
    ChunkJoins(merged, trainTp);
  }

  // ---------------------------------------------------------------- what each rank receives

  /** Both head counts divide over the ranks, or the ranks over the key/value heads. */
  predicate EvenRanks(heads: nat, kvHeads: nat, tp: nat)
    requires kvHeads > 0 && tp > 0
  {
    heads % tp == 0 && if tp >= kvHeads then tp % kvHeads == 0 else kvHeads % tp == 0
  }

  /** The key or value heads of each rank. */
  function KvHeadsOf<T>(k: seq<seq<T>>, tp: nat): seq<seq<seq<T>>>
    requires k != [] && tp > 0
  {
    if tp >= |k| then RepeatEach(SplitEvery(k, 1), tp / |k|)
    else
      Quotient(|k|, tp);
      SplitEvery(k, |k| / tp)
  }

  lemma Quotient(a: nat, b: nat)
    requires 0 < b <= a
    ensures a / b > 0
  {
    DivBounds(a, b);
  }

  lemma {:induction false} JoinedRepeats<T>(groups: seq<seq<seq<T>>>, n: nat)
    ensures RepeatEach(Joined(groups), n) == Joined(RepeatEach(groups, n))
  {
    if groups != [] {
      var init, last := groups[..|groups| - 1], groups[|groups| - 1];
      JoinedRepeats(init, n);
      JoinedConcat(RepeatEach(init, n), Copies(last, n));
      JoinedCopies(last, n);
    }
  }

  lemma JoinedConcat<T>(a: seq<seq<seq<T>>>, b: seq<seq<seq<T>>>)
    ensures Joined(a + b) == Joined(a) + Joined(b)
  {
  }

  lemma JoinedCopies<T>(group: seq<seq<T>>, n: nat)
    ensures Joined(Copies(group, n)) == Copies(Flatten(group), n)
  {
  }

  lemma RepeatedShards<T>(k: seq<seq<T>>, n: nat, size: nat)
    requires k != [] && size > 0 && AllSized(k, size)
    ensures RepeatEach(Chunk(Flatten(k), |k|), n) == Joined(RepeatEach(SplitEvery(k, 1), n))
    ensures |RepeatEach(SplitEvery(k, 1), n)| == |k| * n
    ensures AllSized(Joined(RepeatEach(SplitEvery(k, 1), n)), size)
  {
    ChunkOfHeads(k, |k|, 1, size, size);
    JoinedRepeats(SplitEvery(k, 1), n);
    RepeatedLength(SplitEvery(k, 1), n);
    RepeatedSizes(Joined(SplitEvery(k, 1)), n, size);
  }

  function KvRows(kvHeads: nat, tp: nat, size: nat): nat
    requires tp > 0
  {
    if tp >= kvHeads then size else (kvHeads / tp) * size
  }

  /** The key shards are whole heads: one repeated head, or several heads of its own, for each rank. */
  lemma KvShardsAreHeads<T>(k: seq<seq<T>>, tp: nat, size: nat)
    requires k != [] && tp > 0 && size > 0 && AllSized(k, size)
    requires if tp >= |k| then tp % |k| == 0 else |k| % tp == 0
    ensures KvShards(Flatten(k), |k|, tp) == Joined(KvHeadsOf(k, tp))
    ensures |KvHeadsOf(k, tp)| == tp && AllSized(Joined(KvHeadsOf(k, tp)), KvRows(|k|, tp, size))
  {
    if tp >= |k| {
      Divides(tp, |k|);
      RepeatedShards(k, tp / |k|, size);
    } else {
      Quotient(|k|, tp);
      Divides(|k|, tp);
      ChunkOfHeads(k, tp, |k| / tp, size, KvRows(|k|, tp, size));
    }
  }

  function QueryHeadsOf<T>(q: seq<seq<T>>, tp: nat): seq<seq<seq<T>>>
    requires 0 < tp <= |q|
  {
    Quotient(|q|, tp);
    SplitEvery(q, |q| / tp)
  }

  /** Every rank's block: its query heads, then its key heads, then its value heads. */
  function HeadBlocks<T>(q: seq<seq<T>>, k: seq<seq<T>>, v: seq<seq<T>>, tp: nat): seq<seq<T>>
    requires k != [] && |k| == |v| && 0 < tp <= |q|
    requires |QueryHeadsOf(q, tp)| == |KvHeadsOf(k, tp)| == |KvHeadsOf(v, tp)| == tp
  {
    Interleaved(Joined(QueryHeadsOf(q, tp)), Joined(KvHeadsOf(k, tp)), Joined(KvHeadsOf(v, tp)), tp)
  }

  lemma AtLeastOneEach(heads: nat, kvHeads: nat, tp: nat)
    requires heads > 0 && kvHeads > 0 && tp > 0 && EvenRanks(heads, kvHeads, tp)
    ensures tp <= heads
  {
    Divides(heads, tp);
    if heads < tp { DivUnique(heads, tp, 0); }
  }

  /** The code's blocks hold whole heads and all have one size. */
  lemma BlocksHoldHeads<T>(q: seq<seq<T>>, k: seq<seq<T>>, v: seq<seq<T>>, tp: nat, querySize: nat, size: nat)
    returns (rows: nat)
    requires q != [] && k != [] && |k| == |v| && tp > 0 && querySize > 0 && size > 0 && EvenRanks(|q|, |k|, tp)
    requires AllSized(q, querySize) && AllSized(k, size) && AllSized(v, size)
    ensures tp <= |q| && |QueryHeadsOf(q, tp)| == |KvHeadsOf(k, tp)| == |KvHeadsOf(v, tp)| == tp
    ensures RankBlocks(Qkv(Flatten(q), Flatten(k), Flatten(v)), |k|, tp) == HeadBlocks(q, k, v, tp)
    ensures rows > 0 && AllSized(HeadBlocks(q, k, v, tp), rows)
  {
    AtLeastOneEach(|q|, |k|, tp);
    Quotient(|q|, tp);
    Divides(|q|, tp);
    var queryRows, kvRows := (|q| / tp) * querySize, KvRows(|k|, tp, size);
    ChunkOfHeads(q, tp, |q| / tp, querySize, queryRows);
    KvShardsAreHeads(k, tp, size);
    KvShardsAreHeads(v, tp, size);
    MulMonotone(1, |q| / tp, querySize);
    rows := queryRows + 2 * kvRows;
  }

  /**
   From the compact layout, cutting the converted weight evenly over the inference ranks
   gives every rank its query heads, its key heads and its value heads, in that order.
   */
  lemma RanksReceiveHeads<T>(
    q: seq<seq<T>>, k: seq<seq<T>>, v: seq<seq<T>>, tp: nat, g: Geometry, perGroup: nat, rank: Option<nat>)
    requires g.Valid() && g.heads == g.kvHeads * perGroup && tp > 0 && EvenRanks(g.heads, g.kvHeads, tp)
    requires |q| == g.heads && |k| == |v| == g.kvHeads
    requires AllSized(q, g.headSize) && AllSized(k, g.headSize) && AllSized(v, g.headSize)
    ensures perGroup > 0 && |SplitEvery(q, perGroup)| == |k|
    ensures tp <= |q| && |QueryHeadsOf(q, tp)| == |KvHeadsOf(k, tp)| == |KvHeadsOf(v, tp)| == tp
    ensures var r := Converted(Compact(q, k, v, perGroup), tp, g, rank, 1);
      r.Ok? && r.value == Flatten(HeadBlocks(q, k, v, tp)) && Chunk(r.value, tp) == HeadBlocks(q, k, v, tp)
  {
    PositiveFactor(g.heads, g.kvHeads, perGroup);
    TransformsCompact(q, k, v, g, perGroup, perGroup * g.headSize);
    var rows := BlocksHoldHeads(q, k, v, tp, g.headSize, g.headSize);
    ChunkOfParts(HeadBlocks(q, k, v, tp), rows);
  }

  lemma TransformsCompact<T>(
    q: seq<seq<T>>, k: seq<seq<T>>, v: seq<seq<T>>, g: Geometry, perGroup: nat, querySize: nat)
    requires g.Valid() && g.heads == g.kvHeads * perGroup && perGroup > 0 && querySize == perGroup * g.headSize
    requires |q| == g.heads && |k| == |v| == g.kvHeads
    requires AllSized(q, g.headSize) && AllSized(k, g.headSize) && AllSized(v, g.headSize)
    ensures |SplitEvery(q, perGroup)| == |k|
    ensures Transformed(Compact(q, k, v, perGroup), g) == Ok(Qkv(Flatten(q), Flatten(k), Flatten(v)))
  {
    var weight, rows := SeparatesCompact(q, k, v, perGroup, querySize, g.headSize);
    TransformsTo(weight, g, perGroup, querySize, rows);
  }

  lemma TransformsTo<T>(weight: seq<T>, g: Geometry, perGroup: nat, querySize: nat, rows: Qkv<T>)
    requires g.Valid() && perGroup > 0 && g.heads == g.kvHeads * perGroup && querySize == g.headSize * perGroup
    requires |weight| == g.kvHeads * (querySize + 2 * g.headSize)
    requires SeparatedRows(weight, g.kvHeads, querySize, g.headSize) == rows
    ensures Transformed(weight, g) == Ok(rows)
  {
    TransformsBy(weight, g, perGroup, querySize);
    ExactGroup(g, perGroup);
    TransformsWith(weight, g, perGroup, querySize);
  }

  lemma ExactGroup(g: Geometry, perGroup: nat)
    requires g.Valid() && g.heads == g.kvHeads * perGroup
    ensures g.heads % g.kvHeads == 0 && g.heads / g.kvHeads == perGroup
  {
    DivUnique(g.heads, g.kvHeads, perGroup);
  }

  lemma TransformsWith<T>(weight: seq<T>, g: Geometry, perGroup: nat, querySize: nat)
    requires g.Valid() && perGroup > 0 && g.heads == g.kvHeads * perGroup
    requires g.heads % g.kvHeads == 0 && g.heads / g.kvHeads == perGroup && querySize == g.headSize * perGroup
    ensures Transformed(weight, g) == TransformedBy(weight, g, perGroup, querySize)
  {
  }

  lemma TransformsBy<T>(weight: seq<T>, g: Geometry, perGroup: nat, querySize: nat)
    requires g.Valid() && perGroup > 0 && g.heads == g.kvHeads * perGroup
    requires |weight| == g.kvHeads * (querySize + 2 * g.headSize)
    ensures TransformedBy(weight, g, perGroup, querySize)
         == Ok(SeparatedRows(weight, g.kvHeads, querySize, g.headSize))
  {
  }

  // ---------------------------------------------------------------- query heads find their key heads

  lemma OneHeadArithmetic(kvHeads: nat, n: nat, w: nat, perGroup: nat, i: nat, j: nat) returns (c: nat, s: nat)
    requires n > 0 && n * w == perGroup && i < kvHeads * n && j < w
    ensures c < kvHeads && s < n && i == c * n + s && perGroup > 0 && (i * w + j) / perGroup == c
  {
    c, s := i / n, i % n;
    if c >= kvHeads { MulMonotone(kvHeads, c, n); }
    assert i * w == c * perGroup + s * w by {
      assert (c * n + s) * w == c * (n * w) + s * w;
    }
    MulMonotone(s + 1, n, w);
    assert (s + 1) * w == s * w + w;
    DivUnique(i * w + j, perGroup, c);
  }

  lemma SeveralHeadsArithmetic(c: nat, w: nat, perGroup: nat, i: nat, j: nat) returns (local: nat)
    requires perGroup > 0 && w == c * perGroup && j < w
    ensures local == j / perGroup < c && (i * w + j) / perGroup == i * c + local
  {
    local := j / perGroup;
    DivBounds(j, perGroup);
    if local >= c { MulMonotone(c, local, perGroup); }
    assert i * w == (i * c) * perGroup;
    assert (i * c + local) * perGroup == (i * c) * perGroup + local * perGroup;
    DivUnique(i * w + j, perGroup, i * c + local);
  }

  lemma PositiveFactor(a: nat, b: nat, c: nat)
    requires a > 0 && a == b * c
    ensures b > 0 && c > 0
  {
  }

  lemma Cancel(a: nat, b: nat, c: nat)
    requires a > 0 && a * b == a * c
    ensures b == c
  {
  }

  lemma FactorsOfMany(heads: nat, kvHeads: nat, tp: nat, perGroup: nat)
    requires 0 < kvHeads <= tp <= heads && heads == kvHeads * perGroup && EvenRanks(heads, kvHeads, tp)
    ensures heads == tp * (heads / tp) && tp == kvHeads * (tp / kvHeads) && tp / kvHeads > 0 && heads / tp > 0
    ensures (tp / kvHeads) * (heads / tp) == perGroup
  {
    Divides(heads, tp);
    Divides(tp, kvHeads);
    var n, w := tp / kvHeads, heads / tp;
    Quotient(tp, kvHeads);
    Quotient(heads, tp);
    assert (kvHeads * n) * w == kvHeads * (n * w);
    Cancel(kvHeads, n * w, perGroup);
  }

  lemma FactorsOfFew(heads: nat, kvHeads: nat, tp: nat, perGroup: nat)
    requires 0 < tp < kvHeads && tp <= heads && heads == kvHeads * perGroup && EvenRanks(heads, kvHeads, tp)
    ensures heads == tp * (heads / tp) && kvHeads == tp * (kvHeads / tp) && kvHeads / tp > 0 && heads / tp > 0
    ensures heads / tp == (kvHeads / tp) * perGroup
  {
    Divides(heads, tp);
    Divides(kvHeads, tp);
    var c, w := kvHeads / tp, heads / tp;
    Quotient(kvHeads, tp);
    Quotient(heads, tp);
    assert (tp * c) * perGroup == tp * (c * perGroup);
    Cancel(tp, w, c * perGroup);
  }

  /**
   Query head j of rank i is head h of the model. The key head it reads on that rank, found by
   dividing its local index by the local group size, is the model's key head of h.
   */
  lemma HeadsMeet<T>(q: seq<seq<T>>, k: seq<seq<T>>, tp: nat, perGroup: nat, i: nat, j: nat)
    returns (h: nat, kv: nat, localGroup: nat, localKv: nat)
    requires k != [] && tp > 0 && perGroup > 0 && |q| == |k| * perGroup && EvenRanks(|q|, |k|, tp)
    requires tp <= |q| && |QueryHeadsOf(q, tp)| == |KvHeadsOf(k, tp)| == tp && i < tp
    requires j < |QueryHeadsOf(q, tp)[i]|
    ensures h < |q| && QueryHeadsOf(q, tp)[i][j] == q[h]
    ensures localGroup > 0 && |QueryHeadsOf(q, tp)[i]| == |KvHeadsOf(k, tp)[i]| * localGroup
    ensures localKv == j / localGroup && kv == h / perGroup
    ensures localKv < |KvHeadsOf(k, tp)[i]| && kv < |k| && KvHeadsOf(k, tp)[i][localKv] == k[kv]
  {
    var w := |q| / tp;
    h := i * w + j;
    if tp >= |k| {
      var n := tp / |k|;
      FactorsOfMany(|q|, |k|, tp, perGroup);
      QueryHeadAt(q, tp, w, i, j);
      var s;
      kv, s := OneHeadArithmetic(|k|, n, w, perGroup, i, j);
      SplitExact(k, |k|, 1);
      SplitEntry(k, |k|, 1, kv, 0);
      RepeatedAt(SplitEvery(k, 1), n, kv, s);
      localGroup, localKv := w, 0;
      DivUnique(j, w, 0);
    } else {
      var c := |k| / tp;
      FactorsOfFew(|q|, |k|, tp, perGroup);
      QueryHeadAt(q, tp, w, i, j);
      localKv := SeveralHeadsArithmetic(c, w, perGroup, i, j);
      SplitExact(k, tp, c);
      SplitEntry(k, tp, c, i, localKv);
      localGroup, kv := perGroup, i * c + localKv;
    }
  }

  lemma QueryHeadAt<T>(q: seq<seq<T>>, tp: nat, w: nat, i: nat, j: nat)
    requires 0 < tp <= |q| && w == |q| / tp > 0 && |q| == tp * w && |QueryHeadsOf(q, tp)| == tp
    requires i < tp && j < |QueryHeadsOf(q, tp)[i]|
    ensures |QueryHeadsOf(q, tp)[i]| == w && i * w + j < |q| && QueryHeadsOf(q, tp)[i][j] == q[i * w + j]
  {
    SplitExact(q, tp, w);
    SplitEntry(q, tp, w, i, j);
  }
}
