/**
 Repacking gated query heads: the training layout holds, for each key/value group, its queries,
 their gates, its key and its value; an inference rank wants every query head with its own gate.
 */
module GatedQkv {
  import opened Basics
  import opened Chunks
  import G = GdnPacking
  import opened PowersOfTwo
  import Q = QkvRegroup
  import opened SequenceFacts
  import opened Sequences

  datatype GatedError =
    HeadsNotDivisible | RanksDoNotDivideHeads | RowMismatch | KvNotDivisible

  datatype Shape = Shape(heads: nat, kvHeads: nat, headDim: nat) {
    predicate Valid() { heads > 0 && kvHeads > 0 && headDim > 0 }
  }

  /** Row counts of one group's categories. */
  function GroupSizes(queryRows: nat, headDim: nat): seq<nat> {
    [queryRows, queryRows, headDim, headDim]
  }

  lemma SumOfGroup(queryRows: nat, headDim: nat)
    ensures Sum(GroupSizes(queryRows, headDim)) == 2 * queryRows + 2 * headDim
  {
    var s := GroupSizes(queryRows, headDim);
    TakeAll(s);
    G.SumNext(s, 3);
    G.SumNext(s, 2);
    G.SumNext(s, 1);
    G.SumNext(s, 0);
  }

  /** Each query head joined with its gate. */
  function WithGates<T>(query: seq<seq<T>>, gate: seq<seq<T>>): (r: seq<seq<T>>)
    requires |query| == |gate|
    ensures |r| == |query| && forall h | 0 <= h < |query| :: r[h] == query[h] + gate[h]
  {
    if query == [] then []
    else
      var k := |query| - 1;
      WithGates(query[..k], gate[..k]) + [query[k] + gate[k]]
  }

  datatype GatedHeads<T> = GatedHeads(query: seq<seq<T>>, key: seq<seq<T>>, value: seq<seq<T>>)

  /** The heads a parameter of the right row count holds. */
  function HeadsOf<T>(parameter: seq<T>, s: Shape, perGroup: nat, queryRows: nat): (r: GatedHeads<T>)
    requires s.Valid() && s.heads == s.kvHeads * perGroup && queryRows == perGroup * s.headDim
    requires |parameter| == s.kvHeads * (2 * queryRows + 2 * s.headDim)
    ensures |r.query| == s.heads && |r.key| == |r.value| == s.kvHeads
  {
    var sizes := GroupSizes(queryRows, s.headDim);
    SumOfGroup(queryRows, s.headDim);
    var groups := Reshape(parameter, s.kvHeads, Sum(sizes));
    var rows := G.Categories(groups, sizes, Sum(sizes));
    CategorySizes(groups, sizes, s, perGroup, queryRows);
    GatedHeads(
      WithGates(Reshape(rows[0], s.heads, s.headDim), Reshape(rows[1], s.heads, s.headDim)),
      Reshape(rows[2], s.kvHeads, s.headDim), Reshape(rows[3], s.kvHeads, s.headDim))
  }

  lemma CategorySizes<T>(groups: seq<seq<T>>, sizes: seq<nat>, s: Shape, perGroup: nat, queryRows: nat)
    requires |groups| == s.kvHeads && AllSized(groups, Sum(sizes)) && sizes == GroupSizes(queryRows, s.headDim)
    requires s.heads == s.kvHeads * perGroup && queryRows == perGroup * s.headDim
    ensures var rows := G.Categories(groups, sizes, Sum(sizes));
      && |rows[0]| == |rows[1]| == s.heads * s.headDim && |rows[2]| == |rows[3]| == s.kvHeads * s.headDim
  {
    GroupRows(s, perGroup, queryRows);
    CategorySize(groups, sizes, 0, queryRows);
    CategorySize(groups, sizes, 1, queryRows);
    CategorySize(groups, sizes, 2, s.headDim);
    CategorySize(groups, sizes, 3, s.headDim);
  }

  lemma CategorySize<T>(groups: seq<seq<T>>, sizes: seq<nat>, c: nat, size: nat)
    requires AllSized(groups, Sum(sizes)) && c < |sizes| && size == sizes[c]
    ensures |G.Categories(groups, sizes, Sum(sizes))[c]| == |groups| * size
  {
    G.CategoriesShare(groups, sizes, Sum(sizes), c);
  }

  lemma GroupRows(s: Shape, perGroup: nat, queryRows: nat)
    requires s.heads == s.kvHeads * perGroup && queryRows == perGroup * s.headDim
    ensures s.kvHeads * queryRows == s.heads * s.headDim
  {
    assert s.kvHeads * (perGroup * s.headDim) == (s.kvHeads * perGroup) * s.headDim;
  }

  lemma {:induction false} BlockCounts<T>(q: seq<seq<T>>, k: seq<seq<T>>, tp: nat)
    requires q != [] && k != [] && tp > 0 && Q.EvenRanks(|q|, |k|, tp)
    ensures tp <= |q| && |Q.QueryHeadsOf(q, tp)| == |Q.KvHeadsOf(k, tp)| == tp
  {
    Q.AtLeastOneEach(|q|, |k|, tp);
    Divides(|q|, tp);
    Q.Quotient(|q|, tp);
    SplitExact(q, tp, |q| / tp);
    if tp >= |k| {
      Divides(tp, |k|);
      SplitExact(k, |k|, 1);
      RepeatedLength(SplitEvery(k, 1), tp / |k|);
    } else {
      Divides(|k|, tp);
      Q.Quotient(|k|, tp);
      SplitExact(k, tp, |k| / tp);
    }
  }

  function Pack<T>(parameter: seq<T>, s: Shape, tp: nat): Result<seq<T>, GatedError>
    requires s.Valid() && tp > 0
  {
    if s.heads % s.kvHeads != 0 then Err(HeadsNotDivisible)
    else
      Divides(s.heads, s.kvHeads);
      PackBy(parameter, s, tp, s.heads / s.kvHeads, (s.heads / s.kvHeads) * s.headDim)
  }

  function PackBy<T>(parameter: seq<T>, s: Shape, tp: nat, perGroup: nat, queryRows: nat)
    : Result<seq<T>, GatedError>
    requires s.Valid() && tp > 0 && s.heads == s.kvHeads * perGroup && queryRows == perGroup * s.headDim
  {
    if s.heads % tp != 0 then Err(RanksDoNotDivideHeads)
    else if |parameter| != s.kvHeads * (2 * queryRows + 2 * s.headDim) then Err(RowMismatch)
    else if tp >= s.kvHeads && tp % s.kvHeads != 0 then Err(KvNotDivisible)
    else if tp < s.kvHeads && s.kvHeads % tp != 0 then Err(KvNotDivisible)
    else
      var h := HeadsOf(parameter, s, perGroup, queryRows);
      BlockCounts(h.query, h.key, tp);
      BlockCounts(h.query, h.value, tp);
      Ok(Flatten(Q.HeadBlocks(h.query, h.key, h.value, tp)))
  }

  /** Joins the blocks of the ranks one by one. */
  method MergeHeads<T>(q: seq<seq<T>>, k: seq<seq<T>>, v: seq<seq<T>>, tp: nat) returns (merged: seq<T>)
    requires k != [] && |k| == |v| && 0 < tp <= |q|
    requires |Q.QueryHeadsOf(q, tp)| == |Q.KvHeadsOf(k, tp)| == |Q.KvHeadsOf(v, tp)| == tp
    ensures merged == Flatten(Q.HeadBlocks(q, k, v, tp))
  {
    var qs, ks, vs := Joined(Q.QueryHeadsOf(q, tp)), Joined(Q.KvHeadsOf(k, tp)), Joined(Q.KvHeadsOf(v, tp));
    merged := [];
    for n := 0 to tp
      invariant merged == Flatten(Q.Interleaved(qs, ks, vs, n))
    {
      FlattenSnoc(Q.Interleaved(qs, ks, vs, n), qs[n] + ks[n] + vs[n]);
      merged := merged + (qs[n] + ks[n] + vs[n]);
    }
  }

  // ---------------------------------------------------------------- what packing guarantees

  /** The training layout of the given heads: [Q, gate, K, V] for each group. */
  function Grouped<T>(query: seq<seq<T>>, gate: seq<seq<T>>, k: seq<seq<T>>, v: seq<seq<T>>, s: Shape, queryRows: nat)
    : seq<T>
    requires G.Shares([Flatten(query), Flatten(gate), Flatten(k), Flatten(v)], GroupSizes(queryRows, s.headDim), s.kvHeads)
  {
    G.Packed([Flatten(query), Flatten(gate), Flatten(k), Flatten(v)], GroupSizes(queryRows, s.headDim), s.kvHeads)
  }

  predicate HeadsFit<T>(query: seq<seq<T>>, gate: seq<seq<T>>, k: seq<seq<T>>, v: seq<seq<T>>, s: Shape) {
    && s.Valid() && |query| == |gate| == s.heads && |k| == |v| == s.kvHeads
    && AllSized(query, s.headDim) && AllSized(gate, s.headDim) && AllSized(k, s.headDim) && AllSized(v, s.headDim)
  }

  lemma GroupsShare<T>(
    query: seq<seq<T>>, gate: seq<seq<T>>, k: seq<seq<T>>, v: seq<seq<T>>, s: Shape, perGroup: nat, queryRows: nat)
    requires HeadsFit(query, gate, k, v, s) && s.heads == s.kvHeads * perGroup && queryRows == perGroup * s.headDim
    ensures G.Shares(
      [Flatten(query), Flatten(gate), Flatten(k), Flatten(v)], GroupSizes(queryRows, s.headDim), s.kvHeads)
  {
    FlattenLength(query, s.headDim);
    FlattenLength(gate, s.headDim);
    FlattenLength(k, s.headDim);
    FlattenLength(v, s.headDim);
    GroupRows(s, perGroup, queryRows);
  }

  /** Reading the training layout returns every head with its gate. */
  lemma HeadsOfGrouped<T>(
    query: seq<seq<T>>, gate: seq<seq<T>>, k: seq<seq<T>>, v: seq<seq<T>>, s: Shape, perGroup: nat, queryRows: nat)
    returns (parameter: seq<T>)
    requires HeadsFit(query, gate, k, v, s) && s.heads == s.kvHeads * perGroup && queryRows == perGroup * s.headDim
    ensures G.Shares(
      [Flatten(query), Flatten(gate), Flatten(k), Flatten(v)], GroupSizes(queryRows, s.headDim), s.kvHeads)
    ensures parameter == Grouped(query, gate, k, v, s, queryRows)
    ensures |parameter| == s.kvHeads * (2 * queryRows + 2 * s.headDim)
    ensures HeadsOf(parameter, s, perGroup, queryRows) == GatedHeads(WithGates(query, gate), k, v)
  {
    GroupsShare(query, gate, k, v, s, perGroup, queryRows);
    var sizes := GroupSizes(queryRows, s.headDim);
    var rows := [Flatten(query), Flatten(gate), Flatten(k), Flatten(v)];
    var blocks := G.RankBlocks(rows, sizes, s.kvHeads, s.kvHeads);
    parameter := Grouped(query, gate, k, v, s, queryRows);
    SumOfGroup(queryRows, s.headDim);
    ReshapeOfParts(blocks, Sum(sizes));
    G.CategoriesOfPacked(rows, sizes, s.kvHeads);
    ReshapeOfParts(query, s.headDim);
    ReshapeOfParts(gate, s.headDim);
    ReshapeOfParts(k, s.headDim);
    ReshapeOfParts(v, s.headDim);
  }

  /**
   Packing succeeds exactly when the group and rank counts divide, and then an even cut gives
   every inference rank its query heads with their gates, its key heads and its value heads.
   */
  lemma RanksReceiveGatedHeads<T>(
    query: seq<seq<T>>, gate: seq<seq<T>>, k: seq<seq<T>>, v: seq<seq<T>>, s: Shape, tp: nat, perGroup: nat,
    queryRows: nat)
    requires HeadsFit(query, gate, k, v, s) && tp > 0
    requires s.heads == s.kvHeads * perGroup && queryRows == perGroup * s.headDim
    ensures G.Shares(
      [Flatten(query), Flatten(gate), Flatten(k), Flatten(v)], GroupSizes(queryRows, s.headDim), s.kvHeads)
    ensures var r := Pack(Grouped(query, gate, k, v, s, queryRows), s, tp);
      && (r.Ok? <==> Q.EvenRanks(s.heads, s.kvHeads, tp))
      && (r.Ok? ==>
            && tp <= s.heads && |Q.QueryHeadsOf(WithGates(query, gate), tp)| == tp
            && |Q.KvHeadsOf(k, tp)| == |Q.KvHeadsOf(v, tp)| == tp
            && r.value == Flatten(Q.HeadBlocks(WithGates(query, gate), k, v, tp))
            && Chunk(r.value, tp) == Q.HeadBlocks(WithGates(query, gate), k, v, tp))
  {
    var parameter := HeadsOfGrouped(query, gate, k, v, s, perGroup, queryRows);
    PackOfHeads(parameter, s, tp, perGroup, queryRows, GatedHeads(WithGates(query, gate), k, v));
  }

  lemma PackOfHeads<T>(parameter: seq<T>, s: Shape, tp: nat, perGroup: nat, queryRows: nat, h: GatedHeads<T>)
    requires s.Valid() && tp > 0 && s.heads == s.kvHeads * perGroup && queryRows == perGroup * s.headDim
    requires |parameter| == s.kvHeads * (2 * queryRows + 2 * s.headDim)
    requires HeadsOf(parameter, s, perGroup, queryRows) == h
    requires AllSized(h.query, 2 * s.headDim) && AllSized(h.key, s.headDim) && AllSized(h.value, s.headDim)
    ensures var r := Pack(parameter, s, tp);
      && (r.Ok? <==> Q.EvenRanks(s.heads, s.kvHeads, tp))
      && (r.Ok? ==>
            && tp <= s.heads && |Q.QueryHeadsOf(h.query, tp)| == tp
            && |Q.KvHeadsOf(h.key, tp)| == |Q.KvHeadsOf(h.value, tp)| == tp
            && r.value == Flatten(Q.HeadBlocks(h.query, h.key, h.value, tp))
            && Chunk(r.value, tp) == Q.HeadBlocks(h.query, h.key, h.value, tp))
  {
    PacksBy(parameter, s, tp, perGroup, queryRows);
    PacksExactly(parameter, s, tp, perGroup, queryRows);
    if Q.EvenRanks(s.heads, s.kvHeads, tp) {
      var rows := Q.BlocksHoldHeads(h.query, h.key, h.value, tp, 2 * s.headDim, s.headDim);
      ChunkOfParts(Q.HeadBlocks(h.query, h.key, h.value, tp), rows);
    }
  }

  lemma PacksExactly<T>(parameter: seq<T>, s: Shape, tp: nat, perGroup: nat, queryRows: nat)
    requires s.Valid() && tp > 0 && s.heads == s.kvHeads * perGroup && queryRows == perGroup * s.headDim
    requires |parameter| == s.kvHeads * (2 * queryRows + 2 * s.headDim)
    ensures PackBy(parameter, s, tp, perGroup, queryRows).Ok? <==> Q.EvenRanks(s.heads, s.kvHeads, tp)
  {
  }

  lemma PacksBy<T>(parameter: seq<T>, s: Shape, tp: nat, perGroup: nat, queryRows: nat)
    requires s.Valid() && tp > 0 && s.heads == s.kvHeads * perGroup && queryRows == perGroup * s.headDim
    ensures Pack(parameter, s, tp) == PackBy(parameter, s, tp, perGroup, queryRows)
  {
    ExactGroups(s, perGroup);
  }

  lemma ExactGroups(s: Shape, perGroup: nat)
    requires s.Valid() && s.heads == s.kvHeads * perGroup
    ensures s.heads % s.kvHeads == 0 && s.heads / s.kvHeads == perGroup
  {
    DivUnique(s.heads, s.kvHeads, perGroup);
  }
}
