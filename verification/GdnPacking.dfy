/**
 The input projection and convolution of the gated delta-net: every training rank packs its own
 share of each category, and every inference rank expects the same of its share.
 */
module GdnPacking {
  import opened Basics
  import opened Chunks
  import opened PowersOfTwo
  import opened SequenceFacts
  import opened Sequences

  datatype GdnError = NotDivisible | RowMismatch

  // ---------------------------------------------------------------- packing by rank

  /** Every category splits evenly over n ranks into pieces of the given sizes. */
  predicate Shares<T>(categories: seq<seq<T>>, sizes: seq<nat>, n: nat) {
    |categories| == |sizes| && forall c | 0 <= c < |sizes| :: |categories[c]| == n * sizes[c]
  }

  /** Rank r's piece of each category, in category order. */
  function RankBlock<T>(categories: seq<seq<T>>, sizes: seq<nat>, n: nat, r: nat): (block: seq<T>)
    requires Shares(categories, sizes, n) && r < n
    ensures |block| == Sum(sizes)
  {
    if sizes == [] then []
    else
      var k := |sizes| - 1;
      RankBlock(categories[..k], sizes[..k], n, r) + Reshape(categories[k], n, sizes[k])[r]
  }

  function RankBlocks<T>(categories: seq<seq<T>>, sizes: seq<nat>, n: nat, count: nat): (blocks: seq<seq<T>>)
    requires Shares(categories, sizes, n) && count <= n
    ensures |blocks| == count && forall r | 0 <= r < count :: blocks[r] == RankBlock(categories, sizes, n, r)
    ensures AllSized(blocks, Sum(sizes))
  {
    if count == 0 then []
    else RankBlocks(categories, sizes, n, count - 1) + [RankBlock(categories, sizes, n, count - 1)]
  }

  /** The blocks of n ranks, one after the other. */
  function Packed<T>(categories: seq<seq<T>>, sizes: seq<nat>, n: nat): seq<T>
    requires Shares(categories, sizes, n)
  {
    Flatten(RankBlocks(categories, sizes, n, n))
  }

  // ---------------------------------------------------------------- undoing it

  /** The rows from lo to hi of each of the first n blocks. */
  function Column<T>(blocks: seq<seq<T>>, n: nat, lo: nat, hi: nat): seq<T>
    requires n <= |blocks| && lo <= hi && forall r | 0 <= r < n :: hi <= |blocks[r]|
  {
    if n == 0 then [] else Column(blocks, n - 1, lo, hi) + Range(blocks[n - 1], lo, hi)
  }

  /** Each category's rows of every block. */
  function Categories<T>(blocks: seq<seq<T>>, sizes: seq<nat>, rows: nat): (r: seq<seq<T>>)
    requires AllSized(blocks, rows) && Sum(sizes) <= rows
    ensures |r| == |sizes|
  {
    if sizes == [] then []
    else
      var init := sizes[..|sizes| - 1];
      Categories(blocks, init, rows) + [Column(blocks, |blocks|, Sum(init), Sum(sizes))]
  }

  lemma {:induction false} SumPrefix(sizes: seq<nat>, c: nat)
    requires c <= |sizes|
    ensures Sum(sizes[..c]) <= Sum(sizes)
  {
    if c < |sizes| {
      assert sizes[..|sizes| - 1][..c] == sizes[..c];
      SumPrefix(sizes[..|sizes| - 1], c);
    } else {
      TakeAll(sizes);
    }
  }

  lemma SumNext(sizes: seq<nat>, c: nat)
    requires c < |sizes|
    ensures Sum(sizes[..c + 1]) == Sum(sizes[..c]) + sizes[c]
  {
    TakeInit(sizes, c);
  }

  lemma {:induction false} CategoryAt<T>(blocks: seq<seq<T>>, sizes: seq<nat>, rows: nat, c: nat)
    requires AllSized(blocks, rows) && Sum(sizes) <= rows && c < |sizes|
    ensures Sum(sizes[..c]) <= Sum(sizes[..c + 1]) <= rows
    ensures Categories(blocks, sizes, rows)[c] == Column(blocks, |blocks|, Sum(sizes[..c]), Sum(sizes[..c + 1]))
  {
    var k := |sizes| - 1;
    if c < k {
      CategoryAt(blocks, sizes[..k], rows, c);
      assert sizes[..k][..c] == sizes[..c] && sizes[..k][..c + 1] == sizes[..c + 1];
    } else {
      TakeAll(sizes);
    }
  }

  /** Appends each block's rows to the category they belong to. */
  method SplitBlocks<T>(blocks: seq<seq<T>>, sizes: seq<nat>) returns (pieces: seq<seq<T>>)
    requires AllSized(blocks, Sum(sizes))
    ensures pieces == Categories(blocks, sizes, Sum(sizes))
  {
    pieces := Copies([], |sizes|);
    for r := 0 to |blocks|
      invariant |pieces| == |sizes|
      invariant forall c | 0 <= c < |sizes| :: Collected(blocks, sizes, c, r, pieces[c])
    {
      var offset := 0;
      for c := 0 to |sizes|
        invariant |pieces| == |sizes| && offset == Sum(sizes[..c])
        invariant forall d | 0 <= d < |sizes| :: Collected(blocks, sizes, d, if d < c then r + 1 else r, pieces[d])
      {
        SumNext(sizes, c);
        SumPrefix(sizes, c + 1);
        pieces := pieces[c := pieces[c] + Range(blocks[r], offset, offset + sizes[c])];
        offset := offset + sizes[c];
      }
    }
    forall c | 0 <= c < |sizes| ensures pieces[c] == Categories(blocks, sizes, Sum(sizes))[c] {
      CategoryAt(blocks, sizes, Sum(sizes), c);
    }
  }

  /** The rows of category c in the first n blocks. */
  ghost predicate Collected<T>(blocks: seq<seq<T>>, sizes: seq<nat>, c: nat, n: nat, rows: seq<T>)
    requires AllSized(blocks, Sum(sizes)) && c < |sizes| && n <= |blocks|
  {
    SumNext(sizes, c);
    SumPrefix(sizes, c + 1);
    rows == Column(blocks, n, Sum(sizes[..c]), Sum(sizes[..c + 1]))
  }

  /** The rows of category c in a rank's block are that rank's share of the category. */
  lemma {:induction false} RankBlockRange<T>(
    categories: seq<seq<T>>, sizes: seq<nat>, n: nat, r: nat, c: nat, lo: nat, hi: nat)
    requires Shares(categories, sizes, n) && r < n && c < |sizes|
    requires lo == Sum(sizes[..c]) && hi == Sum(sizes[..c + 1]) && lo <= hi <= Sum(sizes)
    ensures Range(RankBlock(categories, sizes, n, r), lo, hi) == Reshape(categories[c], n, sizes[c])[r]
  {
    var k := |sizes| - 1;
    var before, last := RankBlockLast(categories, sizes, n, r);
    if c < k {
      FrontShares(categories, sizes, n, c, lo, hi);
      RankBlockRange(categories[..k], sizes[..k], n, r, c, lo, hi);
      RangeOfPrefix(before, last, lo, hi);
    } else {
      LastRange(sizes, before, last, lo, hi);
    }
  }

  lemma FrontShares<T>(categories: seq<seq<T>>, sizes: seq<nat>, n: nat, c: nat, lo: nat, hi: nat)
    requires Shares(categories, sizes, n) && c < |sizes| - 1 && lo == Sum(sizes[..c]) && hi == Sum(sizes[..c + 1])
    ensures var k := |sizes| - 1;
      && Shares(categories[..k], sizes[..k], n) && categories[..k][c] == categories[c] && sizes[..k][c] == sizes[c]
      && lo == Sum(sizes[..k][..c]) && hi == Sum(sizes[..k][..c + 1]) && hi <= Sum(sizes[..k])
  {
    var k := |sizes| - 1;
    PrefixOfPrefix(sizes, k, c);
    PrefixOfPrefix(sizes, k, c + 1);
    SumPrefix(sizes[..k], c + 1);
  }

  lemma RankBlockLast<T>(categories: seq<seq<T>>, sizes: seq<nat>, n: nat, r: nat)
    returns (before: seq<T>, last: seq<T>)
    requires Shares(categories, sizes, n) && r < n && sizes != []
    ensures var k := |sizes| - 1;
      && before == RankBlock(categories[..k], sizes[..k], n, r) && last == Reshape(categories[k], n, sizes[k])[r]
      && |before| == Sum(sizes[..k]) && |last| == sizes[k]
    ensures RankBlock(categories, sizes, n, r) == before + last
  {
    var k := |sizes| - 1;
    before, last := RankBlock(categories[..k], sizes[..k], n, r), Reshape(categories[k], n, sizes[k])[r];
  }

  lemma LastRange<T>(sizes: seq<nat>, before: seq<T>, last: seq<T>, lo: nat, hi: nat)
    requires sizes != [] && lo == Sum(sizes[..|sizes| - 1]) && hi == Sum(sizes[..|sizes|]) && lo <= hi
    requires |before| == lo && |last| == sizes[|sizes| - 1]
    ensures |before + last| == hi && Range(before + last, lo, hi) == last
  {
    TakeAll(sizes);
    RangeOfSuffix(before, last);
  }

  lemma PrefixOfPrefix<T>(s: seq<T>, k: nat, c: nat)
    requires c <= k <= |s|
    ensures s[..k][..c] == s[..c]
  {
  }

  lemma RangeOfPrefix<T>(a: seq<T>, b: seq<T>, lo: nat, hi: nat)
    requires lo <= hi <= |a|
    ensures Range(a + b, lo, hi) == Range(a, lo, hi)
  {
  }

  lemma RangeOfSuffix<T>(a: seq<T>, b: seq<T>)
    ensures Range(a + b, |a|, |a| + |b|) == b
  {
  }

  lemma {:induction false} ColumnOfRanks<T>(
    categories: seq<seq<T>>, sizes: seq<nat>, n: nat, c: nat, count: nat, lo: nat, hi: nat)
    requires Shares(categories, sizes, n) && c < |sizes| && count <= n
    requires lo == Sum(sizes[..c]) && hi == Sum(sizes[..c + 1]) && lo <= hi <= Sum(sizes)
    ensures Column(RankBlocks(categories, sizes, n, n), count, lo, hi)
         == Flatten(Reshape(categories[c], n, sizes[c])[..count])
  {
    var pieces := Reshape(categories[c], n, sizes[c]);
    if count > 0 {
      ColumnOfRanks(categories, sizes, n, c, count - 1, lo, hi);
      RankBlockRange(categories, sizes, n, count - 1, c, lo, hi);
      TakeNext(pieces, count - 1);
      FlattenSnoc(pieces[..count - 1], pieces[count - 1]);
    }
  }

  /** Undoing the packing returns every category. */
  lemma CategoriesOfPacked<T>(categories: seq<seq<T>>, sizes: seq<nat>, n: nat)
    requires Shares(categories, sizes, n)
    ensures Categories(RankBlocks(categories, sizes, n, n), sizes, Sum(sizes)) == categories
  {
    var blocks := RankBlocks(categories, sizes, n, n);
    forall c | 0 <= c < |sizes| ensures Categories(blocks, sizes, Sum(sizes))[c] == categories[c] {
      CategoryAt(blocks, sizes, Sum(sizes), c);
      ColumnOfRanks(categories, sizes, n, c, n, Sum(sizes[..c]), Sum(sizes[..c + 1]));
      TakeAll(Reshape(categories[c], n, sizes[c]));
      ReshapeJoins(categories[c], n, sizes[c]);
    }
  }

  /** A column's rows, cut by rank, are the blocks' own. */
  lemma {:induction false} ColumnPieces<T>(blocks: seq<seq<T>>, n: nat, lo: nat, hi: nat, pieces: seq<seq<T>>)
    requires n <= |blocks| == |pieces| && lo <= hi && forall r | 0 <= r < |blocks| :: hi <= |blocks[r]|
    requires forall r | 0 <= r < |blocks| :: pieces[r] == Range(blocks[r], lo, hi)
    ensures Column(blocks, n, lo, hi) == Flatten(pieces[..n])
  {
    if n > 0 {
      ColumnPieces(blocks, n - 1, lo, hi, pieces);
      TakeNext(pieces, n - 1);
      FlattenSnoc(pieces[..n - 1], pieces[n - 1]);
    }
  }

  function Ranges<T>(blocks: seq<seq<T>>, lo: nat, hi: nat): (r: seq<seq<T>>)
    requires lo <= hi && forall r | 0 <= r < |blocks| :: hi <= |blocks[r]|
    ensures |r| == |blocks| && AllSized(r, hi - lo)
    ensures forall i | 0 <= i < |blocks| :: r[i] == Range(blocks[i], lo, hi)
  {
    if blocks == [] then []
    else Ranges(blocks[..|blocks| - 1], lo, hi) + [Range(blocks[|blocks| - 1], lo, hi)]
  }

  lemma CategoriesShare<T>(blocks: seq<seq<T>>, sizes: seq<nat>, rows: nat, c: nat)
    requires AllSized(blocks, rows) && Sum(sizes) <= rows && c < |sizes|
    ensures |Categories(blocks, sizes, rows)[c]| == |blocks| * sizes[c]
    ensures Sum(sizes[..c]) <= Sum(sizes[..c + 1]) <= rows
    ensures Reshape(Categories(blocks, sizes, rows)[c], |blocks|, sizes[c])
         == Ranges(blocks, Sum(sizes[..c]), Sum(sizes[..c + 1]))
  {
    CategoryAt(blocks, sizes, rows, c);
    SumNext(sizes, c);
    var pieces := Ranges(blocks, Sum(sizes[..c]), Sum(sizes[..c + 1]));
    ColumnPieces(blocks, |blocks|, Sum(sizes[..c]), Sum(sizes[..c + 1]), pieces);
    TakeAll(pieces);
    ReshapeOfParts(pieces, sizes[c]);
  }

  lemma {:induction false} RankBlockOfCategories<T>(blocks: seq<seq<T>>, sizes: seq<nat>, rows: nat, r: nat)
    requires AllSized(blocks, rows) && Sum(sizes) <= rows && r < |blocks|
    ensures Shares(Categories(blocks, sizes, rows), sizes, |blocks|)
    ensures RankBlock(Categories(blocks, sizes, rows), sizes, |blocks|, r) == Range(blocks[r], 0, Sum(sizes))
  {
    var categories := Categories(blocks, sizes, rows);
    forall c | 0 <= c < |sizes| ensures |categories[c]| == |blocks| * sizes[c] {
      CategoriesShare(blocks, sizes, rows, c);
    }
    if sizes != [] {
      var k := |sizes| - 1;
      RankBlockOfCategories(blocks, sizes[..k], rows, r);
      CategoriesShare(blocks, sizes, rows, k);
      TakeAll(sizes);
      RangeConcat(blocks[r], 0, Sum(sizes[..k]), Sum(sizes));
    }
  }

  /** Packing what was split restores the blocks. */
  lemma PackedOfCategories<T>(blocks: seq<seq<T>>, sizes: seq<nat>)
    requires AllSized(blocks, Sum(sizes))
    ensures Shares(Categories(blocks, sizes, Sum(sizes)), sizes, |blocks|)
    ensures RankBlocks(Categories(blocks, sizes, Sum(sizes)), sizes, |blocks|, |blocks|) == blocks
  {
    var categories := Categories(blocks, sizes, Sum(sizes));
    forall c | 0 <= c < |sizes| ensures |categories[c]| == |blocks| * sizes[c] {
      CategoriesShare(blocks, sizes, Sum(sizes), c);
    }
    forall r | 0 <= r < |blocks| ensures RankBlock(categories, sizes, |blocks|, r) == blocks[r] {
      RankBlockOfCategories(blocks, sizes, Sum(sizes), r);
      RangeAll(blocks[r]);
    }
  }

  // ---------------------------------------------------------------- the operations

  predicate AllDivisible(dims: seq<nat>, n: nat)
    requires n > 0
  {
    forall c | 0 <= c < |dims| :: dims[c] % n == 0
  }

  function Divided(dims: seq<nat>, n: nat): (r: seq<nat>)
    requires n > 0
    ensures |r| == |dims| && forall c | 0 <= c < |dims| :: r[c] == dims[c] / n
  {
    if dims == [] then [] else Divided(dims[..|dims| - 1], n) + [dims[|dims| - 1] / n]
  }

  /** The training parameter's categories; dims are their whole row counts. */
  function Split<T>(parameter: seq<T>, dims: seq<nat>, trainTp: nat): Result<seq<seq<T>>, GdnError>
    requires trainTp > 0
  {
    if !AllDivisible(dims, trainTp) then Err(NotDivisible)
    else
      var local := Divided(dims, trainTp);
      if |parameter| != trainTp * Sum(local) then Err(RowMismatch)
      else Ok(Categories(Reshape(parameter, trainTp, Sum(local)), local, Sum(local)))
  }

  method SplitParameter<T>(parameter: seq<T>, dims: seq<nat>, trainTp: nat)
    returns (r: Result<seq<seq<T>>, GdnError>)
    requires trainTp > 0
    ensures r == Split(parameter, dims, trainTp)
  {
    if !AllDivisible(dims, trainTp) { return Err(NotDivisible); }
    var local := Divided(dims, trainTp);
    if |parameter| != trainTp * Sum(local) { return Err(RowMismatch); }
    var pieces := SplitBlocks(Reshape(parameter, trainTp, Sum(local)), local);
    r := Ok(pieces);
  }

  predicate Sized<T>(categories: seq<seq<T>>, dims: seq<nat>) {
    |categories| == |dims| && forall c | 0 <= c < |dims| :: |categories[c]| == dims[c]
  }

  lemma SharesSized<T>(categories: seq<seq<T>>, dims: seq<nat>, n: nat)
    requires n > 0 && Sized(categories, dims) && AllDivisible(dims, n)
    ensures Shares(categories, Divided(dims, n), n)
  {
    forall c | 0 <= c < |dims| ensures |categories[c]| == n * Divided(dims, n)[c] {
      Divides(dims[c], n);
    }
  }

  /** The categories in inference-rank order. */
  function Repack<T>(categories: seq<seq<T>>, dims: seq<nat>, inferTp: nat): Result<seq<T>, GdnError>
    requires Sized(categories, dims)
  {
    if inferTp == 0 || !AllDivisible(dims, inferTp) then Err(NotDivisible)
    else
      SharesSized(categories, dims, inferTp);
      Ok(Packed(categories, Divided(dims, inferTp), inferTp))
  }

  lemma SplitIsSized<T>(parameter: seq<T>, dims: seq<nat>, trainTp: nat)
    requires trainTp > 0 && Split(parameter, dims, trainTp).Ok?
    ensures Sized(Split(parameter, dims, trainTp).value, dims)
  {
    var local := Divided(dims, trainTp);
    var blocks := Reshape(parameter, trainTp, Sum(local));
    forall c | 0 <= c < |dims| ensures |Categories(blocks, local, Sum(local))[c]| == dims[c] {
      CategoriesShare(blocks, local, Sum(local), c);
      Divides(dims[c], trainTp);
    }
  }

  /** The convolution channels, regrouped from training ranks to inference ranks. */
  function PackConv<T>(parameter: seq<T>, dims: seq<nat>, trainTp: nat, inferTp: nat): Result<seq<T>, GdnError>
    requires trainTp > 0
  {
    match Split(parameter, dims, trainTp)
    case Err(error) => Err(error)
    case Ok(categories) =>
      SplitIsSized(parameter, dims, trainTp);
      Repack(categories, dims, inferTp)
  }

  /** The first four categories fused and the last two fused, each in inference-rank order. */
  function PackInput<T>(parameter: seq<T>, dims: seq<nat>, trainTp: nat, inferTp: nat)
    : Result<(seq<T>, seq<T>), GdnError>
    requires trainTp > 0 && |dims| == 6
  {
    match Split(parameter, dims, trainTp)
    case Err(error) => Err(error)
    case Ok(categories) =>
      SplitIsSized(parameter, dims, trainTp);
      var qkvz, ba := Repack(categories[..4], dims[..4], inferTp), Repack(categories[4..], dims[4..], inferTp);
      if qkvz.Err? || ba.Err? then Err(NotDivisible) else Ok((qkvz.value, ba.value))
  }

  // ---------------------------------------------------------------- what the operations guarantee

  /** Splitting inverts the training ranks' packing, and packing inverts the split. */
  lemma SplitInvertsPacking<T>(categories: seq<seq<T>>, dims: seq<nat>, trainTp: nat)
    requires trainTp > 0 && Sized(categories, dims) && AllDivisible(dims, trainTp)
    ensures Shares(categories, Divided(dims, trainTp), trainTp)
    ensures Split(Packed(categories, Divided(dims, trainTp), trainTp), dims, trainTp) == Ok(categories)
  {
    SharesSized(categories, dims, trainTp);
    var local := Divided(dims, trainTp);
    ReshapeOfParts(RankBlocks(categories, local, trainTp, trainTp), Sum(local));
    CategoriesOfPacked(categories, local, trainTp);
  }

  lemma PackingInvertsSplit<T>(parameter: seq<T>, dims: seq<nat>, trainTp: nat)
    requires trainTp > 0 && Split(parameter, dims, trainTp).Ok?
    ensures Shares(Split(parameter, dims, trainTp).value, Divided(dims, trainTp), trainTp)
    ensures Packed(Split(parameter, dims, trainTp).value, Divided(dims, trainTp), trainTp) == parameter
  {
    var local := Divided(dims, trainTp);
    PackedOfCategories(Reshape(parameter, trainTp, Sum(local)), local);
    ReshapeJoins(parameter, trainTp, Sum(local));
  }

  /** Cutting the packed rows evenly gives every rank its share of each category, in category order. */
  lemma RanksReceiveShares<T>(categories: seq<seq<T>>, sizes: seq<nat>, n: nat, r: nat)
    requires r < n && Shares(categories, sizes, n)
    ensures |Chunk(Packed(categories, sizes, n), n)| == n
    ensures Chunk(Packed(categories, sizes, n), n)[r] == RankBlock(categories, sizes, n, r)
  {
    ReshapeOfParts(RankBlocks(categories, sizes, n, n), Sum(sizes));
    ChunkIsReshape(Packed(categories, sizes, n), n, Sum(sizes));
  }

  /**
   The same logical categories give the same inference parameters from every training degree
   that divides them; they fail exactly when the inference degree does not.
   */
  lemma TrainingDegreeIsInvisible<T>(categories: seq<seq<T>>, dims: seq<nat>, trainTp: nat, inferTp: nat)
    requires trainTp > 0 && |dims| == 6 && Sized(categories, dims) && AllDivisible(dims, trainTp)
    ensures Shares(categories, Divided(dims, trainTp), trainTp)
    ensures var p := PackInput(Packed(categories, Divided(dims, trainTp), trainTp), dims, trainTp, inferTp);
      && (p.Ok? <==> inferTp > 0 && AllDivisible(dims, inferTp))
      && (p.Ok? ==>
            && Ok(p.value.0) == Repack(categories[..4], dims[..4], inferTp)
            && Ok(p.value.1) == Repack(categories[4..], dims[4..], inferTp))
  {
    SplitInvertsPacking(categories, dims, trainTp);
    if inferTp > 0 {
      assert AllDivisible(dims, inferTp) <==> AllDivisible(dims[..4], inferTp) && AllDivisible(dims[4..], inferTp) by {
        if AllDivisible(dims[..4], inferTp) && AllDivisible(dims[4..], inferTp) {
          forall c | 0 <= c < 6 ensures dims[c] % inferTp == 0 {
            if c < 4 { assert dims[..4][c] == dims[c]; } else { assert dims[4..][c - 4] == dims[c]; }
          }
        }
      }
    }
  }

  lemma ConvDegreeIsInvisible<T>(categories: seq<seq<T>>, dims: seq<nat>, trainTp: nat, inferTp: nat)
    requires trainTp > 0 && Sized(categories, dims) && AllDivisible(dims, trainTp)
    ensures Shares(categories, Divided(dims, trainTp), trainTp)
    ensures PackConv(Packed(categories, Divided(dims, trainTp), trainTp), dims, trainTp, inferTp)
         == Repack(categories, dims, inferTp)
  {
    SplitInvertsPacking(categories, dims, trainTp);
  }

  /** With equal degrees the convolution is returned as it came. */
  lemma ConvSameDegree<T>(parameter: seq<T>, dims: seq<nat>, tp: nat)
    requires tp > 0 && Split(parameter, dims, tp).Ok?
    ensures PackConv(parameter, dims, tp, tp) == Ok(parameter)
  {
    PackingInvertsSplit(parameter, dims, tp);
    SplitIsSized(parameter, dims, tp);
  }
}
