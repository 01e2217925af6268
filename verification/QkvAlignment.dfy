/**
 When the regrouped QKV weight serves every inference rank: each block has the same size and
 holds, for each query head it has a row of, that whole head and its whole key and value head.
 Rows carry their origin here, so that the blocks can be asked what they hold.
 */
module QkvAlignment {
  import opened Basics
  import opened Chunks
  import opened PowersOfTwo
  import opened QkvRegroup
  import opened SequenceFacts
  import opened Sequences

  datatype Kind = QueryRow | KeyRow | ValueRow

  datatype Row = Row(kind: Kind, head: nat, offset: nat)

  function HeadRows(kind: Kind, head: nat, size: nat): (r: seq<Row>)
    ensures |r| == size && forall o | 0 <= o < size :: r[o] == Row(kind, head, o)
  {
    if size == 0 then [] else HeadRows(kind, head, size - 1) + [Row(kind, head, size - 1)]
  }

  function Heads(kind: Kind, n: nat, size: nat): (r: seq<seq<Row>>)
    ensures |r| == n && AllSized(r, size) && forall h | 0 <= h < n :: r[h] == HeadRows(kind, h, size)
  {
    if n == 0 then [] else Heads(kind, n - 1, size) + [HeadRows(kind, n - 1, size)]
  }

  /** Row o of head h stands at h * size + o, and nowhere else. */
  lemma RowAt(kind: Kind, n: nat, size: nat, h: nat, o: nat)
    requires h < n && o < size
    ensures h * size + o < |Flatten(Heads(kind, n, size))|
    ensures Flatten(Heads(kind, n, size))[h * size + o] == Row(kind, h, o)
  {
    FlattenEntry(Heads(kind, n, size), size, h, o);
  }

  lemma RowOnlyAt(kind: Kind, n: nat, size: nat, x: nat)
    requires size > 0 && x < |Flatten(Heads(kind, n, size))|
    ensures Flatten(Heads(kind, n, size))[x].kind == kind
    ensures var row := Flatten(Heads(kind, n, size))[x]; x == row.head * size + row.offset && row.offset < size
  {
    FlattenLength(Heads(kind, n, size), size);
    var h, o := HeadOf(x, n, size);
    RowAt(kind, n, size, h, o);
  }

  lemma HeadOf(x: nat, n: nat, size: nat) returns (h: nat, o: nat)
    requires size > 0 && x < n * size
    ensures h < n && o < size && x == h * size + o
  {
    DivBounds(x, size);
    h := x / size;
    o := x - h * size;
    if h >= n { MulMonotone(n, h, size); }
  }

  // ---------------------------------------------------------------- what a block serves

  ghost predicate HoldsHead(block: seq<Row>, kind: Kind, head: nat, size: nat) {
    forall o | 0 <= o < size :: Row(kind, head, o) in block
  }

  ghost predicate Serves(block: seq<Row>, perGroup: nat, size: nat)
    requires perGroup > 0
  {
    forall h: nat, o: nat | Row(QueryRow, h, o) in block ::
      && HoldsHead(block, QueryRow, h, size)
      && HoldsHead(block, KeyRow, h / perGroup, size)
      && HoldsHead(block, ValueRow, h / perGroup, size)
  }

  ghost predicate ServesEveryRank(blocks: seq<seq<Row>>, tp: nat, perGroup: nat, size: nat, rows: nat)
    requires perGroup > 0
  {
    |blocks| == tp && AllSized(blocks, rows) && forall i | 0 <= i < tp :: Serves(blocks[i], perGroup, size)
  }

  // ---------------------------------------------------------------- even ranks are served

  lemma HoldsPart(parts: seq<seq<Row>>, i: nat, kind: Kind, head: nat, size: nat)
    requires i < |parts| && parts[i] == HeadRows(kind, head, size)
    ensures HoldsHead(Flatten(parts), kind, head, size)
  {
    forall o | 0 <= o < size ensures Row(kind, head, o) in Flatten(parts) {
      assert parts[i][o] in parts[i];
      FlattenMembers(parts, Row(kind, head, o));
    }
  }

  lemma {:induction false} GroupMember<T>(parts: seq<T>, size: nat, i: nat, j: nat)
    requires size > 0 && i < |SplitEvery(parts, size)| && j < |SplitEvery(parts, size)[i]|
    ensures SplitEvery(parts, size)[i][j] in parts
  {
    SplitSizes(parts, size, i);
  }

  /** Everything in the key or value heads of a rank is of that kind. */
  lemma KvHeadsKind(kind: Kind, kvHeads: nat, size: nat, tp: nat, i: nat, x: Row)
    requires kvHeads > 0 && tp > 0 && size > 0 && i < |KvHeadsOf(Heads(kind, kvHeads, size), tp)|
    requires x in Flatten(KvHeadsOf(Heads(kind, kvHeads, size), tp)[i])
    ensures x.kind == kind
  {
    var heads := Heads(kind, kvHeads, size);
    var mine := KvHeadsOf(heads, tp)[i];
    FlattenMembers(mine, x);
    var j :| 0 <= j < |mine| && x in mine[j];
    if tp >= kvHeads {
      RepeatedMember(SplitEvery(heads, 1), tp / kvHeads, i);
      var g :| 0 <= g < |SplitEvery(heads, 1)| && SplitEvery(heads, 1)[g] == mine;
      GroupMember(heads, 1, g, j);
    } else {
      Quotient(kvHeads, tp);
      GroupMember(heads, kvHeads / tp, i, j);
    }
    var h :| 0 <= h < kvHeads && heads[h] == mine[j];
    var o :| 0 <= o < size && heads[h][o] == x;
  }

  lemma {:induction false} RepeatedMember<T>(s: seq<T>, n: nat, i: nat)
    requires i < |RepeatEach(s, n)|
    ensures RepeatEach(s, n)[i] in s
  {
    if s != [] {
      var init := s[..|s| - 1];
      if i < |RepeatEach(init, n)| { RepeatedMember(init, n, i); }
    }
  }

  predicate LabelledHeads(q: seq<seq<Row>>, k: seq<seq<Row>>, v: seq<seq<Row>>, perGroup: nat, size: nat) {
    && q == Heads(QueryRow, |q|, size) && k == Heads(KeyRow, |k|, size) && v == Heads(ValueRow, |v|, size)
    && |k| == |v| > 0 && perGroup > 0 && size > 0 && |q| == |k| * perGroup
  }

  /** A query row of an evenly regrouped block finds its own head and its key and value head there. */
  lemma BlockServes(
    q: seq<seq<Row>>, k: seq<seq<Row>>, v: seq<seq<Row>>, perGroup: nat, size: nat, tp: nat, i: nat, h: nat, o: nat,
    kv: nat)
    requires perGroup > 0 && k != [] && v != [] && i < tp <= |q|
    requires |QueryHeadsOf(q, tp)| == |KvHeadsOf(k, tp)| == |KvHeadsOf(v, tp)| == tp
    requires Row(QueryRow, h, o) in Flatten(QueryHeadsOf(q, tp)[i]) && kv == h / perGroup
    requires LabelledHeads(q, k, v, perGroup, size) && EvenRanks(|q|, |k|, tp)
    ensures HoldsHead(Flatten(QueryHeadsOf(q, tp)[i]), QueryRow, h, size)
    ensures HoldsHead(Flatten(KvHeadsOf(k, tp)[i]), KeyRow, kv, size)
    ensures HoldsHead(Flatten(KvHeadsOf(v, tp)[i]), ValueRow, kv, size)
  {
    var mine := QueryHeadsOf(q, tp)[i];
    FlattenMembers(mine, Row(QueryRow, h, o));
    var j :| 0 <= j < |mine| && Row(QueryRow, h, o) in mine[j];
    var hk, kvk, localGroup, localKv := HeadsMeet(q, k, tp, perGroup, i, j);
    var hv, kvv, localGroup', localKv' := HeadsMeet(q, v, tp, perGroup, i, j);
    assert mine[j] == HeadRows(QueryRow, hk, size) == HeadRows(QueryRow, hv, size);
    HoldsPart(mine, j, QueryRow, h, size);
    HoldsPart(KvHeadsOf(k, tp)[i], localKv, KeyRow, kv, size);
    HoldsPart(KvHeadsOf(v, tp)[i], localKv', ValueRow, kv, size);
  }

  lemma EvenBlockServes(
    q: seq<seq<Row>>, k: seq<seq<Row>>, v: seq<seq<Row>>, perGroup: nat, size: nat, tp: nat, i: nat, block: seq<Row>)
    requires LabelledHeads(q, k, v, perGroup, size) && i < tp <= |q| && EvenRanks(|q|, |k|, tp)
    requires |QueryHeadsOf(q, tp)| == |KvHeadsOf(k, tp)| == |KvHeadsOf(v, tp)| == tp
    requires block
          == Flatten(QueryHeadsOf(q, tp)[i]) + Flatten(KvHeadsOf(k, tp)[i]) + Flatten(KvHeadsOf(v, tp)[i])
    ensures Serves(block, perGroup, size)
  {
    var b, c := Flatten(KvHeadsOf(k, tp)[i]), Flatten(KvHeadsOf(v, tp)[i]);
    forall h: nat, o: nat | Row(QueryRow, h, o) in block
      ensures HoldsHead(block, QueryRow, h, size)
      ensures HoldsHead(block, KeyRow, h / perGroup, size)
      ensures HoldsHead(block, ValueRow, h / perGroup, size)
    {
      var row := Row(QueryRow, h, o);
      if row in b { KvHeadsKind(KeyRow, |k|, size, tp, i, row); }
      if row in c { KvHeadsKind(ValueRow, |v|, size, tp, i, row); }
      BlockServes(q, k, v, perGroup, size, tp, i, h, o, h / perGroup);
    }
  }

  lemma EvenRanksAreServed(
    q: seq<seq<Row>>, k: seq<seq<Row>>, v: seq<seq<Row>>, perGroup: nat, size: nat, tp: nat, blocks: seq<seq<Row>>)
    returns (rows: nat)
    requires LabelledHeads(q, k, v, perGroup, size) && tp > 0 && EvenRanks(|q|, |k|, tp) && q != []
    requires blocks == RankBlocks(Qkv(Flatten(q), Flatten(k), Flatten(v)), |k|, tp)
    ensures rows > 0 && ServesEveryRank(blocks, tp, perGroup, size, rows)
  {
    rows := BlocksHoldHeads(q, k, v, tp, size, size);
    forall i | 0 <= i < tp ensures Serves(blocks[i], perGroup, size) {
      EvenBlockServes(q, k, v, perGroup, size, tp, i, blocks[i]);
    }
  }

  // ---------------------------------------------------------------- uneven ranks are not

  lemma {:induction false} RepeatedLengths<T>(pieces: seq<seq<T>>, n: nat, size: nat)
    requires AllSized(pieces, size)
    ensures |Flatten(RepeatEach(pieces, n))| == |pieces| * n * size
  {
    RepeatedSizes(pieces, n, size);
    RepeatedLength(pieces, n);
    FlattenLength(RepeatEach(pieces, n), size);
  }

  lemma FirstChunk<T>(rows: seq<T>, n: nat)
    requires rows != [] && n > 0
    ensures Chunk(rows, n) != [] && Chunk(rows, n)[0] <= rows && |Chunk(rows, n)[0]| == CeilDiv(|rows|, n) > 0
  {
    var size := ChunkSizes(rows, n, 0);
    CeilDivBounds(|rows|, n);
    if |Chunk(rows, n)| == 1 {
      assert |rows| <= size;
      if size > |rows| { MulMonotone(|rows| + 1, size, n); MulMonotone(1, n, |rows|); }
    }
  }

  /** How many key rows the first rank gets, and how many all ranks get together. */
  function KeyCut(kvHeads: nat, tp: nat, size: nat): nat
    requires tp > 0
  {
    if tp >= kvHeads then size else CeilDiv(kvHeads * size, tp)
  }

  function KeyTotal(kvHeads: nat, tp: nat, size: nat): nat {
    if tp >= kvHeads then tp * size else kvHeads * size
  }

  function QueryCut(heads: nat, tp: nat, size: nat): nat
    requires tp > 0
  {
    CeilDiv(heads * size, tp)
  }

  function QueryTotal(heads: nat, size: nat): nat { heads * size }

  function MergedBound(heads: nat, kvHeads: nat, tp: nat, size: nat): nat {
    QueryTotal(heads, size) + 2 * KeyTotal(kvHeads, tp, size)
  }

  /** The first rank's key or value rows start the key or value rows. */
  lemma FirstShard(heads: seq<seq<Row>>, tp: nat, size: nat) returns (shards: seq<seq<Row>>)
    requires heads != [] && AllSized(heads, size) && tp > 0 && size > 0
    requires tp >= |heads| ==> tp % |heads| == 0
    ensures shards == KvShards(Flatten(heads), |heads|, tp) && shards != []
    ensures shards[0] <= Flatten(heads) && |shards[0]| == KeyCut(|heads|, tp, size) > 0
    ensures |Flatten(shards)| == KeyTotal(|heads|, tp, size)
  {
    var rows := Flatten(heads);
    shards := KvShards(rows, |heads|, tp);
    FlattenLength(heads, size);
    LongEnough(heads, size);
    if tp >= |heads| {
      ChunkOfParts(heads, size);
      Divides(tp, |heads|);
      Quotient(tp, |heads|);
      RepeatedLength(heads, tp / |heads|);
      RepeatedAt(heads, tp / |heads|, 0, 0);
      RepeatedLengths(heads, tp / |heads|, size);
      StartsWith(heads);
    } else {
      FirstChunk(rows, tp);
      ChunkJoins(rows, tp);
    }
  }

  lemma StartsWith<T>(parts: seq<seq<T>>)
    requires parts != []
    ensures parts[0] <= Flatten(parts)
  {
    ConsOf(parts);
    FlattenCons(parts[0], parts[1..]);
  }

  lemma {:induction false} InterleavedLength<T>(q: seq<seq<T>>, k: seq<seq<T>>, v: seq<seq<T>>, n: nat)
    requires n <= |q| && n <= |k| && n <= |v|
    ensures |Flatten(Interleaved(q, k, v, n))| <= |Flatten(q)| + |Flatten(k)| + |Flatten(v)|
    decreases |q| + |k| + |v|
  {
    if n < |q| {
      InterleavedLength(q[..|q| - 1], k, v, n);
      SameInterleaving(q[..|q| - 1], k, v, q, k, v, n);
    } else if n < |k| {
      InterleavedLength(q, k[..|k| - 1], v, n);
      SameInterleaving(q, k[..|k| - 1], v, q, k, v, n);
    } else if n < |v| {
      InterleavedLength(q, k, v[..|v| - 1], n);
      SameInterleaving(q, k, v[..|v| - 1], q, k, v, n);
    } else if n > 0 {
      var m := n - 1;
      InterleavedLength(q[..m], k[..m], v[..m], m);
      SameInterleaving(q[..m], k[..m], v[..m], q, k, v, m);
      FlattenSnoc(Interleaved(q, k, v, m), q[m] + k[m] + v[m]);
    }
  }

  lemma SameInterleaving<T>(
    q: seq<seq<T>>, k: seq<seq<T>>, v: seq<seq<T>>, q': seq<seq<T>>, k': seq<seq<T>>, v': seq<seq<T>>, n: nat)
    requires n <= |q| && n <= |k| && n <= |v| && q <= q' && k <= k' && v <= v'
    ensures Interleaved(q, k, v, n) == Interleaved(q', k', v', n)
  {
  }

  lemma MergedStarts<T>(w: Qkv<T>, kvHeads: nat, tp: nat, q: seq<seq<T>>, k: seq<seq<T>>, v: seq<seq<T>>)
    returns (merged: seq<T>)
    requires kvHeads > 0 && tp > 0 && q == Chunk(w.query, tp)
    requires k == KvShards(w.key, kvHeads, tp) && v == KvShards(w.value, kvHeads, tp)
    requires q != [] && k != [] && v != []
    ensures merged == Flatten(RankBlocks(w, kvHeads, tp)) && q[0] + k[0] + v[0] <= merged
    ensures |merged| <= |Flatten(q)| + |Flatten(k)| + |Flatten(v)|
  {
    var n := Min(|q|, Min(|k|, |v|));
    merged := Flatten(Interleaved(q, k, v, n));
    StartsWith(Interleaved(q, k, v, n));
    InterleavedLength(q, k, v, n);
  }

  /** The query rows cut for the ranks. */
  lemma FirstQuery(heads: seq<seq<Row>>, tp: nat, size: nat) returns (shards: seq<seq<Row>>)
    requires heads != [] && AllSized(heads, size) && tp > 0 && size > 0
    ensures shards == Chunk(Flatten(heads), tp) && shards != []
    ensures shards[0] <= Flatten(heads) && |shards[0]| == QueryCut(|heads|, tp, size) > 0
    ensures |Flatten(shards)| == QueryTotal(|heads|, size)
  {
    shards := Chunk(Flatten(heads), tp);
    FlattenLength(heads, size);
    LongEnough(heads, size);
    FirstChunk(Flatten(heads), tp);
    ChunkJoins(Flatten(heads), tp);
  }

  /** The merged rows start with the first rank's query, key and value rows. */
  lemma FirstBlock(q: seq<seq<Row>>, k: seq<seq<Row>>, v: seq<seq<Row>>, perGroup: nat, size: nat, tp: nat)
    returns (q0: seq<Row>, k0: seq<Row>, v0: seq<Row>, merged: seq<Row>)
    requires LabelledHeads(q, k, v, perGroup, size) && tp > 0 && q != []
    requires tp >= |k| ==> tp % |k| == 0
    ensures merged == Flatten(RankBlocks(Qkv(Flatten(q), Flatten(k), Flatten(v)), |k|, tp))
    ensures q0 <= Flatten(q) && k0 <= Flatten(k) && v0 <= Flatten(v) && q0 + k0 + v0 <= merged
    ensures |q0| == QueryCut(|q|, tp, size) > 0 && |k0| == |v0| == KeyCut(|k|, tp, size) > 0
    ensures merged != [] && |merged| <= MergedBound(|q|, |k|, tp, size)
  {
    var qs := FirstQuery(q, tp, size);
    var ks := FirstShard(k, tp, size);
    var vs := FirstShard(v, tp, size);
    q0, k0, v0 := qs[0], ks[0], vs[0];
    merged := MergedStarts(Qkv(Flatten(q), Flatten(k), Flatten(v)), |k|, tp, qs, ks, vs);
  }

  // What the first rank's piece of an even cut must hold, if it is served.

  function GroupOfHead(h: nat, perGroup: nat): nat
    requires perGroup > 0
  {
    h / perGroup
  }

  /** The position after the last row of a head. */
  function HeadEnd(h: nat, size: nat): nat { h * size + size }

  ghost predicate AllOfKind(rows: seq<Row>, kind: Kind) {
    forall x <- rows :: x.kind == kind
  }

  lemma PrefixKind(kind: Kind, n: nat, size: nat, part: seq<Row>)
    requires size > 0 && part <= Flatten(Heads(kind, n, size))
    ensures AllOfKind(part, kind)
  {
    forall x <- part ensures x.kind == kind {
      var i :| 0 <= i < |part| && part[i] == x;
      RowOnlyAt(kind, n, size, i);
    }
  }

  lemma FirstRow(kind: Kind, n: nat, size: nat, part: seq<Row>)
    requires n > 0 && size > 0 && part != [] && part <= Flatten(Heads(kind, n, size))
    ensures part[0] == Row(kind, 0, 0)
  {
    RowAt(kind, n, size, 0, 0);
  }

  lemma RowInside(kind: Kind, n: nat, size: nat, part: seq<Row>, h: nat, end: nat)
    requires size > 0 && part <= Flatten(Heads(kind, n, size)) && Row(kind, h, size - 1) in part
    requires end == HeadEnd(h, size)
    ensures end <= |part|
  {
    var i :| 0 <= i < |part| && part[i] == Row(kind, h, size - 1);
    RowOnlyAt(kind, n, size, i);
  }

  /** A served piece that starts in the query rows reaches the value rows. */
  lemma ReachesValues(a: seq<Row>, b: seq<Row>, c: seq<Row>, piece: seq<Row>, perGroup: nat, size: nat)
    requires a != [] && a[0] == Row(QueryRow, 0, 0) && AllOfKind(a, QueryRow) && AllOfKind(b, KeyRow)
    requires perGroup > 0 && size > 0 && piece != [] && piece <= a + b + c && Serves(piece, perGroup, size)
    ensures |piece| > |a| + |b|
  {
    assert piece[0] == Row(QueryRow, 0, 0) && Row(QueryRow, 0, 0) in piece;
    assert HoldsHead(piece, ValueRow, 0 / perGroup, size);
    var i :| 0 <= i < |piece| && piece[i] == Row(ValueRow, 0 / perGroup, 0);
    if i < |a| {
      assert piece[i] == a[i] && a[i] in a;
    } else if i < |a| + |b| {
      assert piece[i] == b[i - |a|] && b[i - |a|] in b;
    }
  }

  lemma PrefixOfThree<T>(a: seq<T>, b: seq<T>, c: seq<T>, piece: seq<T>) returns (part: seq<T>)
    requires piece <= a + b + c && |piece| >= |a| + |b|
    ensures part <= c && piece == a + b + part
  {
    part := c[..|piece| - |a| - |b|];
  }

  /** The pieces of a served first rank: its query rows, its key rows and some of its value rows. */
  lemma PiecesOf(
    q: seq<seq<Row>>, k: seq<seq<Row>>, v: seq<seq<Row>>, perGroup: nat, size: nat, q0: seq<Row>, k0: seq<Row>,
    v0: seq<Row>, piece: seq<Row>)
    returns (values: seq<Row>)
    requires LabelledHeads(q, k, v, perGroup, size) && q0 <= Flatten(q) && k0 <= Flatten(k) && v0 <= Flatten(v)
    requires q0 != [] && piece != [] && piece <= q0 + k0 + v0 && Serves(piece, perGroup, size)
    ensures values <= v0 && piece == q0 + k0 + values
  {
    if q == [] { assert false; }
    FirstRow(QueryRow, |q|, size, q0);
    PrefixKind(QueryRow, |q|, size, q0);
    PrefixKind(KeyRow, |k|, size, k0);
    ReachesValues(q0, k0, v0, piece, perGroup, size);
    values := PrefixOfThree(q0, k0, v0, piece);
  }

  /** A piece of three kinds of rows that holds a head holds its last row where its kind is. */
  lemma HeldPart(a: seq<Row>, b: seq<Row>, c: seq<Row>, kind: Kind, h: nat, size: nat)
    requires AllOfKind(a, QueryRow) && AllOfKind(b, KeyRow) && AllOfKind(c, ValueRow) && size > 0
    requires HoldsHead(a + b + c, kind, h, size)
    ensures kind == QueryRow ==> Row(kind, h, size - 1) in a
    ensures kind == ValueRow ==> Row(kind, h, size - 1) in c
  {
    assert Row(kind, h, size - 1) in a + b + c;
  }

  lemma ServedHead(
    a: seq<Row>, b: seq<Row>, c: seq<Row>, perGroup: nat, size: nat, x: Row, h: nat, group: nat)
    requires perGroup > 0 && Serves(a + b + c, perGroup, size) && AllOfKind(a, QueryRow) && x in a
    requires x.head == h && group == GroupOfHead(h, perGroup)
    ensures HoldsHead(a + b + c, QueryRow, h, size) && HoldsHead(a + b + c, ValueRow, group, size)
  {
    assert x == Row(QueryRow, h, x.offset) && x in a + b + c;
  }

  /** The last query row's head ends with the query rows, and its value head fits in the value rows. */
  lemma LastHead(
    q: seq<seq<Row>>, k: seq<seq<Row>>, v: seq<seq<Row>>, perGroup: nat, size: nat, q0: seq<Row>, k0: seq<Row>,
    values: seq<Row>)
    returns (h: nat, group: nat, end: nat, groupEnd: nat)
    requires LabelledHeads(q, k, v, perGroup, size) && q0 <= Flatten(q) && k0 <= Flatten(k) && values <= Flatten(v)
    requires q0 != [] && Serves(q0 + k0 + values, perGroup, size)
    ensures |q0| == end && groupEnd <= |values|
    ensures group == GroupOfHead(h, perGroup) && end == HeadEnd(h, size) && groupEnd == HeadEnd(group, size)
  {
    var last := q0[|q0| - 1];
    h, group := last.head, GroupOfHead(last.head, perGroup);
    end, groupEnd := HeadEnd(h, size), HeadEnd(group, size);
    PrefixKind(QueryRow, |q|, size, q0);
    PrefixKind(KeyRow, |k|, size, k0);
    PrefixKind(ValueRow, |v|, size, values);
    ServedHead(q0, k0, values, perGroup, size, last, h, group);
    HeldPart(q0, k0, values, QueryRow, h, size);
    HeldPart(q0, k0, values, ValueRow, group, size);
    RowInside(QueryRow, |q|, size, q0, h, end);
    RowInside(ValueRow, |v|, size, values, group, groupEnd);
    EndsHead(QueryRow, |q|, size, q0, h, end);
  }

  lemma EndsHead(kind: Kind, n: nat, size: nat, part: seq<Row>, h: nat, end: nat)
    requires size > 0 && part != [] && part <= Flatten(Heads(kind, n, size)) && part[|part| - 1].head == h
    requires end == HeadEnd(h, size)
    ensures |part| <= end
  {
    RowOnlyAt(kind, n, size, |part| - 1);
  }

  // Arithmetic of the cut.

  /** The group of the last query head reaches as far as the key rows do. */
  lemma KeyReach(heads: nat, kvHeads: nat, perGroup: nat, size: nat, tp: nat, h: nat, group: nat)
    requires tp > 0 && perGroup > 0 && size > 0 && heads == kvHeads * perGroup && group == GroupOfHead(h, perGroup)
    requires QueryCut(heads, tp, size) == HeadEnd(h, size)
    ensures KeyCut(kvHeads, tp, size) <= HeadEnd(group, size)
  {
    if tp >= kvHeads {
      assert group * size >= 0;
    } else {
      var reach := group * size + size;
      GroupReach(h, perGroup, size, group, reach);
      CeilDivBounds(heads * size, tp);
      ScaleReach(h * size + size, reach * perGroup, tp, reach, perGroup);
      Reorder(kvHeads, perGroup, size);
      CancelBound(kvHeads * size, reach * tp, perGroup);
      CeilDivLeast(kvHeads * size, tp, reach);
    }
  }

  lemma GroupReach(h: nat, perGroup: nat, size: nat, group: nat, reach: nat)
    requires perGroup > 0 && group == h / perGroup && reach == group * size + size
    ensures h * size + size <= reach * perGroup
  {
    DivBounds(h, perGroup);
    var last := group * perGroup + perGroup;
    MulMonotone(h + 1, last, size);
    assert (h + 1) * size == h * size + size;
    assert last * size == (group * perGroup) * size + perGroup * size;
    Reorder(group, perGroup, size);
    assert reach * perGroup == (group * size) * perGroup + size * perGroup;
  }

  lemma ScaleReach(cut: nat, scaled: nat, tp: nat, reach: nat, perGroup: nat)
    requires cut <= scaled && scaled == reach * perGroup
    ensures tp * cut <= (reach * tp) * perGroup
  {
    MulMonotone(cut, scaled, tp);
    Reorder(reach, perGroup, tp);
  }

  lemma Reorder(a: nat, b: nat, c: nat)
    ensures (a * b) * c == (a * c) * b
  {
  }

  lemma CancelBound(a: nat, b: nat, c: nat)
    requires c > 0 && a * c <= b * c
    ensures a <= b
  {
    if a > b { MulMonotone(b + 1, a, c); }
  }

  lemma CeilDivLeast(a: nat, b: nat, c: nat)
    requires b > 0 && a <= c * b
    ensures CeilDiv(a, b) <= c
  {
    CeilDivBounds(a, b);
    if CeilDiv(a, b) > c { MulMonotone(c + 1, CeilDiv(a, b), b); }
  }

  /** A cut that takes whole pieces everywhere divides the heads. */
  lemma WholeHeads(heads: nat, size: nat, tp: nat, h: nat)
    requires size > 0 && tp > 0 && HeadEnd(h, size) * tp == heads * size
    ensures heads % tp == 0
  {
    assert (h * size + size) * tp == ((h + 1) * tp) * size;
    CancelBound(heads, (h + 1) * tp, size);
    CancelBound((h + 1) * tp, heads, size);
    DivUnique(heads, tp, h + 1);
  }

  /** What the first rank gets, times the ranks, is no less than there is. */
  lemma CutsCover(heads: nat, kvHeads: nat, size: nat, tp: nat)
    requires tp > 0
    ensures QueryCut(heads, tp, size) * tp >= heads * size
    ensures KeyCut(kvHeads, tp, size) * tp >= KeyTotal(kvHeads, tp, size)
  {
    CeilDivBounds(heads * size, tp);
    CeilDivBounds(kvHeads * size, tp);
  }

  lemma SpreadCut(cut: nat, keys: nat, tp: nat)
    ensures (cut + 2 * keys) * tp == cut * tp + 2 * (keys * tp)
  {
  }

  /** The first piece of an even cut is no longer than the first block, and if it is as long, nothing was rounded up. */
  lemma ExactCut(heads: nat, kvHeads: nat, size: nat, tp: nat, rows: nat, cut: nat, keys: nat, total: nat)
    requires tp > 0 && cut == QueryCut(heads, tp, size) && keys == KeyCut(kvHeads, tp, size)
    requires total <= MergedBound(heads, kvHeads, tp, size) && total == rows * tp
    ensures rows <= cut + 2 * keys
    ensures rows == cut + 2 * keys ==> cut * tp == heads * size && keys * tp == KeyTotal(kvHeads, tp, size)
  {
    CutsCover(heads, kvHeads, size, tp);
    SpreadCut(cut, keys, tp);
    CancelBound(rows, cut + 2 * keys, tp);
  }

  /** The first piece of a served even cut is the first block, and ends with a head of each kind. */
  lemma ServedPiece(
    q: seq<seq<Row>>, k: seq<seq<Row>>, v: seq<seq<Row>>, perGroup: nat, size: nat, tp: nat, q0: seq<Row>, k0: seq<Row>,
    v0: seq<Row>, piece: seq<Row>)
    returns (h: nat, group: nat)
    requires LabelledHeads(q, k, v, perGroup, size) && q0 <= Flatten(q) && k0 <= Flatten(k) && v0 <= Flatten(v)
    requires tp > 0 && q0 != [] && piece != [] && piece <= q0 + k0 + v0 && Serves(piece, perGroup, size)
    requires |k0| == |v0| == KeyCut(|k|, tp, size) && |q0| == QueryCut(|q|, tp, size)
    ensures |q0| == HeadEnd(h, size) && |k0| == HeadEnd(group, size) && |piece| == |q0| + 2 * |k0|
  {
    var values := PiecesOf(q, k, v, perGroup, size, q0, k0, v0, piece);
    var end, groupEnd;
    h, group, end, groupEnd := LastHead(q, k, v, perGroup, size, q0, k0, values);
    KeyReach(|q|, |k|, perGroup, size, tp, h, group);
  }

  lemma PrefixesMeet<T>(a: seq<T>, b: seq<T>, all: seq<T>)
    requires a <= all && b <= all && |a| <= |b|
    ensures a <= b
  {
  }

  /** Ranks that are served by an even cut of the merged rows divide the heads evenly. */
  lemma EvenIfCutServed(
    q: seq<seq<Row>>, k: seq<seq<Row>>, v: seq<seq<Row>>, perGroup: nat, size: nat, tp: nat, merged: seq<Row>,
    pieces: seq<seq<Row>>, rows: nat)
    requires LabelledHeads(q, k, v, perGroup, size) && tp > 0 && q != []
    requires tp >= |k| ==> tp % |k| == 0
    requires merged == Flatten(RankBlocks(Qkv(Flatten(q), Flatten(k), Flatten(v)), |k|, tp))
    requires pieces == Chunk(merged, tp) && ServesEveryRank(pieces, tp, perGroup, size, rows)
    ensures EvenRanks(|q|, |k|, tp)
  {
    var q0, k0, v0, merged' := FirstBlock(q, k, v, perGroup, size, tp);
    UniformChunks(merged, tp, rows);
    FirstChunk(merged, tp);
    ExactCut(|q|, |k|, size, tp, rows, |q0|, |k0|, |merged|);
    PrefixesMeet(pieces[0], q0 + k0 + v0, merged);
    var h, group := ServedPiece(q, k, v, perGroup, size, tp, q0, k0, v0, pieces[0]);
    WholeHeads(|q|, size, tp, h);
    if tp < |k| { WholeHeads(|k|, size, tp, group); }
  }

  /** Equal chunks, as many as asked for, exhaust the rows. */
  lemma UniformChunks<T>(rows: seq<T>, n: nat, size: nat)
    requires n > 0 && |Chunk(rows, n)| == n && AllSized(Chunk(rows, n), size)
    ensures |rows| == size * n
  {
    ChunkJoins(rows, n);
    FlattenLength(Chunk(rows, n), size);
  }

  // ---------------------------------------------------------------- the conversion

  /** Every inference rank is served, with some number of rows for each. */
  ghost predicate AllServed(blocks: seq<seq<Row>>, tp: nat, perGroup: nat, size: nat)
    requires perGroup > 0
  {
    exists rows: nat :: ServesEveryRank(blocks, tp, perGroup, size, rows)
  }

  lemma ServedIfEven(
    q: seq<seq<Row>>, k: seq<seq<Row>>, v: seq<seq<Row>>, perGroup: nat, size: nat, tp: nat, blocks: seq<seq<Row>>)
    requires LabelledHeads(q, k, v, perGroup, size) && tp > 0 && q != []
    requires blocks == RankBlocks(Qkv(Flatten(q), Flatten(k), Flatten(v)), |k|, tp) && EvenRanks(|q|, |k|, tp)
    ensures AllServed(blocks, tp, perGroup, size) && Chunk(Flatten(blocks), tp) == blocks
  {
    var rows := EvenRanksAreServed(q, k, v, perGroup, size, tp, blocks);
    FullBlocks(blocks, tp, perGroup, size, rows);
  }

  lemma FullBlocks(blocks: seq<seq<Row>>, tp: nat, perGroup: nat, size: nat, rows: nat)
    requires tp > 0 && perGroup > 0 && rows > 0 && ServesEveryRank(blocks, tp, perGroup, size, rows)
    ensures AllServed(blocks, tp, perGroup, size) && Chunk(Flatten(blocks), tp) == blocks
  {
    ChunkOfParts(blocks, rows);
  }

  /** Blocks of one size are an even cut of what they join to. */
  lemma ServedIsCut(blocks: seq<seq<Row>>, merged: seq<Row>, tp: nat, perGroup: nat, size: nat, rows: nat)
    requires tp > 0 && perGroup > 0 && ServesEveryRank(blocks, tp, perGroup, size, rows)
    requires merged == Flatten(blocks) && merged != []
    ensures Chunk(merged, tp) == blocks
  {
    FlattenLength(blocks, rows);
    ChunkOfParts(blocks, rows);
  }

  lemma EvenIfServed(
    q: seq<seq<Row>>, k: seq<seq<Row>>, v: seq<seq<Row>>, perGroup: nat, size: nat, tp: nat, blocks: seq<seq<Row>>)
    requires LabelledHeads(q, k, v, perGroup, size) && tp > 0 && q != []
    requires tp >= |k| ==> tp % |k| == 0
    requires blocks == RankBlocks(Qkv(Flatten(q), Flatten(k), Flatten(v)), |k|, tp)
    requires AllServed(blocks, tp, perGroup, size)
    ensures EvenRanks(|q|, |k|, tp)
  {
    var rows: nat :| ServesEveryRank(blocks, tp, perGroup, size, rows);
    var q0, k0, v0, merged := FirstBlock(q, k, v, perGroup, size, tp);
    ServedIsCut(blocks, merged, tp, perGroup, size, rows);
    EvenIfCutServed(q, k, v, perGroup, size, tp, merged, blocks, rows);
  }

  lemma ConversionJoins<T>(
    q: seq<seq<T>>, k: seq<seq<T>>, v: seq<seq<T>>, g: Geometry, perGroup: nat, tp: nat, rank: Option<nat>)
    requires g.Valid() && g.heads == g.kvHeads * perGroup && perGroup > 0 && tp > 0
    requires tp >= g.kvHeads ==> tp % g.kvHeads == 0
    requires |q| == g.heads && |k| == |v| == g.kvHeads
    requires AllSized(q, g.headSize) && AllSized(k, g.headSize) && AllSized(v, g.headSize)
    ensures |SplitEvery(q, perGroup)| == |k|
    ensures Converted(Compact(q, k, v, perGroup), tp, g, rank, 1)
         == Ok(Flatten(RankBlocks(Qkv(Flatten(q), Flatten(k), Flatten(v)), g.kvHeads, tp)))
  {
    TransformsCompact(q, k, v, g, perGroup, perGroup * g.headSize);
  }

  /**
   What the inference ranks receive is an even cut of the converted weight. The pieces are as
   many as the ranks, of one size, and give every query head its own key and value head if and
   only if the rank count divides the query heads and divides, or is divided by, the key/value
   heads. The code itself only checks the last case.
   */
  lemma ConversionServesIffEven(
    q: seq<seq<Row>>, k: seq<seq<Row>>, v: seq<seq<Row>>, g: Geometry, perGroup: nat, tp: nat, rank: Option<nat>)
    requires LabelledHeads(q, k, v, perGroup, g.headSize) && tp > 0
    requires g.Valid() && g.heads == |q| && g.kvHeads == |k| && (tp >= g.kvHeads ==> tp % g.kvHeads == 0)
    ensures |SplitEvery(q, perGroup)| == |k|
    ensures var r := Converted(Compact(q, k, v, perGroup), tp, g, rank, 1);
      r.Ok? && (EvenRanks(g.heads, g.kvHeads, tp) <==> AllServed(Chunk(r.value, tp), tp, perGroup, g.headSize))
  {
    ConversionJoins(q, k, v, g, perGroup, tp, rank);
    var blocks := RankBlocks(Qkv(Flatten(q), Flatten(k), Flatten(v)), g.kvHeads, tp);
    var merged := Flatten(blocks);
    if EvenRanks(g.heads, g.kvHeads, tp) { ServedIfEven(q, k, v, perGroup, g.headSize, tp, blocks); }
    if AllServed(Chunk(merged, tp), tp, perGroup, g.headSize) {
      var rows: nat :| ServesEveryRank(Chunk(merged, tp), tp, perGroup, g.headSize, rows);
      EvenIfCutServed(q, k, v, perGroup, g.headSize, tp, merged, Chunk(merged, tp), rows);
    }
  }

  /** Three key/value heads over two ranks: the code converts the weight, and some query head misses its key head. */
  lemma UnevenHeadsAreConverted(q: seq<seq<Row>>, k: seq<seq<Row>>, v: seq<seq<Row>>, g: Geometry)
    requires g.heads == 6 && g.kvHeads == 3 && g.Valid()
    requires q == Heads(QueryRow, 6, g.headSize) && k == Heads(KeyRow, 3, g.headSize) && v == Heads(ValueRow, 3, g.headSize)
    ensures |SplitEvery(q, 2)| == 3
    ensures var r := Converted(Compact(q, k, v, 2), 2, g, None, 1);
      r.Ok? && !AllServed(Chunk(r.value, 2), 2, 2, g.headSize)
  {
    ConversionServesIffEven(q, k, v, g, 2, 2, None);
  }
}
