/** Cutting rows into pieces of one size, as an even split along the first dimension does. */
module Chunks {
  import opened Basics
  import opened SequenceFacts
  import opened Sequences
  import opened PowersOfTwo

  /** Pieces of the given size; only the last may be shorter. */
  function SplitEvery<T>(rows: seq<T>, size: nat): (pieces: seq<seq<T>>)
    requires size > 0
    ensures |pieces| > 0
  {
    if |rows| <= size then [rows] else [rows[..size]] + SplitEvery(rows[size..], size)
  }

  function CeilDiv(a: nat, b: nat): nat
    requires b > 0
  {
    (a + b - 1) / b
  }

  function Copies<T>(x: T, n: nat): (r: seq<T>)
    ensures |r| == n && forall i | 0 <= i < n :: r[i] == x
  {
    if n == 0 then [] else Copies(x, n - 1) + [x]
  }

  /** At most n pieces of equal size, rounded up; no rows still give n empty pieces. */
  function Chunk<T>(rows: seq<T>, n: nat): seq<seq<T>>
    requires n > 0
  {
    if rows == [] then Copies([], n)
    else
      CeilDivPositive(|rows|, n);
      SplitEvery(rows, CeilDiv(|rows|, n))
  }

  lemma CeilDivBounds(a: nat, b: nat)
    requires b > 0
    ensures a <= b * CeilDiv(a, b) < a + b
  {
    DivBounds(a + b - 1, b);
  }

  lemma CeilDivPositive(a: nat, b: nat)
    requires a > 0 && b > 0
    ensures CeilDiv(a, b) > 0
  {
    CeilDivBounds(a, b);
  }

  lemma CeilDivExact(n: nat, size: nat)
    requires n > 0
    ensures CeilDiv(n * size, n) == size
  {
    DivUnique(n * size + n - 1, n, size);
  }

  // ---------------------------------------------------------------- concatenating pieces

  predicate AllSized<T>(parts: seq<seq<T>>, size: nat) {
    forall i | 0 <= i < |parts| :: |parts[i]| == size
  }

  lemma FlattenCons<T>(part: seq<T>, rest: seq<seq<T>>)
    ensures Flatten([part] + rest) == part + Flatten(rest)
  {
    FlattenConcat([part], rest);
    assert [part][..0] == [];
    EmptyPrefix(part);
  }

  /** Cutting loses and reorders nothing, whatever the size. */
  lemma {:induction false} SplitJoins<T>(rows: seq<T>, size: nat)
    requires size > 0
    ensures Flatten(SplitEvery(rows, size)) == rows
  {
    if |rows| <= size {
      assert [rows][..0] == [];
      EmptyPrefix(rows);
    } else {
      SplitJoins(rows[size..], size);
      FlattenCons(rows[..size], SplitEvery(rows[size..], size));
    }
  }

  lemma {:induction false} FlattenCopies<T>(n: nat)
    ensures Flatten(Copies<seq<T>>([], n)) == []
  {
    if n > 0 {
      FlattenCopies<T>(n - 1);
      FlattenSnoc(Copies<seq<T>>([], n - 1), []);
    }
  }

  lemma ChunkJoins<T>(rows: seq<T>, n: nat)
    requires n > 0
    ensures Flatten(Chunk(rows, n)) == rows
  {
    if rows == [] {
      FlattenCopies<T>(n);
    } else {
      CeilDivPositive(|rows|, n);
      SplitJoins(rows, CeilDiv(|rows|, n));
    }
  }

  lemma {:induction false} FlattenLength<T>(parts: seq<seq<T>>, size: nat)
    requires AllSized(parts, size)
    ensures |Flatten(parts)| == |parts| * size
  {
    if parts != [] {
      FlattenLength(parts[..|parts| - 1], size);
      assert |parts| * size == (|parts| - 1) * size + size;
    }
  }

  /** Cutting equal parts at their own size returns them. */
  lemma {:induction false} SplitOfParts<T>(parts: seq<seq<T>>, size: nat)
    requires size > 0 && parts != [] && AllSized(parts, size)
    ensures SplitEvery(Flatten(parts), size) == parts
  {
    var first, rest := parts[0], parts[1..];
    ConsOf(parts);
    FlattenCons(first, rest);
    if rest == [] {
      EmptySuffix(first);
    } else {
      SplitOfParts(rest, size);
      LongEnough(rest, size);
      var rows := first + Flatten(rest);
      assert rows[..size] == first && rows[size..] == Flatten(rest);
    }
  }

  lemma LongEnough<T>(parts: seq<seq<T>>, size: nat)
    requires parts != [] && AllSized(parts, size)
    ensures |Flatten(parts)| >= size
  {
    assert |parts[|parts| - 1]| == size;
  }

  lemma ChunkOfParts<T>(parts: seq<seq<T>>, size: nat)
    requires size > 0 && parts != [] && AllSized(parts, size)
    ensures Chunk(Flatten(parts), |parts|) == parts
  {
    LongEnough(parts, size);
    FlattenLength(parts, size);
    CeilDivExact(|parts|, size);
    SplitOfParts(parts, size);
  }

  // ---------------------------------------------------------------- pieces of an exact split

  lemma {:induction false} SplitExact<T>(rows: seq<T>, n: nat, size: nat)
    requires size > 0 && n > 0 && |rows| == n * size
    ensures |SplitEvery(rows, size)| == n && AllSized(SplitEvery(rows, size), size)
    decreases n
  {
    assert n * size == (n - 1) * size + size;
    if n > 1 {
      MulMonotone(1, n - 1, size);
      SplitExact(rows[size..], n - 1, size);
    }
  }

  lemma {:induction false} SplitEntry<T>(rows: seq<T>, n: nat, size: nat, i: nat, j: nat)
    requires size > 0 && |rows| == n * size && i < n && j < size
    ensures i < |SplitEvery(rows, size)| && j < |SplitEvery(rows, size)[i]|
    ensures i * size + j < |rows| && SplitEvery(rows, size)[i][j] == rows[i * size + j]
    decreases n
  {
    assert n * size == (n - 1) * size + size;
    SplitExact(rows, n, size);
    if n > 1 {
      MulMonotone(1, n - 1, size);
      if i > 0 {
        SplitEntry(rows[size..], n - 1, size, i - 1, j);
        assert i * size == (i - 1) * size + size;
      }
    }
  }

  // ---------------------------------------------------------------- exactly n pieces

  /** Rows seen as n pieces of one size, which may be zero. */
  function Reshape<T>(rows: seq<T>, n: nat, size: nat): (pieces: seq<seq<T>>)
    requires |rows| == n * size
    ensures |pieces| == n && AllSized(pieces, size)
  {
    if n == 0 || size == 0 then Copies([], n)
    else
      SplitExact(rows, n, size);
      SplitEvery(rows, size)
  }

  lemma ReshapeJoins<T>(rows: seq<T>, n: nat, size: nat)
    requires |rows| == n * size
    ensures Flatten(Reshape(rows, n, size)) == rows
  {
    if n == 0 || size == 0 {
      FlattenCopies<T>(n);
    } else {
      SplitJoins(rows, size);
    }
  }

  lemma ReshapeOfParts<T>(parts: seq<seq<T>>, size: nat)
    requires AllSized(parts, size)
    ensures |Flatten(parts)| == |parts| * size && Reshape(Flatten(parts), |parts|, size) == parts
  {
    FlattenLength(parts, size);
    if parts != [] && size > 0 { SplitOfParts(parts, size); }
  }

  lemma ChunkIsReshape<T>(rows: seq<T>, n: nat, size: nat)
    requires n > 0 && |rows| == n * size
    ensures Chunk(rows, n) == Reshape(rows, n, size)
  {
    if size > 0 {
      MulMonotone(1, n, size);
      CeilDivExact(n, size);
    }
  }

  // ---------------------------------------------------------------- elements of pieces

  lemma {:induction false} FlattenEntry<T>(parts: seq<seq<T>>, size: nat, i: nat, j: nat)
    requires AllSized(parts, size) && i < |parts| && j < size
    ensures i * size + j < |Flatten(parts)| && Flatten(parts)[i * size + j] == parts[i][j]
  {
    var init := parts[..|parts| - 1];
    FlattenLength(init, size);
    if i < |init| { FlattenEntry(init, size, i, j); }
  }

  /** Only the last piece may be shorter, and there are no more pieces than asked for. */
  lemma {:induction false} SplitSizes<T>(rows: seq<T>, size: nat, i: nat)
    requires size > 0 && i < |SplitEvery(rows, size)|
    ensures |SplitEvery(rows, size)[i]| <= size
    ensures i < |SplitEvery(rows, size)| - 1 ==> |SplitEvery(rows, size)[i]| == size
    ensures SplitEvery(rows, size)[i] <= rows || i > 0
    ensures forall x <- SplitEvery(rows, size)[i] :: x in rows
    ensures rows != [] ==> |SplitEvery(rows, size)| * size < |rows| + size
    decreases |rows|
  {
    if |rows| > size {
      var rest := rows[size..];
      var count := |SplitEvery(rest, size)|;
      assert (count + 1) * size == count * size + size;
      SplitSizes(rest, size, if i > 0 then i - 1 else 0);
    }
  }

  lemma ChunkSizes<T>(rows: seq<T>, n: nat, i: nat) returns (size: nat)
    requires rows != [] && n > 0 && i < |Chunk(rows, n)|
    ensures size == CeilDiv(|rows|, n) > 0 && |Chunk(rows, n)| <= n && |Chunk(rows, n)[i]| <= size
    ensures i < |Chunk(rows, n)| - 1 ==> |Chunk(rows, n)[i]| == size
    ensures Chunk(rows, n)[i] <= rows || i > 0
    ensures forall x <- Chunk(rows, n)[i] :: x in rows
  {
    size := CeilDiv(|rows|, n);
    CeilDivPositive(|rows|, n);
    CeilDivBounds(|rows|, n);
    SplitSizes(rows, size, i);
    CountBound(|SplitEvery(rows, size)|, n, size, |rows|);
  }

  lemma CountBound(count: nat, n: nat, size: nat, total: nat)
    requires count * size < total + size && total <= n * size
    ensures count <= n
  {
    assert (n + 1) * size == n * size + size;
    if count > n { MulMonotone(n + 1, count, size); }
  }

  // ---------------------------------------------------------------- pieces of pieces

  /** Every group of parts, concatenated. */
  function Joined<T>(groups: seq<seq<seq<T>>>): (r: seq<seq<T>>)
    ensures |r| == |groups| && forall i | 0 <= i < |groups| :: r[i] == Flatten(groups[i])
  {
    if groups == [] then [] else Joined(groups[..|groups| - 1]) + [Flatten(groups[|groups| - 1])]
  }

  lemma {:induction false} JoinedFlattens<T>(groups: seq<seq<seq<T>>>)
    ensures Flatten(Joined(groups)) == Flatten(Flatten(groups))
  {
    if groups != [] {
      var init, last := groups[..|groups| - 1], groups[|groups| - 1];
      JoinedFlattens(init);
      FlattenSnoc(Joined(init), Flatten(last));
      FlattenConcat(Flatten(init), last);
    }
  }

  lemma SplitSized<T>(heads: seq<seq<T>>, n: nat, width: nat, size: nat, i: nat)
    requires AllSized(heads, size) && i < n && width > 0 && |heads| == n * width
    ensures i < |SplitEvery(heads, width)| && |SplitEvery(heads, width)[i]| == width
    ensures AllSized(SplitEvery(heads, width)[i], size)
  {
    SplitExact(heads, n, width);
    var group := SplitEvery(heads, width)[i];
    forall j | 0 <= j < width ensures |group[j]| == size {
      SplitEntry(heads, n, width, i, j);
    }
  }

  /** An even cut of equal parts falls on part boundaries: each chunk is a whole group of parts. */
  lemma ChunkOfHeads<T>(heads: seq<seq<T>>, n: nat, width: nat, size: nat, rows: nat)
    requires size > 0 && n > 0 && width > 0 && |heads| == n * width && AllSized(heads, size) && rows == width * size
    ensures Chunk(Flatten(heads), n) == Joined(SplitEvery(heads, width))
    ensures |SplitEvery(heads, width)| == n && AllSized(Joined(SplitEvery(heads, width)), rows)
  {
    var groups := SplitEvery(heads, width);
    SplitExact(heads, n, width);
    SplitJoins(heads, width);
    JoinedFlattens(groups);
    forall i | 0 <= i < n ensures |Joined(groups)[i]| == rows {
      SplitSized(heads, n, width, size, i);
      FlattenLength(groups[i], size);
    }
    MulMonotone(1, width, size);
    ChunkOfParts(Joined(groups), rows);
  }

  // ---------------------------------------------------------------- repeating pieces

  function RepeatEach<T>(s: seq<T>, n: nat): seq<T> {
    if s == [] then [] else RepeatEach(s[..|s| - 1], n) + Copies(s[|s| - 1], n)
  }

  lemma {:induction false} RepeatedLength<T>(s: seq<T>, n: nat)
    ensures |RepeatEach(s, n)| == |s| * n
  {
    if s != [] {
      RepeatedLength(s[..|s| - 1], n);
      assert |s| * n == (|s| - 1) * n + n;
    }
  }

  lemma {:induction false} RepeatedAt<T>(s: seq<T>, n: nat, q: nat, r: nat)
    requires q < |s| && r < n
    ensures q * n + r < |RepeatEach(s, n)| && RepeatEach(s, n)[q * n + r] == s[q]
  {
    var k := |s| - 1;
    RepeatedLength(s[..k], n);
    if q < k {
      RepeatedAt(s[..k], n, q, r);
    }
  }
}
