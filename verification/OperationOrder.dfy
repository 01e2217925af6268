/**
 The order in which point-to-point operations are posted: one operation per peer in every
 round, peers ascending, so that operations to different peers interleave while each
 peer's own list keeps its order.
 */
module OperationOrder {
  import opened Basics
  import opened SequenceFacts
  import opened Sequences
  import opened ParamMeta

  // ---------------------------------------------------------------- round robin

  /** The i-th operation of every list that has one. */
  function Row<T>(lists: seq<seq<T>>, i: nat): seq<T> {
    if lists == [] then []
    else
      var init, last := lists[..|lists| - 1], lists[|lists| - 1];
      if i < |last| then Row(init, i) + [last[i]] else Row(init, i)
  }

  /** The rounds from i on. */
  function RoundRobin<T>(lists: seq<seq<T>>, i: nat): seq<T>
    decreases MaxLength(lists) - i
  {
    if i >= MaxLength(lists) then [] else Row(lists, i) + RoundRobin(lists, i + 1)
  }

  /** How many operations the rounds from i on hold. */
  function Remaining<T>(lists: seq<seq<T>>, i: nat): nat {
    if lists == [] then 0
    else
      var last := lists[|lists| - 1];
      Remaining(lists[..|lists| - 1], i) + (if i < |last| then |last| - i else 0)
  }

  lemma {:induction false} RowCounts<T>(lists: seq<seq<T>>, i: nat)
    ensures |Row(lists, i)| + Remaining(lists, i + 1) == Remaining(lists, i)
    ensures Remaining(lists, i) > 0 <==> i < MaxLength(lists)
    ensures i < MaxLength(lists) ==> Row(lists, i) != []
  {
    if lists != [] { RowCounts(lists[..|lists| - 1], i); }
  }

  lemma {:induction false} RemainingIsTotal<T>(lists: seq<seq<T>>)
    ensures Remaining(lists, 0) == |Flatten(lists)|
  {
    if lists != [] { RemainingIsTotal(lists[..|lists| - 1]); }
  }

  // ---------------------------------------------------------------- what the order keeps

  /** Every list holds operations of its own peer only, and the peers differ. */
  ghost predicate OnePeerEach<T>(lists: seq<seq<T>>, peer: T -> int, keys: seq<int>) {
    && |keys| == |lists|
    && (forall i, j | 0 <= i < j < |keys| :: keys[i] != keys[j])
    && forall i, k | 0 <= i < |lists| && 0 <= k < |lists[i]| :: peer(lists[i][k]) == keys[i]
  }

  lemma {:induction false} RowOfPeer<T>(lists: seq<seq<T>>, peer: T -> int, keys: seq<int>, i: nat, p: nat)
    requires OnePeerEach(lists, peer, keys) && p < |keys|
    ensures Filter(HasKey(peer, keys[p]), Row(lists, i)) == if i < |lists[p]| then [lists[p][i]] else []
  {
    var k := |lists| - 1;
    var init, last := lists[..k], lists[k];
    var before := Row(init, i);
    assert OnePeerEach(init, peer, keys[..k]);
    if i < |last| {
      FilterConcat(HasKey(peer, keys[p]), before, [last[i]]);
      FilterOne(HasKey(peer, keys[p]), last[i]);
    }
    if p < k {
      RowOfPeer(init, peer, keys[..k], i, p);
      EmptySuffix(Filter(HasKey(peer, keys[p]), before));
    } else {
      RowOfOthers(init, peer, keys[..k], i, keys[p]);
      EmptyPrefix(Filter(HasKey(peer, keys[p]), if i < |last| then [last[i]] else []));
    }
  }

  lemma {:induction false} RowOfOthers<T>(lists: seq<seq<T>>, peer: T -> int, keys: seq<int>, i: nat, key: int)
    requires OnePeerEach(lists, peer, keys) && key !in keys
    ensures Filter(HasKey(peer, key), Row(lists, i)) == []
  {
    if lists != [] {
      var k := |lists| - 1;
      assert OnePeerEach(lists[..k], peer, keys[..k]);
      RowOfOthers(lists[..k], peer, keys[..k], i, key);
      if i < |lists[k]| {
        assert peer(lists[k][i]) == keys[k];
        FilterConcat(HasKey(peer, key), Row(lists[..k], i), [lists[k][i]]);
        FilterOne(HasKey(peer, key), lists[k][i]);
      }
    }
  }

  lemma {:induction false} RoundsOfPeer<T>(lists: seq<seq<T>>, peer: T -> int, keys: seq<int>, i: nat, p: nat)
    requires OnePeerEach(lists, peer, keys) && p < |keys|
    ensures Filter(HasKey(peer, keys[p]), RoundRobin(lists, i))
         == Range(lists[p], Min(i, |lists[p]|), |lists[p]|)
    decreases MaxLength(lists) - i
  {
    LongestBounds(lists, p);
    if i < MaxLength(lists) {
      RoundsOfPeer(lists, peer, keys, i + 1, p);
      RowOfPeer(lists, peer, keys, i, p);
      FilterConcat(HasKey(peer, keys[p]), Row(lists, i), RoundRobin(lists, i + 1));
      RestOfList(lists[p], i);
    }
  }

  lemma RestOfList<T>(list: seq<T>, i: nat)
    ensures Range(list, Min(i, |list|), |list|)
         == (if i < |list| then [list[i]] else []) + Range(list, Min(i + 1, |list|), |list|)
  {
  }

  /** The round robin keeps every peer's own list, in order, and posts each operation once. */
  lemma RoundRobinKeepsOrder<T>(lists: seq<seq<T>>, peer: T -> int, keys: seq<int>, p: nat)
    requires OnePeerEach(lists, peer, keys) && p < |keys|
    ensures Filter(HasKey(peer, keys[p]), RoundRobin(lists, 0)) == lists[p]
  {
    RoundsOfPeer(lists, peer, keys, 0, p);
    RangeAll(lists[p]);
  }

  lemma {:induction false} RoundRobinLength<T>(lists: seq<seq<T>>, i: nat)
    ensures |RoundRobin(lists, i)| == Remaining(lists, i)
    decreases MaxLength(lists) - i
  {
    RowCounts(lists, i);
    if i < MaxLength(lists) { RoundRobinLength(lists, i + 1); }
  }

  // ---------------------------------------------------------------- interleaving

  function Buckets<T>(ops: seq<T>, peer: T -> int): seq<seq<T>> {
    Groups(ops, peer, SortedKeys(ops, peer))
  }

  /** One pass over all peers, taking the operation at each peer's progress if it has one. */
  /** The first p buckets are i + 1 operations in, the others i, or at their end. */
  ghost predicate BetweenRounds<T>(buckets: seq<seq<T>>, progress: seq<nat>, i: nat, p: nat) {
    |progress| == |buckets|
    && forall q | 0 <= q < |buckets| :: progress[q] == Min(if q < p then i + 1 else i, |buckets[q]|)
  }

  method TakeRow<T>(buckets: seq<seq<T>>, ghost i: nat, progress: seq<nat>, remaining: nat)
    returns (row: seq<T>, advanced: seq<nat>, left: nat)
    requires AtRound(buckets, progress, i) && remaining == Remaining(buckets, i)
    ensures row == Row(buckets, i) && left == Remaining(buckets, i + 1) && AtRound(buckets, advanced, i + 1)
  {
    row, advanced, left := [], progress, remaining;
    for p := 0 to |buckets|
      invariant row == Row(buckets[..p], i) && left + |row| == remaining
      invariant BetweenRounds(buckets, advanced, i, p)
    {
      TakeInit(buckets, p);
      RowShorter(buckets, i, p);
      var idx := advanced[p];
      if idx >= |buckets[p]| {
        continue;
      }
      row := row + [buckets[p][idx]];
      advanced := advanced[p := idx + 1];
      left := left - 1;
    }
    TakeAll(buckets);
    RowCounts(buckets, i);
  }

  lemma {:induction false} RowShorter<T>(lists: seq<seq<T>>, i: nat, p: nat)
    requires p < |lists|
    ensures |Row(lists[..p], i)| + (if i < |lists[p]| then 1 else 0) <= |Row(lists, i)| <= Remaining(lists, i)
    decreases |lists|
  {
    RowCounts(lists, i);
    var k := |lists| - 1;
    if p < k {
      RowShorter(lists[..k], i, p);
      assert lists[..k][..p] == lists[..p];
    }
  }

  /** Groups operations by peer and posts them round robin. */
  method InterleaveByPeer<T>(ops: seq<T>, peer: T -> int) returns (interleaved: seq<T>)
    ensures interleaved == RoundRobin(Buckets(ops, peer), 0)
  {
    interleaved := [];
    if ops == [] {
      return;
    }
    var buckets := Buckets(ops, peer);
    var progress := seq(|buckets|, _ => 0);
    var remaining := |Flatten(buckets)|;
    RemainingIsTotal(buckets);
    ghost var i: nat := 0;
    PostedNone(buckets);
    while remaining > 0
      invariant remaining == Remaining(buckets, i) && AtRound(buckets, progress, i)
      invariant PostedTo(buckets, interleaved, i)
      decreases remaining
    {
      var row, advanced, left := TakeRow(buckets, i, progress, remaining);
      PostedNext(buckets, interleaved, i, row);
      interleaved := interleaved + row;
      progress, remaining := advanced, left;
      i := i + 1;
    }
    PostedAll(buckets, interleaved, i);
  }

  /** Every bucket is i operations in, or at its end. */
  ghost predicate AtRound<T>(buckets: seq<seq<T>>, progress: seq<nat>, i: nat) {
    |progress| == |buckets| && forall p | 0 <= p < |buckets| :: progress[p] == Min(i, |buckets[p]|)
  }

  /** The first i rounds are posted. */
  ghost predicate PostedTo<T>(buckets: seq<seq<T>>, posted: seq<T>, i: nat) {
    posted + RoundRobin(buckets, i) == RoundRobin(buckets, 0)
  }

  lemma PostedNone<T>(buckets: seq<seq<T>>)
    ensures PostedTo(buckets, [], 0)
  {
    EmptyPrefix(RoundRobin(buckets, 0));
  }

  lemma PostedNext<T>(buckets: seq<seq<T>>, posted: seq<T>, i: nat, row: seq<T>)
    requires PostedTo(buckets, posted, i) && row == Row(buckets, i) && Remaining(buckets, i) > 0
    ensures PostedTo(buckets, posted + row, i + 1) && Remaining(buckets, i + 1) < Remaining(buckets, i)
  {
    RowCounts(buckets, i);
    Associate(posted, row, RoundRobin(buckets, i + 1));
  }

  lemma PostedAll<T>(buckets: seq<seq<T>>, posted: seq<T>, i: nat)
    requires PostedTo(buckets, posted, i) && Remaining(buckets, i) == 0
    ensures posted == RoundRobin(buckets, 0)
  {
    RowCounts(buckets, i);
    EmptySuffix(posted);
  }

  lemma {:induction false} GroupKeys<T>(ops: seq<T>, peer: T -> int, key: int)
    ensures forall k | 0 <= k < |Filter(HasKey(peer, key), ops)| :: peer(Filter(HasKey(peer, key), ops)[k]) == key
  {
    if ops != [] { GroupKeys(ops[1..], peer, key); }
  }

  lemma BucketsByPeer<T>(ops: seq<T>, peer: T -> int, keys: seq<int>, p: nat)
    requires p < |keys| && forall i, j | 0 <= i < j < |keys| :: keys[i] != keys[j]
    ensures OnePeerEach(Groups(ops, peer, keys), peer, keys)
    ensures Groups(ops, peer, keys)[p] == Filter(HasKey(peer, keys[p]), ops)
  {
    GroupsByIndex(ops, peer, keys);
    forall i, k | 0 <= i < |keys| && 0 <= k < |Groups(ops, peer, keys)[i]|
      ensures peer(Groups(ops, peer, keys)[i][k]) == keys[i]
    {
      GroupKeys(ops, peer, keys[i]);
    }
  }

  /** Interleaving changes no peer's order: towards each peer the operations stay as they were listed. */
  lemma InterleavingKeepsOrder<T>(ops: seq<T>, peer: T -> int, op: T)
    requires op in ops
    ensures Filter(HasKey(peer, peer(op)), RoundRobin(Buckets(ops, peer), 0)) == Filter(HasKey(peer, peer(op)), ops)
  {
    var keys := SortedKeys(ops, peer);
    SortedKeysAreKeys(ops, peer);
    var p :| 0 <= p < |keys| && keys[p] == peer(op);
    BucketsByPeer(ops, peer, keys, p);
    RoundRobinKeepsOrder(Buckets(ops, peer), peer, keys, p);
  }

  // ---------------------------------------------------------------- building the operation lists

  /** The lists that still need a pass: a list is dropped in the pass after its last operation. */
  function Unfinished<T>(lists: seq<seq<T>>, i: nat): seq<nat> {
    if lists == [] then []
    else
      var k := |lists| - 1;
      if i <= |lists[k]| then Unfinished(lists[..k], i) + [k] else Unfinished(lists[..k], i)
  }

  /** The lists without the one that is copied locally. */
  function Remote<T>(lists: seq<seq<T>>, copy: Option<nat>): seq<seq<T>> {
    seq(|lists|, k requires 0 <= k < |lists| => if copy == Some(k) then [] else lists[k])
  }

  /** What a pass over the listed lists appends: their i-th operations, but for the copied list. */
  function Pass<T>(lists: seq<seq<T>>, which: seq<nat>, i: nat, copy: Option<nat>, copied: bool): seq<T>
    requires forall j | 0 <= j < |which| :: which[j] < |lists|
  {
    if which == [] then []
    else
      var k := which[|which| - 1];
      var before := Pass(lists, which[..|which| - 1], i, copy, copied);
      if i < |lists[k]| && (copy == Some(k) <==> copied) then before + [lists[k][i]] else before
  }

  lemma {:induction false} UnfinishedInside<T>(lists: seq<seq<T>>, i: nat)
    ensures forall j | 0 <= j < |Unfinished(lists, i)| :: Unfinished(lists, i)[j] < |lists|
    ensures forall j | 0 <= j < |Unfinished(lists, i)| :: i <= |lists[Unfinished(lists, i)[j]]|
  {
    if lists != [] { UnfinishedInside(lists[..|lists| - 1], i); }
  }

  lemma {:induction false} PassPrefix<T>(
    lists: seq<seq<T>>, more: seq<T>, which: seq<nat>, i: nat, copy: Option<nat>, copied: bool)
    requires forall j | 0 <= j < |which| :: which[j] < |lists|
    ensures Pass(lists + [more], which, i, copy, copied) == Pass(lists, which, i, copy, copied)
  {
    if which != [] { PassPrefix(lists, more, which[..|which| - 1], i, copy, copied); }
  }

  /** A pass over the unfinished lists is one row of the remote lists. */
  lemma {:induction false} PassIsRow<T>(lists: seq<seq<T>>, i: nat, copy: Option<nat>)
    ensures forall j | 0 <= j < |Unfinished(lists, i)| :: Unfinished(lists, i)[j] < |lists|
    ensures Pass(lists, Unfinished(lists, i), i, copy, false) == Row(Remote(lists, copy), i)
  {
    UnfinishedInside(lists, i);
    if lists != [] {
      var k := |lists| - 1;
      PassIsRow(lists[..k], i, copy);
      LastPass(lists, i, copy, false);
      assert Remote(lists, copy)[..k] == Remote(lists[..k], copy);
    }
  }

  lemma {:induction false} CopyPass<T>(lists: seq<seq<T>>, i: nat, copy: nat)
    ensures forall j | 0 <= j < |Unfinished(lists, i)| :: Unfinished(lists, i)[j] < |lists|
    ensures Pass(lists, Unfinished(lists, i), i, Some(copy), true)
         == if copy < |lists| && i < |lists[copy]| then [lists[copy][i]] else []
  {
    UnfinishedInside(lists, i);
    if lists != [] {
      var k := |lists| - 1;
      var init, last := lists[..k], lists[k];
      CopyPass(init, i, copy);
      LastPass(lists, i, Some(copy), true);
      assert copy < k ==> init[copy] == lists[copy];
    }
  }

  /** What the last list adds to a pass. */
  lemma LastPass<T>(lists: seq<seq<T>>, i: nat, copy: Option<nat>, copied: bool)
    requires lists != []
    ensures forall j | 0 <= j < |Unfinished(lists, i)| :: Unfinished(lists, i)[j] < |lists|
    ensures var k := |lists| - 1;
      && (forall j | 0 <= j < |Unfinished(lists[..k], i)| :: Unfinished(lists[..k], i)[j] < k)
      && Pass(lists, Unfinished(lists, i), i, copy, copied)
         == Pass(lists[..k], Unfinished(lists[..k], i), i, copy, copied)
            + (if i < |lists[k]| && (copy == Some(k) <==> copied) then [lists[k][i]] else [])
  {
    var k := |lists| - 1;
    var init, last := lists[..k], lists[k];
    UnfinishedInside(lists, i);
    UnfinishedInside(init, i);
    SnocOf(lists);
    PassPrefix(init, last, Unfinished(init, i), i, copy, copied);
    if i <= |last| { SnocParts(Unfinished(init, i), k); }
    EmptySuffix(Pass(init, Unfinished(init, i), i, copy, copied));
  }

  lemma {:induction false} NoCopyPass<T>(lists: seq<seq<T>>, which: seq<nat>, i: nat)
    requires forall j | 0 <= j < |which| :: which[j] < |lists|
    ensures Pass(lists, which, i, None, true) == []
  {
    if which != [] { NoCopyPass(lists, which[..|which| - 1], i); }
  }

  lemma {:induction false} UnfinishedEnds<T>(lists: seq<seq<T>>, i: nat)
    ensures Unfinished(lists, i) == [] ==> i >= MaxLength(lists)
    ensures i > MaxLength(lists) ==> Unfinished(lists, i) == []
    ensures MaxLength(Remote(lists, None)) == MaxLength(lists)
  {
    if lists != [] {
      UnfinishedEnds(lists[..|lists| - 1], i);
      assert Remote(lists, None)[..|lists| - 1] == Remote(lists[..|lists| - 1], None);
    }
  }

  lemma {:induction false} RemoteIsShorter<T>(lists: seq<seq<T>>, copy: Option<nat>)
    ensures MaxLength(Remote(lists, copy)) <= MaxLength(lists)
  {
    if lists != [] {
      RemoteIsShorter(lists[..|lists| - 1], copy);
      assert Remote(lists, copy)[..|lists| - 1] == Remote(lists[..|lists| - 1], copy);
    }
  }

  lemma {:induction false} UnfinishedShrinks<T>(lists: seq<seq<T>>, i: nat)
    ensures Unfinished(lists, i + 1) == Filter(StillHas(lists, i), Unfinished(lists, i))
  {
    if lists != [] {
      var k := |lists| - 1;
      var init := lists[..k];
      UnfinishedShrinks(init, i);
      UnfinishedInside(init, i);
      SameFilter(init, lists, i, Unfinished(init, i));
      if i <= |lists[k]| {
        FilterConcat<nat>(StillHas(lists, i), Unfinished(init, i), [k]);
        FilterOne<nat>(StillHas(lists, i), k);
      }
      EmptySuffix(Filter(StillHas(lists, i), Unfinished(init, i)));
    }
  }

  /** The list has an i-th operation. */
  function StillHas<T>(lists: seq<seq<T>>, i: nat): nat -> bool {
    (k: nat) => k < |lists| && i < |lists[k]|
  }

  lemma {:induction false} SameFilter<T>(some: seq<seq<T>>, all: seq<seq<T>>, i: nat, which: seq<nat>)
    requires some <= all && forall j | 0 <= j < |which| :: which[j] < |some|
    ensures Filter(StillHas(some, i), which) == Filter(StillHas(all, i), which)
  {
    if which != [] { SameFilter(some, all, i, which[1..]); }
  }

  /** One pass over the unfinished lists. */
  method TakePass<T>(lists: seq<seq<T>>, unfinished: seq<nat>, i: nat, copy: Option<nat>)
    returns (p2p: seq<T>, copies: seq<T>)
    requires forall j | 0 <= j < |unfinished| :: unfinished[j] < |lists|
    ensures p2p == Pass(lists, unfinished, i, copy, false) && copies == Pass(lists, unfinished, i, copy, true)
  {
    p2p, copies := [], [];
    for j := 0 to |unfinished|
      invariant p2p == Pass(lists, unfinished[..j], i, copy, false)
      invariant copies == Pass(lists, unfinished[..j], i, copy, true)
    {
      TakeInit(unfinished, j);
      var k := unfinished[j];
      if i < |lists[k]| {
        if copy == Some(k) {
          copies := copies + [lists[k][i]];
        } else {
          p2p := p2p + [lists[k][i]];
        }
      }
    }
    TakeAll(unfinished);
  }

  /**
   Builds the point-to-point and copy lists of a plan whose lists are given in ascending
   peer order: a round robin over the remote lists, and the local list on its own.
   */
  method BuildOps<T>(lists: seq<seq<T>>, copy: Option<nat>) returns (p2p: seq<T>, copies: seq<T>)
    ensures p2p == RoundRobin(Remote(lists, copy), 0)
    ensures copies == LocalList(lists, copy)
  {
    p2p, copies := [], [];
    var unfinished, i := Unfinished(lists, 0), 0;
    EmptyPrefix(RoundRobin(Remote(lists, copy), 0));
    while unfinished != []
      invariant unfinished == Unfinished(lists, i) && i <= MaxLength(lists) + 1
      invariant Built(lists, copy, i, p2p, copies)
      decreases MaxLength(lists) + 1 - i
    {
      UnfinishedEnds(lists, i);
      UnfinishedInside(lists, i);
      var row, own := TakePass(lists, unfinished, i, copy);
      BuildStep(lists, copy, i, p2p, copies);
      UnfinishedShrinks(lists, i);
      unfinished := Filter(StillHas(lists, i), unfinished);
      p2p, copies := p2p + row, copies + own;
      i := i + 1;
    }
    BuildEnd(lists, copy, i, p2p, copies);
  }

  function LocalList<T>(lists: seq<seq<T>>, copy: Option<nat>): seq<T> {
    if copy.Some? && copy.value < |lists| then lists[copy.value] else []
  }

  /** The first i passes are built. */
  ghost predicate Built<T>(lists: seq<seq<T>>, copy: Option<nat>, i: nat, p2p: seq<T>, copies: seq<T>) {
    && p2p + RoundRobin(Remote(lists, copy), i) == RoundRobin(Remote(lists, copy), 0)
    && copies == Range(LocalList(lists, copy), 0, Min(i, |LocalList(lists, copy)|))
  }

  lemma BuildStep<T>(lists: seq<seq<T>>, copy: Option<nat>, i: nat, p2p: seq<T>, copies: seq<T>)
    requires Built(lists, copy, i, p2p, copies)
    requires forall j | 0 <= j < |Unfinished(lists, i)| :: Unfinished(lists, i)[j] < |lists|
    ensures Built(
      lists, copy, i + 1, p2p + Pass(lists, Unfinished(lists, i), i, copy, false),
      copies + Pass(lists, Unfinished(lists, i), i, copy, true))
  {
    PassIsRow(lists, i, copy);
    NextRow(Remote(lists, copy), i, p2p);
    NextCopy(lists, i, copy, Pass(lists, Unfinished(lists, i), i, copy, true), LocalList(lists, copy));
  }

  lemma BuildEnd<T>(lists: seq<seq<T>>, copy: Option<nat>, i: nat, p2p: seq<T>, copies: seq<T>)
    requires Built(lists, copy, i, p2p, copies) && Unfinished(lists, i) == []
    ensures p2p == RoundRobin(Remote(lists, copy), 0) && copies == LocalList(lists, copy)
  {
    UnfinishedEnds(lists, i);
    RemoteIsShorter(lists, copy);
    EmptySuffix(p2p);
    RangeAll(LocalList(lists, copy));
    if copy.Some? && copy.value < |lists| { LongestBounds(lists, copy.value); }
  }

  lemma NextRow<T>(lists: seq<seq<T>>, i: nat, before: seq<T>)
    ensures before + Row(lists, i) + RoundRobin(lists, i + 1) == before + RoundRobin(lists, i)
  {
    RowCounts(lists, i);
    if i < MaxLength(lists) {
      Associate(before, Row(lists, i), RoundRobin(lists, i + 1));
    } else {
      assert Row(lists, i) == [];
      EmptySuffix(before);
    }
  }

  lemma NextCopy<T>(lists: seq<seq<T>>, i: nat, copy: Option<nat>, own: seq<T>, local: seq<T>)
    requires forall j | 0 <= j < |Unfinished(lists, i)| :: Unfinished(lists, i)[j] < |lists|
    requires own == Pass(lists, Unfinished(lists, i), i, copy, true)
    requires local == LocalList(lists, copy)
    ensures Range(local, 0, Min(i, |local|)) + own == Range(local, 0, Min(i + 1, |local|))
  {
    if copy.Some? {
      CopyPass(lists, i, copy.value);
    } else {
      NoCopyPass(lists, Unfinished(lists, i), i);
    }
  }
}
