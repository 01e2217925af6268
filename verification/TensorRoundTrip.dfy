/**
 Reading grouped tensors back: the list returns in order unless the tensors of some element type
 end in empty ones that share a group with no element, and then reconstruction fails.
 */
module TensorRoundTrip {
  import opened Basics
  import opened SequenceFacts
  import opened Sequences
  import opened TensorGroups

  // ---------------------------------------------------------------- what the groups hold

  /** The entry names a tensor by its position. */
  predicate Holds<S(==), E(==)>(e: Entry<S, E>, tensors: seq<Tensor<S, E>>) {
    e.index < |tensors| && tensors[e.index] == e.tensor
  }

  lemma {:induction false} EntriesHold<S, E>(tensors: seq<Tensor<S, E>>, dtype: nat)
    ensures forall e <- EntriesOf(tensors, dtype) :: Holds(e, tensors) && e.tensor.dtype == dtype
  {
    if tensors != [] {
      var k := |tensors| - 1;
      EntriesHold(tensors[..k], dtype);
    }
  }

  lemma {:induction false} EntriesCover<S, E>(tensors: seq<Tensor<S, E>>, i: nat)
    requires i < |tensors|
    ensures Entry(i, tensors[i]) in EntriesOf(tensors, tensors[i].dtype)
  {
    var k := |tensors| - 1;
    if i < k { EntriesCover(tensors[..k], i); }
  }

  lemma {:induction false} KeysCover<S, E>(tensors: seq<Tensor<S, E>>, i: nat)
    requires i < |tensors|
    ensures tensors[i].dtype in Keys(tensors)
  {
    var k := |tensors| - 1;
    if i < k { KeysCover(tensors[..k], i); }
  }

  lemma {:induction false} KeysAppear<S, E>(tensors: seq<Tensor<S, E>>, dtype: nat)
    requires dtype in Keys(tensors)
    ensures EntriesOf(tensors, dtype) != []
  {
    var k := |tensors| - 1;
    if dtype in Keys(tensors[..k]) { KeysAppear(tensors[..k], dtype); }
  }

  /** A bounded group of one element type whose entries name their tensors. */
  ghost predicate Sane<S, E>(group: seq<Entry<S, E>>, tensors: seq<Tensor<S, E>>, width: nat -> nat, limit: nat) {
    && Bounded(group, width, limit)
    && forall e <- group :: Holds(e, tensors) && e.tensor.dtype == group[0].tensor.dtype
  }

  lemma GroupsOfSane<S, E>(tensors: seq<Tensor<S, E>>, dtype: nat, width: nat -> nat, limit: nat)
    ensures forall group <- GroupsOf(EntriesOf(tensors, dtype), width, limit) :: Sane(group, tensors, width, limit)
  {
    var entries := EntriesOf(tensors, dtype);
    var groups := GroupsOf(entries, width, limit);
    EntriesHold(tensors, dtype);
    GroupsOfFacts(entries, width, limit);
    forall group | group in groups ensures Sane(group, tensors, width, limit) {
      var g :| 0 <= g < |groups| && groups[g] == group;
      forall e | e in group ensures Holds(e, tensors) && e.tensor.dtype == dtype {
        FlattenMembers(groups, e);
        assert e in groups[g];
      }
      assert group[0] in group;
    }
  }

  /** The groups, by element type. */
  function PerType<S, E>(tensors: seq<Tensor<S, E>>, k: nat, width: nat -> nat, limit: nat)
    : (r: seq<seq<seq<Entry<S, E>>>>)
    requires k <= |Keys(tensors)|
    ensures |r| == k
    ensures forall j | 0 <= j < k :: r[j] == GroupsOf(EntriesOf(tensors, Keys(tensors)[j]), width, limit)
  {
    if k == 0 then []
    else PerType(tensors, k - 1, width, limit) + [GroupsOf(EntriesOf(tensors, Keys(tensors)[k - 1]), width, limit)]
  }

  lemma {:induction false} AllGroupsByType<S, E>(tensors: seq<Tensor<S, E>>, k: nat, width: nat -> nat, limit: nat)
    requires k <= |Keys(tensors)|
    ensures AllGroups(tensors, k, width, limit) == Flatten(PerType(tensors, k, width, limit))
  {
    if k > 0 {
      AllGroupsByType(tensors, k - 1, width, limit);
      FlattenSnoc(
        PerType(tensors, k - 1, width, limit), GroupsOf(EntriesOf(tensors, Keys(tensors)[k - 1]), width, limit));
    }
  }

  /** A group is a group of some element type. */
  lemma GroupHasType<S, E>(
    tensors: seq<Tensor<S, E>>, k: nat, width: nat -> nat, limit: nat, group: seq<Entry<S, E>>) returns (j: nat)
    requires k <= |Keys(tensors)| && group in AllGroups(tensors, k, width, limit)
    ensures j < k && group in GroupsOf(EntriesOf(tensors, Keys(tensors)[j]), width, limit)
  {
    var parts := PerType(tensors, k, width, limit);
    AllGroupsByType(tensors, k, width, limit);
    FlattenMembers(parts, group);
    j :| 0 <= j < |parts| && group in parts[j];
  }

  lemma TypeHasGroup<S, E>(
    tensors: seq<Tensor<S, E>>, k: nat, width: nat -> nat, limit: nat, group: seq<Entry<S, E>>, j: nat)
    requires j < k <= |Keys(tensors)| && group in GroupsOf(EntriesOf(tensors, Keys(tensors)[j]), width, limit)
    ensures group in AllGroups(tensors, k, width, limit)
  {
    var parts := PerType(tensors, k, width, limit);
    AllGroupsByType(tensors, k, width, limit);
    assert group in parts[j];
    FlattenMembers(parts, group);
  }

  /** Every group of every element type is within its bound and holds tensors of one type. */
  lemma GroupsAreSane<S, E>(
    tensors: seq<Tensor<S, E>>, k: nat, width: nat -> nat, limit: nat, group: seq<Entry<S, E>>)
    requires k <= |Keys(tensors)| && group in AllGroups(tensors, k, width, limit)
    ensures Sane(group, tensors, width, limit)
  {
    var j := GroupHasType(tensors, k, width, limit, group);
    GroupsOfSane(tensors, Keys(tensors)[j], width, limit);
  }

  /** Every tensor is in a group. */
  lemma GroupsCover<S, E>(tensors: seq<Tensor<S, E>>, i: nat, width: nat -> nat, limit: nat)
    returns (group: seq<Entry<S, E>>)
    requires i < |tensors|
    ensures group in AllGroups(tensors, |Keys(tensors)|, width, limit) && Entry(i, tensors[i]) in group
  {
    KeysCover(tensors, i);
    var j :| 0 <= j < |Keys(tensors)| && Keys(tensors)[j] == tensors[i].dtype;
    var entries := EntriesOf(tensors, tensors[i].dtype);
    var groups := GroupsOf(entries, width, limit);
    EntriesCover(tensors, i);
    GroupsOfFacts(entries, width, limit);
    FlattenMembers(groups, Entry(i, tensors[i]));
    var g :| 0 <= g < |groups| && Entry(i, tensors[i]) in groups[g];
    group := groups[g];
    TypeHasGroup(tensors, |Keys(tensors)|, width, limit, group, j);
  }

  // ---------------------------------------------------------------- what the records say

  lemma {:induction false} MetaAt<S, E>(group: seq<Entry<S, E>>, g: nat, j: nat)
    requires j < |group|
    ensures |MetaOf(group, g)| == |group|
    ensures var t := group[j].tensor;
      MetaOf(group, g)[j] == Meta(group[j].index, t.shape, t.dtype, g, |DataOf(group[..j])|, |t.data|)
  {
    var k := |group| - 1;
    MetaLength(group[..k], g);
    if j < k {
      MetaAt(group[..k], g, j);
      assert group[..k][..j] == group[..j];
    }
  }

  lemma {:induction false} MetaLength<S, E>(group: seq<Entry<S, E>>, g: nat)
    ensures |MetaOf(group, g)| == |group|
  {
    if group != [] { MetaLength(group[..|group| - 1], g); }
  }

  lemma {:induction false} MetaGroup<S, E>(group: seq<Entry<S, E>>, g: nat)
    ensures forall m <- MetaOf(group, g) :: m.group == g
  {
    if group != [] { MetaGroup(group[..|group| - 1], g); }
  }

  /** The range a record names holds its tensor's elements. */
  lemma {:induction false} DataSlice<S, E>(group: seq<Entry<S, E>>, j: nat, lo: nat, hi: nat)
    requires j < |group| && lo == |DataOf(group[..j])| && hi == lo + |group[j].tensor.data|
    ensures hi <= |DataOf(group)| && Range(DataOf(group), lo, hi) == group[j].tensor.data
  {
    var k := |group| - 1;
    var before, last := DataOf(group[..k]), group[k].tensor.data;
    if j < k {
      assert group[..k][..j] == group[..j];
      DataSlice(group[..k], j, lo, hi);
      assert Range(before + last, lo, hi) == Range(before, lo, hi);
    } else {
      assert Range(before + last, lo, hi) == last;
    }
  }

  /** The records of one group are found together. */
  lemma {:induction false} ItemsOfGroup<S, E>(groups: seq<seq<Entry<S, E>>>, g: nat)
    ensures ItemsOf(AllMeta(groups), g) == if g < |groups| then MetaOf(groups[g], g) else []
  {
    if groups != [] {
      var k := |groups| - 1;
      var hit := (m: Meta<S>) => m.group == g;
      ItemsOfGroup(groups[..k], g);
      FilterConcat(hit, AllMeta(groups[..k]), MetaOf(groups[k], k));
      MetaGroup(groups[k], k);
      if g == k {
        FilterAll(hit, MetaOf(groups[k], k));
        EmptyPrefix(MetaOf(groups[k], k));
      } else {
        FilterNone(hit, MetaOf(groups[k], k));
        EmptySuffix(ItemsOf(AllMeta(groups[..k]), g));
      }
    }
  }

  lemma {:induction false} SlotsAtMost<S>(metadata: seq<Meta<S>>, n: nat)
    requires Inside(metadata, n)
    ensures Slots(metadata) <= n
  {
    if metadata != [] { SlotsAtMost(metadata[..|metadata| - 1], n); }
  }

  lemma {:induction false} MetaInside<S, E>(
    groups: seq<seq<Entry<S, E>>>, tensors: seq<Tensor<S, E>>, width: nat -> nat, limit: nat)
    requires forall g | 0 <= g < |groups| :: Sane(groups[g], tensors, width, limit)
    ensures Inside(AllMeta(groups), |tensors|)
  {
    if groups != [] {
      var k := |groups| - 1;
      MetaInside(groups[..k], tensors, width, limit);
      var before, last := AllMeta(groups[..k]), MetaOf(groups[k], k);
      MetaLength(groups[k], k);
      forall j | 0 <= j < |last| ensures last[j].index < |tensors| {
        MetaAt(groups[k], k, j);
        assert groups[k][j] in groups[k];
      }
    }
  }

  lemma {:induction false} SlotsReach<S, E>(groups: seq<seq<Entry<S, E>>>, g: nat, j: nat)
    requires g < |groups| && j < |groups[g]|
    ensures groups[g][j].index < Slots(AllMeta(groups))
  {
    MetaAt(groups[g], g, j);
    ItemsOfGroup(groups, g);
    ItemsInside(AllMeta(groups), g);
  }

  // ---------------------------------------------------------------- writing the groups back

  /** Every filled position holds the tensor of that position. */
  ghost predicate Correct<S, E>(result: seq<Option<Tensor<S, E>>>, tensors: seq<Tensor<S, E>>) {
    && |result| == |tensors|
    && forall i | 0 <= i < |tensors| :: result[i] == None || result[i] == Some(tensors[i])
  }

  /** What was filled before is filled after. */
  ghost predicate Extends<S, E>(before: seq<Option<Tensor<S, E>>>, after: seq<Option<Tensor<S, E>>>) {
    |before| == |after| && forall i | 0 <= i < |before| :: before[i].Some? ==> after[i].Some?
  }

  ghost predicate Filled<S, E>(result: seq<Option<Tensor<S, E>>>, group: seq<Entry<S, E>>) {
    forall e <- group :: e.index < |result| && result[e.index].Some?
  }

  /** Item j of a group writes the tensor of entry j. */
  lemma WritesEntry<S, E>(
    group: seq<Entry<S, E>>, g: nat, j: nat, tensors: seq<Tensor<S, E>>, width: nat -> nat, limit: nat)
    requires Sane(group, tensors, width, limit) && j < |group|
    ensures |MetaOf(group, g)| == |group|
    ensures var m := MetaOf(group, g)[j];
      && m.index == group[j].index < |tensors| && m.offset + m.size <= |DataOf(group)|
      && Tensor(FlatOf(group).dtype, m.shape, Range(DataOf(group), m.offset, m.offset + m.size)) == tensors[m.index]
  {
    MetaAt(group, g, j);
    var m := MetaOf(group, g)[j];
    DataSlice(group, j, m.offset, m.offset + m.size);
    assert group[j] in group;
  }

  lemma {:induction false} WritesGroup<S, E>(
    result: seq<Option<Tensor<S, E>>>, group: seq<Entry<S, E>>, g: nat, k: nat, tensors: seq<Tensor<S, E>>,
    width: nat -> nat, limit: nat)
    returns (r: seq<Option<Tensor<S, E>>>)
    requires Sane(group, tensors, width, limit) && Correct(result, tensors) && k <= |group|
    ensures |MetaOf(group, g)| == |group| && Inside(MetaOf(group, g), |result|)
    ensures Written(result, MetaOf(group, g), k, FlatOf(group)) == Ok(r)
    ensures Correct(r, tensors) && Extends(result, r) && Filled(r, group[..k])
  {
    MetaLength(group, g);
    forall j | 0 <= j < |group| ensures MetaOf(group, g)[j].index < |result| {
      WritesEntry(group, g, j, tensors, width, limit);
    }
    if k == 0 {
      r := result;
    } else {
      var before := WritesGroup(result, group, g, k - 1, tensors, width, limit);
      WritesEntry(group, g, k - 1, tensors, width, limit);
      TakeNext(group, k - 1);
      var i := group[k - 1].index;
      r := before[i := Some(tensors[i])];
    }
  }

  ghost predicate AllFilled<S, E>(
    result: seq<Option<Tensor<S, E>>>, groups: seq<seq<Entry<S, E>>>, k: nat)
    requires k <= |groups|
  {
    forall g | 0 <= g < k :: Filled(result, groups[g])
  }

  lemma FilledNext<S, E>(
    before: seq<Option<Tensor<S, E>>>, after: seq<Option<Tensor<S, E>>>, groups: seq<seq<Entry<S, E>>>, k: nat)
    requires 0 < k <= |groups| && AllFilled(before, groups, k - 1)
    requires Extends(before, after) && Filled(after, groups[k - 1])
    ensures AllFilled(after, groups, k)
  {
    forall g | 0 <= g < k ensures Filled(after, groups[g]) {
      if g < k - 1 { assert Filled(before, groups[g]); }
    }
  }

  /** The first k groups are written back, each to the positions it names. */
  ghost predicate RebuiltTo<S, E>(
    groups: seq<seq<Entry<S, E>>>, k: nat, tensors: seq<Tensor<S, E>>, r: seq<Option<Tensor<S, E>>>)
    requires k <= |groups|
  {
    && Rebuilt(AllFlat(groups), AllMeta(groups), k) == Ok(r)
    && Correct(r, tensors) && AllFilled(r, groups, k)
  }

  /** A group with records and elements is written over what the groups before it gave. */
  lemma RebuiltNext<S, E>(
    flats: seq<Flat<E>>, metadata: seq<Meta<S>>, k: nat, before: seq<Option<Tensor<S, E>>>, items: seq<Meta<S>>)
    requires 0 < k <= |flats| && Rebuilt(flats, metadata, k - 1) == Ok(before)
    requires items == ItemsOf(metadata, k - 1) && |items| > 0 && |flats[k - 1].data| > 0
    ensures Inside(items, |before|)
    ensures Rebuilt(flats, metadata, k) == Written(before, items, |items|, flats[k - 1])
  {
    ItemsInside(metadata, k - 1);
  }

  /** Writing all items over what was filled before gives r. */
  ghost predicate WritesTo<S, E>(
    before: seq<Option<Tensor<S, E>>>, items: seq<Meta<S>>, flat: Flat<E>, r: seq<Option<Tensor<S, E>>>)
  {
    |items| > 0 && Inside(items, |before|) && Written(before, items, |items|, flat) == Ok(r)
  }

  /** A group with elements that is written back as r is rebuilt as r. */
  lemma GroupRebuilt<S, E>(
    groups: seq<seq<Entry<S, E>>>, k: nat, before: seq<Option<Tensor<S, E>>>, r: seq<Option<Tensor<S, E>>>,
    items: seq<Meta<S>>)
    requires 0 < k <= |groups| && Rebuilt(AllFlat(groups), AllMeta(groups), k - 1) == Ok(before)
    requires items == MetaOf(groups[k - 1], k - 1) && |DataOf(groups[k - 1])| > 0
    requires WritesTo(before, items, FlatOf(groups[k - 1]), r)
    ensures Rebuilt(AllFlat(groups), AllMeta(groups), k) == Ok(r)
  {
    ItemsOfGroup(groups, k - 1);
    RebuiltNext(AllFlat(groups), AllMeta(groups), k, before, items);
  }

  /** A group with elements has a record for each entry, and writing them all fills what it names. */
  lemma WritesWhole<S, E>(
    before: seq<Option<Tensor<S, E>>>, group: seq<Entry<S, E>>, g: nat, tensors: seq<Tensor<S, E>>, width: nat -> nat,
    limit: nat)
    returns (r: seq<Option<Tensor<S, E>>>, items: seq<Meta<S>>)
    requires Sane(group, tensors, width, limit) && Correct(before, tensors) && |DataOf(group)| > 0
    ensures items == MetaOf(group, g) && WritesTo(before, items, FlatOf(group), r)
    ensures Correct(r, tensors) && Extends(before, r) && Filled(r, group)
  {
    items := MetaOf(group, g);
    r := WritesGroup(before, group, g, |group|, tensors, width, limit);
    TakeAll(group);
  }

  lemma RebuildsNext<S, E>(
    groups: seq<seq<Entry<S, E>>>, k: nat, before: seq<Option<Tensor<S, E>>>, tensors: seq<Tensor<S, E>>,
    width: nat -> nat, limit: nat)
    returns (r: seq<Option<Tensor<S, E>>>)
    requires 0 < k <= |groups| && Sane(groups[k - 1], tensors, width, limit) && |DataOf(groups[k - 1])| > 0
    requires RebuiltTo(groups, k - 1, tensors, before)
    ensures RebuiltTo(groups, k, tensors, r)
  {
    var items;
    r, items := WritesWhole(before, groups[k - 1], k - 1, tensors, width, limit);
    FilledNext(before, r, groups, k);
    GroupRebuilt(groups, k, before, r, items);
  }

  lemma RebuildsNone<S, E>(groups: seq<seq<Entry<S, E>>>, tensors: seq<Tensor<S, E>>)
    returns (r: seq<Option<Tensor<S, E>>>)
    requires Slots(AllMeta(groups)) == |tensors|
    ensures RebuiltTo(groups, 0, tensors, r)
  {
    r := Nones(|tensors|);
  }

  ghost predicate AllSane<S, E>(
    groups: seq<seq<Entry<S, E>>>, tensors: seq<Tensor<S, E>>, width: nat -> nat, limit: nat)
  {
    forall g | 0 <= g < |groups| :: Sane(groups[g], tensors, width, limit)
  }

  /** The first k groups have elements. */
  ghost predicate AllFull<S, E>(groups: seq<seq<Entry<S, E>>>, k: nat)
    requires k <= |groups|
  {
    forall g | 0 <= g < k :: |DataOf(groups[g])| > 0
  }

  /** Groups that all have elements fill every position they name. */
  lemma {:induction false} RebuildsGroups<S, E>(
    groups: seq<seq<Entry<S, E>>>, k: nat, tensors: seq<Tensor<S, E>>, width: nat -> nat, limit: nat)
    returns (r: seq<Option<Tensor<S, E>>>)
    requires k <= |groups| && Slots(AllMeta(groups)) == |tensors| && AllSane(groups, tensors, width, limit)
    requires AllFull(groups, k)
    ensures RebuiltTo(groups, k, tensors, r)
  {
    if k == 0 {
      r := RebuildsNone(groups, tensors);
    } else {
      FullBefore(groups, k, tensors, width, limit);
      var before := RebuildsGroups(groups, k - 1, tensors, width, limit);
      r := RebuildsNext(groups, k, before, tensors, width, limit);
    }
  }

  lemma FullBefore<S, E>(
    groups: seq<seq<Entry<S, E>>>, k: nat, tensors: seq<Tensor<S, E>>, width: nat -> nat, limit: nat)
    requires 0 < k <= |groups| && AllFull(groups, k) && AllSane(groups, tensors, width, limit)
    ensures AllFull(groups, k - 1) && |DataOf(groups[k - 1])| > 0 && Sane(groups[k - 1], tensors, width, limit)
  {
  }

  function Somes<S, E>(tensors: seq<Tensor<S, E>>): (r: seq<Option<Tensor<S, E>>>)
    ensures |r| == |tensors| && forall i | 0 <= i < |tensors| :: r[i] == Some(tensors[i])
  {
    if |tensors| == 0 then [] else Somes(tensors[..|tensors| - 1]) + [Some(tensors[|tensors| - 1])]
  }

  /** The groups are sane and hold every tensor. */
  ghost predicate Complete<S, E>(
    all: seq<seq<Entry<S, E>>>, tensors: seq<Tensor<S, E>>, width: nat -> nat, limit: nat)
  {
    && AllSane(all, tensors, width, limit)
    && forall i | 0 <= i < |tensors| :: exists g :: 0 <= g < |all| && Entry(i, tensors[i]) in all[g]
  }

  lemma GroupsAreComplete<S, E>(
    all: seq<seq<Entry<S, E>>>, tensors: seq<Tensor<S, E>>, width: nat -> nat, limit: nat)
    requires all == AllGroups(tensors, |Keys(tensors)|, width, limit)
    ensures Complete(all, tensors, width, limit)
  {
    forall g | 0 <= g < |all| ensures Sane(all[g], tensors, width, limit) {
      assert all[g] in all;
      GroupsAreSane(tensors, |Keys(tensors)|, width, limit, all[g]);
    }
    forall i | 0 <= i < |tensors| ensures exists g :: 0 <= g < |all| && Entry(i, tensors[i]) in all[g] {
      var group := GroupsCover(tensors, i, width, limit);
      var g :| 0 <= g < |all| && all[g] == group;
    }
  }

  lemma SlotsOfAll<S, E>(
    all: seq<seq<Entry<S, E>>>, tensors: seq<Tensor<S, E>>, width: nat -> nat, limit: nat)
    requires Complete(all, tensors, width, limit)
    ensures Slots(AllMeta(all)) == |tensors|
  {
    MetaInside(all, tensors, width, limit);
    SlotsAtMost(AllMeta(all), |tensors|);
    if tensors != [] {
      var last := Entry(|tensors| - 1, tensors[|tensors| - 1]);
      var g :| 0 <= g < |all| && last in all[g];
      var j :| 0 <= j < |all[g]| && all[g][j] == last;
      SlotsReach(all, g, j);
    }
  }

  // ---------------------------------------------------------------- when a group is empty

  /** The bytes in the group still being filled: they start over after the tensor that exceeds the limit. */
  function Running<S, E>(entries: seq<Entry<S, E>>, width: nat -> nat, limit: nat): nat {
    if |entries| == 0 then 0
    else
      var last := entries[|entries| - 1].tensor;
      var bytes := Running(entries[..|entries| - 1], width, limit) + width(last.dtype) * |last.data|;
      if bytes > limit then 0 else bytes
  }

  /** The last tensor of the type is empty, and so is whatever shares its group. */
  predicate EmptyTail<S, E>(entries: seq<Entry<S, E>>, width: nat -> nat, limit: nat) {
    && |entries| > 0 && |entries[|entries| - 1].tensor.data| == 0
    && Running(entries, width, limit) == 0
  }

  lemma {:induction false} RunningIsFilling<S, E>(entries: seq<Entry<S, E>>, width: nat -> nat, limit: nat)
    ensures Running(entries, width, limit) == Bytes(Fill(entries, width, limit).current, width)
  {
    if entries != [] {
      var init, last := entries[..|entries| - 1], entries[|entries| - 1];
      RunningIsFilling(init, width, limit);
      SnocParts(Fill(init, width, limit).current, last);
    }
  }

  lemma {:induction false} NoBytesNoData<S, E>(entries: seq<Entry<S, E>>, width: nat -> nat)
    requires Bytes(entries, width) == 0 && forall d: nat :: width(d) > 0
    ensures DataOf(entries) == []
  {
    if entries != [] {
      var last := entries[|entries| - 1].tensor;
      assert width(last.dtype) * |last.data| == 0;
      NoBytesNoData(entries[..|entries| - 1], width);
    }
  }

  /** The group being filled ends with the last tensor, or the last tensor just finished a group. */
  lemma FillingEnds<S, E>(entries: seq<Entry<S, E>>, width: nat -> nat, limit: nat)
    requires entries != []
    ensures var current := Fill(entries, width, limit).current;
      if current == [] then |entries[|entries| - 1].tensor.data| > 0
      else current[|current| - 1] == entries[|entries| - 1]
  {
    var init, last := entries[..|entries| - 1], entries[|entries| - 1];
    FillFacts(init, width, limit);
    SnocParts(Fill(init, width, limit).current, last);
    if |last.tensor.data| == 0 { assert width(last.tensor.dtype) * |last.tensor.data| == 0; }
  }

  /** Only the last group of a type can be without elements, and it is just when the type ends in an empty tail. */
  lemma EmptyGroupIffTail<S, E>(entries: seq<Entry<S, E>>, width: nat -> nat, limit: nat)
    requires forall d: nat :: width(d) > 0
    ensures EmptyTail(entries, width, limit)
      <==> exists g :: 0 <= g < |GroupsOf(entries, width, limit)| && |DataOf(GroupsOf(entries, width, limit)[g])| == 0
  {
    var f, groups := Fill(entries, width, limit), GroupsOf(entries, width, limit);
    RunningIsFilling(entries, width, limit);
    FillFacts(entries, width, limit);
    if EmptyTail(entries, width, limit) {
      FillingEnds(entries, width, limit);
      NoBytesNoData(f.current, width);
      assert groups[|f.done|] == f.current;
    }
    if g :| 0 <= g < |groups| && |DataOf(groups[g])| == 0 {
      if g < |f.done| { BytesNeedData(f.done[g], width); }
      FillingEnds(entries, width, limit);
      if Bytes(f.current, width) > 0 { BytesNeedData(f.current, width); }
      assert |DataOf(f.current)| >= |f.current[|f.current| - 1].tensor.data|;
    }
  }

  /** Some element type ends in an empty tail. */
  ghost predicate SomeEmptyTail<S, E>(tensors: seq<Tensor<S, E>>, width: nat -> nat, limit: nat) {
    exists d :: d in Keys(tensors) && EmptyTail(EntriesOf(tensors, d), width, limit)
  }

  lemma EmptyGroupIffSomeTail<S, E>(
    all: seq<seq<Entry<S, E>>>, tensors: seq<Tensor<S, E>>, width: nat -> nat, limit: nat)
    requires all == AllGroups(tensors, |Keys(tensors)|, width, limit) && forall d: nat :: width(d) > 0
    ensures SomeEmptyTail(tensors, width, limit) <==> exists g :: 0 <= g < |all| && |DataOf(all[g])| == 0
  {
    var n := |Keys(tensors)|;
    if d :| d in Keys(tensors) && EmptyTail(EntriesOf(tensors, d), width, limit) {
      var j :| 0 <= j < n && Keys(tensors)[j] == d;
      var groups := GroupsOf(EntriesOf(tensors, d), width, limit);
      EmptyGroupIffTail(EntriesOf(tensors, d), width, limit);
      var h :| 0 <= h < |groups| && |DataOf(groups[h])| == 0;
      TypeHasGroup(tensors, n, width, limit, groups[h], j);
      var g :| 0 <= g < |all| && all[g] == groups[h];
    }
    if g :| 0 <= g < |all| && |DataOf(all[g])| == 0 {
      assert all[g] in all;
      var j := GroupHasType(tensors, n, width, limit, all[g]);
      var d := Keys(tensors)[j];
      EmptyGroupIffTail(EntriesOf(tensors, d), width, limit);
      assert d in Keys(tensors) && EmptyTail(EntriesOf(tensors, d), width, limit);
    }
  }

  lemma {:induction false} FirstEmpty<S, E>(groups: seq<seq<Entry<S, E>>>, g: nat) returns (first: nat)
    requires g < |groups| && |DataOf(groups[g])| == 0
    ensures first <= g && |DataOf(groups[first])| == 0 && forall h | 0 <= h < first :: |DataOf(groups[h])| > 0
  {
    first := 0;
    while |DataOf(groups[first])| > 0
      invariant first <= g && forall h | 0 <= h < first :: |DataOf(groups[h])| > 0
      decreases g - first
    {
      first := first + 1;
    }
  }

  // ---------------------------------------------------------------- the round trip

  /**
   Grouping and reading back returns every tensor at its position, or fails because a group has
   no element; it fails just when some element type ends in an empty tail.
   */
  lemma RoundTrip<S, E>(tensors: seq<Tensor<S, E>>, width: nat -> nat, limit: nat, groups: seq<Flat<E>>, metadata: seq<Meta<S>>)
    requires forall d: nat :: width(d) > 0
    requires Recorded(AllGroups(tensors, |Keys(tensors)|, width, limit), groups, metadata)
    ensures RebuiltAll<S, E>(groups, metadata)
      == if SomeEmptyTail(tensors, width, limit) then Err(GroupNotFound) else Ok(Somes(tensors))
  {
    var all := AllGroups(tensors, |Keys(tensors)|, width, limit);
    GroupsAreComplete(all, tensors, width, limit);
    SlotsOfAll(all, tensors, width, limit);
    EmptyGroupIffSomeTail(all, tensors, width, limit);
    if tensors == [] {
      assert Keys(tensors) == [];
    } else if g :| 0 <= g < |all| && |DataOf(all[g])| == 0 {
      EmptyGroupStops(all, g, tensors, width, limit);
    } else {
      FullGroupsRebuild(all, tensors, width, limit);
    }
  }

  lemma EmptyGroupStops<S, E>(
    all: seq<seq<Entry<S, E>>>, g: nat, tensors: seq<Tensor<S, E>>, width: nat -> nat, limit: nat)
    requires Complete(all, tensors, width, limit) && g < |all| && |DataOf(all[g])| == 0
    ensures Rebuilt<S, E>(AllFlat(all), AllMeta(all), |all|) == Err(GroupNotFound)
  {
    SlotsOfAll(all, tensors, width, limit);
    var first := FirstEmpty(all, g);
    var before := RebuildsGroups(all, first, tensors, width, limit);
    RebuildStops<S, E>(AllFlat(all), AllMeta(all), first + 1, |all|);
  }

  lemma FullGroupsRebuild<S, E>(
    all: seq<seq<Entry<S, E>>>, tensors: seq<Tensor<S, E>>, width: nat -> nat, limit: nat)
    requires Complete(all, tensors, width, limit) && forall g | 0 <= g < |all| :: |DataOf(all[g])| > 0
    ensures Rebuilt(AllFlat(all), AllMeta(all), |all|) == Ok(Somes(tensors))
  {
    SlotsOfAll(all, tensors, width, limit);
    var r := RebuildsGroups(all, |all|, tensors, width, limit);
    forall i | 0 <= i < |tensors| ensures r[i] == Some(tensors[i]) {
      var g :| 0 <= g < |all| && Entry(i, tensors[i]) in all[g];
      assert Filled(r, all[g]);
    }
    assert r == Somes(tensors);
  }

  /** Tensors that each have an element always return in order. */
  lemma NonEmptyRoundTrip<S, E>(
    tensors: seq<Tensor<S, E>>, width: nat -> nat, limit: nat, groups: seq<Flat<E>>, metadata: seq<Meta<S>>)
    requires forall d: nat :: width(d) > 0
    requires forall i | 0 <= i < |tensors| :: |tensors[i].data| > 0
    requires Recorded(AllGroups(tensors, |Keys(tensors)|, width, limit), groups, metadata)
    ensures RebuiltAll(groups, metadata) == Ok(Somes(tensors))
  {
    forall d | d in Keys(tensors) ensures !EmptyTail(EntriesOf(tensors, d), width, limit) {
      var entries := EntriesOf(tensors, d);
      KeysAppear(tensors, d);
      EntriesHold(tensors, d);
      assert entries[|entries| - 1] in entries;
    }
    RoundTrip(tensors, width, limit, groups, metadata);
  }

  /** No group is over the limit without its last tensor, and none is without tensors. */
  lemma GroupsAreBounded<S, E>(
    tensors: seq<Tensor<S, E>>, width: nat -> nat, limit: nat, groups: seq<Flat<E>>, metadata: seq<Meta<S>>)
    returns (all: seq<seq<Entry<S, E>>>)
    requires Recorded(AllGroups(tensors, |Keys(tensors)|, width, limit), groups, metadata)
    ensures Recorded(all, groups, metadata) && forall group <- all :: Sane(group, tensors, width, limit)
    ensures forall i | 0 <= i < |tensors| :: exists g :: 0 <= g < |all| && Entry(i, tensors[i]) in all[g]
  {
    all := AllGroups(tensors, |Keys(tensors)|, width, limit);
    GroupsAreComplete(all, tensors, width, limit);
  }

  /** A single empty tensor is grouped but not read back. */
  lemma EmptyTensorIsLost<S, E>(shape: S, width: nat -> nat, limit: nat, groups: seq<Flat<E>>, metadata: seq<Meta<S>>)
    requires forall d: nat :: width(d) > 0
    requires Recorded(
      AllGroups([Tensor<S, E>.Tensor(0, shape, [])], |Keys([Tensor<S, E>.Tensor(0, shape, [])])|, width, limit),
      groups, metadata)
    ensures RebuiltAll<S, E>(groups, metadata) == Err(GroupNotFound)
  {
    var tensors := [Tensor<S, E>.Tensor(0, shape, [])];
    assert tensors[..0] == [];
    assert Keys(tensors) == [0] && EntriesOf(tensors, 0) == [Entry(0, tensors[0])];
    assert EmptyTail(EntriesOf(tensors, 0), width, limit);
    RoundTrip(tensors, width, limit, groups, metadata);
  }
}
