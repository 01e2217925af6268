/**
 Packing tensors into flat groups by element type and size, and reading them back from the
 groups and the recorded metadata.
 */
module TensorGroups {
  import opened Basics
  import opened SequenceFacts
  import opened Sequences

  datatype Tensor<S, E> = Tensor(dtype: nat, shape: S, data: seq<E>)

  datatype Entry<S, E> = Entry(index: nat, tensor: Tensor<S, E>)

  datatype Meta<S> = Meta(index: nat, shape: S, dtype: nat, group: nat, offset: nat, size: nat)

  // ---------------------------------------------------------------- the groups

  /** Element types in the order they first appear. */
  function Keys<S, E>(tensors: seq<Tensor<S, E>>): seq<nat> {
    if |tensors| == 0 then []
    else
      var before, last := Keys(tensors[..|tensors| - 1]), tensors[|tensors| - 1];
      if last.dtype in before then before else before + [last.dtype]
  }

  /** The tensors of one element type, with their positions. */
  function EntriesOf<S, E>(tensors: seq<Tensor<S, E>>, dtype: nat): seq<Entry<S, E>> {
    if |tensors| == 0 then []
    else
      var k := |tensors| - 1;
      var before := EntriesOf(tensors[..k], dtype);
      if tensors[k].dtype == dtype then before + [Entry(k, tensors[k])] else before
  }

  function Bytes<S, E>(entries: seq<Entry<S, E>>, width: nat -> nat): nat {
    if |entries| == 0 then 0
    else
      var last := entries[|entries| - 1].tensor;
      Bytes(entries[..|entries| - 1], width) + width(last.dtype) * |last.data|
  }

  /** Finished groups and the one being filled. */
  datatype Filling<S, E> = Filling(done: seq<seq<Entry<S, E>>>, current: seq<Entry<S, E>>)

  /** A group is finished by the tensor that takes it over the limit. */
  function Fill<S, E>(entries: seq<Entry<S, E>>, width: nat -> nat, limit: nat): Filling<S, E> {
    if |entries| == 0 then Filling([], [])
    else
      var before := Fill(entries[..|entries| - 1], width, limit);
      var current := before.current + [entries[|entries| - 1]];
      if Bytes(current, width) > limit then Filling(before.done + [current], [])
      else Filling(before.done, current)
  }

  function GroupsOf<S, E>(entries: seq<Entry<S, E>>, width: nat -> nat, limit: nat): seq<seq<Entry<S, E>>> {
    var f := Fill(entries, width, limit);
    if |f.current| == 0 then f.done else f.done + [f.current]
  }

  /** The groups of the first k element types. */
  function AllGroups<S, E>(tensors: seq<Tensor<S, E>>, k: nat, width: nat -> nat, limit: nat)
    : seq<seq<Entry<S, E>>>
    requires k <= |Keys(tensors)|
  {
    if k == 0 then []
    else
      AllGroups(tensors, k - 1, width, limit)
      + GroupsOf(EntriesOf(tensors, Keys(tensors)[k - 1]), width, limit)
  }

  /** The concatenated elements of a group. */
  function DataOf<S, E>(group: seq<Entry<S, E>>): seq<E> {
    if |group| == 0 then [] else DataOf(group[..|group| - 1]) + group[|group| - 1].tensor.data
  }

  /** A group as one flat tensor. */
  datatype Flat<E> = Flat(dtype: nat, data: seq<E>)

  function FlatOf<S, E>(group: seq<Entry<S, E>>): Flat<E> {
    Flat(if |group| == 0 then 0 else group[0].tensor.dtype, DataOf(group))
  }

  function AllFlat<S, E>(groups: seq<seq<Entry<S, E>>>): (r: seq<Flat<E>>)
    ensures |r| == |groups| && forall g | 0 <= g < |groups| :: r[g] == FlatOf(groups[g])
  {
    if |groups| == 0 then [] else AllFlat(groups[..|groups| - 1]) + [FlatOf(groups[|groups| - 1])]
  }

  /** One record for each tensor of group g, with its offset in the group. */
  function MetaOf<S, E>(group: seq<Entry<S, E>>, g: nat): seq<Meta<S>> {
    if |group| == 0 then []
    else
      var init, last := group[..|group| - 1], group[|group| - 1];
      MetaOf(init, g)
      + [Meta(last.index, last.tensor.shape, last.tensor.dtype, g, |DataOf(init)|, |last.tensor.data|)]
  }

  function AllMeta<S, E>(groups: seq<seq<Entry<S, E>>>): seq<Meta<S>> {
    if |groups| == 0 then []
    else
      var k := |groups| - 1;
      AllMeta(groups[..k]) + MetaOf(groups[k], k)
  }

  // ---------------------------------------------------------------- the grouping loops

  method Bucket<S, E>(tensors: seq<Tensor<S, E>>)
    returns (keys: seq<nat>, buckets: map<nat, seq<Entry<S, E>>>)
    ensures keys == Keys(tensors)
    ensures forall d <- keys :: d in buckets && buckets[d] == EntriesOf(tensors, d)
  {
    keys, buckets := [], map[];
    for i := 0 to |tensors|
      invariant keys == Keys(tensors[..i])
      invariant forall d: nat :: d in keys <==> d in buckets
      invariant forall d <- keys :: buckets[d] == EntriesOf(tensors[..i], d)
      invariant forall d: nat :: d !in keys ==> EntriesOf(tensors[..i], d) == []
    {
      TakeInit(tensors, i);
      var key := tensors[i].dtype;
      if key !in buckets {
        keys, buckets := keys + [key], buckets[key := []];
      }
      buckets := buckets[key := buckets[key] + [Entry(i, tensors[i])]];
    }
    TakeAll(tensors);
  }

  method RecordGroup<S, E>(group: seq<Entry<S, E>>, g: nat) returns (flat: Flat<E>, records: seq<Meta<S>>)
    ensures flat == FlatOf(group) && records == MetaOf(group, g)
  {
    records := [];
    var data, offset := [], 0;
    for i := 0 to |group|
      invariant data == DataOf(group[..i]) && offset == |data| && records == MetaOf(group[..i], g)
    {
      TakeInit(group, i);
      var tensor := group[i].tensor;
      records := records + [Meta(group[i].index, tensor.shape, tensor.dtype, g, offset, |tensor.data|)];
      data := data + tensor.data;
      offset := offset + |tensor.data|;
    }
    TakeAll(group);
    flat := Flat(if |group| == 0 then 0 else group[0].tensor.dtype, data);
  }

  /** The groups already recorded, and the lists that record them. */
  ghost predicate Recorded<S, E>(all: seq<seq<Entry<S, E>>>, groups: seq<Flat<E>>, metadata: seq<Meta<S>>) {
    groups == AllFlat(all) && metadata == AllMeta(all)
  }

  method AppendGroup<S, E>(
    group: seq<Entry<S, E>>, groups: seq<Flat<E>>, metadata: seq<Meta<S>>, ghost all: seq<seq<Entry<S, E>>>)
    returns (groups': seq<Flat<E>>, metadata': seq<Meta<S>>)
    requires Recorded(all, groups, metadata)
    ensures Recorded(all + [group], groups', metadata')
  {
    SnocParts(all, group);
    var flat, records := RecordGroup(group, |groups|);
    groups', metadata' := groups + [flat], metadata + records;
  }

  /** Cuts the tensors of one element type into groups, appending to the lists. */
  method CutBucket<S, E>(
    entries: seq<Entry<S, E>>, width: nat -> nat, limit: nat, groups: seq<Flat<E>>, metadata: seq<Meta<S>>,
    ghost before: seq<seq<Entry<S, E>>>)
    returns (groups': seq<Flat<E>>, metadata': seq<Meta<S>>)
    requires Recorded(before, groups, metadata)
    ensures Recorded(before + GroupsOf(entries, width, limit), groups', metadata')
  {
    groups', metadata' := groups, metadata;
    var current, currentBytes := [], 0;
    ghost var done: seq<seq<Entry<S, E>>> := [];
    EmptySuffix(before);
    for i := 0 to |entries|
      invariant Filling(done, current) == Fill(entries[..i], width, limit) && currentBytes == Bytes(current, width)
      invariant Recorded(before + done, groups', metadata')
    {
      TakeInit(entries, i);
      var tensor := entries[i].tensor;
      SnocParts(current, entries[i]);
      current := current + [entries[i]];
      currentBytes := currentBytes + width(tensor.dtype) * |tensor.data|;
      if currentBytes > limit {
        groups', metadata' := AppendGroup(current, groups', metadata', before + done);
        Associate(before, done, [current]);
        done := done + [current];
        current, currentBytes := [], 0;
      }
    }
    TakeAll(entries);
    if |current| > 0 {
      groups', metadata' := AppendGroup(current, groups', metadata', before + done);
      Associate(before, done, [current]);
    }
  }

  method GroupTensors<S, E>(tensors: seq<Tensor<S, E>>, width: nat -> nat, limit: nat)
    returns (groups: seq<Flat<E>>, metadata: seq<Meta<S>>)
    ensures Recorded(AllGroups(tensors, |Keys(tensors)|, width, limit), groups, metadata)
  {
    groups, metadata := [], [];
    if |tensors| == 0 { return; }
    var keys, buckets := Bucket(tensors);
    for k := 0 to |keys|
      invariant Recorded(AllGroups(tensors, k, width, limit), groups, metadata)
    {
      groups, metadata :=
        CutBucket(buckets[keys[k]], width, limit, groups, metadata, AllGroups(tensors, k, width, limit));
    }
  }

  // ---------------------------------------------------------------- what grouping keeps

  /** A group has a tensor, and without its last one it is within the limit. */
  predicate Bounded<S, E>(group: seq<Entry<S, E>>, width: nat -> nat, limit: nat) {
    |group| > 0 && Bytes(group[..|group| - 1], width) <= limit
  }

  lemma {:induction false} FillFacts<S, E>(entries: seq<Entry<S, E>>, width: nat -> nat, limit: nat)
    ensures var f := Fill(entries, width, limit);
      && Flatten(f.done) + f.current == entries && Bytes(f.current, width) <= limit
      && forall g | 0 <= g < |f.done| :: Bounded(f.done[g], width, limit) && Bytes(f.done[g], width) > limit
  {
    if entries != [] {
      var init, last := entries[..|entries| - 1], entries[|entries| - 1];
      FillFacts(init, width, limit);
      var before := Fill(init, width, limit);
      SnocOf(entries);
      SnocParts(before.current, last);
      Associate(Flatten(before.done), before.current, [last]);
      FlattenSnoc(before.done, before.current + [last]);
      EmptySuffix(Flatten(before.done + [before.current + [last]]));
    } else {
      EmptySuffix(entries);
    }
  }

  /** The groups of one element type hold its tensors in order, each group within its bound. */
  lemma GroupsOfFacts<S, E>(entries: seq<Entry<S, E>>, width: nat -> nat, limit: nat)
    ensures Flatten(GroupsOf(entries, width, limit)) == entries
    ensures forall group <- GroupsOf(entries, width, limit) :: Bounded(group, width, limit)
  {
    FillFacts(entries, width, limit);
    var f := Fill(entries, width, limit);
    if f.current == [] {
      EmptySuffix(Flatten(f.done));
    } else {
      FlattenSnoc(f.done, f.current);
      BoundedPrefix(f.current, width);
    }
  }

  lemma BoundedPrefix<S, E>(entries: seq<Entry<S, E>>, width: nat -> nat)
    requires entries != []
    ensures Bytes(entries[..|entries| - 1], width) <= Bytes(entries, width)
  {
  }

  /** A group over a limit has an element. */
  lemma {:induction false} BytesNeedData<S, E>(entries: seq<Entry<S, E>>, width: nat -> nat)
    requires Bytes(entries, width) > 0
    ensures |DataOf(entries)| > 0
  {
    if |DataOf(entries)| == 0 && entries != [] {
      var last := entries[|entries| - 1].tensor;
      assert width(last.dtype) * |last.data| == 0;
      BytesNeedData(entries[..|entries| - 1], width);
    }
  }

  // ---------------------------------------------------------------- reconstruction

  datatype RebuildError = GroupNotFound | ViewMismatch

  /** One more than the largest recorded position. */
  function Slots<S>(metadata: seq<Meta<S>>): nat {
    if |metadata| == 0 then 0
    else Max(Slots(metadata[..|metadata| - 1]), metadata[|metadata| - 1].index + 1)
  }

  function Nones<S, E>(n: nat): (r: seq<Option<Tensor<S, E>>>)
    ensures |r| == n && forall i | 0 <= i < n :: r[i] == None
  {
    if n == 0 then [] else Nones(n - 1) + [None]
  }

  function ItemsOf<S>(metadata: seq<Meta<S>>, g: nat): seq<Meta<S>> {
    Filter((m: Meta<S>) => m.group == g, metadata)
  }

  predicate Inside<S>(items: seq<Meta<S>>, n: nat) {
    forall i | 0 <= i < |items| :: items[i].index < n
  }

  /** The first k items of a group written to their positions. */
  function Written<S, E>(result: seq<Option<Tensor<S, E>>>, items: seq<Meta<S>>, k: nat, flat: Flat<E>)
    : (r: Result<seq<Option<Tensor<S, E>>>, RebuildError>)
    requires k <= |items| && Inside(items, |result|)
    ensures r.Ok? ==> |r.value| == |result|
  {
    if k == 0 then Ok(result)
    else match Written(result, items, k - 1, flat)
      case Err(error) => Err(error)
      case Ok(before) =>
        var m := items[k - 1];
        if m.offset + m.size > |flat.data| then Err(ViewMismatch)
        else Ok(before[m.index := Some(Tensor(flat.dtype, m.shape, Range(flat.data, m.offset, m.offset + m.size)))])
  }

  lemma {:induction false} ItemsInside<S>(metadata: seq<Meta<S>>, g: nat)
    ensures Inside(ItemsOf(metadata, g), Slots(metadata))
  {
    if metadata != [] {
      var init, last := metadata[..|metadata| - 1], metadata[|metadata| - 1];
      ItemsInside(init, g);
      SnocOf(metadata);
      ItemsNext(init, last, g);
    }
  }

  /** The tensors after the first k groups; a group without records or elements is an error. */
  function Rebuilt<S, E>(groups: seq<Flat<E>>, metadata: seq<Meta<S>>, k: nat)
    : (r: Result<seq<Option<Tensor<S, E>>>, RebuildError>)
    requires k <= |groups|
    ensures r.Ok? ==> |r.value| == Slots(metadata)
  {
    if k == 0 then Ok(Nones(Slots(metadata)))
    else match Rebuilt(groups, metadata, k - 1)
      case Err(error) => Err(error)
      case Ok(result) =>
        var items := ItemsOf(metadata, k - 1);
        ItemsInside(metadata, k - 1);
        if |items| == 0 || |groups[k - 1].data| == 0 then Err(GroupNotFound)
        else Written(result, items, |items|, groups[k - 1])
  }

  function RebuiltAll<S, E>(groups: seq<Flat<E>>, metadata: seq<Meta<S>>)
    : Result<seq<Option<Tensor<S, E>>>, RebuildError>
  {
    if |metadata| == 0 then Ok([]) else Rebuilt(groups, metadata, |groups|)
  }

  method RebuildTensors<S, E>(groups: seq<Flat<E>>, metadata: seq<Meta<S>>)
    returns (r: Result<seq<Option<Tensor<S, E>>>, RebuildError>)
    ensures r == RebuiltAll(groups, metadata)
  {
    if |metadata| == 0 { return Ok([]); }
    var slots := MaxIndex(metadata);
    var result: seq<Option<Tensor<S, E>>> := Nones(slots);
    var byGroup := RecordsByGroup(metadata);
    for g := 0 to |groups|
      invariant Rebuilt(groups, metadata, g) == Ok(result)
    {
      ItemsInside(metadata, g);
      if g !in byGroup || |groups[g].data| == 0 {
        RebuildStops(groups, metadata, g + 1, |groups|);
        return Err(GroupNotFound);
      }
      var items := byGroup[g];
      ghost var before := result;
      for i := 0 to |items|
        invariant Inside(items, |before|) && Written(before, items, i, groups[g]) == Ok(result)
      {
        var m := items[i];
        if m.offset + m.size > |groups[g].data| {
          WriteStops(before, items, i + 1, |items|, groups[g]);
          RebuildStops(groups, metadata, g + 1, |groups|);
          return Err(ViewMismatch);
        }
        var data := Range(groups[g].data, m.offset, m.offset + m.size);
        result := result[m.index := Some(Tensor(groups[g].dtype, m.shape, data))];
      }
    }
    r := Ok(result);
  }

  method MaxIndex<S>(metadata: seq<Meta<S>>) returns (slots: nat)
    ensures slots == Slots(metadata)
  {
    slots := 0;
    for i := 0 to |metadata|
      invariant slots == Slots(metadata[..i])
    {
      TakeInit(metadata, i);
      slots := Max(slots, metadata[i].index + 1);
    }
    TakeAll(metadata);
  }

  method RecordsByGroup<S>(metadata: seq<Meta<S>>) returns (byGroup: map<nat, seq<Meta<S>>>)
    ensures forall g: nat :: g in byGroup <==> ItemsOf(metadata, g) != []
    ensures forall g <- byGroup :: byGroup[g] == ItemsOf(metadata, g)
  {
    byGroup := map[];
    for i := 0 to |metadata|
      invariant forall g: nat :: g in byGroup <==> ItemsOf(metadata[..i], g) != []
      invariant forall g <- byGroup :: byGroup[g] == ItemsOf(metadata[..i], g)
    {
      var m := metadata[i];
      TakeNext(metadata, i);
      forall g: nat ensures ItemsOf(metadata[..i + 1], g)
        == if m.group == g then ItemsOf(metadata[..i], g) + [m] else ItemsOf(metadata[..i], g)
      {
        ItemsNext(metadata[..i], m, g);
      }
      byGroup := byGroup[m.group := (if m.group in byGroup then byGroup[m.group] else []) + [m]];
    }
    TakeAll(metadata);
  }

  lemma ItemsNext<S>(metadata: seq<Meta<S>>, m: Meta<S>, g: nat)
    ensures ItemsOf(metadata + [m], g)
      == if m.group == g then ItemsOf(metadata, g) + [m] else ItemsOf(metadata, g)
  {
    var hit := (m: Meta<S>) => m.group == g;
    FilterConcat(hit, metadata, [m]);
    FilterOne(hit, m);
    EmptySuffix(ItemsOf(metadata, g));
  }

  lemma {:induction false} RebuildStops<S, E>(groups: seq<Flat<E>>, metadata: seq<Meta<S>>, k: nat, n: nat)
    requires k <= n <= |groups| && Rebuilt<S, E>(groups, metadata, k).Err?
    ensures Rebuilt<S, E>(groups, metadata, n) == Rebuilt<S, E>(groups, metadata, k)
  {
    if k < n { RebuildStops<S, E>(groups, metadata, k, n - 1); }
  }

  lemma {:induction false} WriteStops<S, E>(
    result: seq<Option<Tensor<S, E>>>, items: seq<Meta<S>>, k: nat, n: nat, flat: Flat<E>)
    requires k <= n <= |items| && Inside(items, |result|) && Written(result, items, k, flat).Err?
    ensures Written(result, items, n, flat) == Written(result, items, k, flat)
  {
    if k < n { WriteStops(result, items, k, n - 1, flat); }
  }
}
