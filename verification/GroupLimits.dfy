/**
 How large the packed groups get. A group is closed by the tensor that takes it over the limit, so
 it need not be smaller than the limit, and a tensor that is too large alone need not be alone in
 its group; both are characterised here, and each is given an input.
 */
module GroupLimits {
  import opened Basics
  import opened SequenceFacts
  import opened Sequences
  import opened TensorGroups
  import opened TensorRoundTrip

  // ---------------------------------------------------------------- groups smaller than the limit

  lemma {:induction false} FillsOne<S, E>(entries: seq<Entry<S, E>>, width: nat -> nat, limit: nat)
    requires Bytes(entries, width) <= limit
    ensures Fill(entries, width, limit) == Filling([], entries)
  {
    if |entries| > 0 {
      BoundedPrefix(entries, width);
      FillsOne(entries[..|entries| - 1], width, limit);
      SnocOf(entries);
    }
  }

  ghost predicate AllSmaller<S, E>(groups: seq<seq<Entry<S, E>>>, width: nat -> nat, limit: nat) {
    forall g | 0 <= g < |groups| :: Bytes(groups[g], width) < limit
  }

  /** The groups of a type are all smaller than the limit if and only if its tensors together are. */
  lemma GroupsSmallerIff<S, E>(entries: seq<Entry<S, E>>, width: nat -> nat, limit: nat)
    requires |entries| > 0
    ensures AllSmaller(GroupsOf(entries, width, limit), width, limit) <==> Bytes(entries, width) < limit
  {
    var f, groups := Fill(entries, width, limit), GroupsOf(entries, width, limit);
    FillFacts(entries, width, limit);
    if Bytes(entries, width) <= limit {
      FillsOne(entries, width, limit);
      assert groups == [entries];
      assert groups[0] == entries;
    } else {
      if |f.done| == 0 { EmptyPrefix(f.current); }
      assert groups[0] == f.done[0];
    }
  }

  /** All groups are smaller than the limit if and only if the tensors of each element type together are. */
  lemma AllGroupsSmallerIff<S, E>(
    tensors: seq<Tensor<S, E>>, width: nat -> nat, limit: nat, groups: seq<seq<Entry<S, E>>>)
    requires groups == AllGroups(tensors, |Keys(tensors)|, width, limit)
    ensures AllSmaller(groups, width, limit)
       <==> forall j | 0 <= j < |Keys(tensors)| :: Bytes(EntriesOf(tensors, Keys(tensors)[j]), width) < limit
  {
    var parts := PerType(tensors, |Keys(tensors)|, width, limit);
    AllGroupsByType(tensors, |Keys(tensors)|, width, limit);
    SmallerParts(parts, width, limit);
    forall j | 0 <= j < |Keys(tensors)|
      ensures AllSmaller(parts[j], width, limit) <==> Bytes(EntriesOf(tensors, Keys(tensors)[j]), width) < limit
    {
      KeysAppear(tensors, Keys(tensors)[j]);
      GroupsSmallerIff(EntriesOf(tensors, Keys(tensors)[j]), width, limit);
    }
  }

  lemma {:induction false} SmallerParts<S, E>(parts: seq<seq<seq<Entry<S, E>>>>, width: nat -> nat, limit: nat)
    ensures AllSmaller(Flatten(parts), width, limit)
       <==> forall j | 0 <= j < |parts| :: AllSmaller(parts[j], width, limit)
  {
    if |parts| > 0 {
      var init, last := parts[..|parts| - 1], parts[|parts| - 1];
      SmallerParts(init, width, limit);
      SmallerJoined(Flatten(init), last, width, limit);
      forall j | 0 <= j < |init| ensures init[j] == parts[j] {}
    }
  }

  lemma SmallerJoined<S, E>(
    a: seq<seq<Entry<S, E>>>, b: seq<seq<Entry<S, E>>>, width: nat -> nat, limit: nat)
    ensures AllSmaller(a + b, width, limit) <==> AllSmaller(a, width, limit) && AllSmaller(b, width, limit)
  {
    forall g | 0 <= g < |a| ensures (a + b)[g] == a[g] {}
    forall g | 0 <= g < |b| ensures (a + b)[|a| + g] == b[g] {}
  }

  // ---------------------------------------------------------------- tensors that are too large

  function SizeOf<S, E>(tensor: Tensor<S, E>, width: nat -> nat): nat { width(tensor.dtype) * |tensor.data| }

  /** The tensor at j is the first of its type, or the one before it took its group over the limit. */
  predicate StartsGroup<S, E>(entries: seq<Entry<S, E>>, j: nat, width: nat -> nat, limit: nat)
    requires j < |entries|
  {
    j == 0 || Running(entries[..j - 1], width, limit) + SizeOf(entries[j - 1].tensor, width) > limit
  }

  lemma StartsIffNothingOpen<S, E>(entries: seq<Entry<S, E>>, j: nat, width: nat -> nat, limit: nat)
    requires j < |entries|
    ensures StartsGroup(entries, j, width, limit) <==> |Fill(entries[..j], width, limit).current| == 0
  {
    if j > 0 {
      TakeInit(entries, j - 1);
      RunningIsFilling(entries[..j - 1], width, limit);
      SnocParts(Fill(entries[..j - 1], width, limit).current, entries[j - 1]);
    }
  }

  /** Later tensors only add to the finished groups. */
  lemma {:induction false} DoneGrows<S, E>(entries: seq<Entry<S, E>>, m: nat, width: nat -> nat, limit: nat)
    requires m <= |entries|
    ensures Fill(entries[..m], width, limit).done <= Fill(entries, width, limit).done
    decreases |entries| - m
  {
    if m < |entries| {
      TakeInit(entries, m);
      DoneGrows(entries, m + 1, width, limit);
    } else {
      TakeAll(entries);
    }
  }

  /**
   A tensor that exceeds the limit alone is the last of its group, and is alone in it if and only
   if nothing of its type was waiting to be grouped when it came.
   */
  lemma LargeTensorAloneIff<S, E>(entries: seq<Entry<S, E>>, j: nat, width: nat -> nat, limit: nat) returns (g: nat)
    requires j < |entries| && SizeOf(entries[j].tensor, width) > limit
    ensures var groups := GroupsOf(entries, width, limit);
      && g < |groups| && Flatten(groups[..g]) + groups[g] == entries[..j + 1]
      && (|groups[g]| == 1 <==> StartsGroup(entries, j, width, limit))
  {
    var before, after := Fill(entries[..j], width, limit), Fill(entries[..j + 1], width, limit);
    StartsIffNothingOpen(entries, j, width, limit);
    TakeInit(entries, j);
    SnocParts(before.current, entries[j]);
    assert after == Filling(before.done + [before.current + [entries[j]]], []);
    FillFacts(entries[..j], width, limit);
    DoneGrows(entries, j + 1, width, limit);
    g := |before.done|;
    var groups := GroupsOf(entries, width, limit);
    assert groups[..g] == before.done && groups[g] == before.current + [entries[j]];
    Associate(Flatten(before.done), before.current, [entries[j]]);
    TakeNext(entries, j);
  }

  // ---------------------------------------------------------------- an input

  lemma TwoOfOneType<S, E>(a: Tensor<S, E>, b: Tensor<S, E>)
    requires a.dtype == b.dtype
    ensures Keys([a, b]) == [a.dtype] && EntriesOf([a, b], a.dtype) == [Entry(0, a), Entry(1, b)]
  {
    assert [a, b][..1] == [a] && [a][..0] == [];
    assert Keys([a]) == [a.dtype] && EntriesOf([a], a.dtype) == [Entry(0, a)];
  }

  lemma OneInSix<S, E>(group: seq<Entry<S, E>>, width: nat -> nat)
    requires |group| == 2 && SizeOf(group[0].tensor, width) == 1 && SizeOf(group[1].tensor, width) == 5
    ensures Bytes(group, width) == 6 && GroupsOf(group, width, 4) == [group]
  {
    var first := group[..1];
    assert |first[..0]| == 0 && group[..0] == first[..0];
    assert Bytes(first, width) == 1;
    FillsOne(first, width, 4);
    SnocOf(group);
    assert Fill(group, width, 4) == Filling([group], []);
  }

  /** One element and then five, with a limit of four bytes: one group of six bytes holds both. */
  lemma LargeTensorIsShared<S, E>(a: Tensor<S, E>, b: Tensor<S, E>, width: nat -> nat)
    requires a.dtype == b.dtype && width(a.dtype) == 1 && |a.data| == 1 && |b.data| == 5
    ensures var group := [Entry(0, a), Entry(1, b)];
      && Keys([a, b]) == [a.dtype] && AllGroups([a, b], 1, width, 4) == [group]
      && Bytes(group, width) == 6 && SizeOf(b, width) == 5
  {
    TwoOfOneType(a, b);
    OneInSix([Entry(0, a), Entry(1, b)], width);
    assert AllGroups([a, b], 0, width, 4) == [];
  }
}
