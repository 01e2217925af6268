/** Filtering, counting and stable sorting of sequences. */
module Sequences {
  import opened Basics
  import opened SequenceFacts

  function Filter<T>(keep: T -> bool, s: seq<T>): seq<T> {
    if s == [] then []
    else if keep(s[0]) then [s[0]] + Filter(keep, s[1..])
    else Filter(keep, s[1..])
  }

  lemma {:induction false} FilterConcat<T>(keep: T -> bool, a: seq<T>, b: seq<T>)
    ensures Filter(keep, a + b) == Filter(keep, a) + Filter(keep, b)
  {
    if a == [] {
      EmptyPrefix(b);
      EmptyPrefix(Filter(keep, b));
    } else {
      FilterConcat(keep, a[1..], b);
      var ab := a + b;
      assert ab[0] == a[0] && ab[1..] == a[1..] + b;
      if keep(a[0]) { Associate([a[0]], Filter(keep, a[1..]), Filter(keep, b)); }
    }
  }

  lemma {:induction false} FilterMembers<T>(keep: T -> bool, s: seq<T>)
    ensures forall x :: x in Filter(keep, s) <==> x in s && keep(x)
  {
    if s != [] {
      FilterMembers(keep, s[1..]);
      assert s == [s[0]] + s[1..];
    }
  }

  lemma {:induction false} FilterAll<T>(keep: T -> bool, s: seq<T>)
    requires forall x <- s :: keep(x)
    ensures Filter(keep, s) == s
  {
    if s != [] {
      assert s[0] in s;
      assert forall x <- s[1..] :: x in s;
      FilterAll(keep, s[1..]);
    }
  }

  lemma {:induction false} FilterNone<T>(keep: T -> bool, s: seq<T>)
    requires forall x <- s :: !keep(x)
    ensures Filter(keep, s) == []
  {
    if s != [] {
      assert s[0] in s;
      assert forall x <- s[1..] :: x in s;
      FilterNone(keep, s[1..]);
    }
  }

  lemma {:induction false} FilterIdempotent<T>(keep: T -> bool, s: seq<T>)
    ensures Filter(keep, Filter(keep, s)) == Filter(keep, s)
  {
    if s != [] {
      FilterIdempotent(keep, s[1..]);
      FilterConcat(keep, if keep(s[0]) then [s[0]] else [], Filter(keep, s[1..]));
    }
  }

  lemma FilterOne<T>(keep: T -> bool, x: T)
    ensures Filter(keep, [x]) == if keep(x) then [x] else []
  {
    assert [x][1..] == [];
  }

  function Count<T>(hit: T -> bool, s: seq<T>): nat {
    |Filter(hit, s)|
  }

  lemma {:induction false} CountPermutation<T>(hit: T -> bool, a: seq<T>, b: seq<T>)
    requires multiset(a) == multiset(b)
    ensures Count(hit, a) == Count(hit, b)
    decreases |a|
  {
    if a != [] {
      assert a[0] in multiset(b);
      var i :| 0 <= i < |b| && b[i] == a[0];
      assert a == [a[0]] + a[1..];
      assert b == b[..i] + ([b[i]] + b[i + 1..]);
      RemoveOne(a, b, i);
      CountPermutation(hit, a[1..], b[..i] + b[i + 1..]);
      FilterConcat(hit, b[..i], b[i + 1..]);
      FilterConcat(hit, b[..i], [b[i]] + b[i + 1..]);
      FilterConcat(hit, [b[i]], b[i + 1..]);
    } else {
      assert |multiset(b)| == 0;
    }
  }

  lemma RemoveOne<T>(a: seq<T>, b: seq<T>, i: nat)
    requires a != [] && i < |b| && b[i] == a[0] && multiset(a) == multiset(b)
    ensures multiset(a[1..]) == multiset(b[..i] + b[i + 1..])
  {
    assert a == [a[0]] + a[1..];
    assert multiset(a) == multiset{a[0]} + multiset(a[1..]);
    assert b == b[..i] + ([b[i]] + b[i + 1..]);
    assert multiset(b) == multiset{a[0]} + multiset(b[..i] + b[i + 1..]);
    assert multiset(a[1..]) == multiset(a) - multiset{a[0]};
  }

  // ---------------------------------------------------------------- concatenation

  function Flatten<T>(parts: seq<seq<T>>): seq<T> {
    if parts == [] then [] else Flatten(parts[..|parts| - 1]) + parts[|parts| - 1]
  }

  lemma FlattenSnoc<T>(parts: seq<seq<T>>, part: seq<T>)
    ensures Flatten(parts + [part]) == Flatten(parts) + part
  {
    assert (parts + [part])[..|parts|] == parts;
  }

  lemma {:induction false} FlattenConcat<T>(a: seq<seq<T>>, b: seq<seq<T>>)
    ensures Flatten(a + b) == Flatten(a) + Flatten(b)
  {
    if b == [] {
      EmptySuffix(a);
      EmptySuffix(Flatten(a));
    } else {
      var init, last := b[..|b| - 1], b[|b| - 1];
      FlattenConcat(a, init);
      SnocOf(b);
      Associate(a, init, [last]);
      FlattenSnoc(a + init, last);
      FlattenSnoc(init, last);
      Associate(Flatten(a), Flatten(init), last);
    }
  }

  lemma {:induction false} FlattenMembers<T>(parts: seq<seq<T>>, x: T)
    ensures x in Flatten(parts) <==> exists i :: 0 <= i < |parts| && x in parts[i]
  {
    if parts != [] {
      var init, last := parts[..|parts| - 1], parts[|parts| - 1];
      FlattenMembers(init, x);
      assert x in Flatten(parts) <==> x in Flatten(init) || x in last;
      if x in Flatten(init) {
        var i :| 0 <= i < |init| && x in init[i];
        assert x in parts[i];
      }
      if i :| 0 <= i < |parts| && x in parts[i] {
        if i < |init| { assert x in init[i]; }
      }
    }
  }

  function Sum(numbers: seq<nat>): nat {
    if numbers == [] then 0 else Sum(numbers[..|numbers| - 1]) + numbers[|numbers| - 1]
  }

  /** The greatest length of a list. */
  function MaxLength<T>(lists: seq<seq<T>>): nat {
    if lists == [] then 0 else Max(MaxLength(lists[..|lists| - 1]), |lists[|lists| - 1]|)
  }

  lemma {:induction false} LongestBounds<T>(lists: seq<seq<T>>, p: nat)
    requires p < |lists|
    ensures |lists[p]| <= MaxLength(lists)
  {
    if p < |lists| - 1 { LongestBounds(lists[..|lists| - 1], p); }
  }

  // ---------------------------------------------------------------- distinct elements

  ghost predicate Distinct<T>(s: seq<T>) {
    forall i, j | 0 <= i < j < |s| :: s[i] != s[j]
  }

  lemma {:induction false} AtMostOnce<T>(s: seq<T>, x: T)
    requires Distinct(s)
    ensures multiset(s)[x] <= 1
  {
    if s != [] {
      AtMostOnce(s[1..], x);
      assert s == [s[0]] + s[1..];
      if s[0] == x { assert x !in s[1..]; }
    }
  }

  lemma TwoOccurrences<T>(s: seq<T>, i: nat, j: nat)
    requires i < j < |s| && s[i] == s[j]
    ensures multiset(s)[s[i]] >= 2
  {
    assert s == s[..j] + [s[j]] + s[j + 1..];
    assert s[i] in s[..j];
  }

  // ---------------------------------------------------------------- stable sorting

  ghost predicate TotalPreorder<T(!new)>(le: (T, T) -> bool) {
    && (forall a, b :: le(a, b) || le(b, a))
    && (forall a, b, c :: le(a, b) && le(b, c) ==> le(a, c))
  }

  ghost predicate Sorted<T>(le: (T, T) -> bool, s: seq<T>) {
    forall i, j | 0 <= i < j < |s| :: le(s[i], s[j])
  }

  /** Places x behind every element that does not come after it. */
  function Insert<T>(le: (T, T) -> bool, s: seq<T>, x: T): seq<T> {
    if s == [] || le(s[|s| - 1], x) then s + [x]
    else Insert(le, s[..|s| - 1], x) + [s[|s| - 1]]
  }

  /** The stable sort of a sequence. */
  function Sort<T>(le: (T, T) -> bool, s: seq<T>): seq<T> {
    if s == [] then [] else Insert(le, Sort(le, s[..|s| - 1]), s[|s| - 1])
  }

  lemma {:induction false} InsertMultiset<T>(le: (T, T) -> bool, s: seq<T>, x: T)
    ensures multiset(Insert(le, s, x)) == multiset(s) + multiset{x}
  {
    if s != [] && !le(s[|s| - 1], x) {
      InsertMultiset(le, s[..|s| - 1], x);
      assert s == s[..|s| - 1] + [s[|s| - 1]];
    }
  }

  lemma {:induction false} SortPermutes<T>(le: (T, T) -> bool, s: seq<T>)
    ensures multiset(Sort(le, s)) == multiset(s)
  {
    if s != [] {
      SortPermutes(le, s[..|s| - 1]);
      InsertMultiset(le, Sort(le, s[..|s| - 1]), s[|s| - 1]);
      assert s == s[..|s| - 1] + [s[|s| - 1]];
    }
  }

  lemma {:induction false} InsertSorted<T(!new)>(le: (T, T) -> bool, s: seq<T>, x: T)
    requires TotalPreorder(le) && Sorted(le, s)
    ensures Sorted(le, Insert(le, s, x))
  {
    if s == [] {
    } else if le(s[|s| - 1], x) {
      forall i | 0 <= i < |s|
        ensures le(s[i], x)
      {
        if i < |s| - 1 { assert le(s[i], s[|s| - 1]); }
      }
    } else {
      var init, last := s[..|s| - 1], s[|s| - 1];
      InsertSorted(le, init, x);
      InsertMultiset(le, init, x);
      var r := Insert(le, init, x);
      forall i | 0 <= i < |r|
        ensures le(r[i], last)
      {
        assert r[i] in multiset(r);
        if r[i] != x {
          assert r[i] in multiset(init);
          var j :| 0 <= j < |init| && init[j] == r[i];
          assert le(s[j], s[|s| - 1]);
        }
      }
    }
  }

  lemma {:induction false} SortSorts<T(!new)>(le: (T, T) -> bool, s: seq<T>)
    requires TotalPreorder(le)
    ensures Sorted(le, Sort(le, s))
  {
    if s != [] {
      SortSorts(le, s[..|s| - 1]);
      InsertSorted(le, Sort(le, s[..|s| - 1]), s[|s| - 1]);
    }
  }

  // ---------------------------------------------------------------- lexicographic order

  predicate LexLe(a: seq<int>, b: seq<int>) {
    a == [] || (b != [] && (a[0] < b[0] || (a[0] == b[0] && LexLe(a[1..], b[1..]))))
  }

  lemma {:induction false} LexTotal(a: seq<int>, b: seq<int>)
    ensures LexLe(a, b) || LexLe(b, a)
    ensures LexLe(a, b) && LexLe(b, a) ==> a == b
  {
    if a != [] && b != [] {
      LexTotal(a[1..], b[1..]);
      assert a == [a[0]] + a[1..] && b == [b[0]] + b[1..];
    }
  }

  lemma {:induction false} LexTransitive(a: seq<int>, b: seq<int>, c: seq<int>)
    requires LexLe(a, b) && LexLe(b, c)
    ensures LexLe(a, c)
  {
    if a != [] && a[0] == b[0] == c[0] { LexTransitive(a[1..], b[1..], c[1..]); }
  }
}
