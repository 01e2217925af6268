/**
 The per-channel batch scheduler of the device v2 lowering: a cursor rotates over the
 active peers and every batch takes at most one pending work of a peer.
 */
module BatchScheduler {
  import opened SequenceFacts
  import opened Sequences

  /** Pending works by active-peer index, and the index the next batch starts at. */
  datatype State<T> = State(pending: seq<seq<T>>, cursor: nat)

  function Wrap(i: nat, peers: nat): nat
    requires i < 2 * peers
  {
    if i < peers then i else i - peers
  }

  ghost predicate Ready<T>(st: State<T>) {
    st.cursor < |st.pending|
  }

  /** The peer indices a batch serves, scanning from begin with this many peers seen and places left. */
  function Scan<T>(pending: seq<seq<T>>, begin: nat, scanned: nat, room: nat): (picks: seq<nat>)
    requires begin < |pending| && scanned <= |pending|
    ensures |picks| <= room
    ensures forall p <- picks :: p < |pending|
    decreases |pending| - scanned
  {
    if scanned == |pending| || room == 0 then []
    else
      var index := Wrap(begin + scanned, |pending|);
      if pending[index] != [] then [index] + Scan(pending, begin, scanned + 1, room - 1)
      else Scan(pending, begin, scanned + 1, room)
  }

  function BatchOf<T>(st: State<T>, room: nat): seq<nat>
    requires Ready(st)
  {
    Scan(st.pending, st.cursor, 0, room)
  }

  function Drop<T>(pending: seq<seq<T>>, picks: seq<nat>): seq<seq<T>> {
    seq(|pending|, i requires 0 <= i < |pending| =>
      if i in picks && pending[i] != [] then pending[i][1..] else pending[i])
  }

  function After<T>(st: State<T>, room: nat): (next: State<T>)
    requires Ready(st)
    ensures Ready(next) && |next.pending| == |st.pending|
  {
    var picks := BatchOf(st, room);
    var last := if picks == [] then st.cursor else picks[|picks| - 1];
    assert picks != [] ==> picks[|picks| - 1] in picks;
    State(Drop(st.pending, picks), Wrap(last + 1, |st.pending|))
  }

  function Total<T>(pending: seq<seq<T>>): nat {
    if pending == [] then 0 else Total(pending[..|pending| - 1]) + |pending[|pending| - 1]|
  }

  // ---------------------------------------------------------------- one batch

  /** How far index is ahead of the cursor, going round. */
  function Distance(begin: nat, index: nat, peers: nat): nat
    requires begin < peers && index < peers
  {
    if begin <= index then index - begin else index + peers - begin
  }

  /** Picks are pending peers at increasing distance, at least scanned. */
  ghost predicate Ordered<T>(pending: seq<seq<T>>, begin: nat, scanned: nat, picks: seq<nat>)
    requires begin < |pending|
  {
    && (forall j | 0 <= j < |picks| :: picks[j] < |pending| && pending[picks[j]] != []
          && scanned + j <= Distance(begin, picks[j], |pending|))
    && forall i, j | 0 <= i < j < |picks| ::
      picks[i] < |pending| && picks[j] < |pending|
      && Distance(begin, picks[i], |pending|) < Distance(begin, picks[j], |pending|)
  }

  lemma {:induction false} ScanIsOrdered<T>(pending: seq<seq<T>>, begin: nat, scanned: nat, room: nat)
    requires begin < |pending| && scanned <= |pending|
    ensures Ordered(pending, begin, scanned, Scan(pending, begin, scanned, room))
    decreases |pending| - scanned
  {
    if scanned < |pending| && room > 0 {
      var index := Wrap(begin + scanned, |pending|);
      assert Distance(begin, index, |pending|) == scanned;
      if pending[index] != [] {
        ScanIsOrdered(pending, begin, scanned + 1, room - 1);
        OrderedCons(pending, begin, scanned, index, Scan(pending, begin, scanned + 1, room - 1));
      } else {
        ScanIsOrdered(pending, begin, scanned + 1, room);
        OrderedLater(pending, begin, scanned, Scan(pending, begin, scanned + 1, room));
      }
    }
  }

  lemma OrderedCons<T>(pending: seq<seq<T>>, begin: nat, scanned: nat, index: nat, rest: seq<nat>)
    requires begin < |pending| && index < |pending| && pending[index] != []
    requires Distance(begin, index, |pending|) == scanned && Ordered(pending, begin, scanned + 1, rest)
    ensures Ordered(pending, begin, scanned, [index] + rest)
  {
    var all := [index] + rest;
    forall j | 0 < j < |all| ensures all[j] == rest[j - 1] {}
  }

  lemma OrderedLater<T>(pending: seq<seq<T>>, begin: nat, scanned: nat, rest: seq<nat>)
    requires begin < |pending| && Ordered(pending, begin, scanned + 1, rest)
    ensures Ordered(pending, begin, scanned, rest)
  {
  }

  /** A pending peer is passed over only if the batch filled up with nearer peers. */
  lemma {:induction false} ScanIsGreedy<T>(pending: seq<seq<T>>, begin: nat, scanned: nat, room: nat, index: nat)
    requires begin < |pending| && scanned <= |pending| && index < |pending| && pending[index] != []
    requires scanned <= Distance(begin, index, |pending|)
    ensures var picks := Scan(pending, begin, scanned, room);
      index in picks || (|picks| == room && forall p <- picks :: Distance(begin, p, |pending|) < Distance(begin, index, |pending|))
    decreases |pending| - scanned
  {
    if scanned < |pending| && room > 0 {
      var here := Wrap(begin + scanned, |pending|);
      assert Distance(begin, here, |pending|) == scanned;
      if here != index {
        assert scanned < Distance(begin, index, |pending|);
        ScanIsGreedy(pending, begin, scanned + 1, if pending[here] != [] then room - 1 else room, index);
      }
    }
  }

  /** Progress: while anything is pending a batch is not empty, so the scheduler's error branch is dead. */
  lemma BatchIsNotEmpty<T>(st: State<T>, room: nat, index: nat)
    requires Ready(st) && room > 0 && index < |st.pending| && st.pending[index] != []
    ensures BatchOf(st, room) != []
  {
    ScanIsGreedy(st.pending, st.cursor, 0, room, index);
  }

  /** A batch serves at most room peers, each pending and each at most once. */
  lemma BatchServesDistinctPeers<T>(st: State<T>, room: nat)
    requires Ready(st)
    ensures |BatchOf(st, room)| <= room
    ensures forall i, j | 0 <= i < j < |BatchOf(st, room)| :: BatchOf(st, room)[i] != BatchOf(st, room)[j]
    ensures forall j | 0 <= j < |BatchOf(st, room)| ::
      BatchOf(st, room)[j] < |st.pending| && st.pending[BatchOf(st, room)[j]] != []
  {
    ScanIsOrdered(st.pending, st.cursor, 0, room);
  }

  // ---------------------------------------------------------------- whole runs

  ghost predicate Drained<T>(pending: seq<seq<T>>) {
    forall i | 0 <= i < |pending| :: pending[i] == []
  }

  lemma {:induction false} TotalZero<T>(pending: seq<seq<T>>)
    ensures Total(pending) == 0 <==> Drained(pending)
    ensures !Drained(pending) ==> exists i | 0 <= i < |pending| :: pending[i] != []
  {
    if pending != [] {
      TotalZero(pending[..|pending| - 1]);
      if Drained(pending[..|pending| - 1]) && pending[|pending| - 1] == [] {
        assert forall i | 0 <= i < |pending| - 1 :: pending[i] == pending[..|pending| - 1][i];
      }
    }
  }

  lemma {:induction false} DropCounts<T>(pending: seq<seq<T>>, picks: seq<nat>)
    ensures Total(Drop(pending, picks)) <= Total(pending)
    ensures (exists i | 0 <= i < |pending| :: i in picks && pending[i] != []) ==> Total(Drop(pending, picks)) < Total(pending)
  {
    if pending != [] {
      var init := pending[..|pending| - 1];
      DropCounts(init, picks);
      assert Drop(pending, picks)[..|init|] == Drop(init, picks);
      if i: nat :| i < |pending| && i in picks && pending[i] != [] && i < |init| {
        assert init[i] == pending[i];
      }
    }
  }

  lemma AfterShrinks<T>(st: State<T>, room: nat)
    requires Ready(st) && room > 0 && Total(st.pending) > 0
    ensures Total(After(st, room).pending) < Total(st.pending)
  {
    TotalZero(st.pending);
    var index :| 0 <= index < |st.pending| && st.pending[index] != [];
    BatchIsNotEmpty(st, room, index);
    BatchServesDistinctPeers(st, room);
    var p := BatchOf(st, room)[0];
    assert p in BatchOf(st, room);
    DropCounts(st.pending, BatchOf(st, room));
  }

  /** The batches of a whole run, as the peers they serve. */
  function Batches<T>(st: State<T>, room: nat): seq<seq<nat>>
    requires Ready(st) && room > 0
    decreases Total(st.pending)
  {
    if Total(st.pending) == 0 then []
    else
      AfterShrinks(st, room);
      [BatchOf(st, room)] + Batches(After(st, room), room)
  }

  function Heads<T>(pending: seq<seq<T>>, picks: seq<nat>): seq<T>
    requires forall j | 0 <= j < |picks| :: picks[j] < |pending| && pending[picks[j]] != []
  {
    seq(|picks|, j requires 0 <= j < |picks| => pending[picks[j]][0])
  }

  /** The works of a whole run, batch by batch. */
  function Emitted<T>(st: State<T>, room: nat): seq<T>
    requires Ready(st) && room > 0
    decreases Total(st.pending)
  {
    if Total(st.pending) == 0 then []
    else
      AfterShrinks(st, room);
      BatchServesDistinctPeers(st, room);
      Heads(st.pending, BatchOf(st, room)) + Emitted(After(st, room), room)
  }

  /** Every pending work carries the tag of its peer, and the tags differ. */
  ghost predicate Tagged<T>(pending: seq<seq<T>>, tag: T -> nat, tags: seq<nat>) {
    && |tags| == |pending|
    && (forall i, j | 0 <= i < j < |tags| :: tags[i] != tags[j])
    && forall i, k | 0 <= i < |pending| && 0 <= k < |pending[i]| :: tag(pending[i][k]) == tags[i]
  }

  function HasTag<T>(tag: T -> nat, t: nat): T -> bool {
    w => tag(w) == t
  }

  lemma HeadsCons<T>(pending: seq<seq<T>>, picks: seq<nat>, tag: T -> nat, tags: seq<nat>)
    requires picks != [] && Tagged(pending, tag, tags)
    requires forall j | 0 <= j < |picks| :: picks[j] < |pending| && pending[picks[j]] != []
    ensures (forall j | 0 <= j < |picks[1..]| :: picks[1..][j] < |pending| && pending[picks[1..][j]] != [])
    ensures Heads(pending, picks) == [pending[picks[0]][0]] + Heads(pending, picks[1..])
    ensures tag(pending[picks[0]][0]) == tags[picks[0]]
  {
  }

  lemma {:induction false} HeadsOfPeer<T>(pending: seq<seq<T>>, picks: seq<nat>, tag: T -> nat, tags: seq<nat>, index: nat)
    requires Tagged(pending, tag, tags) && index < |pending|
    requires forall j | 0 <= j < |picks| :: picks[j] < |pending| && pending[picks[j]] != []
    requires forall i, j | 0 <= i < j < |picks| :: picks[i] != picks[j]
    ensures Filter(HasTag(tag, tags[index]), Heads(pending, picks))
         == if index in picks && pending[index] != [] then [pending[index][0]] else []
  {
    if picks != [] {
      HeadsOfPeer(pending, picks[1..], tag, tags, index);
      HeadsCons(pending, picks, tag, tags);
      ConsOf(picks);
      FilterConcat(HasTag(tag, tags[index]), [pending[picks[0]][0]], Heads(pending, picks[1..]));
      FilterOne(HasTag(tag, tags[index]), pending[picks[0]][0]);
    }
  }

  lemma DropKeepsTags<T>(pending: seq<seq<T>>, picks: seq<nat>, tag: T -> nat, tags: seq<nat>)
    requires Tagged(pending, tag, tags)
    ensures Tagged(Drop(pending, picks), tag, tags)
  {
  }

  /** Filtering the works of a run by peer gives back that peer's queue: nothing lost, repeated or reordered. */
  lemma {:induction false} EmittedByPeer<T>(st: State<T>, room: nat, tag: T -> nat, tags: seq<nat>, index: nat)
    requires Ready(st) && room > 0 && index < |st.pending| && Tagged(st.pending, tag, tags)
    ensures Filter(HasTag(tag, tags[index]), Emitted(st, room)) == st.pending[index]
    decreases Total(st.pending)
  {
    TotalZero(st.pending);
    if Total(st.pending) > 0 {
      var served, queue := index in BatchOf(st, room), st.pending[index];
      var next := After(st, room);
      AfterShrinks(st, room);
      BatchServesDistinctPeers(st, room);
      DropKeepsTags(st.pending, BatchOf(st, room), tag, tags);
      EmittedByPeer(next, room, tag, tags, index);
      HeadsOfPeer(st.pending, BatchOf(st, room), tag, tags, index);
      FilterConcat(HasTag(tag, tags[index]), Heads(st.pending, BatchOf(st, room)), Emitted(next, room));
      if served && queue != [] { ConsOf(queue); } else { EmptyPrefix(queue); }
    }
  }

  ghost predicate ServedWithin<T>(st: State<T>, room: nat, index: nat, batches: nat)
    requires Ready(st) && index < |st.pending|
    decreases batches
  {
    batches > 0 && (index in BatchOf(st, room) || ServedWithin(After(st, room), room, index, batches - 1))
  }

  /** One unfair batch brings a waiting peer closer by at least a full batch. */
  lemma PassedOver<T>(st: State<T>, room: nat, index: nat)
    requires Ready(st) && room > 0 && index < |st.pending| && st.pending[index] != []
    requires index !in BatchOf(st, room)
    ensures After(st, room).pending[index] == st.pending[index]
    ensures Distance(After(st, room).cursor, index, |st.pending|) + room <= Distance(st.cursor, index, |st.pending|)
  {
    var picks, n := BatchOf(st, room), |st.pending|;
    ScanIsGreedy(st.pending, st.cursor, 0, room, index);
    ScanIsOrdered(st.pending, st.cursor, 0, room);
    var last := picks[|picks| - 1];
    assert last in picks;
    assert room - 1 <= Distance(st.cursor, last, n) < Distance(st.cursor, index, n);
  }

  /** Fairness by distance: n batches of room places reach every pending peer nearer than n * room. */
  lemma {:induction false} FairByDistance<T>(st: State<T>, room: nat, index: nat, batches: nat)
    requires Ready(st) && room > 0 && index < |st.pending| && st.pending[index] != []
    requires Distance(st.cursor, index, |st.pending|) < batches * room
    ensures ServedWithin(st, room, index, batches)
    decreases batches
  {
    if batches > 0 && index !in BatchOf(st, room) {
      PassedOver(st, room, index);
      assert (batches - 1) * room == batches * room - room;
      FairByDistance(After(st, room), room, index, batches - 1);
    }
  }

  /** A peer with pending work is served within ceil(peers / room) consecutive batches, from any state. */
  lemma SchedulerIsFair<T>(st: State<T>, room: nat, index: nat)
    requires Ready(st) && room > 0 && index < |st.pending| && st.pending[index] != []
    ensures ServedWithin(st, room, index, (|st.pending| - 1) / room + 1)
  {
    var n := |st.pending|;
    var q := (n - 1) / room;
    assert n - 1 == q * room + (n - 1) % room;
    assert (q + 1) * room == q * room + room;
    FairByDistance(st, room, index, q + 1);
  }

  // ---------------------------------------------------------------- the loop

  datatype Batch = Batch(workBegin: nat, workCount: nat)

  /** Lays the batches of a run end to end from offset. */
  function Layout(batches: seq<seq<nat>>, offset: nat): seq<Batch> {
    if batches == [] then [] else [Batch(offset, |batches[0]|)] + Layout(batches[1..], offset + |batches[0]|)
  }

  function PendingFrom<T>(queues: seq<seq<T>>, cursors: seq<nat>): seq<seq<T>>
    requires |cursors| == |queues| && forall i | 0 <= i < |queues| :: cursors[i] <= |queues[i]|
  {
    seq(|queues|, i requires 0 <= i < |queues| => Range(queues[i], cursors[i], |queues[i]|))
  }

  ghost predicate CursorsAdvanced(before: seq<nat>, after: seq<nat>, picks: seq<nat>) {
    && |after| == |before|
    && forall i: nat | i < |before| :: after[i] == before[i] + (if i in picks then 1 else 0)
  }

  ghost predicate CursorsInside<T>(queues: seq<seq<T>>, cursors: seq<nat>) {
    |cursors| == |queues| && forall i | 0 <= i < |queues| :: cursors[i] <= |queues[i]|
  }

  /** The state of a batch under construction: what it has picked and what the rest of the scan would pick. */
  ghost predicate BatchSoFar<T>(
    queues: seq<seq<T>>, before: seq<nat>, begin: nat, scanned: nat, room: nat, picks: seq<nat>, works: seq<T>)
    requires CursorsInside(queues, before) && begin < |queues|
  {
    && scanned <= |queues| && |works| == |picks| <= room
    && picks + Scan(PendingFrom(queues, before), begin, scanned, room - |picks|)
       == Scan(PendingFrom(queues, before), begin, 0, room)
    && forall j | 0 <= j < |picks| ::
      && picks[j] < |queues| && before[picks[j]] < |queues[picks[j]]|
      && works[j] == queues[picks[j]][before[picks[j]]]
      && Distance(begin, picks[j], |queues|) < scanned
  }

  lemma ScanStep<T>(
    queues: seq<seq<T>>, before: seq<nat>, begin: nat, scanned: nat, room: nat, picks: seq<nat>, works: seq<T>)
    requires CursorsInside(queues, before) && begin < |queues| && scanned < |queues| && |works| < room
    requires BatchSoFar(queues, before, begin, scanned, room, picks, works)
    ensures var index := Wrap(begin + scanned, |queues|);
      && index !in picks
      && (before[index] < |queues[index]| ==>
            BatchSoFar(queues, before, begin, scanned + 1, room, picks + [index], works + [queues[index][before[index]]]))
      && (before[index] == |queues[index]| ==> BatchSoFar(queues, before, begin, scanned + 1, room, picks, works))
  {
    var index := Wrap(begin + scanned, |queues|);
    assert Distance(begin, index, |queues|) == scanned;
    var rest := Scan(PendingFrom(queues, before), begin, scanned + 1, room - |picks| - 1);
    assert picks + ([index] + rest) == (picks + [index]) + rest;
  }

  lemma {:induction false} TotalOfUpdate<T>(pending: seq<seq<T>>, i: nat, q: seq<T>)
    requires i < |pending|
    ensures Total(pending[i := q]) + |pending[i]| == Total(pending) + |q|
  {
    var init := pending[..|pending| - 1];
    if i < |init| {
      TotalOfUpdate(init, i, q);
      assert pending[i := q][..|init|] == init[i := q];
    } else {
      assert pending[i := q][..|init|] == init;
    }
  }

  lemma AdvanceOne<T>(queues: seq<seq<T>>, cursors: seq<nat>, i: nat)
    requires CursorsInside(queues, cursors) && i < |queues| && cursors[i] < |queues[i]|
    ensures CursorsInside(queues, cursors[i := cursors[i] + 1])
    ensures Total(PendingFrom(queues, cursors[i := cursors[i] + 1])) + 1 == Total(PendingFrom(queues, cursors))
  {
    var pending := PendingFrom(queues, cursors);
    TotalOfUpdate(pending, i, Range(queues[i], cursors[i] + 1, |queues[i]|));
    assert PendingFrom(queues, cursors[i := cursors[i] + 1]) == pending[i := Range(queues[i], cursors[i] + 1, |queues[i]|)];
  }

  /** A batch under construction: what is picked, where the cursors are and how much is left. */
  ghost predicate Filling<T>(
    queues: seq<seq<T>>, before: seq<nat>, begin: nat, scanned: nat, room: nat, picks: seq<nat>, works: seq<T>,
    cursors: seq<nat>, lastIndex: nat, remaining: nat)
    requires CursorsInside(queues, before) && begin < |queues|
  {
    && BatchSoFar(queues, before, begin, scanned, room, picks, works)
    && CursorsInside(queues, cursors) && CursorsAdvanced(before, cursors, picks)
    && lastIndex == (if picks == [] then begin else picks[|picks| - 1])
    && remaining == Total(PendingFrom(queues, cursors))
  }

  lemma FillTake<T>(
    queues: seq<seq<T>>, before: seq<nat>, begin: nat, scanned: nat, room: nat, picks: seq<nat>, works: seq<T>,
    cursors: seq<nat>, lastIndex: nat, remaining: nat, index: nat)
    requires CursorsInside(queues, before) && begin < |queues| && scanned < |queues| && |works| < room
    requires Filling(queues, before, begin, scanned, room, picks, works, cursors, lastIndex, remaining)
    requires index == Wrap(begin + scanned, |queues|) && cursors[index] < |queues[index]|
    ensures remaining > 0
    ensures Filling(
      queues, before, begin, scanned + 1, room, picks + [index], works + [queues[index][cursors[index]]],
      cursors[index := cursors[index] + 1], index, remaining - 1)
  {
    ScanStep(queues, before, begin, scanned, room, picks, works);
    AdvanceOne(queues, cursors, index);
  }

  lemma FillSkip<T>(
    queues: seq<seq<T>>, before: seq<nat>, begin: nat, scanned: nat, room: nat, picks: seq<nat>, works: seq<T>,
    cursors: seq<nat>, lastIndex: nat, remaining: nat, index: nat)
    requires CursorsInside(queues, before) && begin < |queues| && scanned < |queues| && |works| < room
    requires Filling(queues, before, begin, scanned, room, picks, works, cursors, lastIndex, remaining)
    requires index == Wrap(begin + scanned, |queues|) && cursors[index] == |queues[index]|
    ensures Filling(queues, before, begin, scanned + 1, room, picks, works, cursors, lastIndex, remaining)
  {
    ScanStep(queues, before, begin, scanned, room, picks, works);
  }

  /** Looks at one peer: takes its next work if it has one. */
  method FillOne<T>(
    queues: seq<seq<T>>, ghost before: seq<nat>, begin: nat, scanned: nat, ghost room: nat, ghost picks: seq<nat>,
    works: seq<T>, cursors: seq<nat>, lastIndex: nat, remaining: nat)
    returns (ghost picks': seq<nat>, works': seq<T>, cursors': seq<nat>, lastIndex': nat, remaining': nat)
    requires CursorsInside(queues, before) && begin < |queues| && scanned < |queues| && |works| < room
    requires Filling(queues, before, begin, scanned, room, picks, works, cursors, lastIndex, remaining)
    ensures Filling(queues, before, begin, scanned + 1, room, picks', works', cursors', lastIndex', remaining')
    ensures |works'| <= room
  {
    var index := Wrap(begin + scanned, |queues|);
    picks', works', cursors', lastIndex', remaining' := picks, works, cursors, lastIndex, remaining;
    if cursors[index] < |queues[index]| {
      FillTake(queues, before, begin, scanned, room, picks, works, cursors, lastIndex, remaining, index);
      works' := works + [queues[index][cursors[index]]];
      cursors' := cursors[index := cursors[index] + 1];
      remaining' := remaining - 1;
      lastIndex' := index;
      picks' := picks + [index];
    } else {
      FillSkip(queues, before, begin, scanned, room, picks, works, cursors, lastIndex, remaining, index);
    }
  }

  /** Fills one batch: advances the cursors of the peers it serves and counts their works off. */
  method FillBatch<T>(queues: seq<seq<T>>, before: seq<nat>, begin: nat, room: nat, pendingCount: nat)
    returns (cursors: seq<nat>, works: seq<T>, lastIndex: nat, remaining: nat)
    requires CursorsInside(queues, before) && begin < |queues| && pendingCount == Total(PendingFrom(queues, before))
    ensures Filling(
      queues, before, begin, |queues|, room, Scan(PendingFrom(queues, before), begin, 0, room), works, cursors,
      lastIndex, remaining)
  {
    cursors, works, lastIndex, remaining := before, [], begin, pendingCount;
    ghost var picks: seq<nat> := [];
    var scanned := 0;
    FillStart(queues, before, begin, room);
    while scanned < |queues| && |works| < room
      invariant Filling(queues, before, begin, scanned, room, picks, works, cursors, lastIndex, remaining)
      invariant scanned <= |queues| && |works| <= room
      decreases |queues| - scanned
    {
      picks, works, cursors, lastIndex, remaining :=
        FillOne(queues, before, begin, scanned, room, picks, works, cursors, lastIndex, remaining);
      scanned := scanned + 1;
    }
    FillEnd(queues, before, begin, scanned, room, picks, works, cursors, lastIndex, remaining);
  }

  lemma FillEnd<T>(
    queues: seq<seq<T>>, before: seq<nat>, begin: nat, scanned: nat, room: nat, picks: seq<nat>, works: seq<T>,
    cursors: seq<nat>, lastIndex: nat, remaining: nat)
    requires CursorsInside(queues, before) && begin < |queues|
    requires Filling(queues, before, begin, scanned, room, picks, works, cursors, lastIndex, remaining)
    requires scanned == |queues| || |works| == room
    ensures Filling(
      queues, before, begin, |queues|, room, Scan(PendingFrom(queues, before), begin, 0, room), works, cursors,
      lastIndex, remaining)
  {
    ScanEnd(queues, before, begin, scanned, room, picks, works);
  }

  lemma FillStart<T>(queues: seq<seq<T>>, before: seq<nat>, begin: nat, room: nat)
    requires CursorsInside(queues, before) && begin < |queues|
    ensures Filling(queues, before, begin, 0, room, [], [], before, begin, Total(PendingFrom(queues, before)))
  {
    EmptyPrefix(Scan(PendingFrom(queues, before), begin, 0, room));
  }

  lemma ScanEnd<T>(
    queues: seq<seq<T>>, before: seq<nat>, begin: nat, scanned: nat, room: nat, picks: seq<nat>, works: seq<T>)
    requires CursorsInside(queues, before) && begin < |queues|
    requires BatchSoFar(queues, before, begin, scanned, room, picks, works)
    requires scanned == |queues| || |works| == room
    ensures picks == Scan(PendingFrom(queues, before), begin, 0, room)
    ensures BatchSoFar(queues, before, begin, |queues|, room, picks, works)
  {
    assert Scan(PendingFrom(queues, before), begin, scanned, room - |picks|) == [];
    assert Scan(PendingFrom(queues, before), begin, |queues|, room - |picks|) == [];
    EmptySuffix(picks);
  }

  lemma AdvancedIsDropped<T>(queues: seq<seq<T>>, before: seq<nat>, after: seq<nat>, picks: seq<nat>)
    requires CursorsInside(queues, before) && CursorsInside(queues, after) && CursorsAdvanced(before, after, picks)
    ensures PendingFrom(queues, after) == Drop(PendingFrom(queues, before), picks)
  {
    forall i: nat | i < |queues|
      ensures PendingFrom(queues, after)[i] == Drop(PendingFrom(queues, before), picks)[i]
    {
      if i in picks {
        assert Range(queues[i], after[i], |queues[i]|) == Range(queues[i], before[i], |queues[i]|)[1..];
      }
    }
  }

  /** One pass of the scheduling loop performs exactly one step of the abstract run. */
  lemma BatchIsStep<T>(
    queues: seq<seq<T>>, before: seq<nat>, after: seq<nat>, begin: nat, room: nat, picks: seq<nat>, works: seq<T>,
    lastIndex: nat)
    requires CursorsInside(queues, before) && begin < |queues| && room > 0
    requires picks == Scan(PendingFrom(queues, before), begin, 0, room)
    requires BatchSoFar(queues, before, begin, |queues|, room, picks, works)
    requires CursorsInside(queues, after) && CursorsAdvanced(before, after, picks)
    requires lastIndex == if picks == [] then begin else picks[|picks| - 1]
    requires Total(PendingFrom(queues, before)) > 0
    ensures var st := State(PendingFrom(queues, before), begin);
      && lastIndex < |queues|
      && After(st, room) == State(PendingFrom(queues, after), Wrap(lastIndex + 1, |queues|))
      && Emitted(st, room) == works + Emitted(After(st, room), room)
      && Batches(st, room) == [picks] + Batches(After(st, room), room)
      && |works| == |picks| > 0
  {
    var st := State(PendingFrom(queues, before), begin);
    AdvancedIsDropped(queues, before, after, picks);
    AfterShrinks(st, room);
    BatchServesDistinctPeers(st, room);
    assert works == Heads(st.pending, picks);
    TotalZero(st.pending);
    var index :| 0 <= index < |st.pending| && st.pending[index] != [];
    BatchIsNotEmpty(st, room, index);
  }

  /** What has been scheduled so far, continued by the abstract run of what is pending, is the whole run. */
  ghost predicate RunSoFar<T>(
    queues: seq<seq<T>>, cursors: seq<nat>, peerCursor: nat, room: nat, firstWork: nat, works: seq<T>, batches: seq<Batch>)
    requires room > 0
  {
    && CursorsInside(queues, cursors) && peerCursor < |queues|
    && var st := State(PendingFrom(queues, cursors), peerCursor);
       Continues(
         Emitted(State(queues, 0), room), Layout(Batches(State(queues, 0), room), firstWork),
         Emitted(st, room), Batches(st, room), firstWork, works, batches)
  }

  /** Works and batches so far, followed by those of the remaining picks, give all works and batches. */
  ghost predicate Continues<T>(
    allWorks: seq<T>, allBatches: seq<Batch>, restWorks: seq<T>, restPicks: seq<seq<nat>>, firstWork: nat,
    works: seq<T>, batches: seq<Batch>)
  {
    && works + restWorks == allWorks
    && batches + Layout(restPicks, firstWork + |works|) == allBatches
  }

  lemma ContinuesStep<T>(
    allWorks: seq<T>, allBatches: seq<Batch>, restWorks: seq<T>, restPicks: seq<seq<nat>>, firstWork: nat,
    works: seq<T>, batches: seq<Batch>, picks: seq<nat>, batch: seq<T>)
    requires Continues(allWorks, allBatches, batch + restWorks, [picks] + restPicks, firstWork, works, batches)
    requires |batch| == |picks|
    ensures Continues(
      allWorks, allBatches, restWorks, restPicks, firstWork, works + batch,
      batches + [Batch(firstWork + |works|, |batch|)])
  {
    var offset := firstWork + |works|;
    LayoutCons(picks, restPicks, offset);
    Associate(works, batch, restWorks);
    Associate(batches, [Batch(offset, |batch|)], Layout(restPicks, offset + |batch|));
  }

  lemma LayoutCons(picks: seq<nat>, rest: seq<seq<nat>>, offset: nat)
    ensures Layout([picks] + rest, offset) == [Batch(offset, |picks|)] + Layout(rest, offset + |picks|)
  {
    assert ([picks] + rest)[1..] == rest;
  }

  lemma RunStep<T>(
    queues: seq<seq<T>>, before: seq<nat>, after: seq<nat>, begin: nat, room: nat, firstWork: nat,
    works: seq<T>, batches: seq<Batch>, picks: seq<nat>, batch: seq<T>, lastIndex: nat)
    requires room > 0 && RunSoFar(queues, before, begin, room, firstWork, works, batches)
    requires picks == Scan(PendingFrom(queues, before), begin, 0, room)
    requires BatchSoFar(queues, before, begin, |queues|, room, picks, batch)
    requires CursorsInside(queues, after) && CursorsAdvanced(before, after, picks)
    requires lastIndex == if picks == [] then begin else picks[|picks| - 1]
    requires Total(PendingFrom(queues, before)) > 0
    ensures |batch| > 0 && lastIndex < |queues|
    ensures Total(PendingFrom(queues, after)) < Total(PendingFrom(queues, before))
    ensures RunSoFar(
      queues, after, Wrap(lastIndex + 1, |queues|), room, firstWork,
      works + batch, batches + [Batch(firstWork + |works|, |batch|)])
  {
    var st := State(PendingFrom(queues, before), begin);
    BatchIsStep(queues, before, after, begin, room, picks, batch, lastIndex);
    AfterShrinks(st, room);
    ContinuesStep(
      Emitted(State(queues, 0), room), Layout(Batches(State(queues, 0), room), firstWork),
      Emitted(After(st, room), room), Batches(After(st, room), room), firstWork, works, batches, picks, batch);
  }

  /** Schedules one channel. The error branch for a scheduler without progress is unreachable. */
  method ScheduleChannel<T>(queues: seq<seq<T>>, room: nat, firstWork: nat)
    returns (works: seq<T>, batches: seq<Batch>)
    requires room > 0 && queues != []
    ensures works == Emitted(State(queues, 0), room)
    ensures batches == Layout(Batches(State(queues, 0), room), firstWork)
  {
    works, batches := [], [];
    var cursors := seq(|queues|, _ => 0);
    var peerCursor: nat := 0;
    RunStarts(queues, cursors, room, firstWork);
    var remaining := Total(queues);
    while remaining != 0
      invariant RunSoFar(queues, cursors, peerCursor, room, firstWork, works, batches)
      invariant remaining == Total(PendingFrom(queues, cursors))
      decreases remaining
    {
      var advanced, batch, lastIndex, left := FillBatch(queues, cursors, peerCursor, room, remaining);
      ghost var picks := Scan(PendingFrom(queues, cursors), peerCursor, 0, room);
      RunStep(queues, cursors, advanced, peerCursor, room, firstWork, works, batches, picks, batch, lastIndex);
      if |batch| == 0 {
        assert false;
      }
      batches := batches + [Batch(firstWork + |works|, |batch|)];
      works := works + batch;
      cursors, remaining := advanced, left;
      peerCursor := Wrap(lastIndex + 1, |queues|);
    }
    RunEnds(queues, cursors, peerCursor, room, firstWork, works, batches);
  }

  lemma RunStarts<T>(queues: seq<seq<T>>, cursors: seq<nat>, room: nat, firstWork: nat)
    requires room > 0 && queues != [] && |cursors| == |queues| && forall i | 0 <= i < |cursors| :: cursors[i] == 0
    ensures RunSoFar(queues, cursors, 0, room, firstWork, [], []) && PendingFrom(queues, cursors) == queues
  {
    forall i | 0 <= i < |queues| ensures PendingFrom(queues, cursors)[i] == queues[i] {
      RangeAll(queues[i]);
    }
    assert PendingFrom(queues, cursors) == queues;
  }

  lemma RunEnds<T>(
    queues: seq<seq<T>>, cursors: seq<nat>, peerCursor: nat, room: nat, firstWork: nat, works: seq<T>, batches: seq<Batch>)
    requires room > 0 && RunSoFar(queues, cursors, peerCursor, room, firstWork, works, batches)
    requires Total(PendingFrom(queues, cursors)) == 0
    ensures works == Emitted(State(queues, 0), room) && batches == Layout(Batches(State(queues, 0), room), firstWork)
  {
  }
}
