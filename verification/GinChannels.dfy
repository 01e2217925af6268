/**
 The channel budget of network peers: a first pass gives every peer enough channels for
 its FIFO windows, a second doubles the channels of the heaviest peers while the budget
 lasts.
 */
module GinChannels {
  import opened Basics
  import opened SequenceFacts
  import opened Sequences
  import opened PowersOfTwo
  import opened StreamPartition

  // ---------------------------------------------------------------- rounding up

  function RaisedFrom(result: nat, value: nat): (r: nat)
    requires result > 0
    ensures r >= result
    decreases MAX_CHANNELS - result
  {
    if result < value && result < MAX_CHANNELS then RaisedFrom(2 * result, value) else result
  }

  function PowerOfTwoUp(value: nat): (r: nat)
    ensures r > 0
  {
    RaisedFrom(1, value)
  }

  method RoundUp(value: nat) returns (result: nat)
    ensures result == PowerOfTwoUp(value)
  {
    result := 1;
    while result < value && result < MAX_CHANNELS
      invariant result > 0 && RaisedFrom(result, value) == PowerOfTwoUp(value)
      decreases MAX_CHANNELS - result
    {
      result := result * 2;
    }
  }

  lemma {:induction false} RaisedFacts(result: nat, value: nat)
    requires PowerOfTwo(result) && 0 < result <= MAX_CHANNELS
    ensures var r := RaisedFrom(result, value);
      PowerOfTwo(r) && result <= r <= MAX_CHANNELS && (value <= r || r == MAX_CHANNELS) && (r == result || r < 2 * value)
    decreases MAX_CHANNELS - result
  {
    if result < value && result < MAX_CHANNELS {
      assert Pow2(6) == MAX_CHANNELS by { assert Pow2(3) == 8; }
      DoubleBelow(result, MAX_CHANNELS);
      Doubled(result);
      RaisedFacts(2 * result, value);
    }
  }

  /** The least power of two not below value, or the channel maximum. */
  lemma PowerOfTwoUpFacts(value: nat)
    ensures var r := PowerOfTwoUp(value);
      PowerOfTwo(r) && 1 <= r <= MAX_CHANNELS && (value <= r || r == MAX_CHANNELS) && (r == 1 || r < 2 * value)
  {
    assert Pow2(0) == 1;
    RaisedFacts(1, value);
  }

  // ---------------------------------------------------------------- the two passes

  /** What the counts depend on; payload bytes are indexed by rank. */
  datatype Budget = Budget(connections: nat, total: nat, windowBytes: nat, payload: seq<nat>) {
    function Base(): nat { Min(total, PowerOfTwoUp(2 * connections)) }

    function Channels(): nat { Min(total, 6 * connections) }

    predicate Valid() { windowBytes > 0 }

    ghost predicate WellSized() { Valid() && PowerOfTwo(total) && total <= MAX_CHANNELS }
  }

  function DivideUp(value: nat, divisor: nat): nat
    requires divisor > 0
  {
    value / divisor + (if value % divisor != 0 then 1 else 0)
  }

  predicate InTable(peers: seq<nat>, size: nat) {
    forall i | 0 <= i < |peers| :: peers[i] < size
  }

  predicate Placed(peers: seq<nat>, table: seq<nat>) {
    forall i | 0 <= i < |peers| :: peers[i] < |table| && table[peers[i]] > 0
  }

  /** The sum of the entries of the listed ranks. */
  function Total(table: seq<nat>, peers: seq<nat>): nat {
    if peers == [] then 0
    else
      var last := peers[|peers| - 1];
      Total(table, peers[..|peers| - 1]) + (if last < |table| then table[last] else 0)
  }

  /** A power of two for the FIFO windows the peer's payload fills, counted up to the base. */
  function WindowChannels(b: Budget, peer: nat): (r: nat)
    requires b.Valid() && peer < |b.payload|
    ensures r > 0
  {
    PowerOfTwoUp(Min(b.Base(), Max(1, DivideUp(b.payload[peer], b.windowBytes))))
  }

  /** The table after the first k peers got their window channels. */
  function FirstPass(b: Budget, peers: seq<nat>, k: nat, table: seq<nat>): (r: seq<nat>)
    requires b.Valid() && |table| == |b.payload| && InTable(peers, |table|) && k <= |peers|
    ensures |r| == |table|
    ensures forall i | 0 <= i < k :: r[peers[i]] == WindowChannels(b, peers[i])
    ensures forall p: nat | p < |table| && p !in peers :: r[p] == table[p]
  {
    if k == 0 then table
    else FirstPass(b, peers, k - 1, table)[peers[k - 1] := WindowChannels(b, peers[k - 1])]
  }

  /** The peer's share of the budget by payload. */
  function WeightedDemand(b: Budget, peer: nat, totalBytes: nat): nat
    requires peer < |b.payload|
  {
    if totalBytes == 0 then 1 else DivideUp(b.Channels() * b.payload[peer], totalBytes)
  }

  datatype Growth = Growth(channels: nat, remaining: nat)

  /** The budget pays for another doubling, the demand wants it and the channel total allows it. */
  predicate CanDouble(channels: nat, remaining: nat, demand: nat, total: nat) {
    channels <= remaining && 2 * channels <= demand && channels <= total / 2
  }

  function Grow(channels: nat, remaining: nat, demand: nat, total: nat): (g: Growth)
    requires channels > 0
    ensures g.channels >= channels
    decreases remaining
  {
    if CanDouble(channels, remaining, demand, total) then
      Grow(2 * channels, remaining - channels, demand, total)
    else Growth(channels, remaining)
  }

  lemma {:induction false} GrowFacts(channels: nat, remaining: nat, demand: nat, total: nat)
    requires channels > 0 && PowerOfTwo(channels) && channels <= total
    ensures var g := Grow(channels, remaining, demand, total);
      && g.channels + g.remaining == channels + remaining
      && PowerOfTwo(g.channels) && g.channels <= total
      && (g.channels == channels || g.channels <= demand)
      && !CanDouble(g.channels, g.remaining, demand, total)
    decreases remaining
  {
    if CanDouble(channels, remaining, demand, total) {
      Doubled(channels);
      GrowFacts(2 * channels, remaining - channels, demand, total);
    }
  }

  datatype Pass = Pass(table: seq<nat>, remaining: nat)

  function GrowPeer(b: Budget, pass: Pass, peer: nat, totalBytes: nat): (r: Pass)
    requires |pass.table| == |b.payload| && peer < |pass.table| && pass.table[peer] > 0
    ensures |r.table| == |pass.table| && r.table[peer] >= pass.table[peer]
  {
    var g := Grow(pass.table[peer], pass.remaining, WeightedDemand(b, peer, totalBytes), b.total);
    Pass(pass.table[peer := g.channels], g.remaining)
  }

  /** The table and the budget left after the first k peers of the order grew. */
  function SecondPass(b: Budget, order: seq<nat>, k: nat, start: Pass, totalBytes: nat): (r: Pass)
    requires |start.table| == |b.payload| && Placed(order, start.table) && k <= |order|
    ensures |r.table| == |start.table| && Placed(order, r.table)
    ensures forall p: nat | p < |r.table| && p !in order :: r.table[p] == start.table[p]
  {
    if k == 0 then start
    else GrowPeer(b, SecondPass(b, order, k - 1, start, totalBytes), order[k - 1], totalBytes)
  }

  // ---------------------------------------------------------------- what the passes guarantee

  ghost predicate SoundCount(b: Budget, channels: nat) {
    PowerOfTwo(channels) && 1 <= channels <= b.total
  }

  /** Every peer's entry is a power of two between one and the channel total. */
  ghost predicate Sound(b: Budget, peers: seq<nat>, table: seq<nat>) {
    forall i | 0 <= i < |peers| :: peers[i] < |table| && SoundCount(b, table[peers[i]])
  }

  lemma WindowChannelsSound(b: Budget, peer: nat)
    requires b.WellSized() && peer < |b.payload|
    ensures PowerOfTwo(WindowChannels(b, peer)) && WindowChannels(b, peer) <= b.Base() <= b.total
  {
    var base := b.Base();
    PowerOfTwoUpFacts(2 * b.connections);
    var demand := Min(base, Max(1, DivideUp(b.payload[peer], b.windowBytes)));
    PowerOfTwoUpFacts(demand);
    if PowerOfTwoUp(demand) > base { DoubleBelow(base, PowerOfTwoUp(demand)); }
  }

  lemma FirstPassSound(b: Budget, peers: seq<nat>, table: seq<nat>)
    requires b.WellSized() && |table| == |b.payload| && InTable(peers, |table|)
    ensures Sound(b, peers, FirstPass(b, peers, |peers|, table))
  {
    forall i | 0 <= i < |peers|
      ensures PowerOfTwo(WindowChannels(b, peers[i])) && WindowChannels(b, peers[i]) <= b.total
    {
      WindowChannelsSound(b, peers[i]);
    }
  }

  lemma {:induction false} TotalUntouched(table: seq<nat>, peers: seq<nat>, p: nat, v: nat)
    requires p < |table| && p !in peers
    ensures Total(table[p := v], peers) == Total(table, peers)
  {
    if peers != [] {
      assert peers[|peers| - 1] in peers;
      TotalUntouched(table, peers[..|peers| - 1], p, v);
    }
  }

  lemma {:induction false} TotalUpdate(table: seq<nat>, peers: seq<nat>, k: nat, v: nat)
    requires Distinct(peers) && k < |peers| && peers[k] < |table|
    ensures Total(table[peers[k] := v], peers) + table[peers[k]] == Total(table, peers) + v
  {
    var init := peers[..|peers| - 1];
    if k < |init| {
      TotalUpdate(table, init, k, v);
    } else {
      TotalUntouched(table, init, peers[k], v);
    }
  }

  /** Growth above the first pass stays within the demand, and no affordable doubling is left undone. */
  predicate Settled(b: Budget, peer: nat, first: nat, channels: nat, remaining: nat, totalBytes: nat)
    requires peer < |b.payload|
  {
    var demand := WeightedDemand(b, peer, totalBytes);
    channels <= Max(first, demand) && !CanDouble(channels, remaining, demand, b.total)
  }

  /** What the second pass keeps: soundness, the channels in play, and every grown peer settled. */
  ghost predicate Grown(b: Budget, order: seq<nat>, k: nat, start: Pass, r: Pass, totalBytes: nat)
    requires |start.table| == |r.table| == |b.payload| && InTable(order, |b.payload|) && k <= |order|
  {
    && Sound(b, order, r.table)
    && Total(r.table, order) + r.remaining == Total(start.table, order) + start.remaining
    && (forall i | k <= i < |order| :: r.table[order[i]] == start.table[order[i]])
    && forall i | 0 <= i < k ::
         Settled(b, order[i], start.table[order[i]], r.table[order[i]], r.remaining, totalBytes)
  }

  lemma GrownStep(b: Budget, order: seq<nat>, k: nat, start: Pass, before: Pass, totalBytes: nat) returns (r: Pass)
    requires |start.table| == |before.table| == |b.payload| && InTable(order, |b.payload|) && Distinct(order)
    requires 0 < k <= |order| && Grown(b, order, k - 1, start, before, totalBytes)
    ensures before.table[order[k - 1]] > 0
    ensures r == GrowPeer(b, before, order[k - 1], totalBytes)
    ensures |r.table| == |b.payload| && Grown(b, order, k, start, r, totalBytes)
  {
    var p := order[k - 1];
    var demand := WeightedDemand(b, p, totalBytes);
    GrowFacts(before.table[p], before.remaining, demand, b.total);
    r := GrowPeer(b, before, p, totalBytes);
    TotalUpdate(before.table, order, k - 1, r.table[p]);
  }

  lemma {:induction false} SecondPassGrows(b: Budget, order: seq<nat>, k: nat, start: Pass, totalBytes: nat)
    returns (r: Pass)
    requires |start.table| == |b.payload| && InTable(order, |b.payload|) && Distinct(order)
    requires k <= |order| && Placed(order, start.table) && Sound(b, order, start.table)
    ensures r == SecondPass(b, order, k, start, totalBytes)
    ensures |r.table| == |b.payload| && Grown(b, order, k, start, r, totalBytes)
  {
    if k == 0 {
      r := start;
    } else {
      var before := SecondPassGrows(b, order, k - 1, start, totalBytes);
      r := GrownStep(b, order, k, start, before, totalBytes);
    }
  }

  // ---------------------------------------------------------------- the order of the second pass

  predicate Heavier(b: Budget, x: nat, y: nat) {
    (if x < |b.payload| then b.payload[x] else 0) >= (if y < |b.payload| then b.payload[y] else 0)
  }

  /** Heaviest payload first. */
  function ByPayload(b: Budget, peers: seq<nat>): seq<nat> {
    Sort((x: nat, y: nat) => Heavier(b, x, y), peers)
  }

  function Entry(table: seq<nat>, p: nat): nat {
    if p < |table| then table[p] else 0
  }

  lemma TotalSnoc(table: seq<nat>, init: seq<nat>, last: nat)
    ensures Total(table, init + [last]) == Total(table, init) + Entry(table, last)
  {
    SnocParts(init, last);
  }

  lemma {:induction false} InsertTotal(le: (nat, nat) -> bool, table: seq<nat>, s: seq<nat>, x: nat)
    ensures Total(table, Insert(le, s, x)) == Total(table, s) + Entry(table, x)
  {
    if s != [] && !le(s[|s| - 1], x) {
      var init, last := s[..|s| - 1], s[|s| - 1];
      InsertTotal(le, table, init, x);
      TotalSnoc(table, Insert(le, init, x), last);
    } else {
      TotalSnoc(table, s, x);
    }
  }

  lemma {:induction false} SortTotal(le: (nat, nat) -> bool, table: seq<nat>, s: seq<nat>)
    ensures Total(table, Sort(le, s)) == Total(table, s)
  {
    if s != [] {
      SortTotal(le, table, s[..|s| - 1]);
      InsertTotal(le, table, Sort(le, s[..|s| - 1]), s[|s| - 1]);
    }
  }

  lemma SameMembers(a: seq<nat>, b: seq<nat>)
    requires multiset(a) == multiset(b)
    ensures forall y :: y in a <==> y in b
  {
    forall y ensures y in a <==> y in b {
      assert y in a <==> y in multiset(a);
      assert y in b <==> y in multiset(b);
    }
  }

  lemma DistinctPermutes(a: seq<nat>, b: seq<nat>)
    requires Distinct(a) && multiset(a) == multiset(b)
    ensures Distinct(b)
  {
    forall i, j | 0 <= i < j < |b| ensures b[i] != b[j] {
      AtMostOnce(a, b[i]);
      if b[i] == b[j] { TwoOccurrences(b, i, j); }
    }
  }

  /** Sorting by payload keeps the peers, their sum and their distinctness. */
  lemma OrderKeeps(b: Budget, peers: seq<nat>)
    ensures forall y :: y in ByPayload(b, peers) <==> y in peers
    ensures Distinct(peers) ==> Distinct(ByPayload(b, peers))
    ensures forall size: nat :: InTable(peers, size) ==> InTable(ByPayload(b, peers), size)
  {
    var order := ByPayload(b, peers);
    SortPermutes((x: nat, y: nat) => Heavier(b, x, y), peers);
    SameMembers(order, peers);
    if Distinct(peers) { DistinctPermutes(peers, order); }
    forall i | 0 <= i < |order| ensures order[i] in peers { }
  }

  // ---------------------------------------------------------------- the configuration

  lemma FindPeer(peers: seq<nat>, p: nat) returns (i: nat)
    requires p in peers
    ensures i < |peers| && peers[i] == p
  {
    i :| i < |peers| && peers[i] == p;
  }

  lemma OrderPlaced(b: Budget, peers: seq<nat>, table: seq<nat>)
    requires Placed(peers, table)
    ensures Placed(ByPayload(b, peers), table)
  {
    OrderKeeps(b, peers);
    var order := ByPayload(b, peers);
    forall i | 0 <= i < |order| ensures order[i] < |table| && table[order[i]] > 0 {
      assert order[i] in order;
      var j := FindPeer(peers, order[i]);
    }
  }

  function Left(b: Budget, taken: nat): nat {
    if taken < b.Channels() then b.Channels() - taken else 0
  }

  /** The channels of several network peers. */
  function SharedChannels(b: Budget, peers: seq<nat>, table: seq<nat>): (r: seq<nat>)
    requires b.Valid() && |table| == |b.payload| && InTable(peers, |table|)
    ensures |r| == |table|
  {
    var first := FirstPass(b, peers, |peers|, table);
    var order := ByPayload(b, peers);
    OrderKeeps(b, peers);
    OrderPlaced(b, peers, first);
    SecondPass(b, order, |order|, Pass(first, Left(b, Total(first, peers))), Total(b.payload, peers)).table
  }

  /** The table after the configuration: no network peer, one, or several. */
  function Configured(b: Budget, peers: seq<nat>, table: seq<nat>): (r: seq<nat>)
    requires b.Valid() && |table| == |b.payload| && InTable(peers, |table|)
    ensures |r| == |table|
  {
    if peers == [] then table
    else if |peers| == 1 then table[peers[0] := Min(b.total, PowerOfTwoUp(b.Channels()))]
    else SharedChannels(b, peers, table)
  }

  lemma SettledWithLess(b: Budget, peer: nat, first: nat, channels: nat, more: nat, less: nat, totalBytes: nat)
    requires peer < |b.payload| && less <= more && Settled(b, peer, first, channels, more, totalBytes)
    ensures Settled(b, peer, first, channels, less, totalBytes)
  {
  }

  /** The second pass in payload order, read in the order of the peers. */
  lemma SecondPassSound(b: Budget, peers: seq<nat>, start: Pass, totalBytes: nat) returns (r: Pass)
    requires |start.table| == |b.payload| && InTable(peers, |b.payload|) && Distinct(peers)
    requires Placed(peers, start.table) && Sound(b, peers, start.table)
    ensures Placed(ByPayload(b, peers), start.table)
    ensures r == SecondPass(b, ByPayload(b, peers), |ByPayload(b, peers)|, start, totalBytes)
    ensures |r.table| == |b.payload| && Sound(b, peers, r.table)
    ensures forall p: nat | p < |r.table| && p !in peers :: r.table[p] == start.table[p]
    ensures Total(r.table, peers) + r.remaining == Total(start.table, peers) + start.remaining
    ensures forall i | 0 <= i < |peers| ::
      Settled(b, peers[i], start.table[peers[i]], r.table[peers[i]], r.remaining, totalBytes)
  {
    var order := ByPayload(b, peers);
    OrderKeeps(b, peers);
    OrderPlaced(b, peers, start.table);
    SoundPermutes(b, peers, order, start.table);
    r := SecondPassGrows(b, order, |order|, start, totalBytes);
    SortTotal((x: nat, y: nat) => Heavier(b, x, y), start.table, peers);
    SortTotal((x: nat, y: nat) => Heavier(b, x, y), r.table, peers);
    SoundPermutes(b, order, peers, r.table);
    forall i | 0 <= i < |peers|
      ensures Settled(b, peers[i], start.table[peers[i]], r.table[peers[i]], r.remaining, totalBytes)
    {
      assert peers[i] in peers;
      var j := FindPeer(order, peers[i]);
    }
  }

  /**
   With several network peers every count is a power of two no larger than the channel
   total; the counts together stay within the budget, or within the first pass if that alone
   exceeds it; a count above its first pass stays within the peer's share; no peer is left
   that the unspent budget could still double; and other ranks' entries are untouched.
   */
  lemma SharedChannelsSound(b: Budget, peers: seq<nat>, table: seq<nat>)
    requires b.WellSized() && |table| == |b.payload| && InTable(peers, |table|) && Distinct(peers)
    ensures var r, first := SharedChannels(b, peers, table), FirstPass(b, peers, |peers|, table);
      && Sound(b, peers, r)
      && Total(r, peers) <= Max(Total(first, peers), b.Channels())
      && (forall i | 0 <= i < |peers| ::
            Settled(b, peers[i], WindowChannels(b, peers[i]), r[peers[i]], Left(b, Total(r, peers)),
                    Total(b.payload, peers)))
      && forall p: nat | p < |table| && p !in peers :: r[p] == table[p]
  {
    var first := FirstPass(b, peers, |peers|, table);
    var bytes := Total(b.payload, peers);
    var start := Pass(first, Left(b, Total(first, peers)));
    FirstPassSound(b, peers, table);
    var last := SecondPassSound(b, peers, start, bytes);
    forall i | 0 <= i < |peers|
      ensures Settled(b, peers[i], WindowChannels(b, peers[i]), last.table[peers[i]],
                      Left(b, Total(last.table, peers)), bytes)
    {
      SettledWithLess(b, peers[i], first[peers[i]], last.table[peers[i]], last.remaining,
                      Left(b, Total(last.table, peers)), bytes);
    }
  }

  lemma SoundPermutes(b: Budget, peers: seq<nat>, order: seq<nat>, table: seq<nat>)
    requires Sound(b, peers, table) && forall y :: y in order <==> y in peers
    ensures Sound(b, order, table)
  {
    forall i | 0 <= i < |order|
      ensures order[i] < |table| && SoundCount(b, table[order[i]])
    {
      assert order[i] in order;
      var j := FindPeer(peers, order[i]);
    }
  }

  lemma HeaviestFirst(b: Budget, peers: seq<nat>)
    ensures forall i, j | 0 <= i < j < |ByPayload(b, peers)| ::
      Entry(b.payload, ByPayload(b, peers)[i]) >= Entry(b.payload, ByPayload(b, peers)[j])
  {
    var le := (x: nat, y: nat) => Heavier(b, x, y);
    SortSorts(le, peers);
    forall i, j | 0 <= i < j < |ByPayload(b, peers)| ensures le(ByPayload(b, peers)[i], ByPayload(b, peers)[j]) { }
  }

  function Widest(table: seq<nat>, peers: seq<nat>, k: nat): nat
    requires InTable(peers, |table|) && k <= |peers|
  {
    if k == 0 then 1 else Max(Widest(table, peers, k - 1), table[peers[k - 1]])
  }

  predicate IsNetwork(isGin: seq<bool>, p: nat) { p < |isGin| && isGin[p] }

  function NetworkPeers(isGin: seq<bool>, active: seq<nat>): seq<nat> {
    Filter((p: nat) => IsNetwork(isGin, p), active)
  }

  /** Adding a listed rank extends the list of network peers by it, or leaves the list. */
  lemma SelectNext(isGin: seq<bool>, init: seq<nat>, peer: nat)
    ensures NetworkPeers(isGin, init + [peer]) ==
      if IsNetwork(isGin, peer) then NetworkPeers(isGin, init) + [peer] else NetworkPeers(isGin, init)
  {
    var network: nat -> bool := (p: nat) => IsNetwork(isGin, p);
    FilterConcat<nat>(network, init, [peer]);
    FilterOne<nat>(network, peer);
    EmptySuffix(NetworkPeers(isGin, init));
  }

  lemma NetworkPeersValid(isGin: seq<bool>, active: seq<nat>, size: nat)
    requires InTable(active, size)
    ensures InTable(NetworkPeers(isGin, active), size)
  {
    FilterMembers((p: nat) => IsNetwork(isGin, p), active);
    var peers := NetworkPeers(isGin, active);
    forall i | 0 <= i < |peers| ensures peers[i] < size {
      assert peers[i] in peers;
      var j := FindPeer(active, peers[i]);
    }
  }

  lemma {:induction false} NetworkPeersDistinct(isGin: seq<bool>, active: seq<nat>)
    requires Distinct(active)
    ensures Distinct(NetworkPeers(isGin, active))
    ensures forall p :: p in NetworkPeers(isGin, active) ==> p in active
  {
    if active != [] {
      var init, last := active[..|active| - 1], active[|active| - 1];
      NetworkPeersDistinct(isGin, init);
      SnocOf(active);
      SelectNext(isGin, init, last);
      assert last !in init;
      assert forall i | 0 <= i < |NetworkPeers(isGin, init)| :: NetworkPeers(isGin, init)[i] in init;
    }
  }

  class GinState {
    var connections: nat
    var channelBudget: nat
    var channelsPerPeer: nat
    var payload: seq<nat>

    function AsBudget(total: nat, windowBytes: nat): Budget
      reads this
    {
      Budget(connections, total, windowBytes, payload)
    }

    method SelectPeers(active: seq<nat>, isGin: seq<bool>) returns (peers: seq<nat>, totalBytes: nat)
      requires InTable(active, |payload|)
      ensures peers == NetworkPeers(isGin, active) && totalBytes == Total(payload, peers)
    {
      peers, totalBytes := [], 0;
      for k := 0 to |active|
        invariant peers == NetworkPeers(isGin, active[..k]) && totalBytes == Total(payload, peers)
      {
        var peer := active[k];
        TakeNext(active, k);
        SelectNext(isGin, active[..k], peer);
        if peer < |isGin| && isGin[peer] {
          TotalSnoc(payload, peers, peer);
          totalBytes := totalBytes + payload[peer];
          peers := peers + [peer];
        }
      }
      TakeAll(active);
    }

    method AssignWindows(b: Budget, peers: seq<nat>, peerChannels: array<nat>) returns (assignedChannels: nat)
      requires b.Valid() && peerChannels.Length == |b.payload| && InTable(peers, |b.payload|) && Distinct(peers)
      modifies peerChannels
      ensures peerChannels[..] == FirstPass(b, peers, |peers|, old(peerChannels[..]))
      ensures assignedChannels == Total(peerChannels[..], peers)
    {
      ghost var table := peerChannels[..];
      assignedChannels := 0;
      for k := 0 to |peers|
        invariant peerChannels[..] == FirstPass(b, peers, k, table)
        invariant assignedChannels == Total(peerChannels[..], peers[..k])
      {
        var peer := peers[k];
        var windowDemand := Max(1, DivideUp(b.payload[peer], b.windowBytes));
        var channels := RoundUp(Min(b.Base(), windowDemand));
        ghost var before := peerChannels[..];
        peerChannels[peer] := channels;
        assert peerChannels[..] == before[peer := channels];
        TakeNext(peers, k);
        TotalSnoc(peerChannels[..], peers[..k], peer);
        TotalUntouched(before, peers[..k], peer, channels);
        assignedChannels := assignedChannels + channels;
      }
      TakeAll(peers);
    }

    method DoubleWhileAffordable(
      b: Budget, peer: nat, totalBytes: nat, remaining: nat, peerChannels: array<nat>)
      returns (left: nat)
      requires peerChannels.Length == |b.payload| && peer < peerChannels.Length && peerChannels[peer] > 0
      modifies peerChannels
      ensures Pass(peerChannels[..], left) == GrowPeer(b, Pass(old(peerChannels[..]), remaining), peer, totalBytes)
    {
      ghost var table := peerChannels[..];
      var demand := WeightedDemand(b, peer, totalBytes);
      left := remaining;
      while peerChannels[peer] <= left && 2 * peerChannels[peer] <= demand && peerChannels[peer] <= b.total / 2
        invariant peerChannels[peer] > 0 && peerChannels[..] == table[peer := peerChannels[peer]]
        invariant Grow(peerChannels[peer], left, demand, b.total) == Grow(table[peer], remaining, demand, b.total)
        decreases left
      {
        left := left - peerChannels[peer];
        peerChannels[peer] := peerChannels[peer] * 2;
      }
    }

    method GrowPeers(b: Budget, order: seq<nat>, totalBytes: nat, budget: nat, peerChannels: array<nat>)
      requires peerChannels.Length == |b.payload| && Placed(order, peerChannels[..])
      modifies peerChannels
      ensures peerChannels[..] ==
        SecondPass(b, order, |order|, Pass(old(peerChannels[..]), budget), totalBytes).table
    {
      ghost var start := Pass(peerChannels[..], budget);
      var remaining := budget;
      for k := 0 to |order|
        invariant Pass(peerChannels[..], remaining) == SecondPass(b, order, k, start, totalBytes)
      {
        assert peerChannels[..][order[k]] > 0;
        remaining := DoubleWhileAffordable(b, order[k], totalBytes, remaining, peerChannels);
      }
    }

    method WidestOf(peers: seq<nat>, peerChannels: array<nat>) returns (widest: nat)
      requires InTable(peers, peerChannels.Length)
      ensures widest == Widest(peerChannels[..], peers, |peers|)
    {
      widest := 1;
      for k := 0 to |peers|
        invariant widest == Widest(peerChannels[..], peers, k)
      {
        widest := Max(widest, peerChannels[peers[k]]);
      }
    }

    /** Recomputes the channel table of the network peers in place. */
    method ConfigureChannels(
      total: nat, windowBytes: nat, active: seq<nat>, isGin: seq<bool>, peerChannels: array<nat>)
      requires windowBytes > 0 && |payload| == peerChannels.Length
      requires InTable(active, |payload|) && Distinct(active)
      modifies this`channelBudget, this`channelsPerPeer, peerChannels
      ensures channelBudget == AsBudget(total, windowBytes).Channels()
      ensures InTable(NetworkPeers(isGin, active), |payload|)
      ensures peerChannels[..] ==
        Configured(AsBudget(total, windowBytes), NetworkPeers(isGin, active), old(peerChannels[..]))
      ensures channelsPerPeer ==
        if NetworkPeers(isGin, active) == [] then old(channelsPerPeer)
        else Widest(peerChannels[..], NetworkPeers(isGin, active), |NetworkPeers(isGin, active)|)
    {
      var b := AsBudget(total, windowBytes);
      ghost var table := peerChannels[..];
      channelBudget := b.Channels();
      NetworkPeersValid(isGin, active, |payload|);
      NetworkPeersDistinct(isGin, active);
      var peers, totalBytes := SelectPeers(active, isGin);
      if peers == [] { return; }
      if |peers| == 1 {
        var rounded := RoundUp(channelBudget);
        peerChannels[peers[0]] := Min(total, rounded);
      } else {
        var assignedChannels := AssignWindows(b, peers, peerChannels);
        var order := ByPayload(b, peers);
        OrderPlaced(b, peers, peerChannels[..]);
        var remaining := if assignedChannels < channelBudget then channelBudget - assignedChannels else 0;
        GrowPeers(b, order, totalBytes, remaining, peerChannels);
      }
      channelsPerPeer := WidestOf(peers, peerChannels);
    }
  }
}
