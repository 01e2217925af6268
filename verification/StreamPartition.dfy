/**
 Arithmetic of the device v2 lowering: how one peer's byte stream is cut into aligned
 channel parts, how many channels it gets, and where its channels start.
 */
module StreamPartition {
  import opened Basics
  import opened PowersOfTwo

  const MAX_CHANNELS: nat := 64
  const PART_ALIGNMENT: nat := 4096

  function DivUp(value: nat, divisor: nat): nat
    requires divisor > 0
  {
    if value == 0 then 0 else (value - 1) / divisor + 1
  }

  function AlignUp(value: nat, alignment: nat): nat
    requires alignment > 0
  {
    DivUp(value, alignment) * alignment
  }

  /** DivUp is the least count of divisor-sized pieces that covers value. */
  lemma DivUpIsLeastCover(value: nat, divisor: nat, count: nat)
    requires divisor > 0
    ensures DivUp(value, divisor) <= count <==> value <= count * divisor
  {
    if value > 0 {
      var q := (value - 1) / divisor;
      DivBounds(value - 1, divisor);
      if q + 1 <= count {
        MulMonotone(q + 1, count, divisor);
      } else {
        MulMonotone(count, q, divisor);
      }
    }
  }

  lemma DivUpCovers(value: nat, divisor: nat)
    requires divisor > 0
    ensures value <= DivUp(value, divisor) * divisor
    ensures value > 0 ==> DivUp(value, divisor) > 0 && (DivUp(value, divisor) - 1) * divisor < value
  {
    DivUpIsLeastCover(value, divisor, DivUp(value, divisor));
    if value > 0 { DivUpIsLeastCover(value, divisor, DivUp(value, divisor) - 1); }
  }

  // ---------------------------------------------------------------- channel parts

  function PartBytes(parts: nat, bytes: nat): nat
    requires parts > 0
  {
    AlignUp(DivUp(bytes, parts), PART_ALIGNMENT)
  }

  function PartLow(parts: nat, part: nat, bytes: nat): nat
    requires part <= parts && parts > 0
  {
    Min(part * PartBytes(parts, bytes), bytes)
  }

  function PartHigh(parts: nat, part: nat, bytes: nat): nat
    requires part < parts
  {
    Min((part + 1) * PartBytes(parts, bytes), bytes)
  }

  /** The parts tile the stream: they start at 0, each begins where the last ended, and the last ends it. */
  lemma PartsTile(parts: nat, bytes: nat)
    requires parts > 0
    ensures PartLow(parts, 0, bytes) == 0
    ensures forall part: nat | part < parts :: PartLow(parts, part, bytes) <= PartHigh(parts, part, bytes) <= bytes
    ensures forall part: nat | part < parts :: PartHigh(parts, part, bytes) == PartLow(parts, part + 1, bytes)
    ensures PartHigh(parts, parts - 1, bytes) == bytes
  {
    var piece, size := DivUp(bytes, parts), PartBytes(parts, bytes);
    DivUpCovers(bytes, parts);
    DivUpCovers(piece, PART_ALIGNMENT);
    MulMonotone(piece, size, parts);
    assert parts * size >= bytes;
    forall part: nat | part < parts
      ensures PartLow(parts, part, bytes) <= PartHigh(parts, part, bytes) <= bytes
    {
      MulMonotone(part, part + 1, size);
    }
  }

  /** Every part but the ones cut off by the end of the stream is aligned at both ends. */
  lemma PartsAligned(parts: nat, part: nat, bytes: nat)
    requires part < parts
    ensures PartLow(parts, part, bytes) == bytes || PartLow(parts, part, bytes) % PART_ALIGNMENT == 0
    ensures PartHigh(parts, part, bytes) == bytes || PartHigh(parts, part, bytes) % PART_ALIGNMENT == 0
  {
    var units := DivUp(DivUp(bytes, parts), PART_ALIGNMENT);
    assert part * (units * PART_ALIGNMENT) == (part * units) * PART_ALIGNMENT;
    assert (part + 1) * (units * PART_ALIGNMENT) == ((part + 1) * units) * PART_ALIGNMENT;
    MultipleModulo(part * units);
    MultipleModulo((part + 1) * units);
  }

  lemma MultipleModulo(k: nat)
    ensures (k * PART_ALIGNMENT) % PART_ALIGNMENT == 0
  {
  }

  /** All intermediate values of the partition stay below bytes + 4096 * parts + 4096 * parts. */
  lemma PartArithmeticBound(parts: nat, part: nat, bytes: nat)
    requires part < parts
    ensures (part + 1) * PartBytes(parts, bytes) < bytes + parts * (PART_ALIGNMENT + 1)
  {
    var piece, size := DivUp(bytes, parts), PartBytes(parts, bytes);
    DivUpCovers(bytes, parts);
    DivUpCovers(piece, PART_ALIGNMENT);
    assert size < piece + PART_ALIGNMENT;
    MulMonotone(part + 1, parts, size);
    MulMonotone(size, piece + PART_ALIGNMENT - 1, parts);
    assert parts * (piece + PART_ALIGNMENT - 1) == (piece - 1) * parts + parts * PART_ALIGNMENT;
  }

  // ---------------------------------------------------------------- channel count

  /** Doubles the channel count while parts are too large and there is room. */
  function Widen(channels: nat, partBytes: nat, bytes: nat, maxPartBytes: nat, maxChannels: nat): nat
    requires channels > 0
    decreases maxChannels - channels
  {
    if partBytes > maxPartBytes && channels <= maxChannels / 2 then
      Widen(channels * 2, DivUp(bytes, channels * 2), bytes, maxPartBytes, maxChannels)
    else channels
  }

  function MinPartBytes(stepBytes: nat, network: bool): nat {
    Max(1, if network then stepBytes / 2 else stepBytes / 8)
  }

  function MaxPartBytes(stepBytes: nat, network: bool): nat {
    if network then stepBytes else stepBytes * 32
  }

  function ChannelsFor(bytes: nat, minChannels: nat, maxChannels: nat, stepBytes: nat, network: bool): nat {
    if bytes == 0 then 1
    else
      var least := MinPartBytes(stepBytes, network);
      var initial := Max(1, Min(minChannels, DivUp(bytes, least)));
      Widen(initial, Max(least, DivUp(bytes, initial)), bytes, MaxPartBytes(stepBytes, network), maxChannels)
  }

  method ChannelsForBytes(bytes: nat, minChannels: nat, maxChannels: nat, stepBytes: nat, network: bool)
    returns (channels: nat)
    ensures channels == ChannelsFor(bytes, minChannels, maxChannels, stepBytes, network)
  {
    if bytes == 0 {
      return 1;
    }
    var minPartBytes := Max(1, if network then stepBytes / 2 else stepBytes / 8);
    var maxPartBytes := if network then stepBytes else stepBytes * 32;
    var initialChannels := Min(minChannels, DivUp(bytes, minPartBytes));
    channels := Max(1, initialChannels);
    var partBytes: nat := Max(minPartBytes, DivUp(bytes, channels));
    while partBytes > maxPartBytes && channels <= maxChannels / 2
      invariant channels > 0
      invariant Widen(channels, partBytes, bytes, maxPartBytes, maxChannels)
             == ChannelsFor(bytes, minChannels, maxChannels, stepBytes, network)
      decreases maxChannels - channels
    {
      channels := channels * 2;
      partBytes := DivUp(bytes, channels);
    }
  }

  lemma {:induction false} WidenBounds(channels: nat, partBytes: nat, bytes: nat, maxPartBytes: nat, maxChannels: nat)
    requires 0 < channels <= maxChannels
    ensures channels <= Widen(channels, partBytes, bytes, maxPartBytes, maxChannels) <= maxChannels
    ensures var r := Widen(channels, partBytes, bytes, maxPartBytes, maxChannels);
      r > channels ==> DivUp(bytes, r) <= maxPartBytes || 2 * r > maxChannels
    ensures var r := Widen(channels, partBytes, bytes, maxPartBytes, maxChannels);
      r == channels ==> partBytes <= maxPartBytes || 2 * r > maxChannels
    decreases maxChannels - channels
  {
    if partBytes > maxPartBytes && channels <= maxChannels / 2 {
      WidenBounds(channels * 2, DivUp(bytes, channels * 2), bytes, maxPartBytes, maxChannels);
    }
  }

  /** A peer never gets more channels than its cap, and stops short of it only once its parts are small enough. */
  lemma ChannelsForMeaning(bytes: nat, minChannels: nat, maxChannels: nat, stepBytes: nat, network: bool)
    requires bytes > 0 && 0 < minChannels <= maxChannels && stepBytes > 0
    ensures var r := ChannelsFor(bytes, minChannels, maxChannels, stepBytes, network);
      && 1 <= r <= maxChannels
      && (DivUp(bytes, r) <= MaxPartBytes(stepBytes, network) || 2 * r > maxChannels)
  {
    var least := MinPartBytes(stepBytes, network);
    DivUpCovers(bytes, least);
    var initial := Max(1, Min(minChannels, DivUp(bytes, least)));
    WidenBounds(initial, Max(least, DivUp(bytes, initial)), bytes, MaxPartBytes(stepBytes, network), maxChannels);
  }

  function TransferStep(bytes: nat, stepBytes: nat, network: bool): nat {
    if !network then stepBytes
    else if bytes < stepBytes then Max(1, stepBytes / 4)
    else if bytes < 8 * stepBytes then Max(1, stepBytes / 2)
    else stepBytes
  }

  // ---------------------------------------------------------------- channel bases

  /** The low bits of value in reverse order. */
  function Reverse(value: nat, bits: nat): nat {
    if bits == 0 then 0 else 2 * Reverse(value, bits - 1) + PartIndex(value, bits - 1) % 2
  }

  method ReverseBits(value: nat, bits: nat) returns (result: nat)
    ensures result == Reverse(value, bits)
  {
    result := 0;
    var shifted := value;
    for bit := 0 to bits
      invariant shifted == PartIndex(value, bit)
      invariant result == Reverse(value, bit)
    {
      result := 2 * result + shifted % 2;
      shifted := shifted / 2;
    }
  }

  lemma {:induction false} ReverseBound(value: nat, bits: nat)
    ensures Reverse(value, bits) < Pow2(bits)
  {
    if bits > 0 { ReverseBound(value, bits - 1); }
  }

  /** The same number read from the other end. */
  lemma {:induction false} ReverseFromLow(value: nat, bits: nat)
    ensures Reverse(value, bits + 1) == Reverse(value / 2, bits) + (value % 2) * Pow2(bits)
  {
    if bits > 0 {
      ReverseFromLow(value, bits - 1);
      PartIndexShift(value, bits - 1);
      assert 2 * ((value % 2) * Pow2(bits - 1)) == (value % 2) * Pow2(bits);
    }
  }

  lemma {:induction false} PartIndexShift(value: nat, k: nat)
    ensures PartIndex(value, k + 1) == PartIndex(value / 2, k)
  {
    if k > 0 { PartIndexShift(value, k - 1); }
  }

  function LowBits(value: nat, bits: nat): nat {
    if bits == 0 then 0 else LowBits(value, bits - 1) + (PartIndex(value, bits - 1) % 2) * Pow2(bits - 1)
  }

  /** Reversing twice gives back the low bits, so pairs that differ there start on different channels. */
  lemma {:induction false} ReverseTwice(value: nat, bits: nat)
    ensures Reverse(Reverse(value, bits), bits) == LowBits(value, bits)
  {
    if bits > 0 {
      var r := Reverse(value, bits);
      ReverseTwice(value, bits - 1);
      ReverseFromLow(r, bits - 1);
      assert r / 2 == Reverse(value, bits - 1) && r % 2 == PartIndex(value, bits - 1) % 2;
    }
  }

  lemma {:induction false} LowBitsIsRemainder(value: nat, bits: nat)
    ensures value == PartIndex(value, bits) * Pow2(bits) + LowBits(value, bits) && LowBits(value, bits) < Pow2(bits)
  {
    if bits > 0 {
      LowBitsIsRemainder(value, bits - 1);
      SplitBit(PartIndex(value, bits - 1), Pow2(bits - 1));
    }
  }

  lemma SplitBit(above: nat, weight: nat)
    ensures above * weight == (above / 2) * (2 * weight) + (above % 2) * weight
    ensures (above % 2) * weight <= weight
  {
    var half, bit := above / 2, above % 2;
    assert above == 2 * half + bit;
    assert (2 * half + bit) * weight == half * (2 * weight) + bit * weight;
  }

  function PairIndex(a: nat, b: nat, world: nat): nat {
    Min(a, b) * world + Max(a, b)
  }

  function LsaBase(a: nat, b: nat, world: nat, totalBits: nat): nat {
    Reverse(PairIndex(a, b, world), totalBits)
  }

  function GinBase(a: nat, b: nat, total: nat, peerChannels: nat): nat
    requires peerChannels > 0
  {
    (a + b) % Max(1, total / peerChannels) * peerChannels
  }

  /** Both ends of a pair compute the same channel base, and it is a channel. */
  lemma BasesAgree(a: nat, b: nat, world: nat, totalBits: nat, peerChannels: nat)
    requires 0 < peerChannels <= Pow2(totalBits)
    ensures LsaBase(a, b, world, totalBits) == LsaBase(b, a, world, totalBits) < Pow2(totalBits)
    ensures GinBase(a, b, Pow2(totalBits), peerChannels) == GinBase(b, a, Pow2(totalBits), peerChannels)
    ensures GinBase(a, b, Pow2(totalBits), peerChannels) + peerChannels <= Pow2(totalBits)
  {
    ReverseBound(PairIndex(a, b, world), totalBits);
    GinGroupInside(a + b, Pow2(totalBits), peerChannels);
  }

  lemma GinGroupInside(sum: nat, total: nat, peerChannels: nat)
    requires 0 < peerChannels <= total
    ensures total / peerChannels > 0
    ensures sum % (total / peerChannels) * peerChannels + peerChannels <= total
  {
    var groups := total / peerChannels;
    DivBounds(total, peerChannels);
    if groups <= 0 { MulMonotone(groups, 0, peerChannels); }
    MulMonotone(sum % groups + 1, groups, peerChannels);
  }

  /** Two peers of a rank whose indices differ by less than the number of groups use disjoint channels. */
  lemma GinGroupsDisjoint(rank: nat, p: nat, q: nat, total: nat, peerChannels: nat)
    requires 0 < peerChannels <= total && p < q < p + total / peerChannels
    ensures GinBase(rank, p, total, peerChannels) + peerChannels <= GinBase(rank, q, total, peerChannels)
         || GinBase(rank, q, total, peerChannels) + peerChannels <= GinBase(rank, p, total, peerChannels)
  {
    var groups := total / peerChannels;
    var gp, gq := (rank + p) % groups, (rank + q) % groups;
    RemaindersDiffer(rank + p, rank + q, groups);
    if gp < gq { MulMonotone(gp + 1, gq, peerChannels); } else { MulMonotone(gq + 1, gp, peerChannels); }
  }

  lemma RemaindersDiffer(x: nat, y: nat, m: nat)
    requires m > 0 && x < y < x + m
    ensures x % m != y % m
  {
    if x % m == y % m {
      var qx, qy := x / m, y / m;
      assert x == qx * m + x % m && y == qy * m + y % m;
      if qy <= qx { MulMonotone(qy, qx, m); } else { MulMonotone(qx + 1, qy, m); }
    }
  }

  // ---------------------------------------------------------------- parts on channels

  /** The channel of a part: (base + part) modulo the channel total. */
  function ChannelOf(base: nat, part: nat, total: nat): nat
    requires base < total && part < total
  {
    if base + part < total then base + part else base + part - total
  }

  function PartOn(base: nat, channel: nat, total: nat): nat
    requires base < total && channel < total
  {
    if base <= channel then channel - base else channel + total - base
  }

  lemma ChannelIsModulo(base: nat, part: nat, total: nat)
    requires base < total && part < total
    ensures ChannelOf(base, part, total) == (base + part) % total
  {
    if base + part < total {
      DivUnique(base + part, total, 0);
    } else {
      DivUnique(base + part, total, 1);
    }
  }

  /** Distinct parts of a peer land on distinct channels. */
  lemma PartsOnDistinctChannels(base: nat, total: nat)
    requires base < total
    ensures forall part: nat | part < total ::
      ChannelOf(base, part, total) < total && PartOn(base, ChannelOf(base, part, total), total) == part
    ensures forall channel: nat | channel < total ::
      PartOn(base, channel, total) < total && ChannelOf(base, PartOn(base, channel, total), total) == channel
  {
  }
}
