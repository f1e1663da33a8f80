/** The raw-data stage of the Guardian translation: the channels are put in order, block by block, then every
    sample goes through reverseEndiannessOfInt16.
  */
module RawData {

  // ---------------------------------------------------------------------------------------------
  // One sample

  type Sample = bv16

  /** int16_t to int: the sign bit fills the upper half. */
  function Promote(v: Sample): bv32 {
    if v & 0x8000 != 0 then (v as bv32) | 0xFFFF_0000 else v as bv32
  }

  /** int to int16_t: the lower half is kept. */
  function Narrow(w: bv32): Sample {
    (w & 0xFFFF) as bv16
  }

  /** The right shift of a possibly negative int. */
  function ShiftRightBy8(w: bv32): bv32 {
    if w & 0x8000_0000 != 0 then (w >> 8) | 0xFF00_0000 else w >> 8
  }

  /** reverseEndiannessOfInt16 with its promotions: both masks are narrowed to int16_t, shifted as ints and
      the union is narrowed again. */
  function ReverseEndianness(v: Sample): Sample {
    var high := Promote(Narrow(Promote(v) & 0xFF00));
    var low := Promote(Narrow(Promote(v) & 0x00FF));
    Narrow(ShiftRightBy8(high) | (low << 8))
  }

  /** What the name promises. */
  function Swap(v: Sample): Sample {
    (v >> 8) | (v << 8)
  }

  predicate Negative(v: Sample) {
    v & 0x8000 != 0
  }

  /** The name's promise is kept exactly for the samples that are not negative and for those whose low byte is
      0xFF; the others lose their low byte to the sign. */
  lemma SwapsUnlessNegative(v: Sample)
    ensures ReverseEndianness(v) == Swap(v) <==> !Negative(v) || v & 0x00FF == 0x00FF
    ensures Negative(v) ==> ReverseEndianness(v) == 0xFF00 | (v >> 8)
  {
  }

  /** Twice is nothing exactly for the samples whose bytes are both below 0x80, and for -1. */
  lemma SelfInverse(v: Sample)
    ensures ReverseEndianness(ReverseEndianness(v)) == v <==> v & 0x8080 == 0 || v == 0xFFFF
  {
  }

  function Reversed(content: seq<Sample>): (reversed: seq<Sample>)
    ensures |reversed| == |content|
    ensures forall j :: 0 <= j < |content| ==> reversed[j] == ReverseEndianness(content[j])
  {
    seq(|content|, j requires 0 <= j < |content| => ReverseEndianness(content[j]))
  }

  // ---------------------------------------------------------------------------------------------
  // Channels

  /** Channel c of a content with `samples` samples per channel. */
  function Channel<T>(content: seq<T>, samples: nat, c: nat): (block: seq<T>)
    requires 0 <= c * samples && c * samples + samples <= |content|
    ensures |block| == samples
  {
    content[c * samples..c * samples + samples]
  }

  /** The content is made of `channels` channels. */
  predicate MadeOf<T>(content: seq<T>, samples: nat, channels: nat) {
    |content| == channels * samples
  }

  /** Every position names a channel. */
  predicate Placing(positions: seq<nat>, channels: nat) {
    forall i :: 0 <= i < |positions| ==> positions[i] < channels
  }

  lemma ChannelLiesWithin(samples: nat, c: nat, channels: nat)
    requires c < channels
    ensures 0 <= c * samples && c * samples + samples <= channels * samples
  {
    assert (c + 1) * samples <= channels * samples;
  }

  /** The named channels, one after the other. */
  function Ordered<T>(content: seq<T>, samples: nat, channels: nat, positions: seq<nat>): (ordered: seq<T>)
    requires MadeOf(content, samples, channels) && Placing(positions, channels)
    ensures MadeOf(ordered, samples, |positions|)
  {
    if positions == [] then []
    else
      var last := |positions| - 1;
      ChannelLiesWithin(samples, positions[last], channels);
      assert last * samples + samples == |positions| * samples;
      Ordered(content, samples, channels, positions[..last]) + Channel(content, samples, positions[last])
  }

  lemma ChannelOfPrefix<T>(a: seq<T>, b: seq<T>, samples: nat, c: nat)
    requires 0 <= c * samples && c * samples + samples <= |a|
    ensures Channel(a + b, samples, c) == Channel(a, samples, c)
  {
  }

  lemma ChannelAfter<T>(a: seq<T>, b: seq<T>, samples: nat, c: nat)
    requires |a| == c * samples && |b| == samples
    ensures Channel(a + b, samples, c) == b
  {
  }

  /** Where each channel goes: channel i of the ordered content is channel positions[i] of the original. */
  lemma {:induction false} OrderedChannel<T>(
      content: seq<T>, samples: nat, channels: nat, positions: seq<nat>, i: nat)
    requires MadeOf(content, samples, channels) && Placing(positions, channels) && i < |positions|
    ensures 0 <= i * samples && i * samples + samples <= |Ordered(content, samples, channels, positions)|
    ensures 0 <= positions[i] * samples && positions[i] * samples + samples <= |content|
    ensures Channel(Ordered(content, samples, channels, positions), samples, i) ==
      Channel(content, samples, positions[i])
  {
    var last := |positions| - 1;
    ChannelLiesWithin(samples, i, |positions|);
    ChannelLiesWithin(samples, positions[i], channels);
    ChannelLiesWithin(samples, positions[last], channels);
    var before, block := Ordered(content, samples, channels, positions[..last]),
      Channel(content, samples, positions[last]);
    assert Ordered(content, samples, channels, positions) == before + block;
    if i < last {
      OrderedChannel(content, samples, channels, positions[..last], i);
      ChannelOfPrefix(before, block, samples, i);
    } else {
      ChannelAfter(before, block, samples, i);
    }
  }

  /** Contents with the same channels are the same. */
  lemma {:induction false} SameChannels<T>(a: seq<T>, b: seq<T>, samples: nat, channels: nat)
    requires MadeOf(a, samples, channels) && MadeOf(b, samples, channels)
    requires forall c: nat | c < channels ::
      0 <= c * samples && c * samples + samples <= |a| && Channel(a, samples, c) == Channel(b, samples, c)
    ensures a == b
  {
    if channels > 0 {
      var last := channels - 1;
      var cut := last * samples;
      assert cut + samples == channels * samples;
      forall c: nat | c < last
        ensures 0 <= c * samples && c * samples + samples <= cut
        ensures Channel(a[..cut], samples, c) == Channel(b[..cut], samples, c)
      {
        ChannelLiesWithin(samples, c, last);
        assert Channel(a[..cut], samples, c) == Channel(a, samples, c);
        assert Channel(b[..cut], samples, c) == Channel(b, samples, c);
      }
      SameChannels(a[..cut], b[..cut], samples, last);
      assert a == a[..cut] + Channel(a, samples, last);
      assert b == b[..cut] + Channel(b, samples, last);
    }
  }

  // ---------------------------------------------------------------------------------------------
  // What the ordering keeps

  /** The channels of a content. */
  function Channels<T>(content: seq<T>, samples: nat, channels: nat): (blocks: seq<seq<T>>)
    requires MadeOf(content, samples, channels)
    ensures |blocks| == channels
  {
    seq(channels, c requires 0 <= c < channels => ChannelLiesWithin(samples, c, channels); Channel(content, samples, c))
  }

  function Identity(n: nat): (s: seq<nat>)
    ensures |s| == n && forall i :: 0 <= i < n ==> s[i] == i
  {
    seq(n, i requires 0 <= i < n => i as nat)
  }

  /** The positions name every channel, and so each once. */
  predicate Permutation(positions: seq<nat>) {
    Placing(positions, |positions|) && forall c: nat | c < |positions| :: c in positions
  }

  lemma {:induction false} CoverIsLarger(s: set<nat>, p: seq<nat>)
    requires forall c | c in s :: c in p
    ensures |s| <= |p|
  {
    if p == [] {
      assert s == {};
    } else {
      var last := |p| - 1;
      CoverIsLarger(s - {p[last]}, p[..last]);
      assert |s| <= |s - {p[last]}| + 1 by { assert s <= (s - {p[last]}) + {p[last]}; }
    }
  }

  /** A sequence that names every member of a set of its own size names each once. */
  lemma {:induction false} CoverOfSameSize(s: set<nat>, p: seq<nat>)
    requires (forall c | c in s :: c in p) && |s| == |p|
    ensures multiset(p) == multiset(s)
  {
    if p != [] {
      var last := |p| - 1;
      var c := p[last];
      assert p == p[..last] + [c];
      if c !in s { CoverIsLarger(s, p[..last]); }
      CoverOfSameSize(s - {c}, p[..last]);
    }
  }

  lemma {:induction false} Below(n: nat) returns (s: set<nat>)
    ensures |s| == n && forall c: nat :: c in s <==> c < n
  {
    if n == 0 {
      s := {};
    } else {
      var smaller := Below(n - 1);
      s := smaller + {n - 1};
    }
  }

  lemma PermutationRearranges(positions: seq<nat>)
    requires Permutation(positions)
    ensures multiset(positions) == multiset(Identity(|positions|))
  {
    var s := Below(|positions|);
    var identity := Identity(|positions|);
    forall c | c in s ensures c in identity { assert identity[c] == c; }
    CoverOfSameSize(s, positions);
    CoverOfSameSize(s, identity);
  }

  /** The blocks picked by some positions. */
  function Picked<B>(blocks: seq<B>, positions: seq<nat>): (picked: seq<B>)
    requires Placing(positions, |blocks|)
    ensures |picked| == |positions| && forall i :: 0 <= i < |picked| ==> picked[i] == blocks[positions[i]]
  {
    seq(|positions|, i requires 0 <= i < |positions| => blocks[positions[i]])
  }

  lemma {:induction false} PickedMultiset<B>(blocks: seq<B>, p: seq<nat>, q: seq<nat>)
    requires Placing(p, |blocks|) && Placing(q, |blocks|) && multiset(p) == multiset(q)
    ensures multiset(Picked(blocks, p)) == multiset(Picked(blocks, q))
  {
    assert |multiset(p)| == |p| && |multiset(q)| == |q|;
    if p != [] {
      var last := |p| - 1;
      assert p[last] in multiset(q);
      var j :| 0 <= j < |q| && q[j] == p[last];
      Without(p, last);
      Without(q, j);
      assert p[..last] + p[last + 1..] == p[..last];
      PickedMultiset(blocks, p[..last], q[..j] + q[j + 1..]);
      PickedWithout(blocks, p, last);
      PickedWithout(blocks, q, j);
    }
  }

  lemma Without(q: seq<nat>, j: nat)
    requires j < |q|
    ensures multiset(q[..j] + q[j + 1..]) == multiset(q) - multiset{q[j]}
  {
    assert q == q[..j] + [q[j]] + q[j + 1..];
  }

  lemma PickedWithout<B>(blocks: seq<B>, q: seq<nat>, j: nat)
    requires Placing(q, |blocks|) && j < |q|
    ensures Placing(q[..j] + q[j + 1..], |blocks|)
    ensures multiset(Picked(blocks, q)) == multiset(Picked(blocks, q[..j] + q[j + 1..])) + multiset{blocks[q[j]]}
  {
    var before, after := Picked(blocks, q[..j]), Picked(blocks, q[j + 1..]);
    assert Picked(blocks, q) == before + [blocks[q[j]]] + after;
    assert Picked(blocks, q[..j] + q[j + 1..]) == before + after;
  }

  /** Ordering by a permutation keeps every channel block: the same blocks, in another order. */
  lemma OrderingKeepsTheBlocks<T>(content: seq<T>, samples: nat, positions: seq<nat>)
    requires Permutation(positions) && MadeOf(content, samples, |positions|)
    ensures var n := |positions|;
      multiset(Channels(Ordered(content, samples, n, positions), samples, n)) == multiset(Channels(content, samples, n))
  {
    PermutationRearranges(positions);
    var n := |positions|;
    var blocks := Channels(content, samples, n);
    var ordered := Channels(Ordered(content, samples, n, positions), samples, n);
    forall i | 0 <= i < n ensures ordered[i] == blocks[positions[i]] {
      OrderedChannel(content, samples, n, positions, i);
    }
    assert ordered == Picked(blocks, positions);
    assert blocks == Picked(blocks, Identity(n));
    PickedMultiset(blocks, positions, Identity(n));
  }

  /** Ordering by the inverse permutation undoes it. */
  lemma InverseUndoes<T>(content: seq<T>, samples: nat, positions: seq<nat>, inverse: seq<nat>)
    requires Placing(positions, |positions|) && |inverse| == |positions| && Placing(inverse, |positions|)
    requires forall c :: 0 <= c < |positions| ==> positions[inverse[c]] == c
    requires MadeOf(content, samples, |positions|)
    ensures var n := |positions|; Ordered(Ordered(content, samples, n, positions), samples, n, inverse) == content
  {
    var n := |positions|;
    var ordered := Ordered(content, samples, n, positions);
    var back := Ordered(ordered, samples, n, inverse);
    forall c: nat | c < n
      ensures 0 <= c * samples && c * samples + samples <= |back|
      ensures Channel(back, samples, c) == Channel(content, samples, c)
    {
      OrderedChannel(ordered, samples, n, inverse, c);
      OrderedChannel(content, samples, n, positions, inverse[c]);
    }
    SameChannels(back, content, samples, n);
  }

  /** It does not matter whether the samples are reversed before or after the channels are ordered. */
  lemma {:induction false} OrderingCommutes(content: seq<Sample>, samples: nat, channels: nat, positions: seq<nat>)
    requires MadeOf(content, samples, channels) && Placing(positions, channels)
    ensures Ordered(Reversed(content), samples, channels, positions) ==
      Reversed(Ordered(content, samples, channels, positions))
  {
    if positions != [] {
      var last := |positions| - 1;
      ChannelLiesWithin(samples, positions[last], channels);
      OrderingCommutes(content, samples, channels, positions[..last]);
      assert Channel(Reversed(content), samples, positions[last]) ==
        Reversed(Channel(content, samples, positions[last]));
    }
  }

  // ---------------------------------------------------------------------------------------------
  // The translation

  function Translated(content: seq<Sample>, samples: nat, channels: nat, positions: seq<nat>): seq<Sample>
    requires MadeOf(content, samples, channels) && Placing(positions, channels)
  {
    Reversed(Ordered(content, samples, channels, positions))
  }

  /** Where every sample ends up, and as what. */
  lemma Layout(content: seq<Sample>, samples: nat, channels: nat, positions: seq<nat>, i: nat, k: nat)
    requires MadeOf(content, samples, channels) && Placing(positions, channels)
    requires i < |positions| && k < samples
    ensures var translated := Translated(content, samples, channels, positions);
      && 0 <= i * samples + k < |translated| == |positions| * samples
      && 0 <= positions[i] * samples + k < |content|
      && translated[i * samples + k] == ReverseEndianness(content[positions[i] * samples + k])
  {
    OrderedChannel(content, samples, channels, positions, i);
    var ordered := Ordered(content, samples, channels, positions);
    assert Channel(ordered, samples, i)[k] == ordered[i * samples + k];
    assert Channel(content, samples, positions[i])[k] == content[positions[i] * samples + k];
  }

  /** Translating again with the inverse permutation restores the content exactly when reversing every one of
      its samples twice does: when both bytes of each are below 0x80, or the sample is -1. */
  lemma RoundTrip(content: seq<Sample>, samples: nat, positions: seq<nat>, inverse: seq<nat>)
    requires Placing(positions, |positions|) && |inverse| == |positions| && Placing(inverse, |positions|)
    requires forall c :: 0 <= c < |positions| ==> positions[inverse[c]] == c
    requires MadeOf(content, samples, |positions|)
    ensures var n := |positions|;
      Translated(Translated(content, samples, n, positions), samples, n, inverse) == content <==>
      forall v :: v in content ==> v & 0x8080 == 0 || v == 0xFFFF
  {
    var n := |positions|;
    var once := Ordered(content, samples, n, positions);
    OrderingCommutes(once, samples, n, inverse);
    InverseUndoes(content, samples, positions, inverse);
    OrderingCommutes(Reversed(once), samples, n, inverse);
    assert Translated(Reversed(once), samples, n, inverse) == Reversed(Reversed(content));
    ReversedTwice(content);
  }

  lemma ReversedTwice(content: seq<Sample>)
    ensures Reversed(Reversed(content)) == content <==>
      forall v :: v in content ==> v & 0x8080 == 0 || v == 0xFFFF
  {
    var twice := Reversed(Reversed(content));
    forall j | 0 <= j < |content| ensures twice[j] == content[j] <==> content[j] & 0x8080 == 0 || content[j] == 0xFFFF {
      SelfInverse(content[j]);
    }
    forall v | twice == content && v in content ensures v & 0x8080 == 0 || v == 0xFFFF {
      var j :| 0 <= j < |content| && content[j] == v;
      assert twice[j] == content[j];
    }
    if forall v :: v in content ==> v & 0x8080 == 0 || v == 0xFFFF {
      forall j | 0 <= j < |content| ensures twice[j] == content[j] { assert content[j] in content; }
      assert twice == content;
    }
  }

  // ---------------------------------------------------------------------------------------------
  // The Guardian

  const NUMBER_OF_CHANNELS: nat := 16
  const RAW_DATA_SAMPLING_LENGTH: nat := 100
  const CHANNEL_POSITIONS: seq<nat> := [8, 0, 9, 1, 10, 2, 11, 3, 12, 4, 13, 5, 14, 6, 15, 7]

  /** Where channel c of the original is found after the ordering. */
  function PlaceOf(c: nat): (i: nat)
    requires c < NUMBER_OF_CHANNELS
    ensures i < NUMBER_OF_CHANNELS && CHANNEL_POSITIONS[i] == c
  {
    if c < 8 then 2 * c + 1 else 2 * (c - 8)
  }

  /** The Guardian's positions interleave its two halves, and lose no channel. */
  lemma GuardianPositionsArePermutation()
    ensures |CHANNEL_POSITIONS| == NUMBER_OF_CHANNELS && Permutation(CHANNEL_POSITIONS)
    ensures forall i: nat | i < 8 :: CHANNEL_POSITIONS[2 * i] == 8 + i && CHANNEL_POSITIONS[2 * i + 1] == i
  {
    forall c: nat | c < NUMBER_OF_CHANNELS ensures c in CHANNEL_POSITIONS {
      assert CHANNEL_POSITIONS[PlaceOf(c)] == c;
    }
  }

  /** std::copy_n. */
  method CopyN(source: seq<Sample>, origin: nat, n: nat, target: array<Sample>, destination: nat)
    requires origin + n <= |source| && destination + n <= target.Length
    modifies target
    ensures target[..destination + n] == old(target[..destination]) + source[origin..origin + n]
  {
    ghost var before := target[..destination];
    for k := 0 to n
      invariant target[..destination + k] == before + source[origin..origin + k]
    {
      target[destination + k] := source[origin + k];
      assert target[..destination + k + 1] == target[..destination + k] + [target[destination + k]];
    }
  }

  /** orderRawData, in place: a copy is read while the content is overwritten. */
  method OrderRawData(content: array<Sample>, samples: nat, positions: seq<nat>)
    requires content.Length == |positions| * samples && Placing(positions, |positions|)
    modifies content
    ensures content[..] == Ordered(old(content[..]), samples, |positions|, positions)
  {
    var unordered := content[..];
    ghost var channels := |positions|;
    for ordinal := 0 to |positions|
      invariant 0 <= ordinal * samples <= content.Length
      invariant content[..ordinal * samples] == Ordered(unordered, samples, channels, positions[..ordinal])
    {
      ChannelLiesWithin(samples, ordinal, channels);
      ChannelLiesWithin(samples, positions[ordinal], channels);
      CopyN(unordered, positions[ordinal] * samples, samples, content, ordinal * samples);
      assert positions[..ordinal + 1][..ordinal] == positions[..ordinal];
      assert (ordinal + 1) * samples == ordinal * samples + samples;
    }
    assert positions[..|positions|] == positions;
    assert content[..] == content[..channels * samples];
  }

  /** reverseRawDataDefinitionEndianness, in place. */
  method ReverseRawDataDefinitionEndianness(content: array<Sample>)
    modifies content
    ensures content[..] == Reversed(old(content[..]))
  {
    var original := content[..];
    for i := 0 to content.Length
      invariant content[..i] == Reversed(original)[..i]
    {
      content[i] := ReverseEndianness(original[i]);
      assert content[..i + 1] == content[..i] + [content[i]];
    }
    assert content[..] == content[..content.Length];
  }

  /** translateRawData, up to handing the result to the consumers. */
  method TranslateRawData(content: array<Sample>) returns (translated: seq<Sample>)
    requires content.Length == NUMBER_OF_CHANNELS * RAW_DATA_SAMPLING_LENGTH
    modifies content
    ensures Placing(CHANNEL_POSITIONS, NUMBER_OF_CHANNELS)
    ensures translated ==
      Translated(old(content[..]), RAW_DATA_SAMPLING_LENGTH, NUMBER_OF_CHANNELS, CHANNEL_POSITIONS)
  {
    OrderRawData(content, RAW_DATA_SAMPLING_LENGTH, CHANNEL_POSITIONS);
    ReverseRawDataDefinitionEndianness(content);
    translated := content[..];
  }
}
