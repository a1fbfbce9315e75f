/** The microphone worklet: a stateful resampler whose output is re-cut into fixed frames of
    signed 16-bit samples. Samples, the rate ratio and the carry are exact reals. */
module MicFrames {
  import opened Common

  // ---------------------------------------------------------------- quantising one sample

  function Clamp(x: real): real { if x < -1.0 then -1.0 else if x > 1.0 then 1.0 else x }

  /** Conversion of a real to an integer the way a typed array does it: towards zero. */
  function Truncate(x: real): int { if x < 0.0 then -((-x).Floor) else x.Floor }

  /** Storing an integer into an Int16Array keeps its low sixteen bits. */
  function ToInt16(n: int): int { (n + 0x8000) % 0x1_0000 - 0x8000 }

  function Quantise(x: real): int {
    var s := Clamp(x);
    ToInt16(Truncate(if s < 0.0 then s * 32768.0 else s * 32767.0))
  }

  /** Because the sample is clamped before it is scaled, storing it never wraps: the sign and
      the order of samples survive, and everything beyond full scale saturates. */
  lemma QuantiseNeverWraps(x: real, y: real)
    requires x <= y
    ensures -0x8000 <= Quantise(x) <= Quantise(y) <= 0x7fff
    ensures x <= -1.0 ==> Quantise(x) == -0x8000
    ensures y >= 1.0 ==> Quantise(y) == 0x7fff
    ensures Quantise(0.0) == 0
  {
    ScaledIsInt16(x);
    ScaledIsInt16(y);
  }

  /** What is stored for a sample within full scale is the sample at 32767 steps above zero and
      32768 below, short of it by less than one step towards zero; silence stays silence, and a
      sample beyond full scale is stored as full scale. */
  lemma QuantiseIsWithinOneStep(x: real)
    ensures 0.0 <= x <= 1.0 ==> x * 32767.0 - 1.0 < Quantise(x) as real <= x * 32767.0
    ensures -1.0 <= x <= 0.0 ==> x * 32768.0 <= Quantise(x) as real < x * 32768.0 + 1.0
    ensures x > 1.0 ==> Quantise(x) == 32767
    ensures x < -1.0 ==> Quantise(x) == -32768
  {
    ScaledIsInt16(x);
  }

  lemma ScaledIsInt16(x: real)
    ensures var s := Clamp(x);
            var scaled := if s < 0.0 then s * 32768.0 else s * 32767.0;
            -0x8000 <= Truncate(scaled) <= 0x7fff && Quantise(x) == Truncate(scaled)
  {
  }

  // ---------------------------------------------------------------- resampling one block

  /** A fraction of the way from one sample to the next. */
  function Blend(a: real, b: real, t: real): real { a + (b - a) * t }

  /** Reading position `at` of a block: linear between neighbours, flat past the last one. */
  function Lerp(channel: seq<real>, at: real): real
    requires 0.0 <= at < |channel| as real
  {
    var i := at.Floor;
    var a := channel[i];
    var b := if i + 1 < |channel| then channel[i + 1] else a;
    Blend(a, b, at - i as real)
  }

  /** n * step, in the form the loop accumulates it. */
  function Times(n: nat, step: real): real { if n == 0 then 0.0 else Times(n - 1, step) + step }

  lemma {:induction false} TimesIsProduct(n: nat, step: real)
    ensures Times(n, step) == n as real * step
  {
    if n > 0 {
      TimesIsProduct(n - 1, step);
      assert n as real * step == (n - 1) as real * step + step;
    }
  }

  lemma {:induction false} TimesAdds(m: nat, n: nat, step: real)
    ensures Times(m + n, step) == Times(m, step) + Times(n, step)
  {
    if n > 0 {
      TimesAdds(m, n - 1, step);
    }
  }

  lemma {:induction false} TimesGrows(m: nat, n: nat, step: real)
    requires step > 0.0 && m <= n
    ensures 0.0 <= Times(m, step) <= Times(n, step)
    ensures m < n ==> Times(m, step) + step <= Times(n, step)
  {
    if m < n {
      TimesGrows(m, n - 1, step);
    } else if m > 0 {
      TimesGrows(m - 1, m - 1, step);
    }
  }

  /** Readings at carry, carry + ratio, carry + 2 * ratio, ... for as long as the block lasts. */
  function Samples(channel: seq<real>, carry: real, ratio: real): seq<real>
    requires ratio > 0.0 && 0.0 <= carry
    decreases ReadingsLeft(|channel|, carry, ratio)
  {
    if |channel| as real <= carry then []
    else
      StepsRunOut(|channel|, carry, ratio);
      [Lerp(channel, carry)] + Samples(channel, carry + ratio, ratio)
  }

  /** A bound on the readings that still fit: the size the worklet allocates for them. */
  function ReadingsLeft(len: nat, carry: real, ratio: real): int
    requires ratio > 0.0
  {
    ((len as real - carry) / ratio).Floor + 1
  }

  lemma QuotientIs(x: real, y: real, q: real)
    requires y > 0.0 && q * y == x
    ensures x / y == q
  {
    var r := x / y;
    assert (r - q) * y == 0.0;
  }

  lemma StepsRunOut(len: nat, carry: real, ratio: real)
    requires ratio > 0.0 && carry < len as real
    ensures ReadingsLeft(len, carry, ratio) > 0
    ensures ReadingsLeft(len, carry + ratio, ratio) == ReadingsLeft(len, carry, ratio) - 1
  {
    var x, y := len as real - carry, ratio;
    assert x / y >= 0.0;
    var q := x / y;
    assert q * y == x;
    QuotientIs(x - y, y, q - 1.0);
    assert len as real - (carry + ratio) == x - y;
  }

  /** There are exactly as many readings as positions inside the block, each at its own. */
  lemma {:induction false} SamplesIndex(channel: seq<real>, carry: real, ratio: real, n: nat)
    requires ratio > 0.0 && 0.0 <= carry
    ensures n < |Samples(channel, carry, ratio)| <==> carry + Times(n, ratio) < |channel| as real
    ensures carry <= carry + Times(n, ratio)
    ensures n < |Samples(channel, carry, ratio)| ==>
              Samples(channel, carry, ratio)[n] == Lerp(channel, carry + Times(n, ratio))
    decreases n
  {
    TimesGrows(0, n, ratio);
    if n > 0 {
      TimesAdds(1, n - 1, ratio);
      SamplesIndex(channel, carry + ratio, ratio, n - 1);
      assert carry + Times(n, ratio) == carry + ratio + Times(n - 1, ratio);
    }
  }

  // ---------------------------------------------------------------- the whole stream

  /** Every resampled sample of a stream that arrived as these blocks. */
  function Outs(blocks: seq<seq<real>>, ratio: real): (out: seq<real>)
    requires ratio > 0.0
    ensures 0.0 <= Times(|out|, ratio) - |Flatten(blocks)| as real < ratio
  {
    if blocks == [] then []
    else
      var before, block := blocks[..|blocks| - 1], blocks[|blocks| - 1];
      var out := Outs(before, ratio);
      var carry := Times(|out|, ratio) - |Flatten(before)| as real;
      FlattenLast(blocks);
      DriftStep(|out|, |Flatten(before)|, block, ratio);
      out + Samples(block, carry, ratio)
  }

  /** The fractional reading position, relative to the end of everything received. */
  function Carry(blocks: seq<seq<real>>, ratio: real): real
    requires ratio > 0.0
  {
    Times(|Outs(blocks, ratio)|, ratio) - |Flatten(blocks)| as real
  }

  lemma {:induction false} FlattenLast<T>(blocks: seq<seq<T>>)
    requires blocks != []
    ensures Flatten(blocks) == Flatten(blocks[..|blocks| - 1]) + blocks[|blocks| - 1]
  {
    var before, block := blocks[..|blocks| - 1], blocks[|blocks| - 1];
    assert blocks == before + [block];
    FlattenAppend(before, [block]);
    assert Flatten([block]) == block + Flatten<T>([]);
  }

  lemma {:induction false} DriftStep(outs: nat, total: nat, block: seq<real>, ratio: real)
    requires ratio > 0.0
    requires 0.0 <= Times(outs, ratio) - total as real < ratio
    ensures var carry := Times(outs, ratio) - total as real;
            0.0 <= Times(outs + |Samples(block, carry, ratio)|, ratio) - (total + |block|) as real < ratio
  {
    var carry := Times(outs, ratio) - total as real;
    var n := |Samples(block, carry, ratio)|;
    SamplesIndex(block, carry, ratio, n);
    if n > 0 {
      SamplesIndex(block, carry, ratio, n - 1);
    }
    TimesAdds(outs, n, ratio);
  }

  /** The stream never drifts: output k exists exactly when k * ratio lies inside what has been
      received, however that was cut into blocks. */
  lemma {:induction false} OutputCountIsExact(blocks: seq<seq<real>>, ratio: real, k: nat)
    requires ratio > 0.0
    ensures k < |Outs(blocks, ratio)| <==> Times(k, ratio) < |Flatten(blocks)| as real
  {
    var n := |Outs(blocks, ratio)|;
    if k < n {
      TimesGrows(k, n - 1, ratio);
    } else {
      TimesGrows(n, k, ratio);
    }
  }

  /** Sample i is the last one of some block. */
  ghost predicate EndsBlock(blocks: seq<seq<real>>, i: int)
  {
    exists j :: 0 <= j <= |blocks| && |Flatten(blocks[..j])| == i + 1
  }

  /** Linear interpolation of a whole signal, next to what the worklet can see of it: the
      neighbour beyond the end of a block has not arrived yet. */
  ghost function Seen(blocks: seq<seq<real>>, at: real): real
    requires 0.0 <= at < |Flatten(blocks)| as real
  {
    var whole, i := Flatten(blocks), at.Floor;
    if EndsBlock(blocks, i) then whole[i]
    else LastEnds(blocks); Blend(whole[i], whole[i + 1], at - i as real)
  }

  lemma {:induction false} LastEnds(blocks: seq<seq<real>>)
    ensures EndsBlock(blocks, |Flatten(blocks)| - 1)
  {
    assert blocks[..|blocks|] == blocks;
  }

  lemma {:induction false} PrefixFlatten(blocks: seq<seq<real>>, j: nat)
    requires j <= |blocks|
    ensures |Flatten(blocks[..j])| <= |Flatten(blocks)|
    ensures Flatten(blocks) == Flatten(blocks[..j]) + Flatten(blocks[j..])
  {
    assert blocks == blocks[..j] + blocks[j..];
    FlattenAppend(blocks[..j], blocks[j..]);
  }

  /** Dropping the last block changes nothing for a position that precedes it. */
  lemma {:induction false} SeenInPrefix(blocks: seq<seq<real>>, at: real)
    requires blocks != []
    requires 0.0 <= at < |Flatten(blocks[..|blocks| - 1])| as real
    ensures at < |Flatten(blocks)| as real
    ensures Seen(blocks, at) == Seen(blocks[..|blocks| - 1], at)
  {
    var before := blocks[..|blocks| - 1];
    FlattenLast(blocks);
    var i := at.Floor;
    if EndsBlock(before, i) {
      var j :| 0 <= j <= |before| && |Flatten(before[..j])| == i + 1;
      assert blocks[..j] == before[..j];
    }
    if EndsBlock(blocks, i) {
      var j :| 0 <= j <= |blocks| && |Flatten(blocks[..j])| == i + 1;
      if j == |blocks| {
        assert blocks[..j] == blocks;
        LastEnds(before);
      } else {
        assert blocks[..j] == before[..j];
      }
    }
  }

  /** Inside the last block no block ends before its end. */
  lemma {:induction false} LastBlockEnds(blocks: seq<seq<real>>, i: nat)
    requires blocks != [] && |Flatten(blocks[..|blocks| - 1])| <= i < |Flatten(blocks)|
    ensures EndsBlock(blocks, i) <==> i + 1 == |Flatten(blocks)|
  {
    var before := blocks[..|blocks| - 1];
    if i + 1 == |Flatten(blocks)| {
      LastEnds(blocks);
    } else {
      forall j | 0 <= j <= |blocks| ensures |Flatten(blocks[..j])| != i + 1 {
        if j < |blocks| {
          assert blocks[..j] == before[..j];
          PrefixFlatten(before, j);
        } else {
          assert blocks[..j] == blocks;
        }
      }
    }
  }

  /** A position inside the last block is read from that block alone. */
  lemma {:induction false} SeenInLast(blocks: seq<seq<real>>, at: real)
    requires blocks != []
    requires |Flatten(blocks[..|blocks| - 1])| as real <= at < |Flatten(blocks)| as real
    ensures var start, block := |Flatten(blocks[..|blocks| - 1])|, blocks[|blocks| - 1];
            0.0 <= at - start as real < |block| as real
            && Seen(blocks, at) == Lerp(block, at - start as real)
  {
    var before, block := blocks[..|blocks| - 1], blocks[|blocks| - 1];
    FlattenLast(blocks);
    var start, i := |Flatten(before)|, at.Floor;
    assert (at - start as real).Floor == i - start;
    LastBlockEnds(blocks, i);
    assert Flatten(blocks)[i] == block[i - start];
    assert at - start as real - (i - start) as real == at - i as real;
    if i + 1 < |Flatten(blocks)| {
      assert Flatten(blocks)[i + 1] == block[i - start + 1];
      assert Lerp(block, at - start as real) == Blend(block[i - start], block[i - start + 1], at - i as real);
    }
  }

  /** Output k is taken at position k * ratio of everything received, for every way of cutting
      the stream into blocks. */
  lemma {:induction false} OutputPosition(blocks: seq<seq<real>>, ratio: real, k: nat)
    requires ratio > 0.0 && k < |Outs(blocks, ratio)|
    ensures 0.0 <= Times(k, ratio) < |Flatten(blocks)| as real
    ensures Outs(blocks, ratio)[k] == Seen(blocks, Times(k, ratio))
  {
    OutputCountIsExact(blocks, ratio, k);
    TimesGrows(0, k, ratio);
    var before, block := blocks[..|blocks| - 1], blocks[|blocks| - 1];
    var out := Outs(before, ratio);
    FlattenLast(blocks);
    if k < |out| {
      OutputPosition(before, ratio, k);
      SeenInPrefix(blocks, Times(k, ratio));
    } else {
      var n, carry := k - |out|, Carry(before, ratio);
      TimesAdds(|out|, n, ratio);
      assert Times(k, ratio) == Times(|out|, ratio) + Times(n, ratio);
      SamplesIndex(block, carry, ratio, n);
      assert Outs(blocks, ratio)[k] == Samples(block, carry, ratio)[n];
      SeenInLast(blocks, Times(k, ratio));
    }
  }

  /** The outputs of the last block follow those of the blocks before it. */
  lemma {:induction false} OutsLast(blocks: seq<seq<real>>, ratio: real)
    requires ratio > 0.0 && blocks != []
    ensures var before, block := blocks[..|blocks| - 1], blocks[|blocks| - 1];
            0.0 <= Carry(before, ratio)
            && Outs(blocks, ratio) == Outs(before, ratio) + Samples(block, Carry(before, ratio), ratio)
            && |Flatten(blocks)| == |Flatten(before)| + |block|
  {
    FlattenLast(blocks);
  }

  /** Output k in the samples themselves: at position x = k * ratio of everything received, between
      samples i and i + 1, it is their mean weighted by how far x is from each, but sample i alone
      where a block ends with it. */
  lemma {:induction false} OutputIsWeightedMean(blocks: seq<seq<real>>, ratio: real, k: nat)
    requires ratio > 0.0 && k < |Outs(blocks, ratio)|
    ensures 0.0 <= k as real * ratio < |Flatten(blocks)| as real
    ensures Outs(blocks, ratio)[k] == WeightedMean(Flatten(blocks), k as real * ratio, blocks)
  {
    OutputPosition(blocks, ratio, k);
    TimesIsProduct(k, ratio);
    SeenIsWeighted(blocks, k as real * ratio);
  }

  ghost function WeightedMean(whole: seq<real>, x: real, blocks: seq<seq<real>>): real
    requires 0.0 <= x < |whole| as real
  {
    var i := x.Floor;
    if EndsBlock(blocks, i) || i + 1 == |whole| then whole[i]
    else whole[i] * ((i + 1) as real - x) + whole[i + 1] * (x - i as real)
  }

  lemma {:induction false} SeenIsWeighted(blocks: seq<seq<real>>, x: real)
    requires 0.0 <= x < |Flatten(blocks)| as real
    ensures Seen(blocks, x) == WeightedMean(Flatten(blocks), x, blocks)
  {
    LastEnds(blocks);
    var whole, i := Flatten(blocks), x.Floor;
    if i + 1 < |whole| {
      BlendIsWeighted(whole[i], whole[i + 1], x - i as real);
    }
  }

  lemma BlendIsWeighted(a: real, b: real, t: real)
    ensures Blend(a, b, t) == a * (1.0 - t) + b * t
  {
  }

  /** An output equals the interpolation of the unbroken signal exactly when it falls on a
      sample, or its right neighbour is in the same block, or that neighbour is equal anyway. */
  lemma {:induction false} OutputIsInterpolation(blocks: seq<seq<real>>, ratio: real, k: nat)
    requires ratio > 0.0 && k < |Outs(blocks, ratio)|
    ensures var whole, at := Flatten(blocks), Times(k, ratio);
            0.0 <= at < |whole| as real &&
            var i := at.Floor;
            (Outs(blocks, ratio)[k] == Lerp(whole, at)
             <==> at == i as real || !EndsBlock(blocks, i) || i + 1 == |whole| || whole[i + 1] == whole[i])
  {
    OutputPosition(blocks, ratio, k);
    SeenIsInterpolation(blocks, Times(k, ratio));
  }

  lemma {:induction false} SeenIsInterpolation(blocks: seq<seq<real>>, at: real)
    requires 0.0 <= at < |Flatten(blocks)| as real
    ensures var whole, i := Flatten(blocks), at.Floor;
            (Seen(blocks, at) == Lerp(whole, at)
             <==> at == i as real || !EndsBlock(blocks, i) || i + 1 == |whole| || whole[i + 1] == whole[i])
  {
    LastEnds(blocks);
    var whole, i := Flatten(blocks), at.Floor;
    if i + 1 < |whole| {
      NonZeroProduct(whole[i + 1] - whole[i], at - i as real);
    }
  }

  lemma NonZeroProduct(x: real, y: real)
    ensures x * y == 0.0 <==> x == 0.0 || y == 0.0
  {
  }

  /** So the cut can be heard: one signal, two ways of delivering it, two different outputs. */
  lemma {:induction false} BlocksCanBeHeard()
    ensures var whole := [[0.0, 0.0, 1.0, 1.0]];
            var halves := [[0.0, 0.0], [1.0, 1.0]];
            Flatten(whole) == Flatten(halves) && Outs(whole, 1.5) != Outs(halves, 1.5)
  {
    var whole, halves := [[0.0, 0.0, 1.0, 1.0]], [[0.0, 0.0], [1.0, 1.0]];
    FlattenLast(whole);
    FlattenLast(halves);
    assert halves[..1] == [[0.0, 0.0]] && halves[..2] == halves;
    FlattenLast(halves[..1]);
    OutputCountIsExact(whole, 1.5, 1);
    OutputCountIsExact(halves, 1.5, 1);
    OutputIsInterpolation(halves, 1.5, 1);
    OutputIsInterpolation(whole, 1.5, 1);
    assert EndsBlock(halves, 1);
    forall j | 0 <= j <= 1 ensures |Flatten(whole[..j])| != 2 {
      assert j == 1 ==> whole[..j] == whole;
    }
  }

  /** With a whole ratio m the output is every m-th sample, so delivery cannot be heard. */
  lemma {:induction false} WholeRatioSubsamples(blocks: seq<seq<real>>, m: nat, k: nat)
    requires m > 0 && k < |Outs(blocks, m as real)|
    ensures k * m < |Flatten(blocks)| && Outs(blocks, m as real)[k] == Flatten(blocks)[k * m]
  {
    TimesIsWhole(k, m);
    WholePosition(blocks, m as real, k, k * m);
  }

  lemma LerpAtWhole(channel: seq<real>, i: nat)
    requires i < |channel|
    ensures Lerp(channel, i as real) == channel[i]
  {
  }

  lemma {:induction false} WholePosition(blocks: seq<seq<real>>, ratio: real, k: nat, p: nat)
    requires ratio > 0.0 && k < |Outs(blocks, ratio)| && Times(k, ratio) == p as real
    ensures p < |Flatten(blocks)| && Outs(blocks, ratio)[k] == Flatten(blocks)[p]
  {
    OutputIsInterpolation(blocks, ratio, k);
    LerpAtWhole(Flatten(blocks), p);
  }

  lemma {:induction false} TimesIsWhole(k: nat, m: nat)
    ensures Times(k, m as real) == (k * m) as real
  {
    if k > 0 {
      TimesIsWhole(k - 1, m);
      assert k * m == (k - 1) * m + m;
    }
  }

  lemma {:induction false} WholeRatioIgnoresBlocks(a: seq<seq<real>>, b: seq<seq<real>>, m: nat)
    requires m > 0 && Flatten(a) == Flatten(b)
    ensures Outs(a, m as real) == Outs(b, m as real)
  {
    var x, y := Outs(a, m as real), Outs(b, m as real);
    OutputCountIsExact(a, m as real, |y|);
    OutputCountIsExact(b, m as real, |y|);
    OutputCountIsExact(a, m as real, |x|);
    OutputCountIsExact(b, m as real, |x|);
    forall k | 0 <= k < |x| ensures x[k] == y[k] {
      WholeRatioSubsamples(a, m, k);
      WholeRatioSubsamples(b, m, k);
    }
  }

  // ---------------------------------------------------------------- cutting into frames

  /** The full frames of a signal, quantised, and the samples left over after them. */
  function Posts(s: seq<real>, frame: nat): seq<seq<int>>
    requires frame > 0
  {
    if |s| < frame then [] else [Map(Quantise, s[..frame])] + Posts(s[frame..], frame)
  }

  function Rest(s: seq<real>, frame: nat): seq<real>
    requires frame > 0
  {
    if |s| < frame then s else Rest(s[frame..], frame)
  }

  /** Keeping only the remainder between blocks loses nothing. */
  lemma {:induction false} RestIsEnough(a: seq<real>, b: seq<real>, frame: nat)
    requires frame > 0
    ensures Posts(a + b, frame) == Posts(a, frame) + Posts(Rest(a, frame) + b, frame)
    ensures Rest(a + b, frame) == Rest(Rest(a, frame) + b, frame)
  {
    if |a| >= frame {
      assert (a + b)[..frame] == a[..frame] && (a + b)[frame..] == a[frame..] + b;
      RestIsEnough(a[frame..], b, frame);
    }
  }

  /** Every sample is posted or pending, once, in order; every frame is full of 16-bit values
      and what is pending is less than a frame. */
  lemma {:induction false} FramesConserve(s: seq<real>, frame: nat)
    requires frame > 0
    ensures Flatten(Posts(s, frame)) + Map(Quantise, Rest(s, frame)) == Map(Quantise, s)
    ensures |Rest(s, frame)| < frame
    ensures forall p <- Posts(s, frame) :: |p| == frame && forall v <- p :: -0x8000 <= v <= 0x7fff
  {
    if |s| >= frame {
      FramesConserve(s[frame..], frame);
      QuantisedFits(s[..frame]);
      QuantisedSplits(s, frame);
      assert Posts(s, frame)[1..] == Posts(s[frame..], frame);
    }
  }

  lemma {:induction false} QuantisedFits(s: seq<real>)
    ensures forall v <- Map(Quantise, s) :: -0x8000 <= v <= 0x7fff
  {
    forall i | 0 <= i < |s| ensures -0x8000 <= Quantise(s[i]) <= 0x7fff {
      QuantiseNeverWraps(s[i], s[i]);
    }
  }

  lemma {:induction false} QuantisedSplits(s: seq<real>, n: nat)
    requires n <= |s|
    ensures Map(Quantise, s) == Map(Quantise, s[..n]) + Map(Quantise, s[n..])
  {
  }

  /** Frame k, position i is sample k * frame + i, and a frame is posted as soon as it is full. */
  lemma {:induction false} FrameSample(s: seq<real>, frame: nat, k: nat, i: nat)
    requires frame > 0 && i < frame
    ensures 0 <= k * frame
    ensures k < |Posts(s, frame)| <==> k * frame + frame <= |s|
    ensures k < |Posts(s, frame)| ==>
              |Posts(s, frame)[k]| == frame && Posts(s, frame)[k][i] == Quantise(s[k * frame + i])
    decreases k
  {
    if k > 0 {
      assert k * frame == (k - 1) * frame + frame;
      if |s| >= frame {
        FrameSample(s[frame..], frame, k - 1, i);
      }
    }
  }

  /** With a whole ratio, what is posted depends on the signal and not on its delivery. */
  lemma WholeRatioFrames(blocks: seq<seq<real>>, m: nat, frame: nat, k: nat, i: nat)
    requires m > 0 && frame > 0 && i < frame && k < |Posts(Outs(blocks, m as real), frame)|
    ensures 0 <= (k * frame + i) * m < |Flatten(blocks)|
    ensures |Posts(Outs(blocks, m as real), frame)[k]| == frame
    ensures Posts(Outs(blocks, m as real), frame)[k][i] == Quantise(Flatten(blocks)[(k * frame + i) * m])
  {
    FrameSample(Outs(blocks, m as real), frame, k, i);
    WholeRatioSubsamples(blocks, m, k * frame + i);
  }

  // ---------------------------------------------------------------- the processor

  class MicFrameProcessor {
    const frameSamples: nat
    const ratio: real
    var pending: array<real>
    var carry: real
    /** What has gone out through the port. */
    var posted: seq<seq<int>>
    /** The channel blocks that have come in. */
    ghost var received: seq<seq<real>>

    /** The three fields are a function of what has been received. */
    ghost predicate Valid()
      reads this, pending
    {
      && frameSamples > 0 && ratio > 0.0
      && carry == Carry(received, ratio)
      && posted == Posts(Outs(received, ratio), frameSamples)
      && pending[..] == Rest(Outs(received, ratio), frameSamples)
    }

    constructor (sampleRate: real, targetRate: real, frameSamples: nat)
      requires sampleRate > 0.0 && targetRate > 0.0 && frameSamples > 0
      ensures Valid() && received == [] && this.frameSamples == frameSamples
      ensures ratio == sampleRate / targetRate
    {
      this.frameSamples := frameSamples;
      ratio := sampleRate / targetRate;
      pending := new real[0];
      carry := 0.0;
      posted := [];
      received := [];
      new;
      QuotientIsPositive(sampleRate, targetRate);
    }

    /** Resampling one block: `samples` of the worklet, and the carry it leaves. */
    method Resample(channel: seq<real>) returns (samples: array<real>)
      requires ratio > 0.0 && 0.0 <= carry < ratio && (ratio == 1.0 ==> carry == 0.0)
      modifies this`carry
      ensures fresh(samples) && samples[..] == Samples(channel, old(carry), ratio)
      ensures carry == old(carry) + Times(samples.Length, ratio) - |channel| as real
    {
      if ratio == 1.0 {
        UnitRatioIsIdentity(channel);
        samples := new real[|channel|](i requires 0 <= i < |channel| => channel[i]);
        assert samples[..] == channel;
        return;
      }
      AllocationFits(|channel|, carry, ratio, 0);
      var out := new real[ReadingsLeft(|channel|, carry, ratio)];
      var n, at := 0, carry;
      while at < |channel| as real
        invariant 0 <= n && at == carry + Times(n, ratio) && 0.0 <= at
        invariant n <= out.Length && carry == old(carry)
        invariant out[..n] + Samples(channel, at, ratio) == Samples(channel, carry, ratio)
        decreases ReadingsLeft(|channel|, at, ratio)
      {
        AllocationFits(|channel|, carry, ratio, n);
        StepsRunOut(|channel|, at, ratio);
        OneMoreReading(channel, out[..n], at, ratio);
        ghost var done := out[..n];
        out[n] := Lerp(channel, at);
        n := n + 1;
        assert out[..n] == done + [Lerp(channel, at)];
        at := at + ratio;
      }
      carry := carry + Times(n, ratio) - |channel| as real;
      samples := new real[n](k requires 0 <= k < n <= out.Length reads out => out[k]);
      assert samples[..] == out[..n];
    }

    /** One call of the audio thread. An input without a channel changes nothing. */
    method Process(inputs: seq<seq<seq<real>>>)
      requires Valid()
      modifies this
      ensures Valid()
      ensures received == old(received) + (if |inputs| > 0 && |inputs[0]| > 0 then [inputs[0][0]] else [])
    {
      if |inputs| == 0 || |inputs[0]| == 0 {
        return;
      }
      var channel := inputs[0][0];
      UnitRatioHasNoCarry(received, ratio);
      var samples := Resample(channel);
      OutsGrow(received, channel, ratio);
      RestIsEnough(Outs(received, ratio), samples[..], frameSamples);
      var merged := Merge(pending, samples);
      CutFrames(merged);
      received := received + [channel];
    }

    static method Merge(first: array<real>, second: array<real>) returns (merged: array<real>)
      ensures fresh(merged) && merged[..] == first[..] + second[..]
    {
      merged := new real[first.Length + second.Length](i
        requires 0 <= i < first.Length + second.Length reads first, second =>
        if i < first.Length then first[i] else second[i - first.Length]);
    }

    /** Post every full frame of `merged` and keep what is left. */
    method CutFrames(merged: array<real>)
      requires frameSamples > 0
      modifies this`posted, this`pending
      ensures posted == old(posted) + Posts(merged[..], frameSamples)
      ensures pending[..] == Rest(merged[..], frameSamples)
    {
      var offset := 0;
      assert merged[0..] == merged[..];
      while merged.Length - offset >= frameSamples
        invariant 0 <= offset <= merged.Length
        invariant posted + Posts(merged[offset..], frameSamples) == old(posted) + Posts(merged[..], frameSamples)
        invariant Rest(merged[offset..], frameSamples) == Rest(merged[..], frameSamples)
      {
        assert merged[offset..][..frameSamples] == merged[offset..offset + frameSamples];
        assert merged[offset..][frameSamples..] == merged[offset + frameSamples..];
        var frame := QuantiseFrame(merged, offset);
        posted := posted + [frame];
        offset := offset + frameSamples;
      }
      pending := new real[merged.Length - offset](i
        requires 0 <= i < merged.Length - offset && 0 <= offset reads merged => merged[offset + i]);
      assert pending[..] == merged[offset..];
    }

    method QuantiseFrame(merged: array<real>, offset: nat) returns (frame: seq<int>)
      requires offset + frameSamples <= merged.Length
      ensures frame == Map(Quantise, merged[offset..offset + frameSamples])
    {
      var buffer := new int[frameSamples];
      for i := 0 to frameSamples
        invariant forall k :: 0 <= k < i ==> buffer[k] == Quantise(merged[offset + k])
      {
        var s := Clamp(merged[offset + i]);
        buffer[i] := ToInt16(Truncate(if s < 0.0 then s * 32768.0 else s * 32767.0));
      }
      frame := buffer[..];
    }
  }

  // ---------------------------------------------------------------- proof support for the class

  /** The buffer allocated in advance has a sensible size and every write lands inside it. */
  /** One more reading of the samples still to come. */
  lemma {:induction false} OneMoreReading(channel: seq<real>, done: seq<real>, at: real, ratio: real)
    requires ratio > 0.0 && 0.0 <= at < |channel| as real
    ensures done + [Lerp(channel, at)] + Samples(channel, at + ratio, ratio) == done + Samples(channel, at, ratio)
  {
    StepsRunOut(|channel|, at, ratio);
  }

  lemma {:induction false} AllocationFits(len: nat, carry: real, ratio: real, n: nat)
    requires 0.0 <= carry < ratio
    ensures 0 <= ReadingsLeft(len, carry, ratio)
    ensures carry + Times(n, ratio) < len as real ==> n < ReadingsLeft(len, carry, ratio)
    ensures n + 1 < ReadingsLeft(len, carry, ratio) ==> carry + Times(n, ratio) < len as real
  {
    QuotientAbove(len as real - carry, ratio, -1);
    TimesIsProduct(n, ratio);
    QuotientAbove(len as real - carry, ratio, n);
    QuotientBelow(len as real - carry, ratio, n + 1);
  }

  lemma QuotientBelow(x: real, y: real, bound: int)
    requires y > 0.0
    ensures bound <= (x / y).Floor ==> bound as real * y <= x
  {
    var q := x / y;
    assert q * y == x;
    if bound as real <= q {
      assert (q - bound as real) * y >= 0.0;
    }
  }

  lemma {:induction false} QuotientAbove(x: real, y: real, bound: int)
    requires y > 0.0
    ensures bound as real * y < x ==> bound <= (x / y).Floor
  {
    var q := x / y;
    assert q * y == x;
    if q <= bound as real {
      ScaleOrder(q, bound as real, y);
    }
  }

  lemma ScaleOrder(x: real, y: real, ratio: real)
    requires ratio > 0.0
    ensures x <= y ==> x * ratio <= y * ratio
  {
  }

  lemma QuotientIsPositive(x: real, y: real)
    requires x > 0.0 && y > 0.0
    ensures x / y > 0.0
  {
  }

  lemma {:induction false} TimesUnit(n: nat)
    ensures Times(n, 1.0) == n as real
  {
    if n > 0 {
      TimesUnit(n - 1);
    }
  }

  lemma {:induction false} UnitRatioIsIdentity(channel: seq<real>)
    ensures Samples(channel, 0.0, 1.0) == channel && Times(|channel|, 1.0) == |channel| as real
  {
    var out := Samples(channel, 0.0, 1.0);
    TimesUnit(|channel|);
    TimesUnit(|out|);
    SamplesIndex(channel, 0.0, 1.0, |channel|);
    SamplesIndex(channel, 0.0, 1.0, |out|);
    forall n | 0 <= n < |out| && n < |channel| ensures out[n] == channel[n] {
      TimesUnit(n);
      SamplesIndex(channel, 0.0, 1.0, n);
      assert 0.0 + Times(n, 1.0) == n as real;
      LerpAtWhole(channel, n);
    }
  }

  /** Why the shortcut for an unchanged rate may ignore the carry. */
  lemma {:induction false} UnitRatioHasNoCarry(blocks: seq<seq<real>>, ratio: real)
    requires ratio > 0.0
    ensures 0.0 <= Carry(blocks, ratio) < ratio
    ensures ratio == 1.0 ==> Carry(blocks, ratio) == 0.0
  {
    var n, t := |Outs(blocks, ratio)|, |Flatten(blocks)|;
    assert Carry(blocks, ratio) == Times(n, ratio) - t as real;
    if ratio == 1.0 {
      WholeCarry(n, t);
    }
  }

  lemma {:induction false} WholeCarry(n: nat, t: nat)
    requires 0.0 <= Times(n, 1.0) - t as real < 1.0
    ensures Times(n, 1.0) - t as real == 0.0
  {
    TimesUnit(n);
    WholesAreApart(n, t);
  }

  lemma {:induction false} WholesAreApart(n: nat, t: nat)
    ensures n > t ==> n as real - t as real >= 1.0
  {
  }

  lemma {:induction false} OutsGrow(blocks: seq<seq<real>>, block: seq<real>, ratio: real)
    requires ratio > 0.0
    ensures Carry(blocks, ratio) >= 0.0
    ensures var more := Samples(block, Carry(blocks, ratio), ratio);
            Outs(blocks + [block], ratio) == Outs(blocks, ratio) + more
            && Carry(blocks + [block], ratio) == Carry(blocks, ratio) + Times(|more|, ratio) - |block| as real
  {
    var all := blocks + [block];
    assert all[..|all| - 1] == blocks;
    OutsLast(all, ratio);
    TimesAdds(|Outs(blocks, ratio)|, |Samples(block, Carry(blocks, ratio), ratio)|, ratio);
  }
}
