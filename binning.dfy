/** Mapping sweep samples onto the fixed array of power bins (main.py lines 34-37,
    155-162 and 169-173).

    The display covers 1 GHz to 6 GHz with 1000 bins. Sample `i` of a record lies
    at `start + i * width`; it is kept when it lies in the closed range and its
    bin index, `int((f - start_freq) / (end_freq - start_freq) * N)`, lies in
    `[0, N)`. Kept samples of all lines of one chunk are collected in order and
    then written into the bins, a later write replacing an earlier one. */
module Binning {
  import opened Wrappers
  import opened Demux
  import opened Records

  const StartFreq: real := 1000000000.0
  const EndFreq: real := 6000000000.0
  const BinCount: nat := 1000

  /** The frequency span of one bin: 5 MHz. */
  const BinSpan: real := (EndFreq - StartFreq) / (BinCount as real)

  /** Python's `int(x)` on a number: truncation toward zero. */
  function Trunc(x: real): (r: int)
    ensures x >= 0.0 ==> r as real <= x < r as real + 1.0
    ensures x < 0.0 ==> r as real - 1.0 < x <= r as real
  {
    if x >= 0.0 then x.Floor else -((-x).Floor)
  }

  /** The bin a frequency is written to. */
  function BinIndex(f: real): int
  {
    Trunc((f - StartFreq) / (EndFreq - StartFreq) * (BinCount as real))
  }

  /** The first filter: `start_freq <= freq <= end_freq`. */
  predicate InWindow(f: real)
  {
    StartFreq <= f <= EndFreq
  }

  /** Both filters a sample must pass to be collected. */
  predicate Kept(f: real)
  {
    InWindow(f) && 0 <= BinIndex(f) < BinCount
  }

  /** Bin `b` holds exactly the frequencies of the half-open interval
      `[StartFreq + b * BinSpan, StartFreq + (b + 1) * BinSpan)`. */
  lemma BinInterval(f: real, b: int)
    requires StartFreq <= f
    ensures BinIndex(f) == b
      <==> StartFreq + (b as real) * BinSpan <= f < StartFreq + ((b + 1) as real) * BinSpan
  {
  }

  /** A sample is kept exactly when its frequency lies in the half-open range
      `[StartFreq, EndFreq)`: the closed upper end passes the first filter but maps
      to bin `BinCount`, which the second filter drops. */
  lemma KeptExactly(f: real)
    ensures Kept(f) <==> StartFreq <= f < EndFreq
    ensures BinIndex(EndFreq) == BinCount && InWindow(EndFreq) && !Kept(EndFreq)
  {
  }

  /** One collected sample: its frequency (Hz) and power (dB). */
  datatype Sample = Sample(freq: real, power: real)

  /** The frequency of sample `i` of a record. */
  function SampleFreq(sw: Sweep, i: nat): real
  {
    sw.startFreq + (i as real) * sw.binWidth
  }

  /** The samples collected from the first `k` powers of a record, in order. */
  function SweepSamples(sw: Sweep, k: nat): (r: seq<Sample>)
    requires k <= |sw.powers|
    ensures |r| <= k
    ensures forall j :: 0 <= j < |r| ==> Kept(r[j].freq)
  {
    if k == 0 then []
    else
      var f := SampleFreq(sw, k - 1);
      SweepSamples(sw, k - 1) + (if Kept(f) then [Sample(f, sw.powers[k - 1])] else [])
  }

  /** Collecting more powers only extends what was collected before. */
  lemma {:induction false} SweepSamplesPrefix(sw: Sweep, i: nat, k: nat)
    requires i <= k <= |sw.powers|
    ensures |SweepSamples(sw, i)| <= |SweepSamples(sw, k)|
    ensures SweepSamples(sw, i) == SweepSamples(sw, k)[..|SweepSamples(sw, i)|]
    decreases k - i
  {
    if i < k {
      SweepSamplesPrefix(sw, i, k - 1);
      var a := SweepSamples(sw, k - 1);
      assert SweepSamples(sw, k)[..|a|] == a;
    }
  }

  /** Every kept sample `i` of a record is collected, carrying its own frequency
      and power, after every kept sample before it. */
  lemma {:induction false} KeptSampleCollected(sw: Sweep, k: nat, i: nat)
    requires i < k <= |sw.powers| && Kept(SampleFreq(sw, i))
    ensures |SweepSamples(sw, i)| < |SweepSamples(sw, k)|
    ensures SweepSamples(sw, k)[|SweepSamples(sw, i)|] == Sample(SampleFreq(sw, i), sw.powers[i])
  {
    SweepSamplesPrefix(sw, i + 1, k);
    assert SweepSamples(sw, i + 1) == SweepSamples(sw, i) + [Sample(SampleFreq(sw, i), sw.powers[i])];
  }

  /** Every collected sample is a kept sample `i` of the record, carrying its
      frequency and power, and its position counts the kept samples before `i`. */
  lemma {:induction false} CollectedSampleOrigin(sw: Sweep, k: nat, j: nat)
    requires k <= |sw.powers| && j < |SweepSamples(sw, k)|
    ensures exists i ::
      && 0 <= i < k && Kept(SampleFreq(sw, i)) && |SweepSamples(sw, i)| == j
      && SweepSamples(sw, k)[j] == Sample(SampleFreq(sw, i), sw.powers[i])
  {
    var before := SweepSamples(sw, k - 1);
    if j < |before| {
      CollectedSampleOrigin(sw, k - 1, j);
    } else {
      assert Kept(SampleFreq(sw, k - 1));
    }
  }

  /** The samples a received line contributes: none when it is skipped. */
  function Contribution(line: Bytes, decode: Decoder, toFloat: NumberParser): seq<Sample>
  {
    match ParseLine(line, decode, toFloat)
    case None => []
    case Some(sw) => SweepSamples(sw, |sw.powers|)
  }

  /** The samples collected from the complete lines of one chunk, in line order
      then sample order (`new_frequencies` and `new_powers` side by side). */
  function Collected(lines: seq<Bytes>, decode: Decoder, toFloat: NumberParser): (r: seq<Sample>)
    ensures forall j :: 0 <= j < |r| ==> Kept(r[j].freq)
  {
    if lines == [] then []
    else Collected(lines[..|lines| - 1], decode, toFloat) + Contribution(lines[|lines| - 1], decode, toFloat)
  }

  /** Collecting one more line appends that line's contribution. */
  lemma CollectedStep(lines: seq<Bytes>, n: nat, decode: Decoder, toFloat: NumberParser)
    requires n < |lines|
    ensures Collected(lines[..n + 1], decode, toFloat)
      == Collected(lines[..n], decode, toFloat) + Contribution(lines[n], decode, toFloat)
  {
    assert lines[..n + 1][..n] == lines[..n];
  }

  /** Lines contribute independently: what is collected from two runs of lines
      is what each run contributes, one after the other. */
  lemma {:induction false} CollectedAppend(a: seq<Bytes>, b: seq<Bytes>, decode: Decoder, toFloat: NumberParser)
    ensures Collected(a + b, decode, toFloat) == Collected(a, decode, toFloat) + Collected(b, decode, toFloat)
    decreases |b|
  {
    if b != [] {
      var b' := b[..|b| - 1];
      CollectedAppend(a, b', decode, toFloat);
      assert (a + b)[..|a + b| - 1] == a + b';
    } else {
      assert a + b == a;
    }
  }

  /** A skipped line (undecodable, comment, too few fields, a field that is not a
      number) contributes nothing, and the lines after it are still collected. */
  lemma SkippedLineIgnored(a: seq<Bytes>, line: Bytes, b: seq<Bytes>, decode: Decoder, toFloat: NumberParser)
    requires ParseLine(line, decode, toFloat) == None
    ensures Collected(a + [line] + b, decode, toFloat) == Collected(a + b, decode, toFloat)
  {
    var single := [line];
    assert single[..0] == [];
    assert Collected(single, decode, toFloat) == [];
    CollectedAppend(a + single, b, decode, toFloat);
    CollectedAppend(a, single, decode, toFloat);
    CollectedAppend(a, b, decode, toFloat);
  }

  /** Writing one collected sample into the bins (`powers[index] = power`). */
  function Write(p: seq<real>, x: Sample): seq<real>
    requires |p| == BinCount
  {
    var index := BinIndex(x.freq);
    if 0 <= index < BinCount then p[index := x.power] else p
  }

  /** The bins after the collected samples are written in order. */
  function Applied(p: seq<real>, s: seq<Sample>): (r: seq<real>)
    requires |p| == BinCount
    ensures |r| == BinCount
  {
    if s == [] then p else Write(Applied(p, s[..|s| - 1]), s[|s| - 1])
  }

  /** Last write wins: a bin that no sample maps to keeps its value, and a bin
      some sample maps to holds the power of the last such sample. */
  lemma {:induction false} LastWriteWins(p: seq<real>, s: seq<Sample>, b: int)
    requires |p| == BinCount && 0 <= b < BinCount
    ensures (forall j :: 0 <= j < |s| ==> BinIndex(s[j].freq) != b) ==> Applied(p, s)[b] == p[b]
    ensures forall j ::
      (0 <= j < |s| && BinIndex(s[j].freq) == b && (forall k :: j < k < |s| ==> BinIndex(s[k].freq) != b))
      ==> Applied(p, s)[b] == s[j].power
  {
    if s != [] {
      var init := s[..|s| - 1];
      LastWriteWins(p, init, b);
      forall j | 0 <= j < |init| ensures init[j] == s[j] { }
    }
  }
}
