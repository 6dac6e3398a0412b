/** The viewer's data path: the state the receive loop, the max-hold button and
    the plot timer share (main.py lines 34-38, 52-102 and 122-173). */
module Viewer {
  import opened Wrappers
  import opened Records
  import opened Demux
  import opened Binning
  import opened MaxHold

  /** A peak marker: the bin it points to and that bin's power. */
  datatype Marker = Marker(bin: nat, power: real)

  /** The loop over one record's powers (main.py lines 155-162): each sample in
      the window whose bin index is in range is appended, in order. */
  method AppendSweep(acc: seq<Sample>, sw: Sweep) returns (samples: seq<Sample>)
    ensures samples == acc + SweepSamples(sw, |sw.powers|)
  {
    samples := acc;
    var i := 0;
    while i < |sw.powers|
      invariant 0 <= i <= |sw.powers|
      invariant samples == acc + SweepSamples(sw, i)
    {
      var freq := SampleFreq(sw, i);
      if StartFreq <= freq <= EndFreq {
        var index := BinIndex(freq);
        if 0 <= index < BinCount {
          samples := samples + [Sample(freq, sw.powers[i])];
        }
      }
      i := i + 1;
    }
  }

  /** The first loop of a chunk (main.py lines 138-166): every complete line is
      parsed, skipped lines contribute nothing, and the kept samples of the other
      lines are appended in line order, then sample order. */
  method CollectSamples(lines: seq<Bytes>, decode: Decoder, toFloat: NumberParser) returns (samples: seq<Sample>)
    ensures samples == Collected(lines, decode, toFloat)
  {
    samples := [];
    var n := 0;
    while n < |lines|
      invariant 0 <= n <= |lines|
      invariant samples == Collected(lines[..n], decode, toFloat)
    {
      var before := samples;
      var parsed := ParseLine(lines[n], decode, toFloat);
      if parsed.Some? {
        samples := AppendSweep(samples, parsed.value);
      }
      CollectedStep(lines, n, decode, toFloat);
      n := n + 1;
    }
    assert lines[..|lines|] == lines;
  }

  /** The module-level state of the viewer: the residual bytes of the stream,
      the live spectrum, the max-hold bins and the max-hold flag. */
  class SpectrumViewer {
    var buffer: Bytes
    const powers: array<real>
    const hold: array<Hold>
    var active: bool

    /** The residual never holds a newline; the max-hold bins are all set while
        max hold is on and all unset while it is off. */
    ghost predicate Valid()
      reads this, hold
    {
      && powers.Length == BinCount
      && hold.Length == BinCount
      && Newline !in buffer
      && (active ==> AllHeld(hold[..]))
      && (!active ==> AllUnset(hold[..]))
    }

    /** Start-up: an empty residual, a zero spectrum, unset max-hold bins, max hold off. */
    constructor ()
      ensures Valid() && fresh(powers) && fresh(hold)
      ensures buffer == [] && !active
      ensures forall b :: 0 <= b < BinCount ==> powers[b] == 0.0
    {
      buffer := [];
      powers := new real[BinCount](_ => 0.0);
      hold := new Hold[BinCount](_ => Unset);
      active := false;
    }

    /** One pass of the receive loop with the chunk `data` (main.py lines 127-173).
        An empty chunk ends reception and changes nothing. Otherwise the old
        residual and the chunk are cut into the complete lines `lines` and a new
        residual, losing, adding and reordering no byte, and the spectrum receives
        the samples collected from those lines, written in order. */
    method Receive(data: Bytes, decode: Decoder, toFloat: NumberParser) returns (more: bool, ghost lines: seq<Bytes>)
      requires Valid()
      modifies this`buffer, powers
      ensures Valid()
      ensures more <==> data != []
      ensures !more ==> lines == [] && buffer == old(buffer) && powers[..] == old(powers[..])
      ensures more ==> old(buffer) + data == Terminated(lines, Newline) + buffer
      ensures forall i :: 0 <= i < |lines| ==> Newline !in lines[i]
      ensures powers[..] == Applied(old(powers[..]), Collected(lines, decode, toFloat))
    {
      if data == [] {
        return false, [];
      }
      more := true;
      var fed := Feed(buffer, data, Newline);
      buffer := fed.1;
      var complete := fed.0;
      lines := complete;
      var samples := CollectSamples(complete, decode, toFloat);
      if samples != [] {
        WriteSamples(samples);
      }
    }

    /** The second loop of a chunk (main.py lines 169-173): each collected sample
        overwrites the bin its frequency maps to, in order. */
    method WriteSamples(samples: seq<Sample>)
      requires powers.Length == BinCount
      modifies powers
      ensures powers[..] == Applied(old(powers[..]), samples)
    {
      var k := 0;
      while k < |samples|
        invariant 0 <= k <= |samples|
        invariant powers[..] == Applied(old(powers[..]), samples[..k])
      {
        var index := BinIndex(samples[k].freq);
        if 0 <= index < BinCount {
          powers[index] := samples[k].power;
        }
        assert samples[..k + 1][..k] == samples[..k];
        k := k + 1;
      }
      assert samples[..|samples|] == samples;
    }

    /** The max-hold button (main.py lines 55-70). Turning it off unsets every
        bin; turning it on seeds the bins from the live spectrum when they are
        all unset and keeps them otherwise. */
    method ToggleMaxHold(checked: bool)
      requires Valid()
      modifies this`active, hold
      ensures Valid()
      ensures active == checked
      ensures !checked ==> AllUnset(hold[..])
      ensures checked && AllUnset(old(hold[..])) ==> hold[..] == Seeded(powers[..])
      ensures checked && !AllUnset(old(hold[..])) ==> hold[..] == old(hold[..])
    {
      active := checked;
      if active {
        if AllUnset(hold[..]) {
          forall b | 0 <= b < hold.Length {
            hold[b] := Held(powers[b]);
          }
        }
      } else {
        forall b | 0 <= b < hold.Length {
          hold[b] := Unset;
        }
      }
    }

    /** One plot tick (main.py lines 76-102): the peak of the live spectrum, and,
        while max hold is on, every hold bin raised by the live spectrum and the
        peak of the hold bins. */
    method UpdatePlot() returns (marker: Marker, holdMarker: Option<Marker>)
      requires Valid()
      modifies hold
      ensures Valid()
      ensures marker.bin < BinCount && marker.power == powers[marker.bin]
      ensures forall b :: 0 <= b < BinCount ==> powers[b] <= marker.power
      ensures forall b :: 0 <= b < marker.bin ==> powers[b] < marker.power
      ensures active ==> hold[..] == RaiseAll(old(hold[..]), powers[..])
      ensures !active ==> hold[..] == old(hold[..])
      ensures holdMarker.Some? <==> active
      ensures holdMarker.Some? ==> var m := holdMarker.value;
        && m.bin < BinCount && hold[m.bin] == Held(m.power)
        && (forall b :: 0 <= b < BinCount ==> hold[b].Held? && hold[b].db <= m.power)
        && (forall b :: 0 <= b < m.bin ==> hold[b].db < m.power)
    {
      var peak := ArgMax(powers[..]);
      marker := Marker(peak, powers[peak]);
      if active {
        forall b | 0 <= b < hold.Length {
          hold[b] := Raise(hold[b], powers[b]);
        }
        var levels := Levels(hold[..]);
        var top := ArgMax(levels);
        holdMarker := Some(Marker(top, levels[top]));
      } else {
        holdMarker := None;
      }
    }
  }
}
