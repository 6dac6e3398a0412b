/** The max-hold view and the peak markers (main.py lines 38, 52, 55-70 and 76-102).

    Each max-hold bin is either unset (the `-inf` the array is filled with) or
    the highest power that bin has shown since max hold was last enabled. */
module MaxHold {

  /** One max-hold bin: unset (the `-inf` sentinel) or the highest power seen. */
  datatype Hold = Unset | Held(db: real)

  /** `np.maximum(hold, power)` for one bin, the sentinel lying below every power:
      the result is set, at least the power, at least the old value, and one of them. */
  function Raise(h: Hold, p: real): (r: Hold)
    ensures r.Held? && p <= r.db
    ensures h.Held? ==> h.db <= r.db
    ensures r.db == p || r == h
  {
    match h
    case Unset => Held(p)
    case Held(v) => Held(if v < p then p else v)
  }

  /** `np.all(max_hold_powers == -np.inf)`. */
  predicate AllUnset(h: seq<Hold>)
  {
    forall b :: 0 <= b < |h| ==> h[b] == Unset
  }

  /** Every bin holds a value. */
  predicate AllHeld(h: seq<Hold>)
  {
    forall b :: 0 <= b < |h| ==> h[b].Held?
  }

  /** One tick of max hold: every bin raised by the same bin of the spectrum. */
  function RaiseAll(h: seq<Hold>, p: seq<real>): seq<Hold>
    requires |h| == |p|
  {
    seq(|h|, b requires 0 <= b < |h| => Raise(h[b], p[b]))
  }

  /** The bins seeded from a spectrum (`max_hold_powers[:] = powers`). */
  function Seeded(p: seq<real>): seq<Hold>
  {
    seq(|p|, b requires 0 <= b < |p| => Held(p[b]))
  }

  /** The hold bins after one tick per spectrum, in order. */
  function Ticks(h: seq<Hold>, spectra: seq<seq<real>>): (r: seq<Hold>)
    requires forall k :: 0 <= k < |spectra| ==> |spectra[k]| == |h|
    ensures |r| == |h|
  {
    if spectra == [] then h
    else RaiseAll(Ticks(h, spectra[..|spectra| - 1]), spectra[|spectra| - 1])
  }

  /** The largest power bin `b` shows over a run of spectra. */
  function PeakAt(spectra: seq<seq<real>>, b: nat): (m: real)
    requires |spectra| > 0
    requires forall k :: 0 <= k < |spectra| ==> b < |spectra[k]|
    ensures forall k :: 0 <= k < |spectra| ==> spectra[k][b] <= m
    ensures exists k :: 0 <= k < |spectra| && spectra[k][b] == m
  {
    var last := spectra[|spectra| - 1][b];
    if |spectra| == 1 then last
    else
      var m := PeakAt(spectra[..|spectra| - 1], b);
      assert forall k :: 0 <= k < |spectra| - 1 ==> spectra[..|spectra| - 1][k] == spectra[k];
      if m < last then last else m
  }

  /** Seeding unset bins from a spectrum is the same as one tick from unset bins. */
  lemma SeedIsFirstTick(h: seq<Hold>, p: seq<real>)
    requires |h| == |p| && AllUnset(h)
    ensures RaiseAll(h, p) == Seeded(p)
  {
  }

  /** Starting from unset bins, each bin after a run of ticks holds the largest
      power that bin showed in the run: enabling forgets everything before it. */
  lemma {:induction false} RunningMax(h: seq<Hold>, spectra: seq<seq<real>>)
    requires AllUnset(h) && |spectra| > 0
    requires forall k :: 0 <= k < |spectra| ==> |spectra[k]| == |h|
    ensures forall b :: 0 <= b < |h| ==> Ticks(h, spectra)[b] == Held(PeakAt(spectra, b))
  {
    var init := spectra[..|spectra| - 1];
    var last := spectra[|spectra| - 1];
    if init != [] {
      RunningMax(h, init);
    }
    forall b | 0 <= b < |h| ensures Ticks(h, spectra)[b] == Held(PeakAt(spectra, b)) {
      if init != [] {
        assert Ticks(h, spectra)[b] == Raise(Held(PeakAt(init, b)), last[b]);
      } else {
        assert Ticks(h, spectra)[b] == Raise(Unset, last[b]);
      }
    }
  }

  /** Hold values never decrease: after a run of ticks every bin is set, at least
      its earlier value and at least every power it showed during the run. */
  lemma {:induction false} HoldNeverDecreases(h: seq<Hold>, spectra: seq<seq<real>>, b: nat)
    requires |spectra| > 0 && b < |h|
    requires forall k :: 0 <= k < |spectra| ==> |spectra[k]| == |h|
    ensures Ticks(h, spectra)[b].Held?
    ensures h[b].Held? ==> h[b].db <= Ticks(h, spectra)[b].db
    ensures forall k :: 0 <= k < |spectra| ==> spectra[k][b] <= Ticks(h, spectra)[b].db
  {
    var init := spectra[..|spectra| - 1];
    var last := spectra[|spectra| - 1];
    var before := Ticks(h, init);
    assert Ticks(h, spectra)[b] == Raise(before[b], last[b]);
    if init != [] {
      HoldNeverDecreases(h, init, b);
      forall k | 0 <= k < |spectra| - 1 ensures spectra[k][b] <= Ticks(h, spectra)[b].db {
        assert init[k] == spectra[k];
      }
    }
  }

  /** `np.argmax`: the first index of a largest element. */
  function ArgMax(s: seq<real>): (r: nat)
    requires |s| > 0
    ensures r < |s|
    ensures forall j :: 0 <= j < |s| ==> s[j] <= s[r]
    ensures forall j :: 0 <= j < r ==> s[j] < s[r]
  {
    if |s| == 1 then 0
    else
      var m := ArgMax(s[..|s| - 1]);
      assert forall j :: 0 <= j < |s| - 1 ==> s[..|s| - 1][j] == s[j];
      if s[m] < s[|s| - 1] then |s| - 1 else m
  }

  /** The values of bins that are all set. */
  function Levels(h: seq<Hold>): (r: seq<real>)
    requires AllHeld(h)
    ensures |r| == |h|
    ensures forall b :: 0 <= b < |h| ==> h[b] == Held(r[b])
  {
    seq(|h|, b requires 0 <= b < |h| => h[b].db)
  }
}
