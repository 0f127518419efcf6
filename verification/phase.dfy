/** Phase and frequency post-processing: `phase_from_frequencyseries`,
    `phase_from_polarizations` and `frequency_from_polarizations`. The
    unwrapped angle of the samples (numpy's unwrap of angle or arctan2) is
    an input: one real per sample, already free of 2*pi jumps. */
module Phase {
  import opened Outcomes
  import opened Signals

  /** `p += -p[0]`: the phase moved so that it starts at zero. */
  function RemoveStartPhase(p: seq<real>): (r: seq<real>)
    requires |p| >= 1
    ensures |r| == |p|
    ensures r[0] == 0.0
    ensures forall i :: 0 <= i < |p| - 1 ==> r[i + 1] - r[i] == p[i + 1] - p[i]
  {
    seq(|p|, i requires 0 <= i < |p| => p[i] - p[0])
  }

  /** A sequence that starts at zero and steps exactly like p is the
      start-removed p, and nothing else is. */
  lemma {:induction false} RemoveStartPhaseUnique(p: seq<real>, v: seq<real>)
    requires |p| >= 1 && |v| == |p|
    ensures v == RemoveStartPhase(p) <==>
              v[0] == 0.0 && forall i :: 0 <= i < |p| - 1 ==> v[i + 1] - v[i] == p[i + 1] - p[i]
  {
    if v[0] == 0.0 && forall i :: 0 <= i < |p| - 1 ==> v[i + 1] - v[i] == p[i + 1] - p[i] {
      forall k | 0 <= k < |p|
        ensures v[k] == p[k] - p[0]
      {
        StepsAccumulate(p, v, k);
      }
    }
  }

  lemma {:induction false} StepsAccumulate(p: seq<real>, v: seq<real>, k: nat)
    requires |v| == |p| && k < |p|
    requires v[0] == 0.0
    requires forall i :: 0 <= i < |p| - 1 ==> v[i + 1] - v[i] == p[i + 1] - p[i]
    ensures v[k] == p[k] - p[0]
    decreases k
  {
    if k > 0 {
      StepsAccumulate(p, v, k - 1);
    }
  }

  /** `numpy.diff`: consecutive differences, one fewer than the samples. */
  function Diff(p: seq<real>): (d: seq<real>)
    ensures |d| == if |p| == 0 then 0 else |p| - 1
  {
    if |p| == 0 then [] else seq(|p| - 1, i requires 0 <= i < |p| - 1 => p[i + 1] - p[i])
  }

  /** Removing the start phase leaves the differences untouched. */
  lemma DiffIgnoresStartPhase(p: seq<real>)
    requires |p| >= 1
    ensures Diff(RemoveStartPhase(p)) == Diff(p)
  {
  }

  /** `phase_from_frequencyseries(htilde, remove_start_phase)`. */
  function PhaseFromFrequencySeries(htilde: FrequencySeries<Complex>, unwrapped: seq<real>,
                                    removeStartPhase: bool): (r: Result<FrequencySeries<real>>)
    requires |unwrapped| == |htilde.data|
    ensures r.Err? <==> removeStartPhase && |htilde.data| == 0
    ensures r.Err? ==> r.error == EmptyPhase && r.error.Raises() == IndexError
    ensures r.Ok? ==> |r.value.data| == |htilde.data|
    ensures r.Ok? ==> r.value.deltaF == htilde.deltaF && r.value.epoch == htilde.epoch
    ensures r.Ok? && !removeStartPhase ==> r.value.data == unwrapped
    ensures r.Ok? && removeStartPhase ==>
              && r.value.data[0] == 0.0
              && Diff(r.value.data) == Diff(unwrapped)
  {
    if !removeStartPhase then
      Ok(FrequencySeries(unwrapped, htilde.deltaF, htilde.epoch))
    else if |unwrapped| == 0 then
      Err(EmptyPhase)
    else
      DiffIgnoresStartPhase(unwrapped);
      Ok(FrequencySeries(RemoveStartPhase(unwrapped), htilde.deltaF, htilde.epoch))
  }

  /** `phase_from_polarizations(h_plus, h_cross, remove_start_phase)`: the
      phase carries h_plus's sample spacing and start time. */
  function PhaseFromPolarizations(hPlus: TimeSeries<real>, hCross: TimeSeries<real>,
                                  unwrapped: seq<real>, removeStartPhase: bool)
    : (r: Result<TimeSeries<real>>)
    requires |hCross.data| == |hPlus.data| && |unwrapped| == |hPlus.data|
    ensures r.Err? <==> removeStartPhase && |hPlus.data| == 0
    ensures r.Err? ==> r.error == EmptyPhase && r.error.Raises() == IndexError
    ensures r.Ok? ==> |r.value.data| == |hPlus.data|
    ensures r.Ok? ==> r.value.deltaT == hPlus.deltaT && r.value.epoch == hPlus.epoch
    ensures r.Ok? && !removeStartPhase ==> r.value.data == unwrapped
    ensures r.Ok? && removeStartPhase ==>
              && r.value.data[0] == 0.0
              && Diff(r.value.data) == Diff(unwrapped)
  {
    if !removeStartPhase then
      Ok(TimeSeries(unwrapped, hPlus.deltaT, hPlus.epoch))
    else if |unwrapped| == 0 then
      Err(EmptyPhase)
    else
      DiffIgnoresStartPhase(unwrapped);
      Ok(TimeSeries(RemoveStartPhase(unwrapped), hPlus.deltaT, hPlus.epoch))
  }

  /** Every step of s goes up. */
  ghost predicate StepsIncrease(s: seq<real>) {
    forall i :: 0 <= i < |s| - 1 ==> s[i] < s[i + 1]
  }

  /** Every later sample of s is larger than every earlier one. */
  ghost predicate StrictlyIncreasing(s: seq<real>) {
    forall i, j :: 0 <= i < j < |s| ==> s[i] < s[j]
  }

  lemma {:induction false} StepsIncreaseOrder(s: seq<real>, i: nat, j: nat)
    requires StepsIncrease(s) && i < j < |s|
    ensures s[i] < s[j]
    decreases j - i
  {
    if i + 1 < j {
      StepsIncreaseOrder(s, i, j - 1);
    }
  }

  /** The docstring's "always positive and increasing with an initial
      phase of 0" holds when the unwrapped phase rises at every step: the
      start-removed phase is then non-negative and strictly increasing. */
  lemma IncreasingPhaseIsNonnegative(hPlus: TimeSeries<real>, hCross: TimeSeries<real>,
                                     unwrapped: seq<real>)
    requires |hCross.data| == |hPlus.data| && |unwrapped| == |hPlus.data|
    requires StepsIncrease(unwrapped)
    ensures var r := PhaseFromPolarizations(hPlus, hCross, unwrapped, true);
            r.Ok? ==> && (forall i :: 0 <= i < |r.value.data| ==> r.value.data[i] >= 0.0)
                      && StrictlyIncreasing(r.value.data)
  {
    forall i, j | 0 <= i < j < |unwrapped|
      ensures unwrapped[i] < unwrapped[j]
    {
      StepsIncreaseOrder(unwrapped, i, j);
    }
  }

  /** The code itself only pins the first sample to zero: an unwrapped phase
      that falls gives negative values. */
  lemma DecreasingPhaseGoesNegative(hPlus: TimeSeries<real>, hCross: TimeSeries<real>)
    requires |hPlus.data| == 2 && |hCross.data| == 2
    ensures var r := PhaseFromPolarizations(hPlus, hCross, [0.5, -1.0], true);
            r.Ok? && r.value.data == [0.0, -1.5]
  {
  }

  /** `frequency_from_polarizations(h_plus, h_cross)`: the finite difference
      of the start-removed phase over 2*pi*delta_t, one sample shorter than
      the input and advanced by half a sample. */
  function FrequencyFromPolarizations(hPlus: TimeSeries<real>, hCross: TimeSeries<real>,
                                      unwrapped: seq<real>): (r: Result<TimeSeries<real>>)
    requires |hCross.data| == |hPlus.data| && |unwrapped| == |hPlus.data|
    requires hPlus.deltaT != 0.0
    ensures r.Err? <==> |hPlus.data| == 0
    ensures r.Err? ==> r.error == EmptyPhase
    ensures r.Ok? ==> |r.value.data| == |hPlus.data| - 1
    ensures r.Ok? ==> r.value.deltaT == hPlus.deltaT
    ensures r.Ok? ==> r.value.epoch == hPlus.epoch + hPlus.deltaT / 2.0
    ensures r.Ok? ==> forall i :: 0 <= i < |r.value.data| ==>
              r.value.data[i] == (unwrapped[i + 1] - unwrapped[i]) / (2.0 * Pi * hPlus.deltaT)
  {
    var phase :- PhaseFromPolarizations(hPlus, hCross, unwrapped, true);
    var dphi := Diff(phase.data);
    var freq := seq(|dphi|, i requires 0 <= i < |dphi| => dphi[i] / (2.0 * Pi * phase.deltaT));
    Ok(TimeSeries(freq, phase.deltaT, phase.epoch + phase.deltaT / 2.0))
  }

  /** Running sum of increments, starting from zero: the inverse of a
      finite difference. */
  function Integrate(d: seq<real>): (r: seq<real>)
    ensures |r| == |d| + 1
    ensures r[0] == 0.0
    ensures forall i :: 0 <= i < |d| ==> r[i + 1] - r[i] == d[i]
  {
    if |d| == 0 then [0.0]
    else
      var r := Integrate(d[..|d| - 1]);
      r + [r[|r| - 1] + d[|d| - 1]]
  }

  /** Every sample times c. */
  function Scale(f: seq<real>, c: real): (r: seq<real>)
    ensures |r| == |f|
  {
    seq(|f|, i requires 0 <= i < |f| => f[i] * c)
  }

  /** A quotient times its divisor is the dividend. */
  lemma QuotientTimesDivisor(y: real, x: real, c: real)
    requires c != 0.0 && y == x / c
    ensures y * c == x
  {
  }

  /** Summing the frequency back up, times 2*pi*delta_t, gives exactly the
      start-removed phase: nothing but the first sample's phase is lost. */
  lemma {:induction false} FrequencyIntegratesToPhase(hPlus: TimeSeries<real>, hCross: TimeSeries<real>,
                                                      unwrapped: seq<real>)
    requires |hCross.data| == |hPlus.data| == |unwrapped| >= 1
    requires hPlus.deltaT != 0.0
    ensures var freq := FrequencyFromPolarizations(hPlus, hCross, unwrapped);
            var phase := PhaseFromPolarizations(hPlus, hCross, unwrapped, true);
            freq.Ok? && phase.Ok? &&
            Integrate(Scale(freq.value.data, 2.0 * Pi * hPlus.deltaT)) == phase.value.data
  {
    var r := FrequencyFromPolarizations(hPlus, hCross, unwrapped);
    IntegrateUndoesDiff(unwrapped, r.value.data, 2.0 * Pi * hPlus.deltaT);
  }

  lemma IntegrateUndoesDiff(u: seq<real>, f: seq<real>, c: real)
    requires c != 0.0 && |u| >= 1 && |f| == |u| - 1
    requires forall i :: 0 <= i < |f| ==> f[i] == (u[i + 1] - u[i]) / c
    ensures Integrate(Scale(f, c)) == RemoveStartPhase(u)
  {
    ScaledQuotients(u, f, c);
    RemoveStartPhaseUnique(u, Integrate(Scale(f, c)));
  }

  /** Multiplying each step quotient back by c recovers the step. */
  lemma ScaledQuotients(u: seq<real>, f: seq<real>, c: real)
    requires c != 0.0 && |u| >= 1 && |f| == |u| - 1
    requires forall i :: 0 <= i < |f| ==> f[i] == (u[i + 1] - u[i]) / c
    ensures forall i :: 0 <= i < |f| ==> Scale(f, c)[i] == u[i + 1] - u[i]
  {
    forall i | 0 <= i < |f|
      ensures Scale(f, c)[i] == u[i + 1] - u[i]
    {
      QuotientTimesDivisor(f[i], u[i + 1] - u[i], c);
    }
  }
}
