/** The frequency-domain time shift: `_apply_shift_code` (the kernel that
    multiplies a complex array by a running rotation, recomputed from cosine
    and sine every 100 entries and otherwise advanced by one complex
    product), `apply_fseries_time_shift` and the dispatcher
    `apply_fd_time_shift`. */
module TimeShift {
  import opened Outcomes
  import opened Signals

  /** Entries between two recomputations of the running shift. */
  const UpdateInterval: nat := 100

  /** exp(i*phi*k), the rotation bin k receives from a shift with per-bin
      phase step phi. */
  function Phasor(t: Trig, phi: real, k: int): Complex {
    Cis(t, phi * k as real)
  }

  /** The rotation the kernel multiplies entry kk by: exp(i*phi*kk) freshly
      evaluated at kmin and every UpdateInterval entries after it, and
      otherwise the previous entry's rotation times exp(i*phi). */
  function RunningShift(t: Trig, phi: real, kmin: nat, kk: int): Complex
    requires kmin <= kk
    decreases kk - kmin
  {
    if (kk - kmin) % UpdateInterval == 0 then Phasor(t, phi, kk)
    else Mul(RunningShift(t, phi, kmin, kk - 1), Cis(t, phi))
  }

  /** What the kernel leaves in the array: each entry in [kmin, kmax) times
      its running shift, every other entry untouched. */
  function IncrementalShift(data: seq<Complex>, phi: real, kmin: nat, kmax: nat, t: Trig)
    : (r: seq<Complex>)
    ensures |r| == |data|
  {
    seq(|data|, k requires 0 <= k < |data| =>
      if kmin <= k < kmax then Mul(RunningShift(t, phi, kmin, k), data[k]) else data[k])
  }

  /** The reference the kernel approximates: each entry k in [kmin, kmax)
      times exp(i*phi*k), evaluated directly. */
  function DirectShift(data: seq<Complex>, phi: real, kmin: nat, kmax: nat, t: Trig)
    : (r: seq<Complex>)
    ensures |r| == |data|
  {
    seq(|data|, k requires 0 <= k < |data| =>
      if kmin <= k < kmax then Mul(Phasor(t, phi, k), data[k]) else data[k])
  }

  /** The kernel's counter: jj == (kk - kmin - 1) % UpdateInterval + 1 on
      reaching entry kk reads UpdateInterval exactly at the reseed entries,
      and either branch leaves the value entry kk + 1 expects. */
  lemma CounterStep(kmin: nat, kk: int, jj: int)
    requires kmin <= kk
    requires jj == (kk - kmin - 1) % UpdateInterval + 1
    ensures jj == UpdateInterval <==> (kk - kmin) % UpdateInterval == 0
    ensures jj == UpdateInterval ==> 1 == (kk + 1 - kmin - 1) % UpdateInterval + 1
    ensures jj != UpdateInterval ==> jj + 1 == (kk + 1 - kmin - 1) % UpdateInterval + 1
  {
    var x := kk - kmin;
    assert (x - 1) % UpdateInterval + 1 == if x % UpdateInterval == 0 then UpdateInterval else x % UpdateInterval;
  }

  /** One step of the kernel's bookkeeping: with the counter jj and the
      advanced shift as they stand on reaching entry kk, the reseed test
      jj == UpdateInterval yields exactly the running shift of kk, and the
      counter after the step is the one entry kk + 1 expects. */
  lemma ReseedStep(t: Trig, phi: real, kmin: nat, kk: int, jj: int, shift: Complex)
    requires kmin <= kk
    requires jj == (kk - kmin - 1) % UpdateInterval + 1
    requires kmin < kk ==> shift == Mul(RunningShift(t, phi, kmin, kk - 1), Cis(t, phi))
    ensures jj == UpdateInterval ==> Phasor(t, phi, kk) == RunningShift(t, phi, kmin, kk)
    ensures jj == UpdateInterval ==> 1 == (kk + 1 - kmin - 1) % UpdateInterval + 1
    ensures jj != UpdateInterval ==> shift == RunningShift(t, phi, kmin, kk)
    ensures jj != UpdateInterval ==> jj + 1 == (kk + 1 - kmin - 1) % UpdateInterval + 1
  {
    CounterStep(kmin, kk, jj);
  }

  /** `_apply_shift_code` on a copy of `data`: entry kk in [kmin, kmax) is
      multiplied by the running shift; the counter jj triggers the
      recomputation from cos/sin. */
  method ApplyShiftKernel(data: seq<Complex>, phi: real, kmin: nat, kmax: nat, t: Trig)
    returns (out: seq<Complex>)
    requires kmax <= |data|
    ensures |out| == |data|
    ensures forall k :: 0 <= k < |data| && !(kmin <= k < kmax) ==> out[k] == data[k]
    ensures forall k {:trigger out[k]} :: kmin <= k < kmax ==> out[k] == Mul(RunningShift(t, phi, kmin, k), data[k])
  {
    var buf := new Complex[|data|](i requires 0 <= i < |data| => data[i]);
    var inc := Cis(t, phi);
    var jj := UpdateInterval;
    var shift := Zero;
    var kk := kmin;
    while kk < kmax
      invariant kmin <= kk && (kk <= kmax || kk == kmin)
      invariant buf.Length == |data|
      invariant forall k {:trigger buf[k]} :: 0 <= k < |data| && !(kmin <= k < kk) ==> buf[k] == data[k]
      invariant forall k {:trigger buf[k]} :: kmin <= k < kk ==> buf[k] == Mul(RunningShift(t, phi, kmin, k), data[k])
      invariant jj == (kk - kmin - 1) % UpdateInterval + 1
      invariant kmin < kk ==> shift == Mul(RunningShift(t, phi, kmin, kk - 1), inc)
      decreases kmax - kk
    {
      ReseedStep(t, phi, kmin, kk, jj, shift);
      if jj == UpdateInterval {
        // recompute the shift from cos and sin to shed accumulated error
        shift := Phasor(t, phi, kk);
        jj := 0;
      }
      buf[kk] := Mul(shift, buf[kk]);
      // advance the shift by one step
      shift := Mul(shift, inc);
      jj := jj + 1;
      kk := kk + 1;
    }
    out := buf[..];
  }

  /** Under the angle addition law, compounding exp(i*phi) between reseeds
      lands exactly on the directly evaluated exp(i*phi*kk). */
  lemma {:induction false} RunningShiftIsDirect(t: Trig, phi: real, kmin: nat, kk: int)
    requires Lawful(t) && kmin <= kk
    ensures RunningShift(t, phi, kmin, kk) == Phasor(t, phi, kk)
    decreases kk - kmin
  {
    if (kk - kmin) % UpdateInterval != 0 {
      RunningShiftIsDirect(t, phi, kmin, kk - 1);
      var a := phi * (kk - 1) as real;
      CisAdd(t, a, phi);
      assert (kk - 1) as real == kk as real - 1.0;
      assert a + phi == phi * kk as real;
    }
  }

  /** The incremental kernel and the direct per-entry evaluation agree on
      every array. */
  lemma IncrementalIsDirect(data: seq<Complex>, phi: real, kmin: nat, kmax: nat, t: Trig)
    requires Lawful(t)
    ensures IncrementalShift(data, phi, kmin, kmax, t) == DirectShift(data, phi, kmin, kmax, t)
  {
    forall k | kmin <= k < kmax && k < |data|
      ensures RunningShift(t, phi, kmin, k) == Phasor(t, phi, k)
    {
      RunningShiftIsDirect(t, phi, kmin, k);
    }
  }

  /** Shifting by phi and then by psi == -phi restores every entry. The
      negated step is a separate parameter so that callers can hand over the
      term they hold, which the solver does not identify with -phi unaided. */
  lemma DirectShiftRoundTrip(data: seq<Complex>, phi: real, psi: real, kmin: nat, kmax: nat, t: Trig)
    requires Lawful(t) && psi == -phi
    ensures DirectShift(DirectShift(data, phi, kmin, kmax, t), psi, kmin, kmax, t) == data
  {
    var once := DirectShift(data, phi, kmin, kmax, t);
    var twice := DirectShift(once, psi, kmin, kmax, t);
    forall k | kmin <= k < kmax && k < |data|
      ensures twice[k] == data[k]
    {
      var a := phi * k as real;
      // psi * k and -(phi * k) are equal reals, but the solver does not
      // carry that equality into cos/sin without being told
      SameAngle(t, psi * k as real, -a);
      assert once[k] == Mul(Cis(t, a), data[k]);
      assert twice[k] == Mul(Cis(t, -a), once[k]);
      CisCancel(t, a, data[k]);
    }
  }

  /** The phase a shift by dt gives frequency f: -2*pi*f*dt. With f the
      bin spacing delta_f it is the kernel's per-bin step phi. */
  function ShiftAngle(dt: real, f: real): real {
    -2.0 * Pi * dt * f
  }

  /** Shifting back negates the angle. */
  lemma ShiftAngleOdd(dt: real, f: real)
    ensures ShiftAngle(-dt, f) == -ShiftAngle(dt, f)
  {
  }

  /** `apply_fseries_time_shift(htilde, dt, kmin)`: the kernel run over the
      whole series with phi = -2*pi*dt*delta_f; spacing and epoch are kept. */
  method ApplyFseriesTimeShift(htilde: FrequencySeries<Complex>, dt: real, kmin: nat, t: Trig)
    returns (r: FrequencySeries<Complex>)
    ensures r.deltaF == htilde.deltaF && r.epoch == htilde.epoch
    ensures r.data == IncrementalShift(htilde.data, ShiftAngle(dt, htilde.deltaF), kmin, |htilde.data|, t)
  {
    var phi := ShiftAngle(dt, htilde.deltaF);
    var out := ApplyShiftKernel(htilde.data, phi, kmin, |htilde.data|, t);
    r := FrequencySeries(out, htilde.deltaF, htilde.epoch);
  }

  /** The inputs `apply_fd_time_shift` accepts: a FrequencySeries, sampled
      every delta_f, or any other frequency-domain array that carries an
      epoch and the frequencies of its samples. */
  datatype Shiftable =
    | Uniform(series: FrequencySeries<Complex>)
    | Sampled(samples: seq<Complex>, start: real, sampleFrequencies: seq<real>)
  {
    function Data(): seq<Complex> {
      match this
      case Uniform(s) => s.data
      case Sampled(d, _, _) => d
    }

    function Epoch(): real {
      match this
      case Uniform(s) => s.epoch
      case Sampled(_, e, _) => e
    }
  }

  /** The frequencies the general path multiplies by: the caller's array,
      or the input's own sample frequencies. */
  function BinFrequencies(h: Shiftable, fseries: Option<seq<real>>): seq<real>
    requires h.Sampled?
  {
    fseries.GetOr(h.sampleFrequencies)
  }

  /** A bin z at frequency f, shifted by dt: z * exp(-2*pi*i*dt*f). */
  function RampBin(z: Complex, dt: real, f: real, t: Trig): Complex {
    Mul(z, Cis(t, ShiftAngle(dt, f)))
  }

  /** Every bin times exp(-2*pi*i*dt*f) for its frequency f. */
  function ExpRamp(d: seq<Complex>, dt: real, fs: seq<real>, t: Trig): (r: seq<Complex>)
    requires |fs| == |d|
    ensures |r| == |d|
  {
    seq(|d|, k requires 0 <= k < |d| => RampBin(d[k], dt, fs[k], t))
  }

  /** `apply_fd_time_shift(htilde, shifttime, kmin, fseries)` as a value:
      dt = shifttime - epoch; no shift when dt is zero; the kernel for a
      FrequencySeries; otherwise every bin times exp(-2*pi*i*dt*f). */
  function FdTimeShift(h: Shiftable, shifttime: real, kmin: nat, fseries: Option<seq<real>>, t: Trig)
    : (r: Shiftable)
    requires h.Sampled? ==> |BinFrequencies(h, fseries)| == |h.Data()|
    ensures shifttime == h.Epoch() ==> r == h
    ensures r.Uniform? == h.Uniform? && r.Epoch() == h.Epoch() && |r.Data()| == |h.Data()|
    ensures r.Uniform? ==> r.series.deltaF == h.series.deltaF
    ensures r.Sampled? ==> r.sampleFrequencies == h.sampleFrequencies
    ensures h.Uniform? && shifttime != h.Epoch() ==>
              r.Data() == IncrementalShift(h.Data(), ShiftAngle(shifttime - h.Epoch(), h.series.deltaF),
                                           kmin, |h.Data()|, t)
    ensures h.Sampled? && shifttime != h.Epoch() ==>
              forall k :: 0 <= k < |h.Data()| ==>
                r.Data()[k] == RampBin(h.Data()[k], shifttime - h.Epoch(), BinFrequencies(h, fseries)[k], t)
  {
    var dt := shifttime - h.Epoch();
    if dt == 0.0 then h
    else
      match h
      case Uniform(s) =>
        Uniform(FrequencySeries(IncrementalShift(s.data, ShiftAngle(dt, s.deltaF), kmin, |s.data|, t), s.deltaF, s.epoch))
      case Sampled(d, e, f) =>
        Sampled(ExpRamp(d, dt, BinFrequencies(h, fseries), t), e, f)
  }

  /** The same dispatch, running the kernel method for a FrequencySeries. */
  method ApplyFdTimeShift(h: Shiftable, shifttime: real, kmin: nat, fseries: Option<seq<real>>, t: Trig)
    returns (r: Shiftable)
    requires h.Sampled? ==> |BinFrequencies(h, fseries)| == |h.Data()|
    ensures r == FdTimeShift(h, shifttime, kmin, fseries, t)
  {
    var dt := shifttime - h.Epoch();
    if dt == 0.0 {
      r := h;
    } else if h.Uniform? {
      var s := ApplyFseriesTimeShift(h.series, dt, kmin, t);
      r := Uniform(s);
    } else {
      r := Sampled(ExpRamp(h.samples, dt, BinFrequencies(h, fseries), t), h.start, h.sampleFrequencies);
    }
  }

  /** Bin k's phase under the kernel's step phi is the general path's
      angle at the bin frequency k * delta_f. */
  lemma GridPhase(t: Trig, dt: real, s: FrequencySeries<Complex>, k: int)
    requires 0 <= k < |s.data|
    ensures Phasor(t, ShiftAngle(dt, s.deltaF), k) == Cis(t, ShiftAngle(dt, GridFrequencies(s)[k]))
  {
    assert GridFrequencies(s)[k] == BinFrequency(k, s.deltaF);
    // equal angles, spelled differently: pass the equality into cos/sin
    SameAngle(t, ShiftAngle(dt, s.deltaF) * k as real, ShiftAngle(dt, GridFrequencies(s)[k]));
  }

  /** Both paths apply the same ramp: on a FrequencySeries every bin from
      kmin on comes out as the general path would leave it, given the bin
      frequencies k * delta_f; the bins below kmin are left alone. */
  lemma UniformPathIsExpRamp(s: FrequencySeries<Complex>, shifttime: real, kmin: nat, t: Trig)
    requires Lawful(t)
    ensures var r := FdTimeShift(Uniform(s), shifttime, kmin, None, t).Data();
            var ramp := ExpRamp(s.data, shifttime - s.epoch, GridFrequencies(s), t);
            forall k :: 0 <= k < |s.data| ==> r[k] == if kmin <= k then ramp[k] else s.data[k]
  {
    forall k | kmin <= k < |s.data|
      ensures FdTimeShift(Uniform(s), shifttime, kmin, None, t).Data()[k]
           == ExpRamp(s.data, shifttime - s.epoch, GridFrequencies(s), t)[k]
    {
      UniformBinIsRampBin(s, shifttime, kmin, t, k);
    }
  }

  /** kmin only reaches the FrequencySeries path: the general path
      multiplies every bin, whatever kmin the caller passes. */
  lemma SampledPathIgnoresKmin(h: Shiftable, shifttime: real, kmin: nat, otherKmin: nat,
                               fseries: Option<seq<real>>, t: Trig)
    requires h.Sampled? && |BinFrequencies(h, fseries)| == |h.Data()|
    ensures FdTimeShift(h, shifttime, kmin, fseries, t) == FdTimeShift(h, shifttime, otherKmin, fseries, t)
  {
  }

  /** One bin of UniformPathIsExpRamp. */
  lemma UniformBinIsRampBin(s: FrequencySeries<Complex>, shifttime: real, kmin: nat, t: Trig, k: nat)
    requires Lawful(t) && kmin <= k < |s.data|
    ensures FdTimeShift(Uniform(s), shifttime, kmin, None, t).Data()[k]
         == ExpRamp(s.data, shifttime - s.epoch, GridFrequencies(s), t)[k]
  {
    var dt := shifttime - s.epoch;
    var phi := ShiftAngle(dt, s.deltaF);
    var r := FdTimeShift(Uniform(s), shifttime, kmin, None, t).Data();
    var ramp := ExpRamp(s.data, dt, GridFrequencies(s), t);
    GridPhase(t, dt, s, k);
    assert ramp[k] == RampBin(s.data[k], dt, GridFrequencies(s)[k], t);
    if dt != 0.0 {
      assert r == IncrementalShift(s.data, phi, kmin, |s.data|, t);
      assert r[k] == Mul(RunningShift(t, phi, kmin, k), s.data[k]);
      RunningShiftIsDirect(t, phi, kmin, k);
      MulCommutes(s.data[k], Phasor(t, phi, k));
      assert r[k] == Mul(s.data[k], Phasor(t, phi, k));
      assert ramp[k] == Mul(s.data[k], Phasor(t, phi, k));
    } else {
      assert r == s.data;
      // a zero shift gives the angle 0.0, as cos/sin see it
      SameAngle(t, ShiftAngle(dt, GridFrequencies(s)[k]), 0.0);
      MulByCisZero(t, s.data[k]);
    }
  }

  /** A bin rotated by an angle and then by its negation is unchanged. */
  lemma RampCancels(t: Trig, z: Complex, a: real)
    requires Lawful(t)
    ensures Mul(Mul(z, Cis(t, a)), Cis(t, -a)) == z
  {
    MulCommutes(z, Cis(t, a));
    MulCommutes(Mul(Cis(t, a), z), Cis(t, -a));
    CisCancel(t, a, z);
  }

  /** The kernel's output, shifted back by psi == -phi, is the input again. */
  lemma IncrementalRoundTrip(data: seq<Complex>, phi: real, psi: real, kmin: nat, kmax: nat, t: Trig)
    requires Lawful(t) && psi == -phi
    ensures IncrementalShift(IncrementalShift(data, phi, kmin, kmax, t), psi, kmin, kmax, t) == data
  {
    var once := IncrementalShift(data, phi, kmin, kmax, t);
    IncrementalIsDirect(data, phi, kmin, kmax, t);
    assert once == DirectShift(data, phi, kmin, kmax, t);
    IncrementalIsDirect(once, psi, kmin, kmax, t);
    DirectShiftRoundTrip(data, phi, psi, kmin, kmax, t);
  }

  /** The general path's ramp by dt, followed by the ramp by -dt at the same
      frequencies, is the identity. */
  lemma ExpRampRoundTrip(d: seq<Complex>, dt: real, fs: seq<real>, t: Trig)
    requires Lawful(t) && |fs| == |d|
    ensures ExpRamp(ExpRamp(d, dt, fs, t), -dt, fs, t) == d
  {
    var once := ExpRamp(d, dt, fs, t);
    var twice := ExpRamp(once, -dt, fs, t);
    forall k | 0 <= k < |d|
      ensures twice[k] == d[k]
    {
      var a := ShiftAngle(dt, fs[k]);
      ShiftAngleOdd(dt, fs[k]);
      assert once[k] == RampBin(d[k], dt, fs[k], t);
      assert twice[k] == RampBin(once[k], -dt, fs[k], t);
      RampCancels(t, d[k], a);
    }
  }

  /** Shifting by dt (to epoch + dt) and then by -dt (to epoch - dt)
      restores the input exactly, on either path. */
  lemma FdTimeShiftRoundTrip(h: Shiftable, dt: real, kmin: nat, fseries: Option<seq<real>>, t: Trig)
    requires Lawful(t)
    requires h.Sampled? ==> |BinFrequencies(h, fseries)| == |h.Data()|
    ensures var once := FdTimeShift(h, h.Epoch() + dt, kmin, fseries, t);
            FdTimeShift(once, h.Epoch() - dt, kmin, fseries, t) == h
  {
    if h.Uniform? {
      UniformRoundTrip(h.series, dt, kmin, fseries, t);
    } else {
      SampledRoundTrip(h, dt, kmin, fseries, t);
    }
  }

  lemma UniformRoundTrip(s: FrequencySeries<Complex>, dt: real, kmin: nat, fseries: Option<seq<real>>, t: Trig)
    requires Lawful(t)
    ensures var once := FdTimeShift(Uniform(s), s.epoch + dt, kmin, fseries, t);
            FdTimeShift(once, s.epoch - dt, kmin, fseries, t) == Uniform(s)
  {
    if dt != 0.0 {
      var phi := ShiftAngle(dt, s.deltaF);
      var d1 := IncrementalShift(s.data, phi, kmin, |s.data|, t);
      var once := Uniform(FrequencySeries(d1, s.deltaF, s.epoch));
      UniformShiftIs(s, s.epoch + dt, dt, kmin, fseries, t);
      UniformShiftIs(once.series, s.epoch - dt, -dt, kmin, fseries, t);
      ShiftAngleOdd(dt, s.deltaF);
      IncrementalRoundTrip(s.data, phi, ShiftAngle(-dt, s.deltaF), kmin, |s.data|, t);
    }
  }

  /** The uniform path of FdTimeShift as one equation, for a shift by dt. */
  lemma UniformShiftIs(s: FrequencySeries<Complex>, shifttime: real, dt: real, kmin: nat,
                       fseries: Option<seq<real>>, t: Trig)
    requires dt != 0.0 && shifttime - s.epoch == dt
    ensures FdTimeShift(Uniform(s), shifttime, kmin, fseries, t)
         == Uniform(FrequencySeries(IncrementalShift(s.data, ShiftAngle(dt, s.deltaF), kmin, |s.data|, t),
                                    s.deltaF, s.epoch))
  {
  }

  lemma SampledRoundTrip(h: Shiftable, dt: real, kmin: nat, fseries: Option<seq<real>>, t: Trig)
    requires Lawful(t) && h.Sampled?
    requires |BinFrequencies(h, fseries)| == |h.Data()|
    ensures var once := FdTimeShift(h, h.Epoch() + dt, kmin, fseries, t);
            FdTimeShift(once, h.Epoch() - dt, kmin, fseries, t) == h
  {
    var fs := BinFrequencies(h, fseries);
    var once := FdTimeShift(h, h.Epoch() + dt, kmin, fseries, t);
    assert h.Epoch() + dt - h.Epoch() == dt;
    if dt != 0.0 {
      var d1 := ExpRamp(h.samples, dt, fs, t);
      assert once == Sampled(d1, h.start, h.sampleFrequencies);
      assert BinFrequencies(once, fseries) == fs;
      assert h.Epoch() - dt - h.start == -dt;
      ExpRampRoundTrip(h.samples, dt, fs, t);
      assert FdTimeShift(once, h.Epoch() - dt, kmin, fseries, t).samples == ExpRamp(d1, -dt, fs, t);
    }
  }
}
