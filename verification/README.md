# PyCBC waveform utilities, modelled in Dafny

A model of the index, length, dispatch and validation logic of PyCBC's
`pycbc/waveform/utils.py`. It covers eight pieces:

- `ceilpow2`, the smallest power of two at or above n, computed with `frexp`;
- the sizing rules of `coalign_waveforms`;
- start-phase removal in `phase_from_frequencyseries` and
  `phase_from_polarizations`;
- the finite-difference law of `frequency_from_polarizations`;
- the band selection and clamping of `time_from_frequencyseries`;
- the validation and dispatch of `taper_timeseries`;
- the weave kernel `_apply_shift_code`, which applies a frequency-domain time
  shift with a running complex rotation that is recomputed from cos/sin every
  100 bins;
- its callers `apply_fseries_time_shift` and `apply_fd_time_shift`.

Samples are exact reals, and complex samples are pairs of reals. Cosine and
sine are uninterpreted functions bundled in `Signals.Trig`. The predicate
`Signals.Lawful` holds the angle-addition law and the values at zero, and only
the equivalence and round-trip lemmas require it. Pi is 3.141592653589793,
the shortest decimal form of the double `numpy.pi` and `lal.PI` hold. As an
exact real it lies about 1.2e-16 below that double. Every
raise in the source becomes an `Outcomes.Error` value, and `Error.Raises`
gives the Python exception class it surfaces as.

Modules, in dependency order:

| file | module | models |
|---|---|---|
| outcomes.dfy | Outcomes | Option, Result and the error values with their exception classes |
| signals.dfy | Signals | complex samples, time and frequency series, cos/sin and their laws |
| pow2.dfy | PowerOfTwo | `frexp` on integers and `ceilpow2` |
| coalign.dfy | Coalign | `coalign_waveforms` |
| phase.dfy | Phase | `phase_from_frequencyseries`, `phase_from_polarizations`, `frequency_from_polarizations` |
| time_from_frequency.dfy | TimeFromFrequency | `time_from_frequencyseries` |
| taper.dfy | Taper | `taper_map`, `taper_timeseries` |
| time_shift.dfy | TimeShift | `_apply_shift_code`, `apply_fseries_time_shift`, `apply_fd_time_shift` |

Line 393 of `pycbc/waveform/utils.py` rewrites every `double` of the shift
kernel to `float`, so the single-precision kernel computes in float
throughout. Precision is not modelled at all.

`apply_fd_time_shift` uses its `kmin` argument only on the FrequencySeries
path. Its documentation calls kmin the starting index for the shift, but the
general path multiplies every bin. `TimeShift.SampledPathIgnoresKmin` states
that behaviour as written.

## Model

| member | source | states |
|---|---|---|
| PowerOfTwo.FrexpOf | pycbc/waveform/utils.py:40 | `frexp` of an integer. 0 gives (0.0, 0). Any other n gives an exponent e >= 1 with 2^(e-1) <= abs(n) < 2^e and significand n / 2^e. That significand lies in [0.5, 1) for positive n and in (-1, -0.5] for negative n |
| PowerOfTwo.CeilPow2 | pycbc/waveform/utils.py:38-45 | n <= 0 gives 1, whether through the negative significand or through frexp(0) = (0, 0). n >= 1 gives a power of two p with n <= p < 2n |
| PowerOfTwo.CeilPow2Positive | pycbc/waveform/utils.py:43-45 | The significand is exactly 0.5 only when n is the power of two 2^(exponent-1). Otherwise n lies strictly between 2^(exponent-1) and 2^exponent, and 2^exponent < 2n |
| PowerOfTwo.CeilPow2IsLeast | pycbc/waveform/utils.py:38-45 | For every integer, `ceilpow2` agrees with an independent definition: the least power of two that is at least n |
| PowerOfTwo.CeilPow2OfPow2 | pycbc/waveform/utils.py:43-45 | A power of two maps to itself, because the 0.5 significand lowers the exponent by one |
| PowerOfTwo.CeilPow2SmallExamples | pycbc/waveform/utils.py:38-45 | ceilpow2(1) = 1, ceilpow2(2) = 2, ceilpow2(3) = 4 |
| PowerOfTwo.CeilPow2LargeExamples | pycbc/waveform/utils.py:38-45 | ceilpow2(1024) = 1024 and ceilpow2(1025) = 2048 |
| Coalign.Resize | pycbc/waveform/utils.py:87-89 | Resizing yields exactly n samples. The old samples are kept up to n, and zeros fill any new tail |
| Coalign.CommonLength | pycbc/waveform/utils.py:82 | `mlen` is a power of two covering both lengths, and no smaller power of two covers both |
| Coalign.CoalignWaveforms | pycbc/waveform/utils.py:82-104 | Without resizing, unequal lengths or an odd length are refused with a ValueError, and only then. Both results carry h2's delta_t and start time. The aligned h1 is the alignment of h1, resized to h2's new length, against that h2. Without resizing, h2 comes back unchanged. With resizing, h2 gets length ceilpow2(max(len h1, len h2)), keeps its samples and gains a zero tail |
| Coalign.CoalignResizedLength | pycbc/waveform/utils.py:82-89 | With resizing, both copies share one power-of-two length. It is at least each input length and less than twice the longer one, and two inputs already at the same power-of-two length keep it |
| Coalign.ResizeKeeps | pycbc/waveform/utils.py:87-90 | Resizing up keeps every original sample, and resizing to the current length is the identity |
| Phase.RemoveStartPhase | pycbc/waveform/utils.py:125-126 | `p += -p[0]` keeps the length. The first sample becomes exactly 0 and every consecutive step is kept |
| Phase.RemoveStartPhaseUnique | pycbc/waveform/utils.py:125-126 | Iff: a sequence is the start-removed phase exactly when it starts at 0 and steps like the unwrapped phase |
| Phase.DiffIgnoresStartPhase | pycbc/waveform/utils.py:185-186 | `numpy.diff` of the start-removed phase equals `numpy.diff` of the unwrapped phase |
| Phase.PhaseFromFrequencySeries | pycbc/waveform/utils.py:123-128 | Removing the start phase from an empty series fails with an IndexError, and nothing else fails. The output has the input's length, delta_f and epoch. Without removal it is the unwrapped phase. With removal it starts at 0 and has the unwrapped phase's differences |
| Phase.PhaseFromPolarizations | pycbc/waveform/utils.py:229-234 | The same law over h_plus's delta_t and start time |
| Phase.IncreasingPhaseIsNonnegative | pycbc/waveform/utils.py:204-205 | The documented "always positive and increasing with an initial phase of 0" holds when the unwrapped phase rises at every step. The result is then non-negative and strictly increasing |
| Phase.DecreasingPhaseGoesNegative | pycbc/waveform/utils.py:231-232 | The code pins only the first sample to zero, so a falling unwrapped phase [0.5, -1.0] gives [0.0, -1.5] |
| Phase.FrequencyFromPolarizations | pycbc/waveform/utils.py:298-302 | The output is one sample shorter than the input. Sample i is (phase[i+1] - phase[i]) / (2 pi delta_t). The start time is advanced by delta_t / 2 and delta_t is kept. Empty input fails, because the start phase is read at `p[0]`. A one-sample input gives an empty series |
| Phase.Integrate | pycbc/waveform/utils.py:299 | A partner to `numpy.diff`: a running sum that starts at 0 and whose steps are the given increments |
| Phase.FrequencyIntegratesToPhase | pycbc/waveform/utils.py:298-302 | Summing the frequency multiplied by 2 pi delta_t gives back exactly the start-removed phase |
| Phase.IntegrateUndoesDiff | pycbc/waveform/utils.py:299 | Scaling the quotients of consecutive differences back up and summing them restores the start-removed sequence |
| TimeFromFrequency.NonzeroIndices | pycbc/waveform/utils.py:188 | `numpy.nonzero` lists all indices of nonzero samples and only those, in strictly increasing order |
| TimeFromFrequency.FirstAtOrAbove | pycbc/waveform/utils.py:191 | Gives the first offset whose magnitude reaches the threshold, with every earlier magnitude below it. The answer is None iff no magnitude reaches it |
| TimeFromFrequency.SelectBand | pycbc/waveform/utils.py:188-193 | Fails with an IndexError iff fewer than two samples are nonzero. kmin is the first nonzero index and kmin - 1 <= kmax. Every step in [kmin, kmax] is below the threshold. kmax never passes the second-to-last nonzero index, and kmax stops short of it only right before a step that reaches the threshold |
| TimeFromFrequency.FillBefore | pycbc/waveform/utils.py:194 | `t[:k] = t[k]` sets every entry before k to t[k] and leaves the rest alone |
| TimeFromFrequency.FillFrom | pycbc/waveform/utils.py:195 | `t[k:] = t[k]`, reading a negative k from the end as Python does, leaves the entries before the position alone and sets the rest to the value at that position |
| TimeFromFrequency.ClampEdges | pycbc/waveform/utils.py:194-195 | The two slice assignments in order. Entries before kmin take time[kmin]. Entries in [kmin, kmax) are kept, and entries from kmax on take time[kmax]. kmax = kmin - 1 with kmin > 0 makes the whole array time[kmin]. kmax = -1 changes nothing |
| TimeFromFrequency.DefaultFrequenciesValid | pycbc/waveform/utils.py:183-184 | The default sample frequencies k delta_f never repeat a neighbour when delta_f is nonzero, so the division on line 187 is defined |
| TimeFromFrequency.TimeFromFrequencySeries | pycbc/waveform/utils.py:183-198 | Fails with an IndexError iff fewer than two samples are nonzero. The output is one sample shorter than the input and keeps delta_f and epoch. It is -dphi / (2 pi df), clamped outside the selected band as ClampEdges describes |
| TimeFromFrequency.NoDiscontinuityKeepsPenultimate | pycbc/waveform/utils.py:189-193 | When no step reaches the threshold, kmax is the second-to-last nonzero index |
| TimeFromFrequency.ImmediateDiscontinuity | pycbc/waveform/utils.py:191-195 | A discontinuity on the first step after kmin gives one of two results. With kmin > 0 every time value equals the one at kmin. With kmin = 0 the Python index -1 leaves the raw time unchanged |
| Taper.TaperTimeseries | pycbc/waveform/utils.py:338-356 | The checks run in this order: a missing method (ValueError), a method outside the seven names (ValueError), a dtype other than float32/float64 (TypeError). It succeeds in every other case. 'TAPER_NONE' returns the series unchanged. Every other name tapers with its constant, and delta_t and epoch are kept |
| Taper.TaperErrorClasses | pycbc/waveform/utils.py:338-346 | A failure is a TypeError exactly when the method name was valid |
| Taper.TaperMapNames | pycbc/waveform/utils.py:306-314 | The map's keys are exactly the seven documented method names, and each short name selects the same constant as its long name |
| TimeShift.CounterStep | pycbc/waveform/utils.py:367-377 | The counter jj reaches the update interval exactly at the bins (kk - kmin) mod 100 = 0. Resetting it to 0 or stepping it by 1 gives the value the next bin expects |
| TimeShift.ReseedStep | pycbc/waveform/utils.py:372-388 | At bin kk, the reseed test gives exactly the running shift the model assigns to kk. At a reseed bin that is cos/sin of phi kk. Otherwise it is the previous shift times cos/sin of phi |
| TimeShift.ApplyShiftKernel | pycbc/waveform/utils.py:358-391 | The kernel keeps the length and leaves every bin outside [kmin, kmax) untouched. Every bin inside is multiplied by the running shift, which is recomputed from cos/sin when (kk - kmin) mod 100 = 0 and otherwise advanced by one complex product |
| TimeShift.RunningShiftIsDirect | pycbc/waveform/utils.py:370-387 | Under the angle-addition law the running shift at bin kk is exactly (cos(phi kk), sin(phi kk)) |
| TimeShift.IncrementalIsDirect | pycbc/waveform/utils.py:372-387 | The kernel's output equals the direct evaluation of exp(i phi k) at each bin |
| TimeShift.DirectShiftRoundTrip | pycbc/waveform/utils.py:381-382 | Shifting by phi and then by -phi restores every bin |
| TimeShift.IncrementalRoundTrip | pycbc/waveform/utils.py:372-390 | Running the kernel with phi and then with -phi restores the array |
| TimeShift.ApplyFseriesTimeShift | pycbc/waveform/utils.py:395-412 | The kernel runs over the whole series, from kmin to the series length, with phi = -2 pi dt delta_f. delta_f and epoch are kept |
| TimeShift.FdTimeShift | pycbc/waveform/utils.py:440-456 | dt = shifttime - epoch. dt = 0 returns the input unchanged. A FrequencySeries goes through the kernel. Any other input has each bin multiplied by exp(-2 pi i dt f) at its frequency, which is fseries when given and the input's own sample frequencies otherwise. The kind, epoch, length and frequencies are kept |
| TimeShift.ApplyFdTimeShift | pycbc/waveform/utils.py:440-456 | The method, which runs the kernel, computes exactly FdTimeShift |
| TimeShift.GridPhase | pycbc/waveform/utils.py:400 | Bin k's rotation under the kernel's phi equals exp(-2 pi i dt f) at the bin frequency f = k delta_f |
| TimeShift.UniformPathIsExpRamp | pycbc/waveform/utils.py:445-455 | The two dispatch paths agree from kmin on, and only there. On a FrequencySeries, every bin from kmin on equals what the general path gives at frequencies k delta_f. The bins below kmin are untouched, while the general path would shift them too |
| TimeShift.SampledPathIgnoresKmin | pycbc/waveform/utils.py:448-455 | The general path gives the same result for every kmin, because it multiplies every bin despite the docstring at lines 424-425 |
| TimeShift.ExpRampRoundTrip | pycbc/waveform/utils.py:451-455 | Multiplying by exp(-2 pi i dt f) and then by exp(2 pi i dt f) restores every bin |
| TimeShift.FdTimeShiftRoundTrip | pycbc/waveform/utils.py:440-455 | On either path, shifting to epoch + dt and then to epoch - dt restores the input exactly (the shift leaves the epoch as it was) |

## Left out

- Unwrapping (`numpy.unwrap`, `numpy.angle`, `numpy.arctan2`) is library numerics. The unwrapped phase is an input sequence, one real per sample.
- `amplitude_from_frequencyseries` and `amplitude_from_polarizations` are only `abs` and a square root of library numerics, with no index logic.
- `matched_filter`, `abs_max_loc`, the rotation by the peak's phase, `to_frequencyseries`/`to_timeseries` and `roll` live outside this file. They form one opaque `align` parameter of `Coalign.CoalignWaveforms`.
- `Array.resize` is not part of this model. `Coalign.Resize` assumes it truncates or pads with zeros.
- The lalsimulation taper functions are one opaque `window` parameter, and so is their choice by dtype. The `.lal()` conversion and `return_lal` are left out because they only change the container type.
- The weave/OpenMP compilation and the float/double text substitution are left out. Rounding drift, which the 100-bin reseed exists to bound, cannot be stated over exact reals.
- Cosine and sine are uninterpreted. Only the angle-addition law and the values at zero are assumed, through `Signals.Lawful`.
- The `copy` flags and the resulting aliasing are left out. Every operation returns a new value.
- GPS epochs are plain reals.
- The `astype(real_same_precision_as(...))` casts are left out, since no precision is modelled.
- TimeFromFrequency.TimeFromFrequencySeries: requires no two equal neighbouring frequencies. In numpy the division on line 187 then yields inf or nan and raises nothing, and IEEE infinities are not modelled.
- TimeFromFrequency.TimeFromFrequencySeries: requires one given frequency per sample. With a mismatch, line 187 raises numpy's ValueError (operands could not be broadcast together), or broadcasts silently when one operand has length 1. That ValueError path and the silent broadcast are dropped.
- Phase.FrequencyFromPolarizations: requires a nonzero delta_t. pycbc's TimeSeries refuses a non-positive delta_t when it is built, so every series the function can receive meets this. The container classes of `pycbc.types` are not part of this model.
- Phase.FrequencyFromPolarizations: a one-sample input yields an empty series. Line 301 would instead raise ValueError, because pycbc's TimeSeries refuses an empty array.
- Phase.PhaseFromPolarizations: an empty input without start removal yields an empty series. Line 233 would instead raise ValueError, because pycbc's TimeSeries refuses an empty array.
- Phase.PhaseFromFrequencySeries: an empty input without start removal yields an empty series. Line 127 would instead raise ValueError, because pycbc's FrequencySeries refuses an empty array.
- Phase.FrequencyFromPolarizations: requires h_cross and the unwrapped phase to match h_plus in length, for the reason given for PhaseFromPolarizations.
- Phase.PhaseFromPolarizations: requires h_cross and the unwrapped phase to match h_plus in length. With a mismatch, `arctan2` on line 229 raises numpy's ValueError, or broadcasts silently when one input has length 1. That ValueError path and the silent broadcast are dropped.
- Phase.PhaseFromPolarizations: the documentation's "always positive and increasing" is not promised for every input. It holds only for a rising unwrapped phase (IncreasingPhaseIsNonnegative), and the code guarantees just the zero start (DecreasingPhaseGoesNegative).
- TimeShift.FdTimeShift: requires the frequencies of a general input to match its length. With a mismatch, `htilde *= shift` on line 455 raises numpy's ValueError, or broadcasts silently when the frequencies have length 1. That ValueError path and the silent broadcast are dropped.
- TimeShift.ApplyShiftKernel: the C counters `kk` and `jj` are 32-bit `int`s that would overflow past 2^31 bins. The model's counters are unbounded.
- TimeShift.ApplyShiftKernel: kmin is a natural number. A negative kmin would make the C kernel write before the array.
- TimeShift.FdTimeShift: the default sample frequencies of a non-FrequencySeries input are a field of the input, since that input's type is not part of this model.
- TimeFromFrequency.SampleFrequencies: the default frequencies of a FrequencySeries are modelled as k delta_f.
- PowerOfTwo.FrexpOf: exact on all integers. Python's `frexp` converts to a double first, so above 2^53 it can round. Beyond the double range (about 1.8e308) it raises OverflowError, which the model does not produce.
