/** `time_from_frequencyseries`: time as a function of frequency under the
    stationary-phase approximation, -dphi / (2*pi*df), with the band of
    trusted samples chosen from the nonzero samples and the first phase
    discontinuity, and every sample outside the band clamped to the band's
    edge values. */
module TimeFromFrequency {
  import opened Outcomes
  import opened Signals
  import Phase

  function Abs(x: real): real {
    if x < 0.0 then -x else x
  }

  /** `numpy.nonzero(abs(data))[0]`: the indices of the nonzero samples,
      in increasing order. */
  function NonzeroIndices(data: seq<Complex>): (r: seq<nat>)
    ensures forall j :: 0 <= j < |r| ==> r[j] < |data| && data[r[j]] != Zero
    ensures forall k :: 0 <= k < |data| && data[k] != Zero ==> k in r
    ensures forall i, j :: 0 <= i < j < |r| ==> r[i] < r[j]
  {
    if |data| == 0 then []
    else
      var init := data[..|data| - 1];
      var r := NonzeroIndices(init);
      assert forall k :: 0 <= k < |init| ==> init[k] == data[k];
      if data[|data| - 1] != Zero then r + [|data| - 1] else r
  }

  /** Offset of the first entry whose magnitude reaches `threshold`: the
      head of `numpy.where(abs(s) >= threshold)[0]`, None when it is empty. */
  function FirstAtOrAbove(s: seq<real>, threshold: real): (r: Option<nat>)
    ensures r.Some? ==> r.value < |s| && Abs(s[r.value]) >= threshold
    ensures r.Some? ==> forall j :: 0 <= j < r.value ==> Abs(s[j]) < threshold
    ensures r.None? <==> forall j :: 0 <= j < |s| ==> Abs(s[j]) < threshold
  {
    if |s| == 0 then None
    else if Abs(s[0]) >= threshold then Some(0)
    else
      match FirstAtOrAbove(s[1..], threshold)
      case None => None
      case Some(d) => Some(d + 1)
  }

  ghost predicate HasTwoNonzero(data: seq<Complex>) {
    exists i, j :: 0 <= i < j < |data| && data[i] != Zero && data[j] != Zero
  }

  ghost predicate IsFirstNonzero(data: seq<Complex>, k: int) {
    && 0 <= k < |data|
    && data[k] != Zero
    && forall i :: 0 <= i < k ==> data[i] == Zero
  }

  /** k is the second-to-last nonzero index: exactly one nonzero sample
      follows it. */
  ghost predicate IsPenultimateNonzero(data: seq<Complex>, k: int) {
    && 0 <= k && k + 1 < |data|
    && data[k] != Zero
    && (exists j :: k < j < |data| && data[j] != Zero)
    && forall i, j :: k < i < j < |data| ==> data[i] == Zero || data[j] == Zero
  }

  /** The trusted band: kmin is the first nonzero index; kmax is where the
      time values start being clamped. kmax may be kmin - 1, and is -1 when
      kmin is 0 and the very first phase step is a discontinuity. */
  datatype Band = Band(kmin: nat, kmax: int)

  /** Choice of kmin and kmax from the samples and the phase differences
      `dphi`: kmax is the second-to-last nonzero index, pulled back to just
      before the first step from kmin on whose magnitude reaches the
      threshold. */
  function SelectBand(data: seq<Complex>, dphi: seq<real>, threshold: real): (r: Result<Band>)
    requires |dphi| == |data| - 1
    ensures r.Err? <==> !HasTwoNonzero(data)
    ensures r.Err? ==> r.error == TooFewNonzero && r.error.Raises() == IndexError
    ensures r.Ok? ==> IsFirstNonzero(data, r.value.kmin)
    ensures r.Ok? ==> r.value.kmin - 1 <= r.value.kmax < |dphi|
    ensures r.Ok? ==> forall k :: r.value.kmin <= k <= r.value.kmax ==> Abs(dphi[k]) < threshold
    ensures r.Ok? ==> exists p ::
              && IsPenultimateNonzero(data, p)
              && r.value.kmax <= p
              && (r.value.kmax < p ==> Abs(dphi[r.value.kmax + 1]) >= threshold)
  {
    var nz := NonzeroIndices(data);
    if |nz| < 2 then
      NoTwoNonzero(data, nz);
      Err(TooFewNonzero)
    else
      var kmin := nz[0];
      var last := nz[|nz| - 2];
      FirstAndPenultimate(data, nz);
      var disc := FirstAtOrAbove(dphi[kmin..], threshold);
      DiscontinuityOffset(dphi, kmin, threshold);
      var kmax := if disc.Some? && kmin + disc.value - 1 < last then kmin + disc.value - 1 else last;
      Ok(Band(kmin, kmax))
  }

  /** The discontinuity search from kmin on, in terms of dphi's own indices. */
  lemma DiscontinuityOffset(dphi: seq<real>, kmin: nat, threshold: real)
    requires kmin <= |dphi|
    ensures var d := FirstAtOrAbove(dphi[kmin..], threshold);
            && (d.Some? ==>
                  && kmin + d.value < |dphi|
                  && Abs(dphi[kmin + d.value]) >= threshold
                  && forall k :: kmin <= k < kmin + d.value ==> Abs(dphi[k]) < threshold)
            && (d.None? ==> forall k :: kmin <= k < |dphi| ==> Abs(dphi[k]) < threshold)
  {
    var d := FirstAtOrAbove(dphi[kmin..], threshold);
    forall k | kmin <= k < |dphi|
      ensures dphi[kmin..][k - kmin] == dphi[k]
    {
    }
  }

  lemma NoTwoNonzero(data: seq<Complex>, nz: seq<nat>)
    requires nz == NonzeroIndices(data) && |nz| < 2
    ensures !HasTwoNonzero(data)
  {
  }

  /** In a strictly increasing sequence, order of values is order of positions. */
  lemma IncreasingPositions(nz: seq<nat>, a: nat, b: nat)
    requires forall i, j :: 0 <= i < j < |nz| ==> nz[i] < nz[j]
    requires a < |nz| && b < |nz|
    ensures nz[a] < nz[b] <==> a < b
  {
  }

  lemma FirstAndPenultimate(data: seq<Complex>, nz: seq<nat>)
    requires nz == NonzeroIndices(data) && |nz| >= 2
    ensures HasTwoNonzero(data)
    ensures IsFirstNonzero(data, nz[0])
    ensures IsPenultimateNonzero(data, nz[|nz| - 2])
  {
    FirstOf(data, nz);
    PenultimateOf(data, nz);
  }

  lemma FirstOf(data: seq<Complex>, nz: seq<nat>)
    requires nz == NonzeroIndices(data) && |nz| >= 2
    ensures HasTwoNonzero(data)
    ensures IsFirstNonzero(data, nz[0])
  {
    assert data[nz[0]] != Zero && data[nz[1]] != Zero && nz[0] < nz[1];
    forall x | x in nz
      ensures nz[0] <= x
    {
      var a :| 0 <= a < |nz| && nz[a] == x;
      IncreasingPositions(nz, 0, a);
    }
  }

  lemma PenultimateOf(data: seq<Complex>, nz: seq<nat>)
    requires nz == NonzeroIndices(data) && |nz| >= 2
    ensures IsPenultimateNonzero(data, nz[|nz| - 2])
  {
    var n := |nz|;
    var p := nz[n - 2];
    assert p < nz[n - 1] < |data| && data[nz[n - 1]] != Zero;
    forall x | x in nz && p < x
      ensures x == nz[n - 1]
    {
      var a :| 0 <= a < n && nz[a] == x;
      IncreasingPositions(nz, n - 2, a);
    }
  }

  /** `t[:k] = t[k]`. */
  function FillBefore(t: seq<real>, k: nat): (r: seq<real>)
    requires k < |t|
    ensures |r| == |t|
    ensures forall i :: 0 <= i < k ==> r[i] == t[k]
    ensures forall i :: k <= i < |t| ==> r[i] == t[i]
  {
    seq(k, _ => t[k]) + t[k..]
  }

  /** Python's reading of index k into a sequence of length n: a negative
      index counts from the end. */
  function PyIndex(k: int, n: nat): int {
    if k < 0 then k + n else k
  }

  /** `t[k:] = t[k]`, under Python's reading of a negative k. */
  function FillFrom(t: seq<real>, k: int): (r: seq<real>)
    requires -|t| <= k < |t|
    ensures |r| == |t|
    ensures forall i :: 0 <= i < PyIndex(k, |t|) ==> r[i] == t[i]
    ensures forall i :: PyIndex(k, |t|) <= i < |t| ==> r[i] == t[PyIndex(k, |t|)]
  {
    var j := PyIndex(k, |t|);
    t[..j] + seq(|t| - j, _ => t[j])
  }

  /** The two clamping slice assignments in order: `t[:kmin] = t[kmin]`,
      then `t[kmax:] = t[kmax]`. */
  function Clamp(t: seq<real>, kmin: nat, kmax: int): seq<real>
    requires kmin < |t| && kmin - 1 <= kmax < |t|
  {
    FillFrom(FillBefore(t, kmin), kmax)
  }

  /** What the two slice assignments leave in each position of `c`, given
      the unclamped values `t`, including the cases where kmax falls before
      kmin. */
  ghost predicate ClampedTo(c: seq<real>, t: seq<real>, b: Band) {
    && |c| == |t|
    && b.kmin < |t|
    && (forall i :: 0 <= i < b.kmin ==> c[i] == t[b.kmin])
    && (b.kmin <= b.kmax < |t| ==>
          && (forall i :: b.kmin <= i < b.kmax ==> c[i] == t[i])
          && (forall i :: b.kmax <= i < |t| ==> c[i] == t[b.kmax]))
    && (b.kmax == b.kmin - 1 && b.kmin > 0 ==> forall i :: 0 <= i < |t| ==> c[i] == t[b.kmin])
    && (b.kmax == -1 ==> c == t)
  }

  lemma ClampEdges(t: seq<real>, kmin: nat, kmax: int)
    requires kmin < |t| && kmin - 1 <= kmax < |t|
    ensures ClampedTo(Clamp(t, kmin, kmax), t, Band(kmin, kmax))
  {
    var b := FillBefore(t, kmin);
    if kmax == -1 {
      assert kmin == 0;
      assert b == t;
    }
  }

  /** The frequency of each sample: the given array, or k * delta_f. */
  function SampleFrequencies(htilde: FrequencySeries<Complex>, given: Option<seq<real>>): seq<real> {
    match given
    case Some(f) => f
    case None => GridFrequencies(htilde)
  }

  /** One frequency per sample, and no two neighbours at the same frequency
      (the time estimate divides by their difference). */
  ghost predicate ValidFrequencies(htilde: FrequencySeries<Complex>, given: Option<seq<real>>) {
    var f := SampleFrequencies(htilde, given);
    && |f| == |htilde.data|
    && forall i :: 0 <= i < |Phase.Diff(f)| ==> Phase.Diff(f)[i] != 0.0
  }

  /** The default frequencies k * delta_f are valid whenever delta_f is not
      zero. */
  lemma DefaultFrequenciesValid(htilde: FrequencySeries<Complex>)
    requires htilde.deltaF != 0.0
    ensures ValidFrequencies(htilde, None)
  {
    var f := SampleFrequencies(htilde, None);
    forall i | 0 <= i < |Phase.Diff(f)|
      ensures Phase.Diff(f)[i] != 0.0
    {
      assert Phase.Diff(f)[i] == BinFrequency(i + 1, htilde.deltaF) - BinFrequency(i, htilde.deltaF);
    }
  }

  /** The unclamped estimate -dphi / (2*pi*df) between neighbouring
      samples, from the phase steps and the frequency steps. */
  function RawTime(dphi: seq<real>, df: seq<real>): (t: seq<real>)
    requires |df| == |dphi|
    requires forall i :: 0 <= i < |df| ==> df[i] != 0.0
    ensures |t| == |dphi|
  {
    seq(|dphi|, i requires 0 <= i < |dphi| => -dphi[i] / (2.0 * Pi * df[i]))
  }

  /** `time_from_frequencyseries(htilde, sample_frequencies, discont_threshold)`. */
  function TimeFromFrequencySeries(htilde: FrequencySeries<Complex>, unwrapped: seq<real>,
                                   sampleFrequencies: Option<seq<real>>, discontThreshold: real)
    : (r: Result<FrequencySeries<real>>)
    requires |unwrapped| == |htilde.data|
    requires ValidFrequencies(htilde, sampleFrequencies)
    ensures r.Err? <==> !HasTwoNonzero(htilde.data)
    ensures r.Err? ==> r.error.Raises() == IndexError
    ensures r.Ok? ==> |r.value.data| == |htilde.data| - 1
    ensures r.Ok? ==> r.value.deltaF == htilde.deltaF && r.value.epoch == htilde.epoch
    ensures r.Ok? ==>
              ClampedTo(r.value.data,
                        RawTime(Phase.Diff(unwrapped), Phase.Diff(SampleFrequencies(htilde, sampleFrequencies))),
                        SelectBand(htilde.data, Phase.Diff(unwrapped), discontThreshold).value)
  {
    var phase :- Phase.PhaseFromFrequencySeries(htilde, unwrapped, true);
    var f := SampleFrequencies(htilde, sampleFrequencies);
    var dphi := Phase.Diff(phase.data);
    var time := RawTime(dphi, Phase.Diff(f));
    assert dphi == Phase.Diff(unwrapped);
    var band :- SelectBand(htilde.data, dphi, discontThreshold);
    ClampEdges(time, band.kmin, band.kmax);
    Ok(FrequencySeries(Clamp(time, band.kmin, band.kmax), htilde.deltaF, htilde.epoch))
  }

  /** With a threshold no phase step reaches (anything above pi, once the
      phase is unwrapped), the band runs to the second-to-last nonzero
      sample. */
  lemma NoDiscontinuityKeepsPenultimate(data: seq<Complex>, dphi: seq<real>, threshold: real)
    requires |dphi| == |data| - 1 && HasTwoNonzero(data)
    requires forall k :: 0 <= k < |dphi| ==> Abs(dphi[k]) < threshold
    ensures SelectBand(data, dphi, threshold).Ok?
    ensures IsPenultimateNonzero(data, SelectBand(data, dphi, threshold).value.kmax)
  {
  }

  /** A discontinuity on the very first step after kmin empties the band.
      With kmin > 0 every time value becomes the one at kmin; with kmin = 0
      kmax is -1, Python reads `time[-1:] = time[-1]`, and no value is
      clamped at all. */
  lemma ImmediateDiscontinuity(htilde: FrequencySeries<Complex>, unwrapped: seq<real>,
                               sampleFrequencies: Option<seq<real>>, discontThreshold: real, k: nat)
    requires |unwrapped| == |htilde.data|
    requires ValidFrequencies(htilde, sampleFrequencies)
    requires HasTwoNonzero(htilde.data) && IsFirstNonzero(htilde.data, k)
    requires k < |htilde.data| - 1 && Abs(unwrapped[k + 1] - unwrapped[k]) >= discontThreshold
    ensures var r := TimeFromFrequencySeries(htilde, unwrapped, sampleFrequencies, discontThreshold);
            var raw := RawTime(Phase.Diff(unwrapped), Phase.Diff(SampleFrequencies(htilde, sampleFrequencies)));
            && r.Ok?
            && (k == 0 ==> r.value.data == raw)
            && (k > 0 ==> forall i :: 0 <= i < |raw| ==> r.value.data[i] == raw[k])
  {
    var dphi := Phase.Diff(unwrapped);
    var b := SelectBand(htilde.data, dphi, discontThreshold).value;
    assert b.kmin == k;
    assert Abs(dphi[k]) >= discontThreshold;
    assert b.kmax == k - 1;
  }
}
