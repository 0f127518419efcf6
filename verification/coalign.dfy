/** The sizing logic of `coalign_waveforms`: which inputs are refused, how
    long the two working copies become, and what metadata the aligned first
    waveform ends up with. The matched filter, the peak search, the phase
    rotation and the circular roll are one opaque step, `align`. */
module Coalign {
  import opened Outcomes
  import opened Signals
  import opened PowerOfTwo

  /** `Array.resize`: truncate, or pad with zero samples, to length n. */
  function Resize(s: seq<real>, n: nat): (r: seq<real>)
    ensures |r| == n
    ensures forall i :: 0 <= i < n && i < |s| ==> r[i] == s[i]
    ensures forall i :: |s| <= i < n ==> r[i] == 0.0
  {
    if n <= |s| then s[..n] else s + seq(n - |s|, _ => 0.0)
  }

  function Max(a: nat, b: nat): nat {
    if a < b then b else a
  }

  /** The shared length both copies are resized to. */
  function CommonLength(h1: TimeSeries<real>, h2: TimeSeries<real>): (n: nat)
    ensures |h1.data| <= n && |h2.data| <= n
    ensures IsPow2(n)
    ensures forall e: nat :: |h1.data| <= Pow2(e) && |h2.data| <= Pow2(e) ==> n <= Pow2(e)
  {
    var m := Max(|h1.data|, |h2.data|);
    CeilPow2IsLeast(m);
    CeilPow2(m)
  }

  /** `coalign_waveforms(h1, h2, resize=resize)`. The result pairs the aligned
      copy of h1 with the (possibly resized) copy of h2. */
  function CoalignWaveforms(h1: TimeSeries<real>, h2: TimeSeries<real>, resize: bool,
                            align: (seq<real>, seq<real>) -> seq<real>)
    : (r: Result<(TimeSeries<real>, TimeSeries<real>)>)
    ensures r.Err? <==> !resize && (|h1.data| != |h2.data| || |h2.data| % 2 != 0)
    ensures r.Err? ==> r.error == SizeMismatch && r.error.Raises() == ValueError
    ensures r.Ok? ==> r.value.0.deltaT == h2.deltaT && r.value.0.epoch == h2.epoch
    ensures r.Ok? ==> r.value.1.deltaT == h2.deltaT && r.value.1.epoch == h2.epoch
    ensures r.Ok? ==> r.value.0.data == align(Resize(h1.data, |r.value.1.data|), r.value.1.data)
    ensures r.Ok? && !resize ==> r.value.1 == h2
    ensures r.Ok? && resize ==>
              && |r.value.1.data| == CeilPow2(Max(|h1.data|, |h2.data|))
              && r.value.1.data[..|h2.data|] == h2.data
              && forall i :: |h2.data| <= i < |r.value.1.data| ==> r.value.1.data[i] == 0.0
  {
    var mlen := CommonLength(h1, h2);
    if resize then
      var a := Resize(h1.data, mlen);
      var b := Resize(h2.data, mlen);
      Ok((TimeSeries(align(a, b), h2.deltaT, h2.epoch), TimeSeries(b, h2.deltaT, h2.epoch)))
    else if |h1.data| != |h2.data| || |h2.data| % 2 != 0 then
      Err(SizeMismatch)
    else
      ResizeKeeps(h1.data, |h1.data|);
      Ok((TimeSeries(align(h1.data, h2.data), h2.deltaT, h2.epoch), h2))
  }

  /** With resizing, both copies come out the same power-of-two length, at
      least as long as either input and shorter than twice the longer one;
      a pair already at a common power-of-two length keeps it. */
  lemma CoalignResizedLength(h1: TimeSeries<real>, h2: TimeSeries<real>,
                             align: (seq<real>, seq<real>) -> seq<real>)
    requires |h1.data| >= 1 || |h2.data| >= 1
    ensures var r := CoalignWaveforms(h1, h2, true, align);
            && r.Ok?
            && IsPow2(|r.value.1.data|)
            && |h1.data| <= |r.value.1.data| && |h2.data| <= |r.value.1.data|
            && |r.value.1.data| < 2 * Max(|h1.data|, |h2.data|)
            && (forall e: nat :: |h1.data| == Pow2(e) == |h2.data| ==> |r.value.1.data| == Pow2(e))
  {
    var m := Max(|h1.data|, |h2.data|);
    forall e: nat | |h1.data| == Pow2(e) == |h2.data|
      ensures CeilPow2(m) == Pow2(e)
    {
      CeilPow2OfPow2(e);
    }
  }

  /** Resizing to the current length changes nothing, and resizing up keeps
      every original sample. */
  lemma ResizeKeeps(s: seq<real>, n: nat)
    requires |s| <= n
    ensures Resize(s, n)[..|s|] == s
    ensures n == |s| ==> Resize(s, n) == s
  {
  }
}
