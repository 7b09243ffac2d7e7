/** Control state of the four-channel tone generator: the padded target list, the exponential
    smoothing step, per-channel gating and mixing in the render callback, and the running flag.
    The sine values of each channel and the phase each active channel ends a buffer on are
    inputs of the callback. */
module ToneGenerator {
  import opened Tables

  /** Number of oscillator channels. */
  const Channels: nat := 4

  /** `smoothing_factor`: the weight kept on the current frequency at each callback. */
  const SmoothingFactor: real := 0.05

  /** Per-channel amplitude used when mixing. */
  const ChannelAmplitude: real := 0.25

  /** `pyaudio.paContinue` / `pyaudio.paComplete`. */
  datatype Flag = Continue | Complete

  /** `current_frequencies`, `target_frequencies`, `phase` and `is_running`. */
  datatype ToneState = ToneState(current: seq<real>, target: seq<real>, phase: seq<real>, running: bool)

  /** One callback's output: the sample buffer, the completion flag and the state afterwards. */
  datatype Rendered = Rendered(samples: seq<real>, flag: Flag, state: ToneState)

  predicate Valid(s: ToneState)
  {
    |s.current| == Channels && |s.target| == Channels && |s.phase| == Channels
  }

  function Zeros(n: nat): (z: seq<real>)
    ensures |z| == n && forall i :: 0 <= i < n ==> z[i] == 0.0
  {
    seq(n, i => 0.0)
  }

  /** The state after construction: all channels at 0 Hz, phase 0, not running. */
  function Init(): (s: ToneState)
    ensures Valid(s) && !s.running
    ensures forall i :: 0 <= i < Channels ==> s.current[i] == 0.0 && s.target[i] == 0.0 && s.phase[i] == 0.0
  {
    ToneState(Zeros(Channels), Zeros(Channels), Zeros(Channels), false)
  }

  /** `list(frequencies) + [0.0] * (4 - len(frequencies))`, then `[:4]`. */
  function PadOrTruncate(fs: seq<real>): (r: seq<real>)
    ensures |r| == Channels
    ensures forall i :: 0 <= i < Channels && i < |fs| ==> r[i] == fs[i]
    ensures forall i :: |fs| <= i < Channels ==> r[i] == 0.0
  {
    var padded := fs + Zeros(if |fs| < Channels then Channels - |fs| else 0);
    padded[..Channels]
  }

  /** `set_frequencies`: replaces the four targets; nothing else changes, whether running or not. */
  function SetFrequencies(s: ToneState, fs: seq<real>): (r: ToneState)
    requires Valid(s)
    ensures Valid(r)
    ensures r.target == PadOrTruncate(fs)
    ensures r.current == s.current && r.phase == s.phase && r.running == s.running
  {
    s.(target := PadOrTruncate(fs))
  }

  /** One smoothing step of one channel: the new value lies between the current value and the
      target, 20 times closer to the target, and a channel at its target stays there. */
  function Smooth(current: real, target: real): (c: real)
    ensures Abs(c - target) == SmoothingFactor * Abs(current - target)
    ensures current <= target ==> current <= c <= target
    ensures target <= current ==> target <= c <= current
    ensures current == target ==> c == target
  {
    SmoothingFactor * current + (1.0 - SmoothingFactor) * target
  }

  function SmoothAll(current: seq<real>, target: seq<real>): (r: seq<real>)
    requires |current| == |target|
    ensures |r| == |current|
    ensures forall i :: 0 <= i < |r| ==> r[i] == Smooth(current[i], target[i])
  {
    seq(|current|, i requires 0 <= i < |current| => Smooth(current[i], target[i]))
  }

  /** `current` after `k` callbacks with an unchanged target. */
  function SmoothTimes(current: real, target: real, k: nat): real
  {
    if k == 0 then current else Smooth(SmoothTimes(current, target, k - 1), target)
  }

  function Pow(x: real, k: nat): real
  {
    if k == 0 then 1.0 else x * Pow(x, k - 1)
  }

  /** With the target held, the distance to it shrinks by the factor 0.05 at every callback. */
  lemma {:induction false} SmoothingConverges(current: real, target: real, k: nat)
    ensures Abs(SmoothTimes(current, target, k) - target) == Pow(SmoothingFactor, k) * Abs(current - target)
  {
    if k > 0 {
      SmoothingConverges(current, target, k - 1);
      var p := SmoothTimes(current, target, k - 1);
      var e := Pow(SmoothingFactor, k - 1);
      assert Abs(SmoothTimes(current, target, k) - target) == SmoothingFactor * Abs(p - target);
      assert SmoothingFactor * (e * Abs(current - target)) == (SmoothingFactor * e) * Abs(current - target);
    }
  }

  /** Number of channels among the first `n` whose frequency is positive. */
  function ActiveCount(freqs: seq<real>, n: nat): (c: nat)
    requires n <= |freqs|
    ensures c <= n
  {
    if n == 0 then 0 else ActiveCount(freqs, n - 1) + (if freqs[n - 1] > 0.0 then 1 else 0)
  }

  /** The channel sine values lie in [-1, 1] and cover `frames` samples. */
  predicate SinesOk(sines: seq<seq<real>>, frames: nat)
  {
    |sines| == Channels &&
    forall i :: 0 <= i < |sines| ==> |sines[i]| == frames && forall t :: 0 <= t < frames ==> -1.0 <= sines[i][t] <= 1.0
  }

  /** Sample `t` of the mix of the first `n` channels, summed in channel order; a channel whose
      frequency is not positive adds nothing. */
  function MixSample(freqs: seq<real>, sines: seq<seq<real>>, t: nat, n: nat): (x: real)
    requires n <= |freqs| && n <= |sines|
    requires forall i :: 0 <= i < n ==> t < |sines[i]|
    ensures (forall i :: 0 <= i < n ==> freqs[i] <= 0.0) ==> x == 0.0
  {
    if n == 0 then 0.0
    else MixSample(freqs, sines, t, n - 1) + (if freqs[n - 1] > 0.0 then ChannelAmplitude * sines[n - 1][t] else 0.0)
  }

  /** Each mixed sample stays within 0.25 per sounding channel. */
  lemma {:induction false} MixBound(freqs: seq<real>, sines: seq<seq<real>>, t: nat, n: nat)
    requires n <= |freqs| && n <= |sines|
    requires forall i :: 0 <= i < n ==> t < |sines[i]| && -1.0 <= sines[i][t] <= 1.0
    ensures Abs(MixSample(freqs, sines, t, n)) <= ChannelAmplitude * ActiveCount(freqs, n) as real
  {
    if n > 0 {
      MixBound(freqs, sines, t, n - 1);
    }
  }

  /** The sine values of a silent channel do not reach the mix. */
  lemma {:induction false} SilentChannelIgnored(freqs: seq<real>, sines: seq<seq<real>>, sines': seq<seq<real>>, t: nat, n: nat)
    requires n <= |freqs| && n <= |sines| && |sines'| == |sines|
    requires forall i :: 0 <= i < n ==> t < |sines[i]| && t < |sines'[i]|
    requires forall i :: 0 <= i < n && freqs[i] > 0.0 ==> sines[i][t] == sines'[i][t]
    ensures MixSample(freqs, sines, t, n) == MixSample(freqs, sines', t, n)
  {
    if n > 0 {
      SilentChannelIgnored(freqs, sines, sines', t, n - 1);
    }
  }

  /** `audio_callback`. When stopped: `frame_count` zeros and the completion flag, state untouched.
      When running: every channel is smoothed toward its target; the buffer mixes the channels
      whose smoothed frequency is positive; those channels store their end phase and the others
      keep theirs. An empty buffer with a sounding channel reads the last sample of an empty phase
      array and raises, so that call is excluded. */
  function Callback(s: ToneState, frameCount: nat, sines: seq<seq<real>>, endPhase: seq<real>): (r: Rendered)
    requires Valid(s) && SinesOk(sines, frameCount) && |endPhase| == Channels
    requires s.running && frameCount == 0 ==> forall i :: 0 <= i < Channels ==> Smooth(s.current[i], s.target[i]) <= 0.0
    ensures !s.running ==> r == Rendered(Zeros(frameCount), Complete, s)
    ensures s.running ==> r.flag == Continue && |r.samples| == frameCount && Valid(r.state)
    ensures s.running ==> r.state.target == s.target && r.state.running
    ensures s.running ==> forall i :: 0 <= i < Channels ==> r.state.current[i] == Smooth(s.current[i], s.target[i])
    ensures s.running ==> forall i :: 0 <= i < Channels ==>
              Abs(r.state.current[i] - s.target[i]) == SmoothingFactor * Abs(s.current[i] - s.target[i])
    ensures s.running ==> forall t :: 0 <= t < frameCount ==> r.samples[t] == MixSample(r.state.current, sines, t, Channels)
    ensures s.running ==> forall i :: 0 <= i < Channels ==>
              r.state.phase[i] == (if r.state.current[i] > 0.0 then endPhase[i] else s.phase[i])
    ensures s.running ==> forall t :: 0 <= t < frameCount ==>
              Abs(r.samples[t]) <= ChannelAmplitude * ActiveCount(r.state.current, Channels) as real <= 1.0
  {
    if !s.running then Rendered(Zeros(frameCount), Complete, s)
    else
      var current := SmoothAll(s.current, s.target);
      var samples := seq(frameCount, t requires 0 <= t < frameCount => MixSample(current, sines, t, Channels));
      var phase := seq(Channels, i requires 0 <= i < Channels => if current[i] > 0.0 then endPhase[i] else s.phase[i]);
      MixBounds(current, sines, frameCount);
      Rendered(samples, Continue, ToneState(current, s.target, phase, true))
  }

  lemma MixBounds(current: seq<real>, sines: seq<seq<real>>, frameCount: nat)
    requires |current| == Channels && SinesOk(sines, frameCount)
    ensures forall t :: 0 <= t < frameCount ==>
              Abs(MixSample(current, sines, t, Channels)) <= ChannelAmplitude * ActiveCount(current, Channels) as real <= 1.0
  {
    forall t | 0 <= t < frameCount
      ensures Abs(MixSample(current, sines, t, Channels)) <= ChannelAmplitude * ActiveCount(current, Channels) as real
    {
      MixBound(current, sines, t, Channels);
    }
  }

  /** Setting targets is idempotent: a four-entry list passes through the padding unchanged, so
      setting the targets the generator already holds changes nothing. */
  lemma SetFrequenciesIdempotent(s: ToneState, fs: seq<real>)
    requires Valid(s)
    ensures PadOrTruncate(PadOrTruncate(fs)) == PadOrTruncate(fs)
    ensures SetFrequencies(SetFrequencies(s, fs), SetFrequencies(s, fs).target) == SetFrequencies(s, fs)
  {
    var p := PadOrTruncate(fs);
    assert PadOrTruncate(p) == p;
  }

  /** `start`: a no-op when already running, otherwise only the running flag is raised. */
  function Start(s: ToneState): (r: ToneState)
    ensures r.running
    ensures s.running ==> r == s
    ensures r.current == s.current && r.target == s.target && r.phase == s.phase
  {
    if s.running then s else s.(running := true)
  }

  /** `stop`: always clears the running flag and changes nothing else. */
  function Stop(s: ToneState): (r: ToneState)
    ensures !r.running
    ensures r.current == s.current && r.target == s.target && r.phase == s.phase
  {
    s.(running := false)
  }
}
