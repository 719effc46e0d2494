/** The background music's volume fade: `fadeVolume` sets the start volume
    and arms an interval that moves the volume a twentieth of the way per
    firing, lands exactly on the end volume at the twentieth, stops, and
    pauses playback when the end volume is 0. Playback, autoplay and the
    click listener are not part of this model. */
module BackgroundMusic {
  import opened Easing

  const Steps: nat := 20

  /** The audio element's volume and paused flag, and the fade interval:
      whether it is armed, how many times it fired, and its endpoints. */
  datatype Fade = Fade(volume: real, paused: bool, armed: bool, step: nat, start: real, end: real)

  /** The volume after `k` firings of a fade from `start` to `end`. */
  function VolumeAt(start: real, end: real, k: nat): (v: real)
    ensures k == 0 ==> v == start
    ensures k >= Steps ==> v == end
    ensures Between(v, start, end)
  {
    if k >= Steps then end
    else
      var t := (k as real) / (Steps as real);
      LerpBetween(start, end, t);
      start + (end - start) / (Steps as real) * (k as real)
  }

  /** A twentieth of the way has the sign of the whole way. */
  lemma StepSign(d: real)
    ensures 0.0 <= d ==> 0.0 <= d / (Steps as real)
    ensures d <= 0.0 ==> d / (Steps as real) <= 0.0
  {
  }

  /** Each firing before the twentieth adds one twentieth of the way; later
      firings leave the volume at `end`. */
  lemma VolumeAtStep(start: real, end: real, k: nat)
    ensures VolumeAt(start, end, k + 1) ==
      if k < Steps then VolumeAt(start, end, k) + (end - start) / (Steps as real)
      else VolumeAt(start, end, k)
  {
    var w := (end - start) / (Steps as real);
    if k + 1 < Steps {
      assert w * ((k + 1) as real) == w * (k as real) + w;
    } else if k + 1 == Steps {
      assert w * (k as real) + w == w * (Steps as real) == end - start;
    }
  }

  /** Each firing moves the volume further toward `end`, never back. */
  lemma {:induction false} VolumeAtMonotone(start: real, end: real, j: nat, k: nat)
    requires j <= k
    ensures start <= end ==> VolumeAt(start, end, j) <= VolumeAt(start, end, k)
    ensures end <= start ==> VolumeAt(start, end, k) <= VolumeAt(start, end, j)
    decreases k - j
  {
    if j < k {
      VolumeAtMonotone(start, end, j, k - 1);
      VolumeAtStep(start, end, k - 1);
      StepSign(end - start);
    }
  }

  /** `fadeVolume(start, end, duration)`: any earlier interval is cleared, the
      volume is set to `start` and a fresh interval is armed. */
  function FadeStarted(f: Fade, start: real, end: real): (r: Fade)
    ensures r.volume == start && r.armed && r.step == 0
    ensures r.start == start && r.end == end && r.paused == f.paused
  {
    Fade(start, f.paused, true, 0, start, end)
  }

  /** One firing of the fade interval; a cleared interval never fires. */
  function Fired(f: Fade): (r: Fade)
    ensures !f.armed ==> r == f
    ensures f.armed ==> r.step == f.step + 1 && r.start == f.start && r.end == f.end
    ensures f.armed && r.step < Steps ==> r.armed && r.volume == VolumeAt(f.start, f.end, r.step) && r.paused == f.paused
    ensures f.armed && r.step >= Steps ==>
      !r.armed && r.volume == f.end && (r.paused <==> f.paused || f.end == 0.0)
  {
    if !f.armed then f
    else
      var currentStep := f.step + 1;
      if currentStep >= Steps then
        f.(step := currentStep, volume := f.end, armed := false, paused := f.paused || f.end == 0.0)
      else
        f.(step := currentStep, volume := f.start + (f.end - f.start) / (Steps as real) * (currentStep as real))
  }

  function FiredTimes(f: Fade, n: nat): Fade
    decreases n
  {
    if n == 0 then f else FiredTimes(Fired(f), n - 1)
  }

  /** Before the twentieth firing the fade is armed, on step `k`, at volume
      `start + k * (end - start) / 20`. */
  lemma {:induction false} FadeInProgress(f: Fade, start: real, end: real, k: nat)
    requires k < Steps
    ensures var r := FiredTimes(FadeStarted(f, start, end), k);
      r.armed && r.step == k && r.volume == VolumeAt(start, end, k) &&
      r.start == start && r.end == end && r.paused == f.paused
  {
    if k > 0 {
      FadeInProgress(f, start, end, k - 1);
      FiredTimesLast(FadeStarted(f, start, end), k - 1);
    }
  }

  lemma {:induction false} FiredTimesLast(f: Fade, n: nat)
    ensures FiredTimes(f, n + 1) == Fired(FiredTimes(f, n))
    decreases n
  {
    if n > 0 {
      FiredTimesLast(Fired(f), n - 1);
    }
  }

  lemma {:induction false} FiredTimesIdle(f: Fade, n: nat)
    requires !f.armed
    ensures FiredTimes(f, n) == f
    decreases n
  {
    if n > 0 {
      FiredTimesIdle(Fired(f), n - 1);
    }
  }

  /** From the twentieth firing on, the volume is exactly `end`, the interval
      is stopped, and playback is paused if and only if the fade went to 0
      (or it was paused already). */
  lemma FadeLandsOnEnd(f: Fade, start: real, end: real, n: nat)
    requires n >= Steps
    ensures var r := FiredTimes(FadeStarted(f, start, end), n);
      r.volume == end && !r.armed && (r.paused <==> f.paused || end == 0.0)
  {
    var g := FadeStarted(f, start, end);
    FadeInProgress(f, start, end, Steps - 1);
    FiredTimesLast(g, Steps - 1);
    var done := FiredTimes(g, Steps);
    FiredTimesIdle(done, n - Steps);
    FiredTimesSplit(g, Steps, n - Steps);
  }

  lemma {:induction false} FiredTimesSplit(f: Fade, m: nat, n: nat)
    ensures FiredTimes(f, m + n) == FiredTimes(FiredTimes(f, m), n)
    decreases m
  {
    if m > 0 {
      FiredTimesSplit(Fired(f), m - 1, n);
    }
  }

  /** The music component's audio element and fade interval. */
  class VolumeFader {
    const hasAudio: bool
    var volume: real
    var paused: bool
    var fadeInterval: bool
    var currentStep: nat
    var start: real
    var end: real
    var stepTime: real

    function State(): Fade
      reads this
    {
      Fade(volume, paused, fadeInterval, currentStep, start, end)
    }

    constructor (hasAudio: bool, volume: real, paused: bool)
      ensures this.hasAudio == hasAudio && this.volume == volume && this.paused == paused
      ensures !fadeInterval
    {
      this.hasAudio := hasAudio;
      this.volume := volume;
      this.paused := paused;
      fadeInterval := false;
      currentStep := 0;
      start := 0.0;
      end := 0.0;
      stepTime := 0.0;
    }

    /** `fadeVolume`: without an audio element nothing happens. */
    method FadeVolume(start: real, end: real, duration: real)
      modifies this
      ensures !hasAudio ==> State() == old(State()) && stepTime == old(stepTime)
      ensures hasAudio ==> State() == FadeStarted(old(State()), start, end) && stepTime == duration / (Steps as real)
    {
      if !hasAudio {
        return;
      }
      stepTime := duration / (Steps as real);
      currentStep := 0;
      fadeInterval := false;
      volume := start;
      this.start, this.end := start, end;
      fadeInterval := true;
    }

    /** One firing of the fade interval. */
    method IntervalFires()
      modifies this
      ensures State() == Fired(old(State())) && stepTime == old(stepTime)
    {
      if !fadeInterval {
        return;
      }
      currentStep := currentStep + 1;
      var newVolume := start + (end - start) / (Steps as real) * (currentStep as real);
      if currentStep >= Steps {
        volume := end;
        fadeInterval := false;
        if end == 0.0 {
          paused := true;
        }
        return;
      }
      volume := newVolume;
    }
  }
}
