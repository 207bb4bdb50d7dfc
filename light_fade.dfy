/**
 * The light-colour fade run by the apartment director as a step machine. One
 * Step is one resumption of the coroutine: while the elapsed time is below the
 * duration it writes an interpolated colour and adds the frame time; once it is
 * not, it writes the target colour exactly and finishes.
 */
module Fading {

  import opened Engine

  /**
   * One fade: the start colour captured when it began, the target, the
   * duration, the elapsed time, the colour of the light it drives, and
   * whether the loop has exited.
   */
  datatype Fade = Fade(start: Color, target: Color, duration: real, time: real, light: Color, finished: bool)

  /** Frame times are never negative. */
  predicate NonNegative(dts: seq<real>)
  {
    forall i :: 0 <= i < |dts| ==> dts[i] >= 0.0
  }

  /** The total of a run of frame times. */
  function Sum(dts: seq<real>): (total: real)
    ensures NonNegative(dts) ==> total >= 0.0
  {
    if dts == [] then 0.0 else dts[0] + Sum(dts[1..])
  }

  /** One resumption of the fade loop, with the frame time `dt`. */
  function Step(f: Fade, dt: real): (r: Fade)
    requires f.time >= 0.0 && dt >= 0.0
    ensures r.start == f.start && r.target == f.target && r.duration == f.duration
    ensures r.time >= f.time
    ensures f.finished ==> r == f
    ensures r.finished && !f.finished ==> r.light == f.target
  {
    if f.finished then f
    else if f.time < f.duration then
      f.(light := Lerp(f.start, f.target, f.time / f.duration), time := f.time + dt)
    else
      f.(light := f.target, finished := true)
  }

  /** A fade about to enter its loop on a light of colour `c`: the start colour is `c`, no time has elapsed. */
  function Initial(c: Color, target: Color, duration: real): Fade
  {
    Fade(c, target, duration, 0.0, c, false)
  }

  /**
   * Starting a fade on a light of colour `c`: the start colour is captured,
   * and the loop runs once in the same frame. With a duration that is not
   * positive the loop body never runs and the light goes straight to the target.
   */
  function Begin(c: Color, target: Color, duration: real, dt: real): (r: Fade)
    requires dt >= 0.0
    ensures r.start == c && r.target == target && r.duration == duration
    ensures duration <= 0.0 ==> r.finished && r.light == target && r.time == 0.0
    ensures duration > 0.0 ==> !r.finished && r.time == dt && r.light == Lerp(c, target, 0.0)
  {
    Step(Initial(c, target, duration), dt)
  }

  /** Resuming the fade once per frame, with the given frame times. */
  function Run(f: Fade, dts: seq<real>): (r: Fade)
    requires f.time >= 0.0 && NonNegative(dts)
    ensures r.start == f.start && r.target == f.target && r.duration == f.duration
    ensures r.time >= f.time
    decreases |dts|
  {
    if dts == [] then f else Run(Step(f, dts[0]), dts[1..])
  }

  /** Once the loop has exited, further resumptions change nothing. */
  lemma {:induction false} RunAfterFinish(f: Fade, dts: seq<real>)
    requires f.time >= 0.0 && NonNegative(dts) && f.finished
    ensures Run(f, dts) == f
    decreases |dts|
  {
    if dts != [] {
      RunAfterFinish(Step(f, dts[0]), dts[1..]);
    }
  }

  /** When the loop has exited, the light holds the target colour exactly. */
  lemma {:induction false} RunSettlesOnTarget(f: Fade, dts: seq<real>)
    requires f.time >= 0.0 && NonNegative(dts)
    requires f.finished ==> f.light == f.target
    ensures Run(f, dts).finished ==> Run(f, dts).light == f.target
    decreases |dts|
  {
    if dts != [] {
      RunSettlesOnTarget(Step(f, dts[0]), dts[1..]);
    }
  }

  /** While the fade has not finished, its elapsed time is the sum of the frame times. */
  lemma {:induction false} RunTime(f: Fade, dts: seq<real>)
    requires f.time >= 0.0 && NonNegative(dts)
    ensures !Run(f, dts).finished ==> Run(f, dts).time == f.time + Sum(dts)
    decreases |dts|
  {
    if dts != [] {
      var g := Step(f, dts[0]);
      RunTime(g, dts[1..]);
      if g.finished {
        RunAfterFinish(g, dts[1..]);
      }
    }
  }

  /** Resuming over some frames and then one more is one further Step. */
  lemma {:induction false} RunThenStep(f: Fade, dts: seq<real>, dt: real)
    requires f.time >= 0.0 && NonNegative(dts) && dt >= 0.0
    ensures NonNegative(dts + [dt]) && Run(f, dts + [dt]) == Step(Run(f, dts), dt)
    decreases |dts|
  {
    assert NonNegative(dts + [dt]);
    if dts != [] {
      assert (dts + [dt])[0] == dts[0] && (dts + [dt])[1..] == dts[1..] + [dt];
      RunThenStep(Step(f, dts[0]), dts[1..], dt);
    }
  }

  /**
   * Along any run of a fade begun on colour `c` with a positive duration, a
   * resumption that is still inside the loop writes the interpolation at
   * parameter (elapsed time)/duration, where the elapsed time is the sum of
   * the earlier frame times, and that parameter lies in [0, 1).
   */
  lemma {:induction false} InLoopWrite(c: Color, target: Color, duration: real, dts: seq<real>, k: nat)
    requires NonNegative(dts) && k < |dts|
    requires !Run(Initial(c, target, duration), dts[..k]).finished && Run(Initial(c, target, duration), dts[..k]).time < duration
    ensures Run(Initial(c, target, duration), dts[..k]).time == Sum(dts[..k])
    ensures 0.0 <= Sum(dts[..k]) / duration < 1.0
    ensures Run(Initial(c, target, duration), dts[..k + 1]).light == Lerp(c, target, Sum(dts[..k]) / duration)
    ensures !Run(Initial(c, target, duration), dts[..k + 1]).finished
  {
    var f0, pre := Initial(c, target, duration), dts[..k];
    assert NonNegative(pre);
    var g := Run(f0, pre);
    RunTime(f0, pre);
    assert g.time == Sum(pre) && g.start == c && g.target == target && g.duration == duration;
    assert dts[..k + 1] == pre + [dts[k]];
    RunThenStep(f0, pre, dts[k]);
  }

  /**
   * The loop has exited after a run of frames exactly when the frame times
   * before the last resumption bring the elapsed time up to the duration.
   */
  lemma {:induction false} RunFinishedIff(f: Fade, dts: seq<real>)
    requires !f.finished && f.time >= 0.0 && NonNegative(dts) && dts != []
    ensures Run(f, dts).finished <==> f.time + Sum(dts[..|dts| - 1]) >= f.duration
    decreases |dts|
  {
    var g := Step(f, dts[0]);
    var rest := dts[1..];
    if f.time >= f.duration {
      RunAfterFinish(g, rest);
      assert NonNegative(dts[..|dts| - 1]);
    } else if rest == [] {
      assert dts[..|dts| - 1] == [];
    } else {
      RunFinishedIff(g, rest);
      var before := dts[..|dts| - 1];
      assert before[0] == dts[0] && before[1..] == rest[..|rest| - 1];
    }
  }

  /**
   * Whatever frame times are used, a fade started on a light of colour `c`
   * has exited its loop once the frame times before the last resumption add
   * up to the duration, not before, and then the light is at the target exactly.
   */
  lemma {:induction false} FadeConverges(c: Color, target: Color, duration: real, dts: seq<real>)
    requires NonNegative(dts) && dts != []
    ensures Run(Initial(c, target, duration), dts).finished <==> Sum(dts[..|dts| - 1]) >= duration
    ensures Run(Initial(c, target, duration), dts).finished ==> Run(Initial(c, target, duration), dts).light == target
  {
    RunFinishedIff(Initial(c, target, duration), dts);
    RunSettlesOnTarget(Initial(c, target, duration), dts);
  }

  /**
   * A running FadeLightColor coroutine: its parameters and locals as fields,
   * driving the colour of one light. Each frame the scheduler resumes it once.
   */
  class LightFade {
    const light: Light
    const start: Color
    const target: Color
    const duration: real
    var time: real
    var finished: bool

    ghost predicate Valid()
      reads this
    {
      time >= 0.0
    }

    /** The fade's state together with the current colour of its light. */
    function State(): Fade
      reads this, light
    {
      Fade(start, target, duration, time, light.color, finished)
    }

    /** Starts the coroutine: captures the light's colour and runs to the first yield, with frame time `dt`. */
    constructor Start(light: Light, targetColor: Color, duration: real, dt: real)
      requires dt >= 0.0
      modifies light
      ensures Valid() && this.light == light
      ensures State() == Begin(old(light.color), targetColor, duration, dt)
    {
      this.light := light;
      start := light.color;
      target := targetColor;
      this.duration := duration;
      time := 0.0;
      finished := false;
      new;
      Resume(dt);
    }

    /** One resumption of the loop in a later frame, with that frame's time `dt`. */
    method Resume(dt: real)
      requires Valid() && dt >= 0.0
      modifies this, light
      ensures Valid()
      ensures State() == Step(old(State()), dt)
    {
      if !finished {
        if time < duration {
          light.color := Lerp(start, target, time / duration);
          time := time + dt;
        } else {
          light.color := target;
          finished := true;
        }
      }
    }
  }
}
