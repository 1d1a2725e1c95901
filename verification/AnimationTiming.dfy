/**
 * Which source frame of an animation is shown when, and for how long: thirty samples a second, kept as runs
 * (ios/FamilyConnect/Core/AnimationTiming.swift).
 */
module AnimationTiming {
  import opened Wrappers

  const TICKS_PER_SECOND := 30
  const SHORTEST_FRAME_MS := 10
  const DEFAULT_FRAME_MS := 100
  const UINT32_MAX := 0xFFFF_FFFF

  datatype Sample = Sample(frame: nat, ticks: nat)

  /** The timing half of a plan. */
  datatype Plan = Plan(samples: seq<Sample>, totalTicks: nat, durationMS: int)

  function FrameDuration(statedMS: int): (ms: nat)
    ensures ms > SHORTEST_FRAME_MS
  {
    if statedMS <= SHORTEST_FRAME_MS then DEFAULT_FRAME_MS else statedMS
  }

  /** How long each frame is shown; a negative stated length counts as 0. */
  function Durations(stated: seq<int>): (d: seq<nat>)
    ensures |d| == |stated| && forall i | 0 <= i < |d| :: d[i] > 0
  {
    seq(|stated|, i requires 0 <= i < |stated| => FrameDuration(Max(stated[i], 0)))
  }

  /** Where frame i starts, in milliseconds; the end of the last for i = |d|. */
  function Start(d: seq<nat>, i: nat): nat
    requires i <= |d|
  {
    if i == 0 then 0 else Start(d, i - 1) + d[i - 1]
  }

  function TotalTicks(d: seq<nat>): nat {
    Max((Start(d, |d|) * TICKS_PER_SECOND + 999) / 1000, 1)
  }

  // ---- the rule a plan is held to --------------------------------------------------------------

  /** The frame showing at an instant of the grid: it has started, and the next has not. */
  ghost predicate Shows(d: seq<nat>, tick: nat, i: nat) {
    && i < |d| && Start(d, i) * TICKS_PER_SECOND <= tick * 1000
    && (i + 1 < |d| ==> tick * 1000 < Start(d, i + 1) * TICKS_PER_SECOND)
  }

  function Repeated(frame: nat, ticks: nat): (s: seq<nat>)
    ensures |s| == ticks && forall t | 0 <= t < ticks :: s[t] == frame
  {
    seq(ticks, t => frame)
  }

  /** A plan played back, one frame a tick. */
  function Played(samples: seq<Sample>): seq<nat>
    decreases |samples|
  {
    if samples == [] then []
    else
      var n := |samples| - 1;
      Played(samples[..n]) + Repeated(samples[n].frame, samples[n].ticks)
  }

  ghost predicate FollowsTheRule(d: seq<nat>, frames: seq<nat>) {
    forall t | 0 <= t < |frames| :: Shows(d, t, frames[t])
  }

  ghost predicate Runs(samples: seq<Sample>) {
    && (forall k | 0 <= k < |samples| :: samples[k].ticks >= 1)
    && forall j, k | 0 <= j < k < |samples| :: samples[j].frame < samples[k].frame
  }

  lemma PlayedMore(samples: seq<Sample>, s: Sample)
    ensures Played(samples + [s]) == Played(samples) + Repeated(s.frame, s.ticks)
  {
    assert (samples + [s])[..|samples|] == samples;
  }

  lemma {:induction false} StartsGrow(d: seq<nat>, i: nat, j: nat)
    requires i <= j <= |d|
    ensures Start(d, i) <= Start(d, j)
    decreases j
  {
    if i < j {
      StartsGrow(d, i, j - 1);
    }
  }

  // ---- the plan --------------------------------------------------------------------------------

  /** Where each frame starts, and where the last ends. */
  method Starts(stated: seq<int>) returns (starts: seq<nat>, total: nat)
    ensures var d := Durations(stated);
      && |starts| == |d| && (forall i | 0 <= i < |d| :: starts[i] == Start(d, i))
      && total == Start(d, |d|)
  {
    ghost var d := Durations(stated);
    starts, total := [], 0;
    for k := 0 to |stated|
      invariant |starts| == k && total == Start(d, k)
      invariant forall i | 0 <= i < k :: starts[i] == Start(d, i)
    {
      assert d[k] == FrameDuration(Max(stated[k], 0));
      starts := starts + [total];
      total := total + FrameDuration(Max(stated[k], 0));
      assert total == Start(d, k + 1);
    }
  }

  /** The last frame that has started by a tick, looked for from one that had started by the tick before. */
  method LastStarted(starts: seq<nat>, tick: nat, from: nat, ghost d: seq<nat>) returns (frame: nat)
    requires |starts| == |d| && (forall i | 0 <= i < |d| :: starts[i] == Start(d, i)) && from < |d|
    requires from == 0 || Start(d, from) * TICKS_PER_SECOND <= tick * 1000
    ensures from <= frame && Shows(d, tick, frame)
  {
    frame := from;
    while frame + 1 < |starts| && starts[frame + 1] * TICKS_PER_SECOND <= tick * 1000
      invariant from <= frame < |starts|
      invariant frame == 0 || Start(d, frame) * TICKS_PER_SECOND <= tick * 1000
    {
      frame := frame + 1;
    }
  }

  /** What the runs so far play, the one still open included. */
  function SoFar(samples: seq<Sample>, frame: nat, ticks: nat): seq<nat> {
    Played(samples) + Repeated(frame, ticks)
  }

  lemma OneMoreTick(samples: seq<Sample>, frame: nat, ticks: nat)
    ensures SoFar(samples, frame, ticks + 1) == SoFar(samples, frame, ticks) + [frame]
  {
    assert Repeated(frame, ticks + 1) == Repeated(frame, ticks) + [frame];
  }

  lemma NewRun(samples: seq<Sample>, frame: nat, ticks: nat, next: nat)
    ensures SoFar(samples + [Sample(frame, ticks)], next, 1) == SoFar(samples, frame, ticks) + [next]
  {
    PlayedMore(samples, Sample(frame, ticks));
    assert Repeated(next, 1) == [next];
  }

  lemma RuleGoesOn(d: seq<nat>, frames: seq<nat>, frame: nat)
    requires FollowsTheRule(d, frames) && Shows(d, |frames|, frame)
    ensures FollowsTheRule(d, frames + [frame])
  {
  }

  lemma RunsGoOn(samples: seq<Sample>, s: Sample)
    requires Runs(samples) && s.ticks >= 1 && forall k | 0 <= k < |samples| :: samples[k].frame < s.frame
    ensures Runs(samples + [s])
    ensures forall k | 0 <= k < |samples + [s]| :: (samples + [s])[k].frame <= s.frame
  {
  }

  /** Finished runs with one still open, after the frame of its last. */
  ghost predicate OpenRun(samples: seq<Sample>, frame: nat, ticks: nat) {
    Runs(samples) && ticks >= 1 && forall k | 0 <= k < |samples| :: samples[k].frame < frame
  }

  /** One more tick: the open run a tick longer, or closed and another begun. */
  method OneTick(samples: seq<Sample>, runFrame: nat, runTicks: nat, frame: nat)
    returns (samples': seq<Sample>, runFrame': nat, runTicks': nat)
    requires OpenRun(samples, runFrame, runTicks) && runFrame <= frame
    ensures OpenRun(samples', runFrame', runTicks') && runFrame' == frame
    ensures SoFar(samples', runFrame', runTicks') == SoFar(samples, runFrame, runTicks) + [frame]
  {
    if runFrame == frame {
      OneMoreTick(samples, runFrame, runTicks);
      return samples, runFrame, runTicks + 1;
    }
    NewRun(samples, runFrame, runTicks, frame);
    RunsGoOn(samples, Sample(runFrame, runTicks));
    return samples + [Sample(runFrame, runTicks)], frame, 1;
  }

  /** The ticks in a row that show the same frame, as one run each. */
  method SampleTicks(starts: seq<nat>, totalTicks: nat, ghost d: seq<nat>) returns (samples: seq<Sample>)
    requires |starts| == |d| && (forall i | 0 <= i < |d| :: starts[i] == Start(d, i)) && d != [] && totalTicks > 0
    ensures Runs(samples) && |Played(samples)| == totalTicks && FollowsTheRule(d, Played(samples))
  {
    var frame := LastStarted(starts, 0, 0, d);
    var runFrame, runTicks := frame, 1;
    samples := [];
    ghost var played := [frame];
    for tick := 1 to totalTicks
      invariant OpenRun(samples, runFrame, runTicks) && runFrame == frame && Shows(d, tick - 1, frame)
      invariant played == SoFar(samples, runFrame, runTicks) && |played| == tick && FollowsTheRule(d, played)
    {
      frame := LastStarted(starts, tick, frame, d);
      samples, runFrame, runTicks := OneTick(samples, runFrame, runTicks, frame);
      RuleGoesOn(d, played, frame);
      played := played + [frame];
    }
    PlayedMore(samples, Sample(runFrame, runTicks));
    RunsGoOn(samples, Sample(runFrame, runTicks));
    samples := samples + [Sample(runFrame, runTicks)];
  }

  /** The run-length plan of the frames' stated lengths; none for no frame, or past a 32-bit tick count. */
  method MakePlan(stated: seq<int>) returns (plan: Option<Plan>)
    ensures plan.Some? <==> stated != [] && TotalTicks(Durations(stated)) <= UINT32_MAX
    ensures plan.Some? ==>
      && plan.value.totalTicks == TotalTicks(Durations(stated))
      && Runs(plan.value.samples)
      && |Played(plan.value.samples)| == plan.value.totalTicks
      && FollowsTheRule(Durations(stated), Played(plan.value.samples))
      && 60 * plan.value.durationMS <= 2000 * plan.value.totalTicks + 30 < 60 * (plan.value.durationMS + 1)
  {
    if stated == [] {
      return None;
    }
    var starts, total := Starts(stated);
    var totalTicks: nat := Max((total * TICKS_PER_SECOND + 999) / 1000, 1);
    if totalTicks > UINT32_MAX {
      return None;
    }
    var samples := SampleTicks(starts, totalTicks, Durations(stated));
    plan := Some(Plan(samples, totalTicks, (2 * totalTicks * 1000 + TICKS_PER_SECOND) / (2 * TICKS_PER_SECOND)));
  }

  // ---- what the rule comes to ------------------------------------------------------------------

  /** The first tick at or after an instant. */
  function FirstTick(ms: nat): nat {
    (ms * TICKS_PER_SECOND + 999) / 1000
  }

  function Count(frames: seq<nat>, i: nat): nat
    decreases |frames|
  {
    if frames == [] then 0
    else Count(frames[..|frames| - 1], i) + if frames[|frames| - 1] == i then 1 else 0
  }

  /** How many ticks a plan gives a frame. */
  function TicksOf(samples: seq<Sample>, i: nat): nat
    decreases |samples|
  {
    if samples == [] then 0
    else
      var n := |samples| - 1;
      TicksOf(samples[..n], i) + if samples[n].frame == i then samples[n].ticks else 0
  }

  lemma {:induction false} CountAdds(a: seq<nat>, b: seq<nat>, i: nat)
    ensures Count(a + b, i) == Count(a, i) + Count(b, i)
    decreases |b|
  {
    if b == [] {
      assert a + b == a;
    } else {
      CountAdds(a, b[..|b| - 1], i);
      assert (a + b)[..|a + b| - 1] == a + b[..|b| - 1];
    }
  }

  lemma {:induction false} CountRepeated(frame: nat, ticks: nat, i: nat)
    ensures Count(Repeated(frame, ticks), i) == if frame == i then ticks else 0
    decreases ticks
  {
    if ticks > 0 {
      CountRepeated(frame, ticks - 1, i);
      assert Repeated(frame, ticks)[..ticks - 1] == Repeated(frame, ticks - 1);
    }
  }

  lemma {:induction false} TicksAreCounted(samples: seq<Sample>, i: nat)
    ensures TicksOf(samples, i) == Count(Played(samples), i)
    decreases |samples|
  {
    if samples != [] {
      var n := |samples| - 1;
      TicksAreCounted(samples[..n], i);
      CountAdds(Played(samples[..n]), Repeated(samples[n].frame, samples[n].ticks), i);
      CountRepeated(samples[n].frame, samples[n].ticks, i);
    }
  }

  /** A value taken on one stretch and nowhere else is counted by its length. */
  lemma {:induction false} CountStretch(frames: seq<nat>, i: nat, lo: nat, hi: nat)
    requires lo <= hi
    requires forall t | 0 <= t < |frames| :: frames[t] == i <==> lo <= t < hi
    ensures Count(frames, i) == (if |frames| <= lo then 0 else if |frames| <= hi then |frames| - lo else hi - lo)
    decreases |frames|
  {
    if frames != [] {
      CountStretch(frames[..|frames| - 1], i, lo, hi);
    }
  }

  lemma ShowsExactlyBetween(d: seq<nat>, tick: nat, j: nat, i: nat)
    requires Shows(d, tick, j) && i < |d| && tick < FirstTick(Start(d, |d|))
    ensures j == i <==> FirstTick(Start(d, i)) <= tick < FirstTick(Start(d, i + 1))
  {
    if j < i {
      StartsGrow(d, j + 1, i);
    } else if i < j {
      StartsGrow(d, i + 1, j);
    } else if i + 1 == |d| {
      assert tick < FirstTick(Start(d, i + 1));
    }
  }

  /** EACH FRAME is shown for exactly the ticks that fall within it. */
  lemma FrameTicksExactly(d: seq<nat>, samples: seq<Sample>, i: nat)
    requires (forall k | 0 <= k < |d| :: d[k] > 0) && i < |d|
    requires |Played(samples)| == TotalTicks(d) && FollowsTheRule(d, Played(samples))
    ensures TicksOf(samples, i) == FirstTick(Start(d, i + 1)) - FirstTick(Start(d, i))
  {
    var frames := Played(samples);
    StartsGrow(d, i + 1, |d|);
    StartsGrow(d, i, i + 1);
    StartsGrow(d, 1, |d|);
    assert Start(d, 1) == Start(d, 0) + d[0];
    assert |frames| == FirstTick(Start(d, |d|));
    forall t | 0 <= t < |frames|
      ensures frames[t] == i <==> FirstTick(Start(d, i)) <= t < FirstTick(Start(d, i + 1))
    {
      ShowsExactlyBetween(d, t, frames[t], i);
    }
    CountStretch(frames, i, FirstTick(Start(d, i)), FirstTick(Start(d, i + 1)));
    TicksAreCounted(samples, i);
  }

  /** Within one tick of its exact share; never skipped from 34 ms up; and the clip overshoots its source by less than a tick. */
  lemma SharesAreFair(d: seq<nat>, samples: seq<Sample>, i: nat)
    requires (forall k | 0 <= k < |d| :: d[k] > 0) && i < |d|
    requires |Played(samples)| == TotalTicks(d) && FollowsTheRule(d, Played(samples))
    ensures 3 * d[i] - 100 < 100 * TicksOf(samples, i) < 3 * d[i] + 100
    ensures d[i] >= 34 ==> TicksOf(samples, i) >= 1
    ensures 0 <= 100 * TotalTicks(d) - 3 * Start(d, |d|) < 100
  {
    FrameTicksExactly(d, samples, i);
    StartsGrow(d, 1, |d|);
    assert Start(d, 1) == Start(d, 0) + d[0];
    assert Start(d, i + 1) == Start(d, i) + d[i];
  }

  // ---- stated delays ---------------------------------------------------------------------------

  function GifDelay(centiseconds: nat): nat {
    centiseconds * 10
  }

  /** num / den seconds in whole milliseconds, a den of 0 meaning hundredths. */
  function ApngDelay(num: nat, den: nat): nat {
    var den := if den == 0 then 100 else den;
    (2 * num * 1000 + den) / (2 * den)
  }

  /** Rounded half up: within half a millisecond, the half going up. */
  lemma ApngDelayRounds(num: nat, den: nat)
    ensures var unit := if den == 0 then 100 else den; var ms := ApngDelay(num, den);
      2 * unit * ms - unit <= 2000 * num < 2 * unit * ms + unit
  {
    var unit := if den == 0 then 100 else den;
    var top := 2 * num * 1000 + unit;
    assert top == (top / (2 * unit)) * (2 * unit) + top % (2 * unit);
  }
}
