/**
 * What holds of every run of the call state machine: candidates, descriptions, ends, ringback, foreign frames, and
 * the frames that follow an end.
 */
module CallLaws {
  import opened Wrappers
  import opened Calls
  import opened CallSteps
  import opened CallEnds

  // ---- whole runs ------------------------------------------------------------------------------

  lemma {:induction false} RunKeeps(w: World, steps: seq<Step>)
    requires Inv(w) && Runs(w, steps)
    ensures Inv(After(w, steps))
    decreases |steps|
  {
    if steps != [] {
      StepKeeps(w, steps[0]);
      RunKeeps(Do(w, steps[0]), steps[1..]);
    }
  }

  /** Where a tally says no candidate went first, an offer or an answer stands before each. */
  lemma {:induction false} OrderedMeans(frames: seq<Frame>, i: nat)
    requires Tallied(frames).ordered && i < |frames| && frames[i].IceFrame?
    ensures exists j | 0 <= j < i :: frames[j].OfferFrame? || frames[j].AnswerFrame?
    decreases |frames|
  {
    var n := |frames| - 1;
    var before := frames[..n];
    if i < n {
      assert before[i] == frames[i];
      OrderedMeans(before, i);
      var j :| 0 <= j < i && (before[j].OfferFrame? || before[j].AnswerFrame?);
      assert frames[j] == before[j];
    } else {
      var j := FirstSaid(before);
      assert frames[j] == before[j];
    }
  }

  lemma {:induction false} FirstSaid(frames: seq<Frame>) returns (j: nat)
    requires Tallied(frames).offers + Tallied(frames).answers > 0
    ensures j < |frames| && (frames[j].OfferFrame? || frames[j].AnswerFrame?)
    decreases |frames|
  {
    j := |frames| - 1;
    if !(frames[j].OfferFrame? || frames[j].AnswerFrame?) {
      j := FirstSaid(frames[..j]);
    }
  }

  /**
   * EVERY CALL, in every interleaving: its media's candidates go out each once and in the order they were
   * gathered, only after its offer or answer; the far side's reach its media each once and in order, only
   * after the one remote description; it opens one media client, offers or answers once, and up to its end
   * it says one end at most.
   */
  lemma EveryCallIsOrderly(steps: seq<Step>, id: int)
    requires Runs(Made(), steps) && id in After(Made(), steps).calls
    ensures var h := After(Made(), steps).calls[id]; var t := Tallied(h.frames);
      && t.ices <= h.gathered
      && (forall i | 0 <= i < |h.frames| && h.frames[i].IceFrame? ::
            exists j | 0 <= j < i :: h.frames[j].OfferFrame? || h.frames[j].AnswerFrame?)
      && h.fed <= h.arrived && (h.fed != [] ==> h.described == 1) && h.described <= 1 && h.opens <= 1
      && t.offers + t.answers <= 1 && (h.incoming ==> t.offers == 0) && (!h.incoming ==> t.answers == 0)
      && (h.over.None? ==> t.ends == 0)
      && (h.over.Some? ==> h.over.value <= |h.frames| && Tallied(h.frames[..h.over.value]).ends <= 1)
  {
    RunKeeps(Made(), steps);
    var w := After(Made(), steps);
    var h := w.calls[id];
    assert Orderly(h);
    forall i | 0 <= i < |h.frames| && h.frames[i].IceFrame?
      ensures exists j | 0 <= j < i :: h.frames[j].OfferFrame? || h.frames[j].AnswerFrame?
    {
      OrderedMeans(h.frames, i);
    }
  }

  /**
   * THE LIVE CALL loses nothing: candidates gathered are all out once the offer or answer is, candidates
   * arrived are all given once the remote description is set; and a call answered here — push, offer and
   * accept in whatever order and however often they came — is being answered, or has been exactly once.
   */
  lemma LiveCallLosesNothing(steps: seq<Step>)
    requires Runs(Made(), steps) && !IsIdle(After(Made(), steps).phase)
    ensures var w := After(Made(), steps);
      && w.call.Some? && w.call.value in w.calls
      && var id := w.call.value; var h := w.calls[id]; var t := Tallied(h.frames);
      && (if w.localSent then t.ices == h.gathered && t.offers + t.answers == 1 else t.ices == [] && w.localBuffer == h.gathered)
      && (if w.remoteSet then h.fed == h.arrived && h.described == 1 else h.fed == [] && w.remoteBuffer == h.arrived)
      && (w.incoming && w.accepted && w.offer && id !in w.work ==> t.answers == 1 && h.described == 1)
      && (w.incoming && id in w.work ==> w.work[id].Answering? && w.accepted && w.offer)
  {
    RunKeeps(Made(), steps);
    var w := After(Made(), steps);
    var id := w.call.value;
    assert Current(w, id, w.calls[id]) && AnsweredOnce(w, id, w.calls[id]);
  }

  /** The ringback sounds in exactly the one phase in which somebody else's phone is ringing. */
  lemma RingbackFollowsThePhase(steps: seq<Step>)
    requires Runs(Made(), steps)
    ensures var w := After(Made(), steps); w.sounding <==> w.phase == Outgoing(true)
  {
    RunKeeps(Made(), steps);
  }

  /** Hanging up leaves any live call at once, media and clock with it, and says one end: cancel, decline or hangup by the phase. */
  lemma HangUpAlwaysLeaves(w: World, id: int)
    requires Inv(w) && !IsIdle(w.phase) && w.call == Some(id)
    ensures Enabled(w, HangUp)
    ensures var v := Do(w, HangUp);
      && v.phase == Ended(EndReason(w.phase)) && v.media.None? && v.guard.None? && !v.sounding && id in v.recent
      && id in w.calls && v.calls == w.calls[id := v.calls[id]]
      && v.calls[id].frames == w.calls[id].frames + [EndFrame(EndReason(w.phase))]
    ensures Tallied(Do(w, HangUp).calls[id].frames).ends == 1
  {
    assert Orderly(w.calls[id]) && Phased(w, id, w.calls[id]);
    RememberedHolds(w.recent, id);
    OneMore(w.calls[id].frames, EndFrame(EndReason(w.phase)));
  }

  /** Frames of another call change nothing: not while one is live, and not for one remembered as ended. */
  lemma ForeignFramesChangeNothing(w: World, step: Step, id: int)
    requires Inv(w) && Enabled(w, step) && w.call != Some(id)
    requires step in {HearRinging(id), HearAnswer(id), HearOffer(id), Push(id)}
      || (step.HearIce? && step.id == id) || (step.HearEnd? && step.id == id) || (step.HearError? && step.id == id)
    ensures Do(w, step) == w <==> (!(step.HearOffer? || step.Push?) || !IsIdle(w.phase) || id in w.recent)
  {
    if step.HearOffer? || step.Push? {
      assert Do(w, step) == w || Do(w, step).call == Some(id);
    }
  }

  /** THE LINGER: of the frames for a call just ended exactly two still change something — a candidate, and the first offer of a call only a push announced. */
  lemma EndedCallStillHears(w: World, step: Step, id: int)
    requires Inv(w) && Enabled(w, step) && w.phase.Ended? && w.call == Some(id)
    requires step in {HearRinging(id), HearAnswer(id), HearOffer(id), Push(id)}
      || (step.HearIce? && step.id == id) || (step.HearEnd? && step.id == id) || (step.HearError? && step.id == id)
    ensures Do(w, step) == w <==> !(step.HearIce? || (step.HearOffer? && w.incoming && !w.offer))
  {
    if step.HearIce? {
      assert |Do(w, step).calls[id].arrived| == |w.calls[id].arrived| + 1;
    }
  }

  // ---- silence after the end --------------------------------------------------------------------

  lemma QuietStep(w: World, step: Step)
    requires Inv(w) && Enabled(w, step) && Quiet(w)
    ensures Quiet(Do(w, step)) <==> !Late(w, step)
  {
    var v := Do(w, step);
    StepAdds(w, step);
    if Late(w, step) {
      var id := w.call.value;
      assert Phased(w, id, w.calls[id]);
      assert v.calls[id].over.Some? && v.calls[id].over.value < |v.calls[id].frames|;
    } else {
      forall id | id in v.calls && v.calls[id].over.Some?
        ensures v.calls[id].over.value == |v.calls[id].frames|
      {
        assert id in w.calls;
        assert w.call != Some(id) ==> v.calls[id] == w.calls[id];
      }
    }
  }

  lemma LoudStays(w: World, step: Step)
    requires Inv(w) && Enabled(w, step) && !Quiet(w)
    ensures !Quiet(Do(w, step))
  {
    var v := Do(w, step);
    StepAdds(w, step);
    var id :| id in w.calls && w.calls[id].over.Some? && w.calls[id].over.value != |w.calls[id].frames|;
    if w.call == Some(id) {
      assert Current(w, id, w.calls[id]);
    }
    assert w.calls[id].over.value < |w.calls[id].frames| by {
      assert Orderly(w.calls[id]);
    }
    assert v.calls[id].over == w.calls[id].over && |v.calls[id].frames| >= |w.calls[id].frames|;
  }

  /** Some step of the run spoke for a call already over. */
  ghost predicate SpeaksLate(w: World, steps: seq<Step>)
    requires Runs(w, steps)
    decreases |steps|
  {
    steps != [] && (Late(w, steps[0]) || SpeaksLate(Do(w, steps[0]), steps[1..]))
  }

  lemma {:induction false} LoudRun(w: World, steps: seq<Step>)
    requires Inv(w) && Runs(w, steps) && !Quiet(w)
    ensures !Quiet(After(w, steps))
    decreases |steps|
  {
    if steps != [] {
      StepKeeps(w, steps[0]);
      LoudStays(w, steps[0]);
      LoudRun(Do(w, steps[0]), steps[1..]);
    }
  }

  lemma {:induction false} QuietRun(w: World, steps: seq<Step>)
    requires Inv(w) && Runs(w, steps) && Quiet(w)
    ensures Quiet(After(w, steps)) <==> !SpeaksLate(w, steps)
    decreases |steps|
  {
    if steps != [] {
      var v := Do(w, steps[0]);
      StepKeeps(w, steps[0]);
      QuietStep(w, steps[0]);
      if Late(w, steps[0]) {
        LoudRun(v, steps[1..]);
      } else {
        QuietRun(v, steps[1..]);
      }
    }
  }

  /** EXACTLY WHEN a call says nothing after its end — no second end, none after the far side's, no offer or answer for a call hung up: in the runs where no step speaks late. */
  lemma NothingAfterTheEndExactly(steps: seq<Step>)
    requires Runs(Made(), steps)
    ensures Quiet(After(Made(), steps)) <==> !SpeaksLate(Made(), steps)
  {
    QuietRun(Made(), steps);
  }

  // ---- what the missing check would be ---------------------------------------------------------

  /** A continuation of the call at hand that finds it ended, its reason still on screen. */
  predicate TooLate(w: World, step: Step) {
    w.phase.Ended? && (step.Resume? || step.Applied?) && w.call == Some(step.id)
  }

  /** The machine with a check of the phase beside the id at each resumption: one that comes too late stops there. */
  ghost function CheckedDo(w: World, step: Step): World
    requires Enabled(w, step)
  {
    if !TooLate(w, step) then Do(w, step)
    else if step.Resume? then w.(work := Without(w.work, step.id))
    else w.(applying := w.applying - {step.id})
  }

  ghost predicate CheckedRuns(w: World, steps: seq<Step>)
    decreases |steps|
  {
    steps == [] || (Enabled(w, steps[0]) && CheckedRuns(CheckedDo(w, steps[0]), steps[1..]))
  }

  ghost function CheckedAfter(w: World, steps: seq<Step>): World
    requires CheckedRuns(w, steps)
    decreases |steps|
  {
    if steps == [] then w else CheckedAfter(CheckedDo(w, steps[0]), steps[1..])
  }

  ghost predicate ClosedWhenEnded(w: World) {
    w.phase.Ended? ==> w.media.None?
  }

  lemma PlacedCloses(w: World, id: int, stage: Stage, ok: bool)
    requires id in w.calls && ClosedWhenEnded(w)
    requires w.phase.Ended? ==> w.call != Some(id)
    ensures ClosedWhenEnded(Placed(w, id, stage, ok))
  {
  }

  lemma AnsweredCloses(w: World, id: int, stage: Stage, ok: bool)
    requires id in w.calls && ClosedWhenEnded(w)
    requires w.phase.Ended? ==> w.call != Some(id)
    ensures ClosedWhenEnded(Answered(w, id, stage, ok))
  {
  }

  lemma HearingCloses(w: World, step: Step)
    requires Inv(w) && Enabled(w, step) && ClosedWhenEnded(w)
    requires step.Start? || step.Push? || step.HearOffer? || step.HearRinging? || step.HearAnswer? || step.HearIce? || step.Gathered?
    ensures ClosedWhenEnded(Do(w, step))
  {
  }

  lemma EndingCloses(w: World, step: Step)
    requires Inv(w) && Enabled(w, step) && ClosedWhenEnded(w)
    requires step.HearEnd? || step.HearError? || step.DeclineIt? || step.HangUp? || step.MediaFailed? || step.GuardFires?
    ensures ClosedWhenEnded(Do(w, step))
  {
  }

  lemma OtherCloses(w: World, step: Step)
    requires Inv(w) && Enabled(w, step) && ClosedWhenEnded(w)
    requires step.Accept? || step.Connected? || step.LingerFires? || step.Applied?
    ensures ClosedWhenEnded(Do(w, step))
  {
  }

  lemma PromptStep(w: World, step: Step)
    requires Inv(w) && Enabled(w, step) && ClosedWhenEnded(w)
    requires !TooLate(w, step)
    ensures ClosedWhenEnded(Do(w, step))
    ensures !Late(w, step)
  {
    if step.Resume? {
      match w.work[step.id] {
        case Placing(stage) => PlacedCloses(w, step.id, stage, step.ok);
        case Answering(stage) => AnsweredCloses(w, step.id, stage, step.ok);
      }
    } else if step.Start? || step.Push? || step.HearOffer? || step.HearRinging? || step.HearAnswer? || step.HearIce? || step.Gathered? {
      HearingCloses(w, step);
    } else if step.Accept? || step.Connected? || step.LingerFires? || step.Applied? {
      OtherCloses(w, step);
    } else {
      EndingCloses(w, step);
    }
  }

  /** A continuation that stops because it is too late leaves the call's history alone. */
  lemma StoppedKeeps(w: World, step: Step)
    requires Inv(w) && Enabled(w, step) && TooLate(w, step)
    ensures Inv(CheckedDo(w, step)) && CheckedDo(w, step).calls == w.calls && CheckedDo(w, step).media == w.media
  {
    if step.Resume? {
      GaveUpLate(w, step.id);
    } else {
      var v := CheckedDo(w, step);
      var h := w.calls[step.id];
      assert Current(w, step.id, h);
      assert Wired(v, h) && Fed(v, h) && Phased(v, step.id, h) && Progress(v, step.id, h);
      OnlyTheCall(w, v, step.id);
    }
  }

  lemma CheckedStepIsQuiet(w: World, step: Step)
    requires Inv(w) && Enabled(w, step) && ClosedWhenEnded(w) && Quiet(w)
    ensures var v := CheckedDo(w, step); Inv(v) && ClosedWhenEnded(v) && Quiet(v)
  {
    if TooLate(w, step) {
      StoppedKeeps(w, step);
    } else {
      StepKeeps(w, step);
      PromptStep(w, step);
      QuietStep(w, step);
    }
  }

  lemma {:induction false} CheckedRunKeeps(w: World, steps: seq<Step>)
    requires Inv(w) && CheckedRuns(w, steps) && ClosedWhenEnded(w) && Quiet(w)
    ensures ClosedWhenEnded(CheckedAfter(w, steps)) && Quiet(CheckedAfter(w, steps))
    decreases |steps|
  {
    if steps != [] {
      CheckedStepIsQuiet(w, steps[0]);
      CheckedRunKeeps(CheckedDo(w, steps[0]), steps[1..]);
    }
  }

  /** WITH THAT CHECK, in every run and every interleaving: no call says anything after its end, and no media client outlives its call. */
  lemma CheckedRunsAreQuiet(steps: seq<Step>)
    requires CheckedRuns(Made(), steps)
    ensures Quiet(CheckedAfter(Made(), steps)) && ClosedWhenEnded(CheckedAfter(Made(), steps))
  {
    CheckedRunKeeps(Made(), steps);
  }

  /** An active call has no clock running. */
  ghost predicate Unclocked(w: World) {
    w.phase.Active? ==> w.guard.None?
  }

  lemma PlacedClock(w: World, id: int, stage: Stage, ok: bool)
    requires Inv(w) && id in w.work && w.work[id] == Placing(stage) && Unclocked(w)
    ensures Unclocked(Placed(w, id, stage, ok)) <==> !(w.phase.Active? && w.call == Some(id) && stage == Sending && ok)
  {
    if w.call == Some(id) {
      assert Progress(w, id, w.calls[id]);
    }
  }

  lemma AnsweredClock(w: World, id: int, stage: Stage, ok: bool)
    requires Inv(w) && id in w.work && w.work[id] == Answering(stage) && Unclocked(w)
    ensures Unclocked(Answered(w, id, stage, ok))
  {
  }

  lemma HearingClock(w: World, step: Step)
    requires Inv(w) && Enabled(w, step) && Unclocked(w)
    requires step.Start? || step.Push? || step.HearOffer? || step.HearRinging? || step.HearAnswer? || step.HearIce? || step.Gathered?
    ensures Unclocked(Do(w, step))
  {
  }

  lemma EndingClock(w: World, step: Step)
    requires Inv(w) && Enabled(w, step) && Unclocked(w)
    requires step.HearEnd? || step.HearError? || step.DeclineIt? || step.HangUp? || step.MediaFailed? || step.GuardFires?
    ensures Unclocked(Do(w, step))
  {
  }

  lemma OtherClock(w: World, step: Step)
    requires Inv(w) && Enabled(w, step) && Unclocked(w)
    requires step.Accept? || step.Connected? || step.LingerFires? || step.Applied?
    ensures Unclocked(Do(w, step))
  {
  }

  /** THE CLOCK: an active call is left without one by every step but the return of its own offer's send, should the answer and the media have been faster. */
  lemma ClockExactly(w: World, step: Step)
    requires Inv(w) && Enabled(w, step) && Unclocked(w)
    ensures Unclocked(Do(w, step)) <==>
      !(w.phase.Active? && step.Resume? && step.ok && w.call == Some(step.id) && w.work[step.id] == Placing(Sending))
  {
    if step.Resume? {
      match w.work[step.id] {
        case Placing(stage) => PlacedClock(w, step.id, stage, step.ok);
        case Answering(stage) => AnsweredClock(w, step.id, stage, step.ok);
      }
    } else if step.Start? || step.Push? || step.HearOffer? || step.HearRinging? || step.HearAnswer? || step.HearIce? || step.Gathered? {
      HearingClock(w, step);
    } else if step.Accept? || step.Connected? || step.LingerFires? || step.Applied? {
      OtherClock(w, step);
    } else {
      EndingClock(w, step);
    }
  }
}
