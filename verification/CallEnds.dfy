/**
 * What one step adds to the frames of a call, and which steps speak for a call already over.
 */
module CallEnds {
  import opened Wrappers
  import opened Calls

  // ---- frames for a call that is over ----------------------------------------------------------

  /** Nothing was handed over for a call after its end. */
  ghost predicate Quiet(w: World) {
    forall id | id in w.calls && w.calls[id].over.Some? :: w.calls[id].over.value == |w.calls[id].frames|
  }

  /**
   * The steps that speak for a call already over: they check only that the manager still holds its id, which
   * it does for as long as the reason lingers on screen.
   */
  predicate Late(w: World, step: Step) {
    w.phase.Ended? &&
    match step
    case Resume(id, ok) =>
      w.call == Some(id) && id in w.work &&
      (match w.work[id]
       case Placing(stage) =>
         (match stage
          case Microphone => false
          case Socket => false
          case Servers => !ok
          case Creating => true
          case _ => !ok || w.localBuffer != [])
       case Answering(stage) =>
         (match stage
          case Creating => true
          case Sending => !ok || w.localBuffer != []
          case _ => !ok))
    case Applied(id, ok) => w.call == Some(id) && !ok
    case Gathered(client, _) => w.media == Some(client) && w.localSent
    case MediaFailed(client) => w.media == Some(client)
    case _ => false
  }

  /** How far the frames of the call at hand grow in one step. */
  function Said(w: World, v: World, id: int): int
    requires id in w.calls && id in v.calls
  {
    |v.calls[id].frames| - |w.calls[id].frames|
  }

  lemma PlacedSays(w: World, id: int, stage: Stage, ok: bool)
    requires Inv(w) && id in w.work && w.work[id] == Placing(stage) && w.call == Some(id) && w.phase.Ended?
    ensures var v := Placed(w, id, stage, ok);
      && v.calls.Keys == w.calls.Keys && (forall k | k in w.calls && k != id :: v.calls[k] == w.calls[k])
      && v.calls[id].over == w.calls[id].over && Said(w, v, id) >= 0
      && (Said(w, v, id) > 0 <==> Late(w, Resume(id, ok)))
  {
    assert Progress(w, id, w.calls[id]);
  }

  lemma AnsweredSays(w: World, id: int, stage: Stage, ok: bool)
    requires Inv(w) && id in w.work && w.work[id] == Answering(stage) && w.call == Some(id) && w.phase.Ended?
    ensures var v := Answered(w, id, stage, ok);
      && v.calls.Keys == w.calls.Keys && (forall k | k in w.calls && k != id :: v.calls[k] == w.calls[k])
      && v.calls[id].over == w.calls[id].over && Said(w, v, id) >= 0
      && (Said(w, v, id) > 0 <==> Late(w, Resume(id, ok)))
  {
    assert Progress(w, id, w.calls[id]);
  }

  /** What a step does to the histories: it adds to the call at hand alone, and only a late step adds to it once it is over. */
  ghost predicate Adds(w: World, v: World, late: bool) {
    && (forall k | k in w.calls && w.call != Some(k) :: k in v.calls && v.calls[k] == w.calls[k])
    && (forall k | k in v.calls && k !in w.calls :: v.calls[k].over.None?)
    && (w.call.Some? && w.call.value in w.calls ==>
          var id := w.call.value;
          && id in v.calls
          && if w.phase.Ended? then
               v.calls[id].over == w.calls[id].over && Said(w, v, id) >= 0 && (Said(w, v, id) > 0 <==> late)
             else
               v.calls[id].over.Some? ==> v.calls[id].over.value == |v.calls[id].frames|)
  }

  lemma NothingAdded(w: World, v: World)
    requires Inv(w) && v.calls == w.calls
    ensures Adds(w, v, false)
  {
    if w.call.Some? {
      assert Phased(w, w.call.value, w.calls[w.call.value]);
    }
  }

  lemma NewCallAdds(w: World, v: World, id: int, h: History)
    requires Inv(w) && id !in w.calls && h.over.None? && v.calls == w.calls[id := h]
    ensures Adds(w, v, false)
  {
    NothingAdded(w, w);
  }

  /** The call at hand, still live, was added to. */
  lemma LiveAdds(w: World, v: World, id: int)
    requires Inv(w) && w.call == Some(id) && !w.phase.Ended? && id in v.calls && v.calls == w.calls[id := v.calls[id]]
    requires v.calls[id].over.None?
    ensures Adds(w, v, false)
  {
  }

  /** The call at hand, over, was added to or not. */
  lemma OverAdds(w: World, v: World, id: int, late: bool)
    requires Inv(w) && w.call == Some(id) && w.phase.Ended? && id in v.calls && v.calls == w.calls[id := v.calls[id]]
    requires v.calls[id].over == w.calls[id].over && Said(w, v, id) >= 0 && (Said(w, v, id) > 0 <==> late)
    ensures Adds(w, v, late)
  {
  }

  lemma LivePlacedAdds(w: World, id: int, stage: Stage, ok: bool)
    requires Inv(w) && id in w.work && w.call == Some(id) && !w.phase.Ended? && w.work[id] == Placing(stage)
    ensures Adds(w, Placed(w, id, stage, ok), false)
  {
    assert Phased(w, id, w.calls[id]);
  }

  lemma LiveAnsweredAdds(w: World, id: int, stage: Stage, ok: bool)
    requires Inv(w) && id in w.work && w.call == Some(id) && !w.phase.Ended? && w.work[id] == Answering(stage)
    ensures Adds(w, Answered(w, id, stage, ok), false)
  {
    assert Phased(w, id, w.calls[id]);
  }

  lemma PlacedAdds(w: World, id: int, stage: Stage, ok: bool)
    requires Inv(w) && id in w.work && w.call == Some(id) && w.work[id] == Placing(stage)
    ensures Adds(w, Placed(w, id, stage, ok), Late(w, Resume(id, ok)))
  {
    if w.phase.Ended? {
      PlacedSays(w, id, stage, ok);
    } else {
      LivePlacedAdds(w, id, stage, ok);
    }
  }

  lemma AnsweredAdds(w: World, id: int, stage: Stage, ok: bool)
    requires Inv(w) && id in w.work && w.call == Some(id) && w.work[id] == Answering(stage)
    ensures Adds(w, Answered(w, id, stage, ok), Late(w, Resume(id, ok)))
  {
    if w.phase.Ended? {
      AnsweredSays(w, id, stage, ok);
    } else {
      LiveAnsweredAdds(w, id, stage, ok);
    }
  }

  lemma StalePlacedAdds(w: World, id: int, stage: Stage, ok: bool)
    requires Inv(w) && id in w.work && w.call != Some(id) && w.work[id] == Placing(stage)
    ensures Adds(w, Placed(w, id, stage, ok), false)
  {
    NothingAdded(w, Placed(w, id, stage, ok));
  }

  lemma StaleAnsweredAdds(w: World, id: int, stage: Stage, ok: bool)
    requires Inv(w) && id in w.work && w.call != Some(id) && w.work[id] == Answering(stage)
    ensures Adds(w, Answered(w, id, stage, ok), false)
  {
    NothingAdded(w, Answered(w, id, stage, ok));
  }

  lemma ResumeAdds(w: World, id: int, ok: bool)
    requires Inv(w) && Enabled(w, Resume(id, ok))
    ensures Adds(w, Do(w, Resume(id, ok)), Late(w, Resume(id, ok)))
  {
    match w.work[id] {
      case Placing(stage) => if w.call == Some(id) { PlacedAdds(w, id, stage, ok); } else { StalePlacedAdds(w, id, stage, ok); }
      case Answering(stage) => if w.call == Some(id) { AnsweredAdds(w, id, stage, ok); } else { StaleAnsweredAdds(w, id, stage, ok); }
    }
  }

  lemma BrokenAdds(w: World, v: World, id: int, said: Reason, shown: Reason)
    requires Inv(w) && w.call == Some(id) && v == w.(guard := v.guard, applying := v.applying)
    ensures Adds(w, Broken(v, id, said, shown), w.phase.Ended?)
  {
    assert Phased(w, id, w.calls[id]);
  }

  lemma FinishedAdds(w: World, v: World, id: int, reason: Reason)
    requires Inv(w) && w.call == Some(id) && v == w.(guard := v.guard)
    ensures Adds(w, Finished(v, id, reason), false)
  {
    assert Phased(w, id, w.calls[id]);
  }

  lemma HearAdds(w: World, step: Step)
    requires Inv(w) && Enabled(w, step)
    requires step.HearRinging? || step.HearAnswer? || step.HearIce?
    ensures Adds(w, Do(w, step), false)
  {
    if w.call == Some(step.id) {
      assert Phased(w, step.id, w.calls[step.id]);
      if w.phase.Ended? {
        OverAdds(w, Do(w, step), step.id, false);
      } else {
        LiveAdds(w, Do(w, step), step.id);
      }
    } else {
      NothingAdded(w, w);
    }
  }

  lemma BeginAdds(w: World, step: Step)
    requires Inv(w) && Enabled(w, step) && (step.Start? || step.Push? || step.HearOffer?)
    ensures Adds(w, Do(w, step), false)
  {
    var v := Do(w, step);
    if v.calls == w.calls {
      NothingAdded(w, v);
    } else {
      NewCallAdds(w, v, step.id, v.calls[step.id]);
    }
  }

  lemma HearEndAdds(w: World, step: Step)
    requires Inv(w) && Enabled(w, step) && (step.HearEnd? || step.HearError?)
    ensures Adds(w, Do(w, step), Late(w, step))
  {
    if w.call == Some(step.id) {
      FinishedAdds(w, w, step.id, step.reason);
    } else {
      NothingAdded(w, w);
    }
  }

  lemma GuardAdds(w: World)
    requires Inv(w) && Enabled(w, GuardFires)
    ensures Adds(w, Do(w, GuardFires), Late(w, GuardFires))
  {
    var v := w.(guard := None);
    var g := w.guard.value;
    if IsIdle(w.phase) {
      NothingAdded(w, v);
    } else if g.sendsFrame {
      BrokenAdds(w, v, g.id, Failed, g.reason);
    } else {
      FinishedAdds(w, v, g.id, g.reason);
    }
  }

  lemma EndAdds(w: World, step: Step)
    requires Inv(w) && Enabled(w, step) && (step.DeclineIt? || step.HangUp? || step.MediaFailed?)
    ensures Adds(w, Do(w, step), Late(w, step))
  {
    NothingAdded(w, w);
    if w.call.Some? {
      var id := w.call.value;
      if step.HangUp? {
        BrokenAdds(w, w, id, EndReason(w.phase), EndReason(w.phase));
      } else if step.DeclineIt? {
        BrokenAdds(w, w, id, Decline, Decline);
      } else {
        BrokenAdds(w, w, id, Failed, Failed);
      }
    }
  }

  lemma AppliedAdds(w: World, step: Step)
    requires Inv(w) && Enabled(w, step) && step.Applied?
    ensures Adds(w, Do(w, step), Late(w, step))
  {
    if w.call == Some(step.id) {
      BrokenAdds(w, w.(applying := w.applying - {step.id}), step.id, Failed, Failed);
      assert Phased(w, step.id, w.calls[step.id]);
    } else {
      NothingAdded(w, Do(w, step));
    }
  }

  lemma GatheredAdds(w: World, step: Step)
    requires Inv(w) && Enabled(w, step) && step.Gathered?
    ensures Adds(w, Do(w, step), Late(w, step))
  {
    if w.media == Some(step.client) {
      assert Phased(w, step.client, w.calls[step.client]);
    } else {
      NothingAdded(w, w);
    }
  }

  lemma PhaseAdds(w: World, step: Step)
    requires Inv(w) && Enabled(w, step) && (step.Accept? || step.Connected? || step.LingerFires?)
    ensures Adds(w, Do(w, step), Late(w, step))
  {
    NothingAdded(w, Do(w, step));
  }

  lemma StepAdds(w: World, step: Step)
    requires Inv(w) && Enabled(w, step)
    ensures Adds(w, Do(w, step), Late(w, step))
  {
    if step.Resume? {
      ResumeAdds(w, step.id, step.ok);
    } else if step.Applied? {
      AppliedAdds(w, step);
    } else if step.Gathered? {
      GatheredAdds(w, step);
    } else if step.Accept? || step.Connected? || step.LingerFires? {
      PhaseAdds(w, step);
    } else if step.HearEnd? || step.HearError? {
      HearEndAdds(w, step);
    } else if step.GuardFires? {
      GuardAdds(w);
    } else if step.DeclineIt? || step.HangUp? || step.MediaFailed? {
      EndAdds(w, step);
    } else if step.HearRinging? || step.HearAnswer? || step.HearIce? {
      HearAdds(w, step);
    } else {
      BeginAdds(w, step);
    }
  }
}
