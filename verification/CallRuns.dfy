/** Runs of the call machine that reach what a call must not do after its end (ios/FamilyConnect/Core/Calls/CallManager.swift). */
module CallRuns {
  import opened Wrappers
  import opened Calls
  import opened CallSteps

  ghost predicate Reaches(w: World, steps: seq<Step>, v: World) {
    Runs(w, steps) && After(w, steps) == v
  }

  lemma Then(w: World, step: Step, u: World, rest: seq<Step>, v: World)
    requires Enabled(w, step) && Do(w, step) == u && Reaches(u, rest, v)
    ensures Reaches(w, [step] + rest, v)
  {
    assert ([step] + rest)[1..] == rest;
  }

  lemma {:induction false} Chain(w: World, a: seq<Step>, u: World, b: seq<Step>, v: World)
    requires Reaches(w, a, u) && Reaches(u, b, v)
    ensures Reaches(w, a + b, v)
    decreases |a|
  {
    if a == [] {
      assert a + b == b;
    } else {
      Chain(Do(w, a[0]), a[1..], u, b, v);
      assert (a + b)[1..] == a[1..] + b;
    }
  }

  lemma Twice(w: World, s: Step, u: World, t: Step, v: World)
    requires Enabled(w, s) && Do(w, s) == u && Enabled(u, t) && Do(u, t) == v
    ensures Reaches(w, [s, t], v)
  {
    Then(u, t, v, [], v);
    Then(w, s, u, [t], v);
    assert [s] + [t] == [s, t];
  }

  /** An outgoing call whose first continuation is still ahead, in a phase, with its media, history and next stage. */
  function Dialling(id: int, phase: Phase, media: Option<int>, recent: seq<int>, h: History, stage: Stage): World {
    World(phase, Some(id), false, media, false, false, false, false, [], [], None, false, recent,
          map[id := Placing(stage)], {}, map[id := h])
  }

  function Called(incoming: bool, opens: nat, described: nat, frames: seq<Frame>, over: Option<nat>): History {
    History(incoming, [], [], [], opens, described, frames, over)
  }

  lemma PlacingStarts(id: int)
    ensures Enabled(Made(), Start(id))
      && Do(Made(), Start(id)) == Dialling(id, Outgoing(false), None, [], Called(false, 0, 0, [], None), Microphone)
  {
  }

  /** Each continuation checks the id it holds, and nothing else. */
  lemma PlacingGoesOn(id: int, phase: Phase, media: Option<int>, recent: seq<int>, h: History, stage: Stage)
    requires stage == Microphone || stage == Socket || stage == Servers || stage == Creating
    ensures var w := Dialling(id, phase, media, recent, h, stage);
      && Enabled(w, Resume(id, true))
      && Do(w, Resume(id, true)) ==
           match stage
           case Microphone => Dialling(id, phase, media, recent, h, Socket)
           case Socket => Dialling(id, phase, media, recent, h, Servers)
           case Servers => Dialling(id, phase, Some(id), recent, h.(opens := h.opens + 1), Creating)
           case _ => Dialling(id, phase, media, recent, h.(frames := h.frames + [OfferFrame]), Sending)
  {
  }

  lemma PlacingCancelled(id: int, stage: Stage)
    ensures var w := Dialling(id, Outgoing(false), None, [], Called(false, 0, 0, [], None), stage);
      && Enabled(w, HangUp)
      && Do(w, HangUp) == Dialling(id, Ended(Cancel), None, [id], Called(false, 0, 0, [EndFrame(Cancel)], Some(1)), stage)
  {
    assert [] + [EndFrame(Cancel)] == [EndFrame(Cancel)];
    assert Remembered([], id) == [id];
  }

  /** HUNG UP WHILE THE SOCKET COMES UP: the continuation goes on in the linger, opens the microphone again and rings the far side, after the cancel that was to stop it. */
  lemma LateOffer(id: int)
    ensures var steps := [Start(id), Resume(id, true), HangUp, Resume(id, true), Resume(id, true), Resume(id, true)];
      && Runs(Made(), steps)
      && var w := After(Made(), steps);
      && w.phase == Ended(Cancel) && w.media == Some(id)
      && id in w.calls && w.calls[id].over == Some(1) && w.calls[id].frames == [EndFrame(Cancel), OfferFrame]
  {
    var ended := Called(false, 0, 0, [EndFrame(Cancel)], Some(1));
    var live := Called(false, 0, 0, [], None);
    var again := [Resume(id, true), Resume(id, true), Resume(id, true)];
    var w1 := Dialling(id, Outgoing(false), None, [], live, Microphone);
    var w2 := Dialling(id, Outgoing(false), None, [], live, Socket);
    var w3 := Dialling(id, Ended(Cancel), None, [id], ended, Socket);
    var w6 := Dialling(id, Ended(Cancel), Some(id), [id], ended.(opens := 1, frames := ended.frames + [OfferFrame]), Sending);
    StillRings(id, ended);
    PlacingCancelled(id, Socket);
    Then(w2, HangUp, w3, again, w6);
    PlacingGoesOn(id, Outgoing(false), None, [], live, Microphone);
    Then(w1, Resume(id, true), w2, [HangUp] + again, w6);
    PlacingStarts(id);
    Then(Made(), Start(id), w1, [Resume(id, true)] + ([HangUp] + again), w6);
    assert [Start(id)] + ([Resume(id, true)] + ([HangUp] + again))
        == [Start(id), Resume(id, true), HangUp, Resume(id, true), Resume(id, true), Resume(id, true)];
    assert [EndFrame(Cancel)] + [OfferFrame] == [EndFrame(Cancel), OfferFrame];
  }

  lemma StillRings(id: int, h: History)
    requires h.opens == 0
    ensures Reaches(Dialling(id, Ended(Cancel), None, [id], h, Socket), [Resume(id, true), Resume(id, true), Resume(id, true)],
              Dialling(id, Ended(Cancel), Some(id), [id], h.(opens := 1, frames := h.frames + [OfferFrame]), Sending))
  {
    var w4 := Dialling(id, Ended(Cancel), None, [id], h, Servers);
    var w5 := Dialling(id, Ended(Cancel), Some(id), [id], h.(opens := 1), Creating);
    var w6 := Dialling(id, Ended(Cancel), Some(id), [id], h.(opens := 1, frames := h.frames + [OfferFrame]), Sending);
    PlacingGoesOn(id, Ended(Cancel), Some(id), [id], h.(opens := 1), Creating);
    Then(w5, Resume(id, true), w6, [], w6);
    PlacingGoesOn(id, Ended(Cancel), None, [id], h, Servers);
    Then(w4, Resume(id, true), w5, [Resume(id, true)], w6);
    PlacingGoesOn(id, Ended(Cancel), None, [id], h, Socket);
    Then(Dialling(id, Ended(Cancel), None, [id], h, Socket), Resume(id, true), w4, [Resume(id, true), Resume(id, true)], w6);
    assert [Resume(id, true)] + [Resume(id, true), Resume(id, true)] == [Resume(id, true), Resume(id, true), Resume(id, true)];
  }

  /** THE FAR SIDE ENDED IT WHILE ITS ANSWER WAS BEING APPLIED: closing the media fails the step, which then sends an end of its own — from every state in which an answer can arrive. */
  lemma EndAfterTheirEnd(w: World, id: int, reason: Reason)
    requires Inv(w) && w.call == Some(id) && w.phase.Outgoing? && w.media.Some?
    ensures var steps := [HearAnswer(id), HearEnd(id, reason), Applied(id, false)];
      && Runs(w, steps)
      && var v := After(w, steps); var n := |w.calls[id].frames|;
      id in v.calls && v.calls[id].over == Some(n) && v.calls[id].frames == w.calls[id].frames + [EndFrame(Failed)]
  {
    var w1 := Do(w, HearAnswer(id));
    StepKeeps(w, HearAnswer(id));
    var w2 := Do(w1, HearEnd(id, reason));
    StepKeeps(w1, HearEnd(id, reason));
    TheirEnd(w, id, reason);
    var w3 := Do(w2, Applied(id, false));
    assert Reaches(w3, [], w3);
    Then(w2, Applied(id, false), w3, [], w3);
    Then(w1, HearEnd(id, reason), w2, [Applied(id, false)], w3);
    Then(w, HearAnswer(id), w1, [HearEnd(id, reason), Applied(id, false)], w3);
    FailedStep(w2, id);
  }

  lemma TheirEnd(w: World, id: int, reason: Reason)
    requires Inv(w) && w.call == Some(id) && w.phase.Outgoing? && w.media.Some?
    ensures Enabled(w, HearAnswer(id)) && Enabled(Do(w, HearAnswer(id)), HearEnd(id, reason))
    ensures var v := Do(Do(w, HearAnswer(id)), HearEnd(id, reason));
      && v.call == Some(id) && v.phase == Ended(reason) && id in v.applying && id in v.calls
      && v.calls[id].frames == w.calls[id].frames && v.calls[id].over == Some(|w.calls[id].frames|)
  {
    StepKeeps(w, HearAnswer(id));
  }

  lemma FailedStep(w: World, id: int)
    requires Inv(w) && w.call == Some(id) && w.phase.Ended? && id in w.applying
    ensures var v := Do(w, Applied(id, false));
      id in v.calls && v.calls[id].over == w.calls[id].over && v.calls[id].frames == w.calls[id].frames + [EndFrame(Failed)]
  {
  }

  /** HUNG UP BEFORE THE OFFER CAME: a pushed call, accepted and hung up, is answered all the same by the offer the server replays — from every such state. */
  lemma LateAnswer(w: World, id: int)
    requires Inv(w) && w.call == Some(id) && w.phase.Connecting? && w.incoming && !w.offer
    ensures var steps := [HangUp, HearOffer(id), Resume(id, true), Resume(id, true), Resume(id, true), Resume(id, true)];
      && Runs(w, steps)
      && var v := After(w, steps); var n := |w.calls[id].frames|;
      && v.phase.Ended? && v.media == Some(id) && id in v.calls && v.calls[id].over == Some(n + 1)
      && v.calls[id].frames == w.calls[id].frames + [EndFrame(Hangup)] + [AnswerFrame]
  {
    var w2 := OfferAfterHangUp(w, id);
    var w4 := AnswerBegins(w2, id);
    var w6 := AnswerGoesOut(w4, id);
    Chain(w2, [Resume(id, true), Resume(id, true)], w4, [Resume(id, true), Resume(id, true)], w6);
    Chain(w, [HangUp, HearOffer(id)], w2, [Resume(id, true), Resume(id, true)] + [Resume(id, true), Resume(id, true)], w6);
    assert [HangUp, HearOffer(id)] + ([Resume(id, true), Resume(id, true)] + [Resume(id, true), Resume(id, true)])
        == [HangUp, HearOffer(id), Resume(id, true), Resume(id, true), Resume(id, true), Resume(id, true)];
  }

  lemma OfferAfterHangUp(w: World, id: int) returns (v: World)
    requires Inv(w) && w.call == Some(id) && w.phase.Connecting? && w.incoming && !w.offer
    ensures Reaches(w, [HangUp, HearOffer(id)], v)
    ensures Inv(v) && v.call == Some(id) && v.phase.Ended? && id in v.work && v.work[id] == Answering(Microphone)
    ensures v.calls[id].over == Some(|w.calls[id].frames| + 1) && v.calls[id].frames == w.calls[id].frames + [EndFrame(Hangup)]
  {
    assert Current(w, id, w.calls[id]);
    var u := Do(w, HangUp);
    StepKeeps(w, HangUp);
    v := Do(u, HearOffer(id));
    StepKeeps(u, HearOffer(id));
    Twice(w, HangUp, u, HearOffer(id), v);
  }

  lemma AnswerBegins(w: World, id: int) returns (v: World)
    requires Inv(w) && w.call == Some(id) && w.phase.Ended? && id in w.work && w.work[id] == Answering(Microphone)
    ensures Reaches(w, [Resume(id, true), Resume(id, true)], v)
    ensures Inv(v) && v.call == Some(id) && v.phase.Ended? && v.media == Some(id) && id in v.work && v.work[id] == Answering(Describing)
    ensures v.calls[id].over == w.calls[id].over && v.calls[id].frames == w.calls[id].frames
  {
    var u := Do(w, Resume(id, true));
    StepKeeps(w, Resume(id, true));
    v := Do(u, Resume(id, true));
    StepKeeps(u, Resume(id, true));
    Twice(w, Resume(id, true), u, Resume(id, true), v);
  }

  lemma AnswerGoesOut(w: World, id: int) returns (v: World)
    requires Inv(w) && w.call == Some(id) && w.phase.Ended? && w.media == Some(id) && id in w.work && w.work[id] == Answering(Describing)
    ensures Reaches(w, [Resume(id, true), Resume(id, true)], v)
    ensures v.phase.Ended? && v.media == Some(id) && id in v.calls
    ensures v.calls[id].over == w.calls[id].over && v.calls[id].frames == w.calls[id].frames + [AnswerFrame]
  {
    var u := Do(w, Resume(id, true));
    StepKeeps(w, Resume(id, true));
    v := Do(u, Resume(id, true));
    Twice(w, Resume(id, true), u, Resume(id, true), v);
  }
}
