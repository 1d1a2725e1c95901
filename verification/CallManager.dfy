/**
 * The manager as the object it is: fields its methods update in place, each method held to the step it is in
 * Calls (ios/FamilyConnect/Core/Calls/CallManager.swift).
 */
module CallManager {
  import opened Wrappers
  import opened Calls

  class Manager {
    var phase: Phase
    var call: Option<int>
    var incoming: bool
    var media: Option<int>
    var offer: bool
    var accepted: bool
    var remoteSet: bool
    var localSent: bool
    var remoteBuffer: seq<int>
    var localBuffer: seq<int>
    var guard: Option<Guard>
    var sounding: bool
    var recent: seq<int>
    /** The continuations waiting, and what has happened to every call. */
    var work: map<int, Work>
    var applying: set<int>
    var calls: map<int, History>

    ghost function View(): World
      reads this
    {
      World(phase, call, incoming, media, offer, accepted, remoteSet, localSent, remoteBuffer, localBuffer,
            guard, sounding, recent, work, applying, calls)
    }

    constructor ()
      ensures View() == Made()
    {
      phase := Idle;
      call := None;
      incoming, offer, accepted, remoteSet, localSent, sounding := false, false, false, false, false, false;
      media, guard := None, None;
      remoteBuffer, localBuffer, recent := [], [], [];
      work, applying, calls := map[], {}, map[];
    }

    method TransitionTo(next: Phase)
      modifies `phase, `sounding
      ensures View() == To(old(View()), next)
    {
      phase := next;
      sounding := next.Outgoing? && next.ringing;
    }

    method ResetToIdle()
      modifies `phase, `sounding, `call, `incoming, `media, `offer, `accepted, `remoteSet, `localSent, `remoteBuffer, `localBuffer, `guard
      ensures View() == Reset(old(View()))
    {
      TransitionTo(Idle);
      guard := None;
      media := None;
      incoming := false;
      call := None;
      offer := false;
      accepted := false;
      remoteSet := false;
      localSent := false;
      remoteBuffer := [];
      localBuffer := [];
    }

    method Begin(id: int, isIncoming: bool, hasOffer: bool)
      modifies this
      ensures View() == Begun(old(View()), id, isIncoming, hasOffer)
    {
      ResetToIdle();
      call := Some(id);
      incoming := isIncoming;
      offer := hasOffer;
      calls := calls[id := History(isIncoming, [], [], [], 0, 0, [], None)];
      TransitionTo(if isIncoming then Incoming else Outgoing(false));
    }

    method Send(id: int, frame: Frame)
      requires id in calls
      modifies `calls
      ensures View() == Handed(old(View()), id, frame)
    {
      calls := calls[id := calls[id].(frames := calls[id].frames + [frame])];
    }

    method Finish(id: int, reason: Reason)
      requires id in calls
      modifies `phase, `sounding, `media, `guard, `recent, `calls
      ensures View() == Finished(old(View()), id, reason)
    {
      if IsIdle(phase) {
        return;
      }
      TransitionTo(Ended(reason));
      guard := None;
      media := None;
      recent := Remembered(recent, id);
      calls := calls[id := calls[id].(over := Some(|calls[id].frames|))];
    }

    method Fail(id: int, said: Reason, shown: Reason)
      requires id in calls
      modifies this
      ensures View() == Broken(old(View()), id, said, shown)
    {
      Send(id, EndFrame(said));
      Finish(id, shown);
    }

    // ---- the user and the system ---------------------------------------------------------------

    method StartCall(id: int) returns (placed: bool)
      requires Enabled(View(), Start(id))
      modifies this
      ensures View() == Do(old(View()), Start(id)) && placed == IsIdle(old(phase))
    {
      if !IsIdle(phase) {
        return false;
      }
      Begin(id, false, false);
      work := work[id := Placing(Microphone)];
      return true;
    }

    method HandleIncomingPush(id: int) returns (taken: bool)
      requires Enabled(View(), Push(id))
      modifies this
      ensures View() == Do(old(View()), Push(id))
      ensures taken == (call == Some(id))
    {
      if call == Some(id) {
        return true;
      }
      if !IsIdle(phase) || id in recent {
        return false;
      }
      Begin(id, true, false);
      guard := Some(Guard(id, Timeout, false));
      return true;
    }

    /** The app's own accept, the system's, and the fallback of one the system refuses. */
    method PerformAccept()
      requires phase.Incoming? ==> call.Some?
      modifies `phase, `sounding, `accepted, `guard, `work
      ensures View() == if old(phase).Incoming? then Accepted(old(View())) else old(View())
    {
      if !phase.Incoming? {
        return;
      }
      var id := call.value;
      TransitionTo(Connecting);
      accepted := true;
      guard := Some(Guard(id, Failed, true));
      if offer {
        work := work[id := Answering(Microphone)];
      }
    }

    method DeclineIncoming()
      requires Enabled(View(), DeclineIt)
      modifies this
      ensures View() == Do(old(View()), DeclineIt)
    {
      if phase.Incoming? {
        Fail(call.value, Decline, Decline);
      }
    }

    /** The system's end, and the fallback of one the system refuses. */
    method PerformHangUp()
      requires Enabled(View(), HangUp)
      modifies this
      ensures View() == Do(old(View()), HangUp)
    {
      if !IsIdle(phase) {
        var reason := EndReason(phase);
        Fail(call.value, reason, reason);
      }
    }

    // ---- frames --------------------------------------------------------------------------------

    method HandleOffer(id: int)
      requires Enabled(View(), HearOffer(id))
      modifies this
      ensures View() == Do(old(View()), HearOffer(id))
    {
      if call == Some(id) {
        if !incoming || offer {
          return;
        }
        offer := true;
        if accepted {
          work := work[id := Answering(Microphone)];
        }
        return;
      }
      if !IsIdle(phase) || id in recent {
        return;
      }
      Begin(id, true, true);
      guard := Some(Guard(id, Timeout, false));
    }

    method HandleRinging(id: int)
      requires Enabled(View(), HearRinging(id))
      modifies this
      ensures View() == Do(old(View()), HearRinging(id))
    {
      if call == Some(id) && phase.Outgoing? {
        TransitionTo(Outgoing(true));
      }
    }

    method HandleAnswer(id: int)
      requires call == Some(id) ==> id in calls
      modifies `phase, `sounding, `guard, `applying, `calls
      ensures View() == HeardAnswer(old(View()), id)
    {
      if call == Some(id) && phase.Outgoing? && media.Some? {
        TransitionTo(Connecting);
        guard := Some(Guard(id, Failed, true));
        applying := applying + {id};
        calls := calls[id := calls[id].(described := calls[id].described + 1)];
      }
    }

    method HandleIce(id: int, candidate: int)
      requires Enabled(View(), HearIce(id, candidate))
      modifies this
      ensures View() == Do(old(View()), HearIce(id, candidate))
    {
      if call != Some(id) {
        return;
      }
      var h := calls[id].(arrived := calls[id].arrived + [candidate]);
      if remoteSet && media.Some? {
        h := h.(fed := h.fed + [candidate]);
      } else {
        remoteBuffer := remoteBuffer + [candidate];
      }
      calls := calls[id := h];
    }

    method HandleEnd(id: int, reason: Reason)
      requires Enabled(View(), HearEnd(id, reason))
      modifies this
      ensures View() == Do(old(View()), HearEnd(id, reason))
    {
      if call == Some(id) && !IsIdle(phase) {
        Finish(id, reason);
      }
    }

    // ---- candidates ----------------------------------------------------------------------------

    method FlushLocalCandidates(id: int)
      requires id in calls
      modifies `localBuffer, `calls, `localSent
      ensures View() == Sent(old(View()), id)
    {
      localSent := true;
      var buffered := localBuffer;
      localBuffer := [];
      var h := calls[id];
      var i := 0;
      assert h.frames + IceFrames([]) == h.frames;
      while i < |buffered|
        invariant 0 <= i <= |buffered|
        invariant h == calls[id].(frames := calls[id].frames + IceFrames(buffered[..i]))
      {
        h := h.(frames := h.frames + [IceFrame(buffered[i])]);
        assert buffered[..i + 1][..i] == buffered[..i];
        i := i + 1;
      }
      assert buffered[..i] == buffered;
      calls := calls[id := h];
    }

    method FlushRemoteCandidates(id: int)
      requires id in calls
      modifies `remoteBuffer, `calls, `remoteSet
      ensures View() == Described(old(View()), id)
    {
      remoteSet := true;
      var buffered := remoteBuffer;
      remoteBuffer := [];
      if media.Some? {
        var h := calls[id];
        var i := 0;
        assert h.fed + [] == h.fed;
        while i < |buffered|
          invariant 0 <= i <= |buffered|
          invariant h == calls[id].(fed := calls[id].fed + buffered[..i])
        {
          h := h.(fed := h.fed + [buffered[i]]);
          assert buffered[..i + 1] == buffered[..i] + [buffered[i]];
          i := i + 1;
        }
        assert buffered[..i] == buffered;
        calls := calls[id := h];
      }
    }

    /** A media client for the call; an answer gives it the offer at once. */
    method OpenMedia(id: int, describes: bool)
      requires id in calls
      modifies `media, `calls
      ensures View() == Opened(old(View()), id, describes)
    {
      media := Some(id);
      var h := calls[id];
      calls := calls[id := h.(opens := h.opens + 1, described := h.described + if describes then 1 else 0)];
    }

    // ---- the continuations ---------------------------------------------------------------------

    /** placeOutgoing, a step of it refused or thrown. */
    method CatchPlacing(id: int, stage: Stage)
      requires id in calls && call == Some(id) && stage != Socket
      modifies this
      ensures View() == Placed(old(View()), id, stage, false)
    {
      work := Without(work, id);
      if stage == Microphone {
        Finish(id, MicrophoneDenied);
      } else {
        Fail(id, Cancel, Failed);
      }
    }

    /** placeOutgoing, a step of it done: the media opened, the offer made and sent. */
    method GoOnPlacing(id: int, stage: Stage)
      requires id in calls && call == Some(id) && stage != Microphone && stage != Socket
      modifies this
      ensures View() == Placed(old(View()), id, stage, true)
    {
      if stage == Servers {
        OpenMedia(id, false);
        work := work[id := Placing(Creating)];
      } else if stage == Creating {
        Send(id, OfferFrame);
        work := work[id := Placing(Sending)];
      } else {
        work := Without(work, id);
        FlushLocalCandidates(id);
        guard := Some(Guard(id, Timeout, false));
      }
    }

    /** placeOutgoing, resuming from an await. */
    method ResumePlacing(id: int, ok: bool)
      requires id in calls && id in work && work[id].Placing?
      modifies this
      ensures View() == Placed(old(View()), id, old(work[id].stage), ok)
    {
      var stage := work[id].stage;
      if stage == Microphone && ok {
        work := work[id := Placing(Socket)];
      } else if call != Some(id) {
        work := Without(work, id);
      } else if stage == Socket {
        work := work[id := Placing(Servers)];
      } else if ok {
        GoOnPlacing(id, stage);
      } else {
        CatchPlacing(id, stage);
      }
    }

    /** answer, resuming from an await. */
    method ResumeAnswering(id: int, ok: bool)
      requires id in calls && id in work && work[id].Answering?
      modifies this
      ensures View() == Answered(old(View()), id, old(work[id].stage), ok)
    {
      var stage := work[id].stage;
      if stage == Microphone && ok {
        work := work[id := Answering(Servers)];
      } else if call != Some(id) {
        work := Without(work, id);
      } else if !ok {
        work := Without(work, id);
        Fail(id, if stage == Microphone then Decline else Failed, if stage == Microphone then MicrophoneDenied else Failed);
      } else if stage == Servers {
        OpenMedia(id, true);
        work := work[id := Answering(Describing)];
      } else if stage == Describing {
        FlushRemoteCandidates(id);
        work := work[id := Answering(Creating)];
      } else if stage == Creating {
        Send(id, AnswerFrame);
        work := work[id := Answering(Sending)];
      } else {
        work := Without(work, id);
        FlushLocalCandidates(id);
      }
    }
  }
}
