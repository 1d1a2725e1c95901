/**
 * What every step keeps of the call state machine: the lemmas behind the laws of module CallLaws.
 */
module CallSteps {
  import opened Wrappers
  import opened Calls

  // ---- every step keeps it ---------------------------------------------------------------------

  /** A new call begins with an empty history, and everything before it is over. */
  lemma FreshCall(w: World, v: World, id: int)
    requires Inv(w) && id !in w.calls && IsIdle(w.phase)
    requires v.call == Some(id) && v.calls == w.calls[id := History(v.incoming, [], [], [], 0, 0, [], None)]
    requires v.phase == if v.incoming then Incoming else Outgoing(false)
    requires v.media.None? && !v.accepted && !v.remoteSet && !v.localSent && v.remoteBuffer == [] && v.localBuffer == []
    requires !v.sounding && v.recent == w.recent && v.applying == w.applying
    requires v.guard.Some? ==> v.guard.value.id == id
    requires v.work == if v.incoming then w.work else w.work[id := Placing(Microphone)]
    ensures Inv(v)
  {
    var h := v.calls[id];
    assert Orderly(h) && Wired(v, h) && Fed(v, h);
    assert id !in w.work && id !in w.applying;
    assert Phased(v, id, h) && Progress(v, id, h);
    forall k | k in v.calls && k != id
      ensures Orderly(v.calls[k]) && v.calls[k].over.Some?
    {
      assert k in w.calls;
      if w.call == Some(k) {
        assert Phased(w, k, w.calls[k]);
      }
    }
  }

  lemma StartKeeps(w: World, id: int)
    requires Inv(w) && Enabled(w, Start(id))
    ensures Inv(Do(w, Start(id)))
  {
    if IsIdle(w.phase) {
      FreshCall(w, Do(w, Start(id)), id);
    }
  }

  lemma PushedKeeps(w: World, id: int)
    requires Inv(w) && Enabled(w, Push(id))
    ensures Inv(Pushed(w, id))
  {
    if w.call != Some(id) && IsIdle(w.phase) && id !in w.recent {
      FreshCall(w, Pushed(w, id), id);
    }
  }

  lemma ResetKeeps(w: World)
    requires Inv(w) && w.phase.Ended?
    ensures Inv(Reset(w))
  {
    assert Current(w, w.call.value, w.calls[w.call.value]);
  }

  lemma HeardOfferKeeps(w: World, id: int)
    requires Inv(w) && Enabled(w, HearOffer(id))
    ensures Inv(HeardOffer(w, id))
  {
    var v := HeardOffer(w, id);
    if w.call == Some(id) {
      var h := w.calls[id];
      assert Current(w, id, h);
      assert v.calls[id] == h && Wired(v, h) && Fed(v, h);
      assert Phased(v, id, h);
      assert Progress(v, id, h);
      OnlyTheCall(w, v, id);
    } else if IsIdle(w.phase) && id !in w.recent {
      FreshCall(w, v, id);
    }
  }

  lemma RingingKeeps(w: World)
    requires Inv(w) && w.phase.Outgoing?
    ensures Inv(To(w, Outgoing(true)))
  {
    OnlyTheCall(w, To(w, Outgoing(true)), w.call.value);
  }

  lemma HeardAnswerKeeps(w: World, id: int)
    requires Inv(w)
    ensures Inv(HeardAnswer(w, id))
  {
    if w.call == Some(id) && w.phase.Outgoing? && w.media.Some? {
      assert Current(w, id, w.calls[id]);
      OnlyTheCall(w, HeardAnswer(w, id), id);
    }
  }

  lemma HeardIceKeeps(w: World, id: int, candidate: int)
    requires Inv(w)
    ensures Inv(HeardIce(w, id, candidate))
  {
    if w.call == Some(id) {
      var v := HeardIce(w, id, candidate);
      var h, h' := w.calls[id], v.calls[id];
      assert Current(w, id, h);
      IceKeepsCall(w, v, id, h, h', candidate);
      OnlyTheCall(w, v, id);
    }
  }

  lemma IceKeepsCall(w: World, v: World, id: int, h: History, h': History, candidate: int)
    requires Current(w, id, h)
    requires h' == h.(arrived := h.arrived + [candidate], fed := if w.remoteSet && w.media.Some? then h.fed + [candidate] else h.fed)
    requires v == w.(calls := v.calls, remoteBuffer := if w.remoteSet && w.media.Some? then w.remoteBuffer else w.remoteBuffer + [candidate])
    ensures Current(v, id, h')
  {
    IceArrives(w.remoteSet, w.remoteBuffer, w.media.Some?, w.phase.Ended?, h, candidate);
    ProgressSame(w, v, id, h, h');
  }

  lemma IceArrives(remoteSet: bool, waiting: seq<int>, up: bool, ended: bool, h: History, candidate: int)
    requires FedBy(remoteSet, waiting, up, ended, h) && h.fed <= h.arrived
    ensures var h' := h.(arrived := h.arrived + [candidate]);
      if remoteSet && up then
        var h'' := h'.(fed := h.fed + [candidate]);
        FedBy(remoteSet, waiting, up, ended, h'') && h''.fed <= h''.arrived
      else FedBy(remoteSet, waiting + [candidate], up, ended, h') && h'.fed <= h'.arrived
  {
    if h.fed + waiting == h.arrived {
      assert h.fed + (waiting + [candidate]) == h.arrived + [candidate];
      assert waiting == [] ==> h.fed == h.arrived;
    }
  }

  lemma AcceptedKeeps(w: World)
    requires Inv(w) && w.phase.Incoming?
    ensures Inv(Accepted(w))
  {
    OnlyTheCall(w, Accepted(w), w.call.value);
  }

  lemma ConnectedKeeps(w: World)
    requires Inv(w) && w.phase.Connecting?
    ensures Inv(To(w, Active).(guard := None))
  {
    OnlyTheCall(w, To(w, Active).(guard := None), w.call.value);
  }

  lemma RememberedHolds(recent: seq<int>, id: int)
    ensures id in Remembered(recent, id)
  {
    var all := recent + [id];
    assert all[|all| - 1] == id;
    if |all| > REMEMBERED {
      assert all[1..][|all| - 2] == id;
    }
  }

  /** The call at hand changed, and nothing else that the invariant is about. */
  lemma OnlyTheCall(w: World, v: World, id: int)
    requires Sound(w) && w.call == Some(id) && v.call == Some(id) && Known(v)
    requires v.calls.Keys == w.calls.Keys && forall k | k in w.calls && k != id :: v.calls[k] == w.calls[k]
    requires Current(v, id, v.calls[id])
    requires v.sounding <==> v.phase.Outgoing? && v.phase.ringing
    requires v.guard.Some? ==> v.guard.value.id == id
    ensures Sound(v)
  {
  }

  lemma FinishedKeeps(w: World, reason: Reason)
    requires Sound(w) && w.call.Some? && !IsIdle(w.phase)
    ensures Inv(Finished(w, w.call.value, reason))
  {
    var id := w.call.value;
    var v := Finished(w, id, reason);
    EndedNow(w, id, w.calls[id], reason);
    OnlyTheCall(w, v, id);
  }

  lemma EndedNow(w: World, id: int, h: History, reason: Reason)
    requires id in w.calls && h == w.calls[id] && Current(w, id, h) && !IsIdle(w.phase)
    ensures var v := Finished(w, id, reason); Current(v, id, v.calls[id])
  {
    assert h.frames[..|h.frames|] == h.frames;
    RememberedHolds(w.recent, id);
    SameButEnds(w, Finished(w, id, reason), id, h, h.(over := Some(|h.frames|)));
  }

  /** Appending to the frames of a call breaks none of its order, if what is appended may follow. */
  lemma MoreFrames(h: History, f: Frame)
    requires Orderly(h)
    requires f.EndFrame? ==> h.over.Some?
    requires f.OfferFrame? ==> !h.incoming && Tallied(h.frames).offers == 0
    requires f.AnswerFrame? ==> h.incoming && Tallied(h.frames).answers == 0
    requires !f.IceFrame?
    ensures Orderly(h.(frames := h.frames + [f]))
  {
    var more := h.frames + [f];
    OneMore(h.frames, f);
    if h.over.Some? {
      assert more[..h.over.value] == h.frames[..h.over.value];
    }
  }

  lemma BrokenKeeps(w: World, said: Reason, shown: Reason)
    requires Sound(w) && w.call.Some?
    ensures Inv(Broken(w, w.call.value, said, shown))
  {
    var id := w.call.value;
    if w.phase.Ended? {
      SaidLate(w, id, w.calls[id], said);
      OnlyTheCall(w, Handed(w, id, EndFrame(said)), id);
    } else {
      BrokenOff(w, id, said, shown);
    }
  }

  lemma BrokenOff(w: World, id: int, said: Reason, shown: Reason)
    requires Sound(w) && w.call == Some(id) && !IsIdle(w.phase)
    ensures Inv(Broken(w, id, said, shown))
  {
    SaidAndEnded(w, id, w.calls[id], said, shown);
    var v := Broken(w, id, said, shown);
    assert v.call == w.call && v.work == w.work && v.applying == w.applying && v.guard.None? && v.phase == Ended(shown);
    assert v.calls.Keys == w.calls.Keys;
    OnlyTheCall(w, v, id);
  }

  lemma SaidLate(w: World, id: int, h: History, said: Reason)
    requires id in w.calls && h == w.calls[id] && Current(w, id, h) && w.phase.Ended?
    ensures var v := Handed(w, id, EndFrame(said)); Current(v, id, v.calls[id])
  {
    var v := Handed(w, id, EndFrame(said));
    OneMore(h.frames, EndFrame(said));
    MoreFrames(h, EndFrame(said));
    SameButEnds(w, v, id, h, v.calls[id]);
  }

  lemma SaidAndEnded(w: World, id: int, h: History, said: Reason, shown: Reason)
    requires id in w.calls && h == w.calls[id] && Current(w, id, h) && !IsIdle(w.phase)
    ensures var v := Broken(w, id, said, shown); Current(v, id, v.calls[id])
  {
    var v := Broken(w, id, said, shown);
    OneMore(h.frames, EndFrame(said));
    EndedBy(h, EndFrame(said));
    RememberedHolds(w.recent, id);
    SameButEnds(w, v, id, h, v.calls[id]);
  }

  /** A call over, or ended now: an end handed over changes nothing else of it. */
  lemma SameButEnds(w: World, v: World, id: int, h: History, h': History)
    requires Current(w, id, h) && v.phase.Ended? && id in v.recent && Orderly(h') && h'.over.Some?
    requires h' == h.(frames := h'.frames, over := h'.over)
    requires Tallied(h'.frames) == Tallied(h.frames).(ends := Tallied(h'.frames).ends)
    requires v.work == w.work && v.applying == w.applying && (v.media == w.media || v.media.None?)
    requires v.localSent == w.localSent && v.remoteSet == w.remoteSet && v.accepted == w.accepted && v.offer == w.offer
    requires v.incoming == w.incoming && v.remoteBuffer == w.remoteBuffer && v.localBuffer == w.localBuffer
    requires w.phase.Ended? ==> v.media == w.media
    ensures Current(v, id, h')
  {
    ProgressSame(w, v, id, h, h');
  }

  lemma ProgressSame(w: World, v: World, id: int, h: History, h': History)
    requires Progress(w, id, h)
    requires v.work == w.work && v.localSent == w.localSent && v.remoteSet == w.remoteSet && v.accepted == w.accepted && v.offer == w.offer
    requires h'.incoming == h.incoming && h'.opens == h.opens && h'.described == h.described
    requires Tallied(h'.frames).offers == Tallied(h.frames).offers && Tallied(h'.frames).answers == Tallied(h.frames).answers
    ensures Progress(v, id, h')
  {
  }

  lemma EndedBy(h: History, f: Frame)
    requires Orderly(h) && h.over.None? && f.EndFrame?
    ensures Orderly(h.(frames := h.frames + [f], over := Some(|h.frames| + 1)))
  {
    var more := h.frames + [f];
    OneMore(h.frames, f);
    assert more[..|more|] == more;
  }

  // ---- the steps that resume -------------------------------------------------------------------

  /** A step of a call the manager no longer holds touches nothing it holds. */
  lemma StaleKeeps(w: World, v: World)
    requires Inv(w) && Known(v) && v == w.(work := v.work, applying := v.applying)
    requires w.call.Some? ==>
      var id := w.call.value;
      (id in v.work <==> id in w.work) && (id in w.work ==> v.work[id] == w.work[id]) && (id in v.applying <==> id in w.applying)
    ensures Inv(v)
  {
    if w.call.Some? {
      var id := w.call.value;
      var h := w.calls[id];
      assert Current(w, id, h);
      assert Wired(v, h) && Fed(v, h) && Phased(v, id, h) && Progress(v, id, h);
    }
  }

  /** The step of the call at hand gave up: what remains is sound, and ending the call makes it whole. */
  lemma GaveUp(w: World, id: int)
    requires Inv(w) && w.call == Some(id) && id in w.work
    ensures Sound(w.(work := Without(w.work, id)))
  {
    var v := w.(work := Without(w.work, id));
    var h := w.calls[id];
    assert Current(w, id, h);
    assert Wired(v, h) && Fed(v, h) && Phased(v, id, h) && Progress(v, id, h);
    OnlyTheCall(w, v, id);
  }

  /** The step moves on to its next wait. */
  lemma MovedOn(w: World, v: World, id: int)
    requires Sound(w) && w.call == Some(id) && id in w.work && id in v.work && v.work == w.work[id := v.work[id]]
    requires v.call == w.call && v.phase == w.phase && v.incoming == w.incoming && v.offer == w.offer && v.accepted == w.accepted
    requires v.guard == w.guard && v.sounding == w.sounding && v.recent == w.recent && v.applying == w.applying
    requires id in w.calls && id in v.calls && v.calls == w.calls[id := v.calls[id]] && v.calls[id].over == w.calls[id].over && v.calls[id].incoming == w.calls[id].incoming
    requires v.media.Some? ==> v.media == Some(id) && v.calls[id].opens == 1
    requires v.calls[id].opens == 1 && !w.phase.Ended? ==> v.media.Some?
    requires w.phase.Outgoing? ==> v.calls[id].described == 0
    requires id in w.applying ==> v.calls[id].described == 1 && !v.remoteSet
    requires Orderly(v.calls[id]) && Wired(v, v.calls[id]) && Fed(v, v.calls[id]) && Progress(v, id, v.calls[id])
    ensures Inv(v)
  {
    var h, h' := w.calls[id], v.calls[id];
    assert Phased(w, id, h);
    assert Phased(v, id, h');
    OnlyTheCall(w, v, id);
  }

  lemma PlacedKeeps(w: World, id: int, stage: Stage, ok: bool)
    requires Inv(w) && id in w.work && w.work[id] == Placing(stage)
    ensures Inv(Placed(w, id, stage, ok))
  {
    if w.call != Some(id) {
      StaleKeeps(w, Placed(w, id, stage, ok));
    } else if ok || stage == Socket {
      PlacedOn(w, id, stage, ok);
    } else {
      PlacedFails(w, id, stage);
    }
  }

  lemma PlacedOn(w: World, id: int, stage: Stage, ok: bool)
    requires Inv(w) && id in w.work && w.work[id] == Placing(stage) && w.call == Some(id) && (ok || stage == Socket)
    ensures Inv(Placed(w, id, stage, ok))
  {
    var v := Placed(w, id, stage, ok);
    var h := w.calls[id];
    assert Current(w, id, h);
    match stage {
      case Microphone => MovedOn(w, v, id);
      case Socket => MovedOn(w, v, id);
      case Servers => OpenedKeeps(w, v, id, h);
      case Creating => OfferedKeeps(w, v, id, h);
      case _ => SentKeeps(w, v, id, h);
    }
  }

  lemma PlacedFails(w: World, id: int, stage: Stage)
    requires Inv(w) && id in w.work && w.work[id] == Placing(stage) && w.call == Some(id) && stage != Socket
    ensures Inv(Placed(w, id, stage, false))
  {
    var done := w.(work := Without(w.work, id));
    GaveUp(w, id);
    if stage == Microphone {
      if !IsIdle(w.phase) {
        FinishedKeeps(done, MicrophoneDenied);
      } else {
        GaveUpLate(w, id);
      }
    } else {
      BrokenKeeps(done, Cancel, Failed);
    }
  }

  lemma GaveUpLate(w: World, id: int)
    requires Inv(w) && w.call == Some(id) && id in w.work && w.phase.Ended?
    ensures Inv(w.(work := Without(w.work, id)))
  {
    GaveUp(w, id);
  }

  lemma OpenedKeeps(w: World, v: World, id: int, h: History)
    requires Inv(w) && w.call == Some(id) && id in w.work && id in w.calls && h == w.calls[id]
    requires (w.work[id] == Placing(Servers) && v == Opened(w, id, false).(work := w.work[id := Placing(Creating)]))
      || (w.work[id] == Answering(Servers) && v == Opened(w, id, true).(work := w.work[id := Answering(Describing)]))
    ensures Inv(v)
  {
    assert Current(w, id, h);
    var h' := v.calls[id];
    assert Orderly(h') && Wired(v, h') && Fed(v, h') && Progress(v, id, h');
    MovedOn(w, v, id);
  }

  lemma OfferedKeeps(w: World, v: World, id: int, h: History)
    requires Inv(w) && w.call == Some(id) && id in w.work && id in w.calls && h == w.calls[id]
    requires w.work[id] == Placing(Creating) && v == Handed(w, id, OfferFrame).(work := w.work[id := Placing(Sending)])
    ensures Inv(v)
  {
    assert Current(w, id, h);
    var h' := v.calls[id];
    OneMore(h.frames, OfferFrame);
    MoreFrames(h, OfferFrame);
    assert Wired(v, h') && Fed(v, h') && Progress(v, id, h');
    MovedOn(w, v, id);
  }

  lemma RepliedKeeps(w: World, v: World, id: int, h: History)
    requires Inv(w) && w.call == Some(id) && id in w.work && id in w.calls && h == w.calls[id]
    requires w.work[id] == Answering(Creating) && v == Handed(w, id, AnswerFrame).(work := w.work[id := Answering(Sending)])
    ensures Inv(v)
  {
    assert Current(w, id, h);
    var h' := v.calls[id];
    OneMore(h.frames, AnswerFrame);
    MoreFrames(h, AnswerFrame);
    assert Wired(v, h') && Fed(v, h') && Progress(v, id, h');
    MovedOn(w, v, id);
  }

  lemma DescribedKeeps(w: World, v: World, id: int, h: History)
    requires Inv(w) && w.call == Some(id) && id in w.work && id in w.calls && h == w.calls[id]
    requires w.work[id] == Answering(Describing) && v == Described(w, id).(work := w.work[id := Answering(Creating)])
    ensures Inv(v)
  {
    assert Current(w, id, h);
    var h' := v.calls[id];
    assert Orderly(h') && Wired(v, h') && Fed(v, h') && Progress(v, id, h');
    MovedOn(w, v, id);
  }

  /** Flushing what was gathered, once the offer or the answer is out. */
  lemma SentKeeps(w: World, v: World, id: int, h: History)
    requires Inv(w) && w.call == Some(id) && id in w.work && id in w.calls && h == w.calls[id] && w.work[id].stage == Sending
    requires v == Sent(w.(work := Without(w.work, id)), id).(guard := v.guard) && (v.guard.Some? ==> v.guard.value.id == id)
    ensures Inv(v)
  {
    var h' := v.calls[id];
    assert Current(w, id, h);
    SentOrder(w, h, h');
    assert Wired(v, h') && Fed(v, h') && Phased(v, id, h') && Progress(v, id, h');
    OnlyTheCall(w, v, id);
  }

  lemma SentOrder(w: World, h: History, h': History)
    requires Orderly(h) && Wired(w, h) && Tallied(h.frames).offers + Tallied(h.frames).answers == 1
    requires h' == h.(frames := h.frames + IceFrames(w.localBuffer))
    ensures Orderly(h') && Tallied(h'.frames) == Tallied(h.frames).(ices := h.gathered)
  {
    Flushed(h.frames, w.localBuffer);
    if h.over.Some? {
      assert h'.frames[..h.over.value] == h.frames[..h.over.value];
    }
  }

  lemma AnsweredKeeps(w: World, id: int, stage: Stage, ok: bool)
    requires Inv(w) && id in w.work && w.work[id] == Answering(stage)
    ensures Inv(Answered(w, id, stage, ok))
  {
    if w.call != Some(id) {
      StaleKeeps(w, Answered(w, id, stage, ok));
    } else if ok {
      AnsweredOn(w, id, stage);
    } else {
      GaveUp(w, id);
      BrokenKeeps(w.(work := Without(w.work, id)), if stage == Microphone then Decline else Failed,
                  if stage == Microphone then MicrophoneDenied else Failed);
    }
  }

  lemma AnsweredOn(w: World, id: int, stage: Stage)
    requires Inv(w) && id in w.work && w.work[id] == Answering(stage) && w.call == Some(id)
    ensures Inv(Answered(w, id, stage, true))
  {
    var v := Answered(w, id, stage, true);
    var h := w.calls[id];
    assert Current(w, id, h);
    match stage {
      case Microphone => MovedOn(w, v, id);
      case Servers => OpenedKeeps(w, v, id, h);
      case Describing => DescribedKeeps(w, v, id, h);
      case Creating => RepliedKeeps(w, v, id, h);
      case _ => SentKeeps(w, v, id, h);
    }
  }

  lemma AppliedKeeps(w: World, id: int, ok: bool)
    requires Inv(w) && Enabled(w, Applied(id, ok))
    ensures Inv(Do(w, Applied(id, ok)))
  {
    var done := w.(applying := w.applying - {id});
    if w.call != Some(id) {
      StaleKeeps(w, done);
    } else {
      var h := w.calls[id];
      assert Current(w, id, h);
      assert Wired(done, h) && Fed(done, h) && Phased(done, id, h) && Progress(done, id, h);
      OnlyTheCall(w, done, id);
      if ok {
        AnswerApplied(w, id, h);
      } else {
        BrokenKeeps(done, Failed, Failed);
      }
    }
  }

  lemma AnswerApplied(w: World, id: int, h: History)
    requires Inv(w) && w.call == Some(id) && id in w.applying && id in w.calls && h == w.calls[id]
    ensures Inv(Described(w.(applying := w.applying - {id}), id))
  {
    var v := Described(w.(applying := w.applying - {id}), id);
    var h' := v.calls[id];
    assert Current(w, id, h);
    assert Orderly(h') && Wired(v, h') && Fed(v, h');
    assert Phased(v, id, h') && Progress(v, id, h');
    OnlyTheCall(w, v, id);
  }

  lemma GatheredKeeps(w: World, id: int, candidate: int)
    requires Inv(w) && w.media == Some(id)
    ensures Inv(Do(w, Gathered(id, candidate)))
  {
    var v := Do(w, Gathered(id, candidate));
    var h, h' := w.calls[id], v.calls[id];
    assert Current(w, id, h);
    GatheredOrder(w, h, h', candidate);
    assert Wired(v, h') && Fed(v, h') && Phased(v, id, h');
    ProgressSame(w, v, id, h, h');
    OnlyTheCall(w, v, id);
  }

  lemma GatheredOrder(w: World, h: History, h': History, candidate: int)
    requires Orderly(h) && Wired(w, h)
    requires h' == h.(gathered := h.gathered + [candidate], frames := if w.localSent then h.frames + [IceFrame(candidate)] else h.frames)
    ensures Orderly(h')
    ensures Tallied(h'.frames) == Tallied(h.frames).(ices := if w.localSent then h'.gathered else [])
    ensures w.localSent || h.gathered + [candidate] == Tallied(h'.frames).ices + (w.localBuffer + [candidate])
  {
    OneMore(h.frames, IceFrame(candidate));
    if h.over.Some? {
      assert h'.frames[..h.over.value] == h.frames[..h.over.value];
    }
  }

  lemma GuardKeeps(w: World)
    requires Inv(w) && Enabled(w, GuardFires)
    ensures Inv(Do(w, GuardFires))
  {
    var g := w.guard.value;
    var v := w.(guard := None);
    var h := w.calls[g.id];
    assert Current(w, g.id, h);
    assert Wired(v, h) && Fed(v, h) && Phased(v, g.id, h) && Progress(v, g.id, h);
    OnlyTheCall(w, v, g.id);
    if !IsIdle(w.phase) {
      if g.sendsFrame {
        BrokenKeeps(v, Failed, g.reason);
      } else {
        FinishedKeeps(v, g.reason);
      }
    }
  }

  lemma StepKeeps(w: World, step: Step)
    requires Inv(w) && Enabled(w, step)
    ensures Inv(Do(w, step))
  {
    if step.Start? {
      StartKeeps(w, step.id);
    } else if step.Push? {
      PushedKeeps(w, step.id);
    } else if step.HearOffer? {
      HeardOfferKeeps(w, step.id);
    } else if step.HearAnswer? {
      HeardAnswerKeeps(w, step.id);
    } else if step.HearIce? {
      HeardIceKeeps(w, step.id, step.candidate);
    } else if step.Resume? {
      ResumeKeeps(w, step.id, step.ok);
    } else if step.Applied? {
      AppliedKeeps(w, step.id, step.ok);
    } else if step.Gathered? {
      if w.media == Some(step.client) {
        GatheredKeeps(w, step.client, step.candidate);
      }
    } else if step.GuardFires? {
      GuardKeeps(w);
    } else if step.LingerFires? {
      ResetKeeps(w);
    } else if step.HearRinging? || step.Accept? || step.Connected? {
      PhaseKeeps(w, step);
    } else {
      EndingKeeps(w, step);
    }
  }

  lemma ResumeKeeps(w: World, id: int, ok: bool)
    requires Inv(w) && Enabled(w, Resume(id, ok))
    ensures Inv(Do(w, Resume(id, ok)))
  {
    match w.work[id] {
      case Placing(stage) => PlacedKeeps(w, id, stage, ok);
      case Answering(stage) => AnsweredKeeps(w, id, stage, ok);
    }
  }

  lemma PhaseKeeps(w: World, step: Step)
    requires Inv(w) && Enabled(w, step) && (step.HearRinging? || step.Accept? || step.Connected?)
    ensures Inv(Do(w, step))
  {
    if w.phase.Outgoing? {
      RingingKeeps(w);
    }
    if w.phase.Incoming? {
      AcceptedKeeps(w);
    }
    if w.phase.Connecting? {
      ConnectedKeeps(w);
    }
  }

  lemma EndingKeeps(w: World, step: Step)
    requires Inv(w) && Enabled(w, step) && (step.HearEnd? || step.HearError? || step.DeclineIt? || step.HangUp? || step.MediaFailed?)
    ensures Inv(Do(w, step))
  {
    if w.call.Some? {
      if step.HearEnd? || step.HearError? {
        if !IsIdle(w.phase) {
          FinishedKeeps(w, step.reason);
        }
      } else if step.HangUp? {
        BrokenKeeps(w, EndReason(w.phase), EndReason(w.phase));
      } else if step.DeclineIt? {
        BrokenKeeps(w, Decline, Decline);
      } else {
        BrokenKeeps(w, Failed, Failed);
      }
    }
  }
}
