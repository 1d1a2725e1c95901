/**
 * The call state machine of one device: phases, two candidate buffers, push/offer/accept races, and the
 * asynchronous steps that go on after a call is over (ios/FamilyConnect/Core/Calls/CallManager.swift).
 * Everything between two awaits is one step.
 */
module Calls {
  import opened Wrappers

  datatype Reason = Hangup | Decline | Cancel | Timeout | Failed | MicrophoneDenied | Other(code: int)

  datatype Phase =
    | Idle
    | Outgoing(ringing: bool)
    | Incoming
    | Connecting
    | Active
    | Ended(reason: Reason)

  /** A signalling frame handed to the socket for one call. */
  datatype Frame = OfferFrame | AnswerFrame | IceFrame(candidate: int) | EndFrame(reason: Reason)

  /**
   * What has happened to one call: candidates its media gathered, candidates that arrived for it and those
   * its media was given, media clients opened, remote descriptions applied, frames handed over, and how many
   * had been when it was over.
   */
  datatype History = History(
    incoming: bool, gathered: seq<int>, arrived: seq<int>, fed: seq<int>, opens: nat, described: nat,
    frames: seq<Frame>, over: Option<nat>)

  /** Where a placing or answering step is waiting. */
  datatype Stage = Microphone | Socket | Servers | Describing | Creating | Sending
  datatype Work = Placing(stage: Stage) | Answering(stage: Stage)
  datatype Guard = Guard(id: int, reason: Reason, sendsFrame: bool)

  /** The manager's fields, the steps waiting to resume (by call), and every call's history. */
  datatype World = World(
    phase: Phase, call: Option<int>, incoming: bool, media: Option<int>,
    offer: bool, accepted: bool, remoteSet: bool, localSent: bool,
    remoteBuffer: seq<int>, localBuffer: seq<int>,
    guard: Option<Guard>, sounding: bool, recent: seq<int>,
    work: map<int, Work>, applying: set<int>, calls: map<int, History>)

  datatype Step =
    | Start(id: int)
    | Push(id: int)
    | HearOffer(id: int)
    | HearRinging(id: int)
    | HearAnswer(id: int)
    | HearIce(id: int, candidate: int)
    | HearEnd(id: int, reason: Reason)
    | HearError(id: int, reason: Reason)
    | Accept
    | DeclineIt
    | HangUp
    | Resume(id: int, ok: bool)
    | Applied(id: int, ok: bool)
    | Gathered(client: int, candidate: int)
    | Connected(client: int)
    | MediaFailed(client: int)
    | GuardFires
    | LingerFires

  // ---- the manager -----------------------------------------------------------------------------

  predicate IsIdle(phase: Phase) {
    phase.Idle? || phase.Ended?
  }

  const REMEMBERED := 16

  function Remembered(recent: seq<int>, id: int): seq<int> {
    var all := recent + [id];
    if |all| > REMEMBERED then all[1..] else all
  }

  /** transition(to:): the ringback follows the phase and nothing else (a repeat of the same phase changes neither). */
  function To(w: World, next: Phase): World {
    w.(phase := next, sounding := next.Outgoing? && next.ringing)
  }

  function Reset(w: World): World {
    To(w, Idle).(call := None, incoming := false, media := None, offer := false, accepted := false,
      remoteSet := false, localSent := false, remoteBuffer := [], localBuffer := [], guard := None)
  }

  function Begun(w: World, id: int, incoming: bool, offer: bool): World {
    To(Reset(w).(call := Some(id), incoming := incoming, offer := offer,
         calls := w.calls[id := History(incoming, [], [], [], 0, 0, [], None)]),
       if incoming then Incoming else Outgoing(false))
  }

  function Handed(w: World, id: int, frame: Frame): World
    requires id in w.calls
  {
    w.(calls := w.calls[id := w.calls[id].(frames := w.calls[id].frames + [frame])])
  }

  function Finished(w: World, id: int, reason: Reason): World
    requires id in w.calls
  {
    if IsIdle(w.phase) then w
    else
      To(w.(guard := None, media := None, recent := Remembered(w.recent, id),
            calls := w.calls[id := w.calls[id].(over := Some(|w.calls[id].frames|))]),
         Ended(reason))
  }

  /** A step that failed: say so to the far side, and end. */
  function Broken(w: World, id: int, said: Reason, shown: Reason): World
    requires id in w.calls
  {
    Finished(Handed(w, id, EndFrame(said)), id, shown)
  }

  function IceFrames(candidates: seq<int>): (r: seq<Frame>)
    ensures |r| == |candidates|
    decreases |candidates|
  {
    if candidates == [] then []
    else IceFrames(candidates[..|candidates| - 1]) + [IceFrame(candidates[|candidates| - 1])]
  }

  /** The offer or the answer went out: the candidates gathered so far follow it. */
  function Sent(w: World, id: int): World
    requires id in w.calls
  {
    w.(localSent := true, localBuffer := [],
       calls := w.calls[id := w.calls[id].(frames := w.calls[id].frames + IceFrames(w.localBuffer))])
  }

  /** The remote description is set: the candidates that waited for it go to the media, if there still is one. */
  function Described(w: World, id: int): World
    requires id in w.calls
  {
    w.(remoteSet := true, remoteBuffer := [],
       calls := if w.media.None? then w.calls
                else w.calls[id := w.calls[id].(fed := w.calls[id].fed + w.remoteBuffer)])
  }

  function Opened(w: World, id: int, describes: bool): World
    requires id in w.calls
  {
    var h := w.calls[id];
    w.(media := Some(id),
       calls := w.calls[id := h.(opens := h.opens + 1, described := h.described + if describes then 1 else 0)])
  }

  function Accepted(w: World): World
    requires w.call.Some?
  {
    var id := w.call.value;
    var v := To(w.(accepted := true, guard := Some(Guard(id, Failed, true))), Connecting);
    if w.offer then v.(work := v.work[id := Answering(Microphone)]) else v
  }

  function HeardOffer(w: World, id: int): World {
    if w.call == Some(id) then
      if !w.incoming || w.offer then w
      else
        var v := w.(offer := true);
        if w.accepted then v.(work := v.work[id := Answering(Microphone)]) else v
    else if !IsIdle(w.phase) || id in w.recent then w
    else Begun(w, id, true, true).(guard := Some(Guard(id, Timeout, false)))
  }

  function Pushed(w: World, id: int): World {
    if w.call == Some(id) || !IsIdle(w.phase) || id in w.recent then w
    else Begun(w, id, true, false).(guard := Some(Guard(id, Timeout, false)))
  }

  function HeardAnswer(w: World, id: int): World
    requires w.call == Some(id) ==> id in w.calls
  {
    if w.call == Some(id) && w.phase.Outgoing? && w.media.Some? then
      To(w, Connecting).(guard := Some(Guard(id, Failed, true)), applying := w.applying + {id},
        calls := w.calls[id := w.calls[id].(described := w.calls[id].described + 1)])
    else w
  }

  function HeardIce(w: World, id: int, candidate: int): World
    requires w.call == Some(id) ==> id in w.calls
  {
    if w.call != Some(id) then w
    else
      var h := w.calls[id];
      if w.remoteSet && w.media.Some? then
        w.(calls := w.calls[id := h.(arrived := h.arrived + [candidate], fed := h.fed + [candidate])])
      else
        w.(remoteBuffer := w.remoteBuffer + [candidate],
           calls := w.calls[id := h.(arrived := h.arrived + [candidate])])
  }

  /** Hang up, cancel or decline: whichever the phase makes it. */
  function EndReason(phase: Phase): Reason {
    match phase
    case Outgoing(_) => Cancel
    case Incoming => Decline
    case _ => Hangup
  }

  function Without(work: map<int, Work>, id: int): map<int, Work> {
    map k | k in work && k != id :: work[k]
  }

  /** placeOutgoing, from one await to the next. */
  function Placed(w: World, id: int, stage: Stage, ok: bool): World
    requires id in w.calls
  {
    var done := w.(work := Without(w.work, id));
    var live := w.call == Some(id);
    match stage
    case Microphone =>
      if ok then w.(work := w.work[id := Placing(Socket)])
      else if live then Finished(done, id, MicrophoneDenied)
      else done
    case Socket => if live then w.(work := w.work[id := Placing(Servers)]) else done
    case Servers =>
      if !live then done
      else if ok then Opened(w, id, false).(work := w.work[id := Placing(Creating)])
      else Broken(done, id, Cancel, Failed)
    case Creating =>
      if !live then done
      else if ok then Handed(w, id, OfferFrame).(work := w.work[id := Placing(Sending)])
      else Broken(done, id, Cancel, Failed)
    case _ =>
      if !live then done
      else if ok then Sent(done, id).(guard := Some(Guard(id, Timeout, false)))
      else Broken(done, id, Cancel, Failed)
  }

  /** answer, from one await to the next. */
  function Answered(w: World, id: int, stage: Stage, ok: bool): World
    requires id in w.calls
  {
    var done := w.(work := Without(w.work, id));
    var live := w.call == Some(id);
    match stage
    case Microphone =>
      if ok then w.(work := w.work[id := Answering(Servers)])
      else if live then Broken(done, id, Decline, MicrophoneDenied)
      else done
    case Servers =>
      if !live then done
      else if ok then Opened(w, id, true).(work := w.work[id := Answering(Describing)])
      else Broken(done, id, Failed, Failed)
    case Describing =>
      if !live then done
      else if ok then Described(w, id).(work := w.work[id := Answering(Creating)])
      else Broken(done, id, Failed, Failed)
    case Creating =>
      if !live then done
      else if ok then Handed(w, id, AnswerFrame).(work := w.work[id := Answering(Sending)])
      else Broken(done, id, Failed, Failed)
    case _ =>
      if !live then done
      else if ok then Sent(done, id)
      else Broken(done, id, Failed, Failed)
  }

  // ---- one step --------------------------------------------------------------------------------

  /** What every state keeps of its bookkeeping. */
  ghost predicate Known(w: World) {
    && (w.call.Some? ==> w.call.value in w.calls)
    && (forall id | id in w.work :: id in w.calls)
    && w.applying <= w.calls.Keys
    && (w.guard.Some? ==> w.call.Some?)
    && (!IsIdle(w.phase) ==> w.call.Some?)
    && (w.media.Some? ==> w.call.Some?)
  }

  /**
   * When a step can happen. A minted id is new; and the server rings no call again that this device has
   * forgotten ending (it remembers the last sixteen).
   */
  ghost predicate Enabled(w: World, step: Step) {
    && Known(w)
    && match step
       case Start(id) => id !in w.calls
       case Push(id) => w.call == Some(id) || id in w.recent || id !in w.calls
       case HearOffer(id) => w.call == Some(id) || id in w.recent || id !in w.calls
       case Resume(id, ok) => id in w.work
       case Applied(id, ok) => id in w.applying
       case GuardFires => w.guard.Some?
       case LingerFires => w.phase.Ended?
       case _ => true
  }

  ghost function Do(w: World, step: Step): World
    requires Enabled(w, step)
  {
    match step
    case Start(id) =>
      if IsIdle(w.phase) then Begun(w, id, false, false).(work := w.work[id := Placing(Microphone)]) else w
    case Push(id) => Pushed(w, id)
    case HearOffer(id) => HeardOffer(w, id)
    case HearRinging(id) => if w.call == Some(id) && w.phase.Outgoing? then To(w, Outgoing(true)) else w
    case HearAnswer(id) => HeardAnswer(w, id)
    case HearIce(id, candidate) => HeardIce(w, id, candidate)
    case HearEnd(id, reason) => if w.call == Some(id) then Finished(w, id, reason) else w
    case HearError(id, reason) => if w.call == Some(id) then Finished(w, id, reason) else w
    case Accept => if w.phase.Incoming? then Accepted(w) else w
    case DeclineIt => if w.phase.Incoming? then Broken(w, w.call.value, Decline, Decline) else w
    case HangUp =>
      if IsIdle(w.phase) then w
      else Broken(w, w.call.value, EndReason(w.phase), EndReason(w.phase))
    case Resume(id, ok) =>
      (match w.work[id]
       case Placing(stage) => Placed(w, id, stage, ok)
       case Answering(stage) => Answered(w, id, stage, ok))
    case Applied(id, ok) =>
      var v := w.(applying := w.applying - {id});
      if w.call != Some(id) then v
      else if ok then Described(v, id)
      else Broken(v, id, Failed, Failed)
    case Gathered(client, candidate) =>
      if w.media != Some(client) then w
      else
        var id := w.call.value;
        var h := w.calls[id].(gathered := w.calls[id].gathered + [candidate]);
        if w.localSent then w.(calls := w.calls[id := h.(frames := h.frames + [IceFrame(candidate)])])
        else w.(localBuffer := w.localBuffer + [candidate], calls := w.calls[id := h])
    case Connected(client) =>
      if w.media == Some(client) && w.phase.Connecting? then To(w, Active).(guard := None) else w
    case MediaFailed(client) =>
      if w.media == Some(client) then Broken(w, w.call.value, Failed, Failed) else w
    case GuardFires =>
      var g := w.guard.value;
      var v := w.(guard := None);
      if w.call != Some(g.id) || IsIdle(w.phase) then v
      else Finished(if g.sendsFrame then Handed(v, g.id, EndFrame(Failed)) else v, g.id, g.reason)
    case LingerFires => Reset(w)
  }

  // ---- what the frames of one call say ---------------------------------------------------------

  /** The candidates among some frames in order, how many offers, answers and ends, and whether no candidate precedes both offer and answer. */
  datatype Tally = Tally(ices: seq<int>, offers: nat, answers: nat, ends: nat, ordered: bool)

  function Counted(t: Tally, f: Frame): Tally {
    match f
    case OfferFrame => t.(offers := t.offers + 1)
    case AnswerFrame => t.(answers := t.answers + 1)
    case IceFrame(candidate) => t.(ices := t.ices + [candidate], ordered := t.ordered && t.offers + t.answers > 0)
    case EndFrame(_) => t.(ends := t.ends + 1)
  }

  function Tallied(frames: seq<Frame>): Tally
    decreases |frames|
  {
    if frames == [] then Tally([], 0, 0, 0, true)
    else Counted(Tallied(frames[..|frames| - 1]), frames[|frames| - 1])
  }

  lemma OneMore(frames: seq<Frame>, f: Frame)
    ensures Tallied(frames + [f]) == Counted(Tallied(frames), f)
  {
    assert (frames + [f])[..|frames|] == frames;
  }

  lemma {:induction false} Flushed(frames: seq<Frame>, candidates: seq<int>)
    ensures var t := Tallied(frames);
      Tallied(frames + IceFrames(candidates)) ==
      t.(ices := t.ices + candidates, ordered := t.ordered && (candidates != [] ==> t.offers + t.answers > 0))
    decreases |candidates|
  {
    if candidates == [] {
      assert frames + [] == frames;
    } else {
      var n := |candidates| - 1;
      var shorter := candidates[..n];
      Flushed(frames, shorter);
      OneMore(frames + IceFrames(shorter), IceFrame(candidates[n]));
      assert frames + IceFrames(candidates) == frames + IceFrames(shorter) + [IceFrame(candidates[n])];
      assert candidates == shorter + [candidates[n]];
    }
  }

  // ---- what holds of every call ----------------------------------------------------------------

  /** Of every call, live or over, however its steps were interleaved. */
  ghost predicate Orderly(h: History) {
    var t := Tallied(h.frames);
    && t.ices <= h.gathered && t.ordered
    && h.fed <= h.arrived && (h.fed != [] ==> h.described == 1)
    && h.opens <= 1 && h.described <= 1
    && t.offers <= (if h.incoming then 0 else 1)
    && t.answers <= (if h.incoming then 1 else 0)
    && (if h.over.None? then t.ends == 0
        else h.over.value <= |h.frames| && Tallied(h.frames[..h.over.value]).ends <= 1)
  }

  /** Where the placing or answering of the call at hand stands, and what it has done so far. */
  ghost predicate Progress(w: World, id: int, h: History) {
    if id in w.work then
      match w.work[id]
      case Placing(stage) =>
        && !h.incoming && !w.localSent && (!w.remoteSet || h.described == 1)
        && (match stage
            case Microphone => h.opens == 0 && Tallied(h.frames).offers == 0
            case Socket => h.opens == 0 && Tallied(h.frames).offers == 0
            case Servers => h.opens == 0 && Tallied(h.frames).offers == 0
            case Creating => h.opens == 1 && Tallied(h.frames).offers == 0
            case Sending => h.opens == 1 && Tallied(h.frames).offers == 1
            case Describing => false)
      case Answering(stage) =>
        && h.incoming && w.accepted && w.offer && !w.localSent
        && (match stage
            case Microphone => h.opens == 0 && h.described == 0 && Tallied(h.frames).answers == 0 && !w.remoteSet
            case Servers => h.opens == 0 && h.described == 0 && Tallied(h.frames).answers == 0 && !w.remoteSet
            case Describing => h.opens == 1 && h.described == 1 && Tallied(h.frames).answers == 0 && !w.remoteSet
            case Creating => h.opens == 1 && h.described == 1 && Tallied(h.frames).answers == 0
            case Sending => h.opens == 1 && h.described == 1 && Tallied(h.frames).answers == 1
            case Socket => false)
    else if h.incoming && !(w.accepted && w.offer) then
      h.opens == 0 && h.described == 0 && Tallied(h.frames).answers == 0 && !w.localSent && !w.remoteSet
    else h.incoming && w.localSent ==> h.described == 1
  }

  /** The candidates this side gathered: all handed over, in order, or all waiting for the description to go. */
  ghost predicate Wired(w: World, h: History) {
    && Tallied(h.frames).ices + w.localBuffer == h.gathered
    && (w.localSent ==> w.localBuffer == [] && Tallied(h.frames).offers + Tallied(h.frames).answers == 1)
    && (!w.localSent ==> Tallied(h.frames).ices == [])
  }

  /** The candidates of the far side: all given to the media or waiting for the remote description — until the call is over. */
  ghost predicate FedBy(remoteSet: bool, waiting: seq<int>, up: bool, ended: bool, h: History) {
    && (remoteSet ==> h.described == 1) && (!remoteSet ==> h.fed == [])
    && (h.described == 1 ==> h.opens == 1)
    && ((h.fed + waiting == h.arrived && (remoteSet && up ==> waiting == []))
        || (ended && !up && h.opens == 1))
  }

  ghost predicate Fed(w: World, h: History) {
    FedBy(w.remoteSet, w.remoteBuffer, w.media.Some?, w.phase.Ended?, h)
  }

  ghost predicate Phased(w: World, id: int, h: History) {
    && !w.phase.Idle?
    && (h.over.Some? <==> w.phase.Ended?)
    && (w.phase.Ended? ==> id in w.recent)
    && w.incoming == h.incoming
    && (w.phase.Incoming? ==> w.incoming && !w.accepted)
    && (w.phase.Outgoing? ==> !w.incoming && h.described == 0)
    && (w.phase.Connecting? || w.phase.Active? ==> w.incoming ==> w.accepted)
    && (w.accepted ==> w.incoming)
    && (id in w.applying ==> !h.incoming && h.described == 1 && !w.remoteSet)
    && (w.media.Some? ==> w.media.value == id && h.opens == 1)
    && (!w.phase.Ended? && h.opens == 1 ==> w.media.Some?)
  }

  /** A live call that was accepted and has its offer is being answered, or has been. */
  ghost predicate AnsweredOnce(w: World, id: int, h: History) {
    !w.phase.Ended? && w.incoming && w.accepted && w.offer && id !in w.work ==> w.localSent && Tallied(h.frames).answers == 1
  }

  /** The call the manager holds. */
  ghost predicate Current(w: World, id: int, h: History) {
    Orderly(h) && Wired(w, h) && Fed(w, h) && Phased(w, id, h) && Progress(w, id, h)
  }

  ghost predicate Others(w: World) {
    forall id | id in w.calls && w.call != Some(id) :: Orderly(w.calls[id]) && w.calls[id].over.Some?
  }

  ghost predicate Sound(w: World) {
    && Known(w)
    && (w.phase.Idle? <==> w.call.None?)
    && (w.sounding <==> w.phase.Outgoing? && w.phase.ringing)
    && (w.guard.Some? ==> w.call == Some(w.guard.value.id))
    && Others(w)
    && (w.call.Some? ==> Current(w, w.call.value, w.calls[w.call.value]))
  }

  ghost predicate Inv(w: World) {
    Sound(w) && (w.call.Some? ==> AnsweredOnce(w, w.call.value, w.calls[w.call.value]))
  }

  // ---- whole runs ------------------------------------------------------------------------------

  /** The manager as it is made. */
  function Made(): World {
    World(Idle, None, false, None, false, false, false, false, [], [], None, false, [], map[], {}, map[])
  }

  ghost predicate Runs(w: World, steps: seq<Step>)
    decreases |steps|
  {
    steps == [] || (Enabled(w, steps[0]) && Runs(Do(w, steps[0]), steps[1..]))
  }

  ghost function After(w: World, steps: seq<Step>): World
    requires Runs(w, steps)
    decreases |steps|
  {
    if steps == [] then w else After(Do(w, steps[0]), steps[1..])
  }
}
