/**
 * What the pack's connection guard is for: runs of module PackWorld in which the server sends frames out in the order of
 * their changes and registers a socket before this device hears that it is open. PackRuns drops each rule in turn.
 */
module PackOrder {
  import opened Wrappers
  import opened Pack
  import opened PackWorld
  import opened PackSteps
  import opened PackLaws

  /** The store's own guard, and what the server would have to promise: frames in turn, and the socket registered first. */
  datatype Rules = Rules(guarded: bool, inTurn: bool, registeredFirst: bool)

  const ALL := Rules(true, true, true)

  predicate Follows(r: Rules, w: World, step: Step) {
    && (r.inTurn && step.Publish? ==> step.i == |w.published|)
    && (r.registeredFirst && step.Open? ==> w.registered)
  }

  ghost predicate Follow(r: Rules, w: World, steps: seq<Step>)
    requires Runs(r.guarded, w, steps)
    decreases |steps|
  {
    steps == [] || (Follows(r, w, steps[0]) && Follow(r, Do(r.guarded, w, steps[0]), steps[1..]))
  }

  // ---- what orderly steps keep -----------------------------------------------------------------

  /** Applied for good: the removal is remembered; the add is held, or its item remembered as gone. */
  predicate InHand(s: Held, e: Item) {
    e.id in s.gone || (!e.deleted && e.id in s.items && s.items[e.id] == e)
  }

  ghost predicate InOrder(w: World) {
    |w.published| <= |w.log| && forall k | 0 <= k < |w.published| :: w.published[k] == k
  }

  /** Everything committed since the open socket was registered is in hand, queued or not sent out yet; a caught-up cursor is past the rest. */
  ghost predicate FramesOk(w: World) {
    && w.head <= |w.log| && w.base <= |w.log|
    && (w.listening ==> w.registered)
    && (w.registered && !w.listening ==> w.head <= w.base)
    && (w.listening ==> forall i | w.base <= i < w.head :: InHand(w.store, w.log[i]))
    && (w.listening && w.store.caughtUp ==> forall i | 0 <= i < w.base :: w.log[i].packSeq <= w.store.cursor)
  }

  /** An answer taken by a pass that began on the open connection was taken after the server registered it. */
  ghost predicate Timely(w: World) {
    match w.pass
    case Marked(began, at) => w.listening && began == w.store.connection ==> w.base <= at
    case Whole(began, at, _) => w.listening && began == w.store.connection ==> w.base <= at
    case PageIn(began, _, at) => w.listening && began == w.store.connection ==> w.base <= at
    case _ => true
  }

  /** Since the page in flight was asked for, the cursor has passed only changes in hand. */
  ghost predicate Passed(w: World) {
    w.pass.AskedPage? || w.pass.PageIn? ==>
      forall i | 0 <= i < |w.log| && w.pass.was < w.log[i].packSeq <= w.store.cursor :: InHand(w.store, w.log[i])
  }

  ghost predicate OrderInv(w: World) {
    Inv(w) && InOrder(w) && FramesOk(w) && Timely(w) && Passed(w)
  }

  /** A store that keeps in hand what was, and moves no cursor back. */
  ghost predicate Keeps(log: seq<Item>, s: Held, t: Held) {
    && s.cursor <= t.cursor && t.connection == s.connection && t.caughtUp == s.caughtUp
    && forall e | e in log && InHand(s, e) :: InHand(t, e)
  }

  lemma KeepsFrames(w: World, t: Held)
    requires Inv(w) && InOrder(w) && FramesOk(w) && Keeps(w.log, w.store, t)
    ensures FramesOk(w.(store := t))
  {
    if w.listening {
      forall i | w.base <= i < w.head
        ensures InHand(t, w.log[i])
      {
        assert InHand(w.store, w.log[i]) && w.log[i] in w.log;
      }
    }
  }

  lemma KeepsPassed(w: World, t: Held)
    requires Passed(w) && Keeps(w.log, w.store, t)
    requires forall i | 0 <= i < |w.log| && w.store.cursor < w.log[i].packSeq <= t.cursor :: InHand(t, w.log[i])
    ensures Passed(w.(store := t))
  {
    if w.pass.AskedPage? || w.pass.PageIn? {
      forall i | 0 <= i < |w.log| && w.pass.was < w.log[i].packSeq <= t.cursor
        ensures InHand(t, w.log[i])
      {
        assert w.log[i] in w.log;
      }
    }
  }

  lemma AppliedKeepsHand(log: seq<Item>, s: Held, v: Item)
    requires GoodLog(log) && Authentic(log, s) && v in log
    ensures InHand(Applied(s, v), v) && forall e | e in log && InHand(s, e) :: InHand(Applied(s, v), e)
  {
    var i :| 0 <= i < |log| && log[i] == v;
    if v.id in s.items {
      HeldMeets(log, s, v);
    }
    forall e | e in log && InHand(s, e)
      ensures InHand(Applied(s, v), e)
    {
      if e.id == v.id && !v.deleted && !e.deleted {
        LiveUnique(log, e, v);
      }
    }
  }

  lemma {:induction false} AppliedAllKeepsHand(log: seq<Item>, s: Held, vs: seq<Item>)
    requires GoodLog(log) && Authentic(log, s) && forall v | v in vs :: v in log
    ensures forall v | v in vs :: InHand(AppliedAll(s, vs), v)
    ensures forall e | e in log && InHand(s, e) :: InHand(AppliedAll(s, vs), e)
    decreases |vs|
  {
    if vs != [] {
      AppliedKeepsHand(log, s, vs[0]);
      AppliedIsGenuine(log, s, vs[0]);
      assert vs == [vs[0]] + vs[1..];
      AppliedAllKeepsHand(log, Applied(s, vs[0]), vs[1..]);
    }
  }

  lemma CommitInOrder(w: World, change: Item)
    requires OrderInv(w) && Enabled(w, Commit(change))
    ensures OrderInv(Do(true, w, Commit(change)))
  {
    var log' := w.log + [change];
    StepKeeps(true, w, Commit(change));
    CommitKeepsStore(w.log, w.store, change);
    assert log'[|w.log|] == change && forall i | 0 <= i < |w.log| :: log'[i] == w.log[i];
  }

  lemma SocketInOrder(w: World, step: Step)
    requires OrderInv(w) && Enabled(w, step) && Follows(ALL, w, step)
    requires step.Publish? || step.Drop? || step.Register? || step.Open? || step.Relaunch?
    ensures OrderInv(Do(true, w, step))
  {
    var w' := Do(true, w, step);
    StepKeeps(true, w, step);
    assert forall e :: InHand(w.store, e) <==> InHand(w'.store, e);
  }

  /** A frame: what the cursor moves past is in hand. */
  lemma FrameIsNext(w: World)
    requires OrderInv(w) && Enabled(w, Deliver)
    ensures var t := Received(w.store, Frame(w), LiveFrame);
      && Frame(w) == w.log[w.head] && Keeps(w.log, w.store, t) && InHand(t, Frame(w))
      && forall i | 0 <= i < |w.log| && w.store.cursor < w.log[i].packSeq <= t.cursor :: InHand(t, w.log[i])
  {
    var f := Frame(w);
    var a, t := Applied(w.store, f), Received(w.store, f, LiveFrame);
    AppliedKeepsHand(w.log, w.store, f);
    assert forall e :: InHand(a, e) <==> InHand(t, e);
    forall i | 0 <= i < |w.log| && w.store.cursor < w.log[i].packSeq <= t.cursor
      ensures InHand(t, w.log[i])
    {
      assert w.base <= i <= w.head;
      assert w.log[i] in w.log;
    }
  }

  lemma DeliverInOrder(w: World)
    requires OrderInv(w) && Enabled(w, Deliver)
    ensures OrderInv(Do(true, w, Deliver))
  {
    StepKeeps(true, w, Deliver);
    FrameTaken(w, Received(w.store, Frame(w), LiveFrame));
  }

  lemma FrameTaken(w: World, t: Held)
    requires OrderInv(w) && Enabled(w, Deliver) && t == Received(w.store, Frame(w), LiveFrame)
    ensures var v := w.(head := w.head + 1, store := t); InOrder(v) && FramesOk(v) && Timely(v) && Passed(v)
  {
    FrameIsNext(w);
    KeepsFrames(w, t);
    KeepsPassed(w, t);
    HeadMoves(w.(store := t));
  }

  lemma HeadMoves(w: World)
    requires InOrder(w) && FramesOk(w) && Passed(w) && w.listening && w.head < |w.published| && InHand(w.store, w.log[w.head])
    ensures var v := w.(head := w.head + 1); FramesOk(v) && Passed(v)
  {
  }

  /** A store that keeps what was and moves no cursor, whatever still travels. */
  lemma TravelInOrder(w: World, t: Held, posts: seq<Item>, deletes: seq<int>)
    requires OrderInv(w) && Keeps(w.log, w.store, t) && t.cursor == w.store.cursor
    ensures var v := w.(posts := posts, deletes := deletes, store := t); InOrder(v) && FramesOk(v) && Timely(v) && Passed(v)
  {
    KeepsFrames(w, t);
    KeepsPassed(w, t);
  }

  lemma PostInOrder(w: World, k: nat)
    requires OrderInv(w) && Enabled(w, LandPost(k))
    ensures OrderInv(Do(true, w, LandPost(k)))
  {
    var t := Received(w.store, w.posts[k], Evidence);
    StepKeeps(true, w, LandPost(k));
    assert w.posts[k] in w.posts;
    AppliedKeepsHand(w.log, w.store, w.posts[k]);
    assert forall e :: InHand(Applied(w.store, w.posts[k]), e) <==> InHand(t, e);
    TravelInOrder(w, t, w.posts[..k] + w.posts[k + 1..], w.deletes);
  }

  lemma DeleteInOrder(w: World, k: nat)
    requires OrderInv(w) && Enabled(w, LandDelete(k))
    ensures OrderInv(Do(true, w, LandDelete(k)))
  {
    StepKeeps(true, w, LandDelete(k));
    TravelInOrder(w, Without(w.store, w.deletes[k]), w.posts, w.deletes[..k] + w.deletes[k + 1..]);
  }

  // ---- where a pass ends -----------------------------------------------------------------------

  /** Saying "caught up" of the connection a pass began on is true of it, once the cursor is past what was answered. */
  lemma SaidInOrder(w: World, began: nat, at: nat)
    requires FramesOk(w) && InOrder(w) && at <= |w.log| && w.base <= |w.log|
    requires w.listening && began == w.store.connection ==> w.base <= at
    requires forall i | 0 <= i < at :: w.log[i].packSeq <= w.store.cursor
    ensures var v := w.(store := Said(true, w.store, began), pass := Idle); FramesOk(v) && InOrder(v) && Timely(v) && Passed(v)
  {
    var t := Said(true, w.store, began);
    assert forall e :: InHand(w.store, e) <==> InHand(t, e);
  }

  lemma DecideInOrder(w: World)
    requires OrderInv(w) && Enabled(w, Decide)
    ensures OrderInv(Do(true, w, Decide))
  {
    var at := w.pass.at;
    StepKeeps(true, w, Decide);
    PrefixGood(w.log, at);
    var mark := MarkOf(w.log[..at]);
    if mark.None? && |w.store.items| == 0 {
      SaidInOrder(w, w.pass.began, at);
    } else if mark.Some? && w.store.cursor != 0 && mark.value <= w.store.cursor {
      SaidInOrder(w, w.pass.began, at);
    }
  }

  lemma AnswersInOrder(w: World, step: Step)
    requires OrderInv(w) && Enabled(w, step)
    requires step.Begin? || step.ReadMark? || step.AnswerWhole? || step.AnswerPage? || step.Fail? || step.AnswerPost? || step.AnswerDelete?
    ensures OrderInv(Do(true, w, step))
  {
    StepKeeps(true, w, step);
  }

  lemma PageKeepsHand(w: World)
    requires OrderInv(w) && w.pass.PageIn?
    ensures var t := ReceivedPage(w.store, PageOf(w));
      Keeps(w.log, w.store, t) && t.cursor == Highest(PageOf(w), w.store.cursor)
  {
    var page := PageOf(w);
    var a, t := AppliedAll(w.store, page), ReceivedPage(w.store, page);
    PageRows(w.log, w.pass.at, w.pass.was);
    AppliedAllKeepsHand(w.log, w.store, page);
    PageKeepsStore(w);
    assert forall e :: InHand(a, e) <==> InHand(t, e);
  }

  /** A short page ends where its snapshot does. */
  lemma ShortPageReaches(w: World)
    requires Inv(w) && w.pass.PageIn? && |PageOf(w)| < PAGE_SIZE
    ensures forall i | 0 <= i < w.pass.at :: w.log[i].packSeq <= Highest(PageOf(w), w.store.cursor)
  {
    var prefix, page := w.log[..w.pass.at], PageOf(w);
    PrefixGood(w.log, w.pass.at);
    PageMembers(prefix, w.pass.was);
    HighestBounds(page, w.store.cursor);
    if w.pass.at > 0 {
      var last := prefix[w.pass.at - 1];
      assert Latest(prefix, w.pass.at - 1);
      assert last.packSeq <= Highest(page, w.store.cursor);
      forall i | 0 <= i < w.pass.at
        ensures w.log[i].packSeq <= last.packSeq
      {
        assert w.log[w.pass.at - 1] == last;
      }
    }
  }

  /** A full page moves the cursor past where it was asked from, so the loop goes on. */
  lemma FullPageMoves(w: World)
    requires Inv(w) && w.pass.PageIn? && |PageOf(w)| == PAGE_SIZE
    ensures w.pass.was < Highest(PageOf(w), w.store.cursor)
  {
    PageRows(w.log, w.pass.at, w.pass.was);
    HighestBounds(PageOf(w), w.store.cursor);
    assert PageOf(w)[0] in PageOf(w);
  }

  lemma LandPageInOrder(w: World)
    requires OrderInv(w) && Enabled(w, Land) && w.pass.PageIn?
    ensures OrderInv(Do(true, w, Land))
  {
    var page := PageOf(w);
    var t := ReceivedPage(w.store, page);
    StepKeeps(true, w, Land);
    PageKeepsHand(w);
    KeepsFrames(w, t);
    assert |page| <= PAGE_SIZE;
    if |page| < PAGE_SIZE {
      ShortPageReaches(w);
      SaidInOrder(w.(store := t), w.pass.began, w.pass.at);
      assert page == [] ==> t == w.store;
    } else {
      FullPageMoves(w);
    }
  }

  /** Clearing lets go of nothing in hand that the answer does not put back. */
  lemma ClearedKeepsHand(log: seq<Item>, at: nat, s: Held, answer: seq<Item>, e: Item)
    requires GoodLog(log) && at <= |log| && Authentic(log, s) && WholeOf(log[..at], answer)
    requires e in log && InHand(s, e)
    ensures InHand(Cleared(s, LiveIds(answer), Top(log[..at])), e) || e in Live(answer)
  {
    LiveMembers(answer);
    AnswerIsGenuine(log, at, answer);
    if !InHand(Cleared(s, LiveIds(answer), Top(log[..at])), e) {
      var v :| v in answer && !v.deleted && v.id == e.id;
      LiveUnique(log, v, e);
    }
  }

  lemma WholeKeepsHand(w: World)
    requires OrderInv(w) && w.pass.Whole?
    ensures Keeps(w.log, w.store, Replaced(w.store, w.pass.answer, Top(w.log[..w.pass.at])))
  {
    var mark, answer := Top(w.log[..w.pass.at]), w.pass.answer;
    var c, t := Cleared(w.store, LiveIds(answer), mark), Replaced(w.store, answer, mark);
    WholeIs(w);
    if mark >= w.store.cursor {
      AnswerIsGenuine(w.log, w.pass.at, answer);
      ClearedAuthentic(w.log, w.pass.at, w.store, answer);
      AppliedAllKeepsHand(w.log, c, Live(answer));
      forall e | e in w.log && InHand(w.store, e)
        ensures InHand(t, e)
      {
        ClearedKeepsHand(w.log, w.pass.at, w.store, answer, e);
        assert InHand(AppliedAll(c, Live(answer)), e);
      }
    }
  }

  lemma LandWholeInOrder(w: World)
    requires OrderInv(w) && Enabled(w, Land) && w.pass.Whole?
    ensures OrderInv(Do(true, w, Land))
  {
    var t := Replaced(w.store, w.pass.answer, Top(w.log[..w.pass.at]));
    StepKeeps(true, w, Land);
    WholeKeepsHand(w);
    KeepsFrames(w, t);
    WholeIs(w);
    PrefixGood(w.log, w.pass.at);
    SaidInOrder(w.(store := t), w.pass.began, w.pass.at);
  }

  lemma OrderlyKeeps(w: World, step: Step)
    requires OrderInv(w) && Enabled(w, step) && Follows(ALL, w, step)
    ensures OrderInv(Do(true, w, step))
  {
    match step
    case Commit(change) => CommitInOrder(w, change);
    case Deliver => DeliverInOrder(w);
    case Land => if w.pass.PageIn? { LandPageInOrder(w); } else { LandWholeInOrder(w); }
    case Decide => DecideInOrder(w);
    case LandPost(k) => PostInOrder(w, k);
    case LandDelete(k) => DeleteInOrder(w, k);
    case Publish(_) => SocketInOrder(w, step);
    case Drop => SocketInOrder(w, step);
    case Register => SocketInOrder(w, step);
    case Open => SocketInOrder(w, step);
    case Relaunch => SocketInOrder(w, step);
    case _ => AnswersInOrder(w, step);
  }

  // ---- what orderly runs promise ---------------------------------------------------------------

  lemma InHandSettles(log: seq<Item>, s: Held, j: int)
    requires GoodLog(log) && Authentic(log, s) && Latest(log, j) && InHand(s, log[j])
    ensures Settled(s, log[j])
  {
    if !log[j].deleted {
      LatestIsNotGone(log, s, j);
    }
  }

  lemma OrderlyOvertakesNothing(w: World, step: Step, dead: bool)
    requires OrderInv(w) && Enabled(w, step)
    ensures !Overtakes(w, step, dead)
  {
    if step.Deliver? && w.store.caughtUp {
      forall j | Latest(w.log, j) && w.store.cursor < w.log[j].packSeq < Frame(w).packSeq
        ensures Settled(w.store, w.log[j])
      {
        assert w.base <= j < w.head;
        InHandSettles(w.log, w.store, j);
      }
    }
  }

  /** No page brings an item back: a removal the cursor has passed since the page was asked for is remembered. */
  lemma PageRevivesNothing(w: World, v: Item)
    requires OrderInv(w) && w.pass.PageIn? && v in PageOf(w)
    ensures !Revives(w, v)
  {
    PageRows(w.log, w.pass.at, w.pass.was);
    if !v.deleted && v.id !in w.store.gone {
      forall i | 0 <= i < |w.log| && w.log[i].id == v.id && w.log[i].deleted
        ensures w.store.cursor < w.log[i].packSeq
      {
        RemovedAfterAdd(w.log, v, w.log[i]);
      }
    }
  }

  /** Each frame, and each answer to this device's own add, was fresh as it landed. */
  ghost predicate FreshRun(w: World, steps: seq<Step>)
    requires Runs(true, w, steps)
    decreases |steps|
  {
    steps == [] ||
    ((!steps[0].Land? ==> forall v | Arrival(w, steps[0], v) :: Fresh(w.store, v)) && FreshRun(Do(true, w, steps[0]), steps[1..]))
  }

  lemma {:induction false} OrderlyRunKeeps(w: World, steps: seq<Step>)
    requires OrderInv(w) && Runs(true, w, steps) && Follow(ALL, w, steps)
    ensures OrderInv(After(true, w, steps)) && SkipsNowhere(true, w, steps, false)
    decreases |steps|
  {
    if steps != [] {
      OrderlyOvertakesNothing(w, steps[0], false);
      OrderlyKeeps(w, steps[0]);
      OrderlyRunKeeps(Do(true, w, steps[0]), steps[1..]);
    }
  }

  lemma ArrivalIsGenuine(w: World, step: Step, v: Item)
    requires Inv(w) && Enabled(w, step) && Arrival(w, step, v) && !step.Land?
    ensures v in w.log
  {
    if step.LandPost? {
      assert w.posts[step.k] in w.posts;
    }
  }

  lemma {:induction false} FreshRunRevivesNothing(w: World, steps: seq<Step>)
    requires OrderInv(w) && Runs(true, w, steps) && Follow(ALL, w, steps) && FreshRun(w, steps)
    ensures SkipsNowhere(true, w, steps, true)
    decreases |steps|
  {
    if steps != [] {
      OrderlyOvertakesNothing(w, steps[0], true);
      forall v | Arrival(w, steps[0], v)
        ensures !Revives(w, v)
      {
        if steps[0].Land? {
          PageRevivesNothing(w, v);
        } else {
          ArrivalIsGenuine(w, steps[0], v);
          FreshRevivesNothing(w, v);
        }
      }
      OrderlyKeeps(w, steps[0]);
      FreshRunRevivesNothing(Do(true, w, steps[0]), steps[1..]);
    }
  }

  /** SAFETY of an orderly run, from a first start and throughout: no add at or below the cursor is missing. */
  lemma NoAddIsEverLost(steps: seq<Step>)
    requires Runs(true, Start(), steps) && Follow(ALL, Start(), steps)
    ensures CoversThroughout(true, Start(), steps, false)
  {
    OrderlyRunKeeps(Start(), steps);
    StartIsGood();
    CoversExactly(true, Start(), steps, false);
  }

  /** And with the check at each frame and each own add: no removal either. */
  lemma NothingComesBack(steps: seq<Step>)
    requires Runs(true, Start(), steps) && Follow(ALL, Start(), steps) && FreshRun(Start(), steps)
    ensures CoversThroughout(true, Start(), steps, true)
  {
    FreshRunRevivesNothing(Start(), steps);
    StartIsGood();
    CoversExactly(true, Start(), steps, true);
  }

  /** This connection has caught up, every frame has been sent out, and all of them are read. */
  ghost predicate Level(w: World) {
    w.listening && w.store.caughtUp && w.head == |w.published| == |w.log|
  }

  /** The store is the server's pack. */
  ghost predicate Exact(w: World) {
    forall id, v :: (id in w.store.items && w.store.items[id] == v) <==> (LiveNow(w.log, v) && v.id == id)
  }

  ghost predicate AllSettled(w: World) {
    forall j | Latest(w.log, j) :: Settled(w.store, w.log[j])
  }

  /** The store is the pack exactly when every item's latest change is applied. */
  lemma ExactIsAllSettled(w: World)
    requires Inv(w)
    ensures Exact(w) <==> AllSettled(w)
  {
    if AllSettled(w) {
      AllSettledIsExact(w);
    } else {
      var j :| Latest(w.log, j) && !Settled(w.store, w.log[j]);
      if w.log[j].deleted {
        assert !LiveNow(w.log, w.store.items[w.log[j].id]) by {
          TombstoneIsLatest(w.log, j);
        }
      } else {
        assert LiveNow(w.log, w.log[j]);
      }
    }
  }

  lemma AllSettledIsExact(w: World)
    requires Inv(w) && AllSettled(w)
    ensures Exact(w)
  {
    forall id | id in w.store.items
      ensures LiveNow(w.log, w.store.items[id])
    {
      var i :| 0 <= i < |w.log| && w.log[i] == w.store.items[id];
      if !Latest(w.log, i) {
        var j :| i < j < |w.log| && w.log[j].id == id;
        TombstoneIsLatest(w.log, j);
        assert false;
      }
    }
    forall v | LiveNow(w.log, v)
      ensures v.id in w.store.items && w.store.items[v.id] == v
    {
      var i :| 0 <= i < |w.log| && w.log[i] == v && Latest(w.log, i);
    }
  }

  /** CONVERGENCE of an orderly run from a first start: level with the server, the device holds every live item; and, if each arrival was fresh, nothing else. */
  lemma Converges(steps: seq<Step>)
    requires Runs(true, Start(), steps) && Follow(ALL, Start(), steps) && Level(After(true, Start(), steps))
    ensures var w := After(true, Start(), steps);
      && (forall v | LiveNow(w.log, v) :: v.id in w.store.items && w.store.items[v.id] == v)
      && (FreshRun(Start(), steps) ==> Exact(w))
  {
    var w := After(true, Start(), steps);
    OrderlyRunKeeps(Start(), steps);
    NoAddIsEverLost(steps);
    EndCovers(true, Start(), steps, false);
    forall j | Latest(w.log, j) && !w.log[j].deleted
      ensures Settled(w.store, w.log[j])
    {
      LevelSettles(w, j);
    }
    if FreshRun(Start(), steps) {
      NothingComesBack(steps);
      EndCovers(true, Start(), steps, true);
      forall j | Latest(w.log, j)
        ensures Settled(w.store, w.log[j])
      {
        LevelSettles(w, j);
      }
      AllSettledIsExact(w);
    }
  }

  lemma LevelSettles(w: World, j: int)
    requires OrderInv(w) && Level(w) && Latest(w.log, j) && Covers(w, w.log[j].deleted)
    ensures Settled(w.store, w.log[j])
  {
    if w.log[j].packSeq > w.store.cursor {
      assert w.base <= j < w.head;
      InHandSettles(w.log, w.store, j);
    }
  }
}
