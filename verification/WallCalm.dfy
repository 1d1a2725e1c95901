/**
 * A way to run the board without a skip. Three rules are this device's: no frame lands before a pass begun on its own
 * connection has ended, none while a whole read is out, and no version below the cursor is let in for a note this device
 * does not know. Two are the server's: frames are sent out in the order of their changes, and a socket is registered
 * before this device hears that it is open. WallRuns drops each in turn.
 */
module WallCalm {
  import opened Wrappers
  import opened WallStore
  import opened WallWorld
  import opened WallLaws

  datatype Rules = Rules(passFirst: bool, noWholeOut: bool, freshOnly: bool, inTurn: bool, registeredFirst: bool)

  const ALL := Rules(true, true, true, true, true)

  predicate WholeOut(pass: Pass) {
    pass.AskedWhole? || pass.WholeMark? || pass.Whole?
  }

  /** What the store can check before it writes: the version is not below the cursor, or its note is known. */
  predicate Fresh(s: Wall, v: Note) {
    v.deleted || v.boardSeq >= s.cursor || v.id in s.notes || v.id in s.gone
  }

  ghost predicate Follows(r: Rules, w: World, step: Step)
    requires Enabled(w, step)
  {
    && (r.passFirst && step.Deliver? ==> w.caughtUp)
    && (r.noWholeOut && step.Deliver? ==> !WholeOut(w.pass))
    && (r.freshOnly ==> forall v | Arrival(w, step, v) :: Fresh(w.store, v))
    && (r.inTurn && step.Publish? ==> step.i == |w.published|)
    && (r.registeredFirst && step.Open? ==> w.registered)
  }

  ghost predicate Follow(r: Rules, w: World, steps: seq<Step>)
    requires Runs(w, steps)
    decreases |steps|
  {
    steps == [] || (Follows(r, w, steps[0]) && Follow(r, Do(w, steps[0]), steps[1..]))
  }

  // ---- what calm steps keep --------------------------------------------------------------------

  /** All the rules but the check at the write. */
  ghost predicate Calm(w: World, step: Step)
    requires Enabled(w, step)
  {
    Follows(ALL.(freshOnly := false), w, step)
  }

  /** Applied for good: shown in just that version, or remembered as gone. */
  predicate InHand(s: Wall, v: Note) {
    if v.deleted then v.id in s.gone else v.id in s.notes && s.notes[v.id] == v
  }

  /** The open connection has caught up: the cursor is past all that came before it, and what came by it is in hand. */
  ghost predicate Level(w: World) {
    && w.base <= |w.log| && Top(w.log[..w.base]) <= w.store.cursor
    && forall j | Latest(w.log, j) && j < w.head && w.store.cursor < w.log[j].boardSeq :: InHand(w.store, w.log[j])
  }

  ghost predicate InOrder(w: World) {
    |w.published| <= |w.log| && forall k | 0 <= k < |w.published| :: w.published[k] == k
  }

  ghost predicate Ordered(w: World) {
    && InOrder(w) && w.head <= |w.published| && w.base <= |w.log|
    && (w.listening ==> w.registered)
    && (w.registered && !w.listening ==> w.head <= w.base)
  }

  /** An answer taken by a pass that began on the open connection was taken after the server registered it. */
  ghost predicate Timely(w: World) {
    w.listening && (w.pass.Marked? || w.pass.WholeMark? || w.pass.Whole? || w.pass.PageIn?) && w.pass.began == w.connection ==>
      w.base <= w.pass.at
  }

  ghost predicate CalmInv(w: World) {
    Inv(w) && Ordered(w) && Timely(w) &&
    (w.listening ==>
      && (if w.caughtUp then Level(w) else w.head <= w.base)
      && (w.caughtUp && (w.pass.WholeMark? || w.pass.Whole?) ==> w.head <= w.pass.at)
      && (!w.caughtUp && (w.pass.AskedPage? || w.pass.PageIn?) && w.pass.began == w.connection ==>
            w.pass.after == w.store.cursor))
  }

  /** A version lands on its own: what is in hand stays so. */
  lemma AppliedKeepsHand(log: seq<Note>, s: Wall, v: Note, j: int)
    requires GoodLog(log) && Authentic(log, s) && v in log && Latest(log, j)
    ensures InHand(s, log[j]) || v == log[j] ==> InHand(Applied(s, v), log[j])
  {
    var i :| 0 <= i < |log| && log[i] == v;
    if !log[j].deleted {
      LatestIsNotGone(log, s, j);
    }
  }

  lemma {:induction false} AppliedAllKeepsHand(log: seq<Note>, s: Wall, vs: seq<Note>, j: int)
    requires GoodLog(log) && Authentic(log, s) && (forall v | v in vs :: v in log) && OneEach(vs) && Latest(log, j) && InHand(s, log[j])
    ensures InHand(AppliedAll(s, vs), log[j])
    decreases |vs|
  {
    if vs != [] {
      AppliedSettles(log, s, vs[0]);
      AppliedKeepsHand(log, s, vs[0], j);
      AppliedAllKeepsHand(log, Applied(s, vs[0]), vs[1..], j);
    }
  }

  lemma TopGrows(log: seq<Note>, a: nat, b: nat)
    requires GoodLog(log) && a <= b <= |log|
    ensures Top(log[..a]) <= Top(log[..b])
    ensures forall j | 0 <= j < a :: log[j].boardSeq <= Top(log[..a])
  {
    TopIsHighest(log, a);
    TopIsHighest(log, b);
    if a > 0 {
      assert log[..a][a - 1] == log[a - 1];
    }
  }

  /** A pass of the open connection has ended with the cursor past its snapshot. */
  lemma EndLevels(w: World, at: nat)
    requires Inv(w) && w.listening && w.base <= at <= |w.log| && w.head <= w.base && Top(w.log[..at]) <= w.store.cursor
    ensures Level(w)
  {
    TopGrows(w.log, w.base, at);
  }

  /** The whole read has landed: all that was delivered is at or below its mark. */
  lemma WholeLevels(w: World)
    requires CalmInv(w) && w.pass.Whole?
    ensures CalmInv(Do(w, Land))
  {
    var w' := Do(w, Land);
    StepKeeps(w, Land);
    WholeIs(w);
    if w.listening && w'.caughtUp {
      TopGrows(w.log, w.pass.at, |w.log|);
      if w.caughtUp {
        assert forall j | 0 <= j < w.head :: w.log[j].boardSeq <= w'.store.cursor;
        assert w.store.cursor == 0;
      } else {
        EndLevels(w', w.pass.at);
      }
    }
  }

  /** A short page ends where its snapshot does. */
  lemma ShortPageReaches(w: World)
    requires Inv(w) && w.pass.PageIn? && |w.pass.page| < PAGE_SIZE
    ensures Top(w.log[..w.pass.at]) <= Highest(w.pass.page, w.store.cursor)
  {
    var log := w.log[..w.pass.at];
    HighestIs(w.pass.page, w.store.cursor);
    TopIsHighest(w.log, w.pass.at);
    if log != [] {
      assert Latest(log, |log| - 1);
    }
  }

  /** A full page asked for from the cursor moves it. */
  lemma FullPageMoves(w: World)
    requires Inv(w) && w.pass.PageIn? && |w.pass.page| == PAGE_SIZE && w.pass.after == w.store.cursor
    ensures w.store.cursor < Highest(w.pass.page, w.store.cursor)
  {
    PageRows(w.log, w.pass.at, w.pass.after, w.pass.page);
    HighestIs(w.pass.page, w.store.cursor);
    assert w.pass.page[0] in w.pass.page;
  }

  lemma PageKeepsLevel(w: World)
    requires Inv(w) && Level(w) && w.pass.PageIn?
    ensures Level(w.(store := ReceivedPage(w.store, w.pass.page)))
  {
    var page := w.pass.page;
    PageRows(w.log, w.pass.at, w.pass.after, page);
    HighestIs(page, w.store.cursor);
    forall j | Latest(w.log, j) && InHand(w.store, w.log[j])
      ensures InHand(AppliedAll(w.store, page), w.log[j])
    {
      AppliedAllKeepsHand(w.log, w.store, page, j);
    }
  }

  lemma PageLevels(w: World)
    requires CalmInv(w) && w.pass.PageIn?
    ensures CalmInv(Do(w, Land))
  {
    var w', v := Do(w, Land), w.(store := ReceivedPage(w.store, w.pass.page));
    StepKeeps(w, Land);
    PageKeepsStore(w);
    assert w.pass.page == [] ==> v.store == w.store;
    if w.listening && w.caughtUp {
      PageKeepsLevel(w);
    } else if w.listening && w'.caughtUp {
      if |w.pass.page| < PAGE_SIZE {
        ShortPageReaches(w);
      } else {
        FullPageMoves(w);
      }
      EndLevels(w', w.pass.at);
    }
  }

  lemma DeliverLevels(w: World)
    requires CalmInv(w) && Enabled(w, Deliver) && Calm(w, Deliver)
    ensures CalmInv(Do(w, Deliver))
  {
    var w' := Do(w, Deliver);
    StepKeeps(w, Deliver);
    forall j | Latest(w.log, j) && j < w'.head && w'.store.cursor < w.log[j].boardSeq
      ensures InHand(w'.store, w.log[j])
    {
      AppliedKeepsHand(w.log, w.store, Frame(w), j);
    }
  }

  lemma OwnLevels(w: World, step: Step)
    requires CalmInv(w) && Enabled(w, step)
    requires step.AnswerPost? || step.LandPost? || step.AnswerDelete? || step.LandDelete?
    ensures CalmInv(Do(w, step))
  {
    StepKeeps(w, step);
    match step
    case LandPost(k) =>
      assert w.posts[k] in w.posts;
      forall j | Latest(w.log, j)
        ensures InHand(w.store, w.log[j]) ==> InHand(Do(w, step).store, w.log[j])
      {
        AppliedKeepsHand(w.log, w.store, w.posts[k], j);
      }
    case LandDelete(k) =>
      assert w.deletes[k] in w.deletes;
      TakenKeepsHand(w, w.deletes[k]);
    case _ =>
  }

  lemma TakenKeepsHand(w: World, id: int)
    requires Inv(w) && Buried(w.log, id, Top(w.log))
    ensures forall j | Latest(w.log, j) && InHand(w.store, w.log[j]) :: InHand(Taken(w.store, id), w.log[j])
    ensures Taken(w.store, id).cursor == w.store.cursor
  {
    forall j | Latest(w.log, j) && InHand(w.store, w.log[j])
      ensures InHand(Taken(w.store, id), w.log[j])
    {
      if w.log[j].id == id {
        TakenIsBuried(w.log, id, j);
      }
    }
  }

  lemma CommitLevels(w: World, change: Note)
    requires CalmInv(w) && Enabled(w, Commit(change))
    ensures CalmInv(Do(w, Commit(change)))
  {
    var log' := w.log + [change];
    StepKeeps(w, Commit(change));
    assert log'[..w.base] == w.log[..w.base];
    forall j | Latest(log', j) && j < |w.log|
      ensures Latest(w.log, j) && log'[j] == w.log[j]
    {
      forall k | j < k < |w.log|
        ensures w.log[k].id != w.log[j].id
      {
        assert log'[k] == w.log[k];
      }
    }
  }

  lemma DecideLevels(w: World)
    requires CalmInv(w) && Enabled(w, Decide)
    ensures CalmInv(Do(w, Decide))
  {
    var w' := Do(w, Decide);
    StepKeeps(w, Decide);
    if w.listening && w'.caughtUp && !w.caughtUp {
      EndLevels(w', w.pass.at);
    }
  }

  lemma SocketLevels(w: World, step: Step)
    requires CalmInv(w) && Enabled(w, step) && Calm(w, step)
    requires step.Publish? || step.Drop? || step.Register? || step.Open? || step.Relaunch?
    ensures CalmInv(Do(w, step))
  {
    StepKeeps(w, step);
  }

  lemma CalmKeeps(w: World, step: Step)
    requires CalmInv(w) && Enabled(w, step) && Calm(w, step)
    ensures CalmInv(Do(w, step))
  {
    match step
    case Commit(change) => CommitLevels(w, change);
    case Deliver => DeliverLevels(w);
    case Land => if w.pass.PageIn? { PageLevels(w); } else { WholeLevels(w); }
    case Decide => DecideLevels(w);
    case AnswerPost(_) => OwnLevels(w, step);
    case LandPost(_) => OwnLevels(w, step);
    case AnswerDelete(_) => OwnLevels(w, step);
    case LandDelete(_) => OwnLevels(w, step);
    case Publish(_) => SocketLevels(w, step);
    case Drop => SocketLevels(w, step);
    case Register => SocketLevels(w, step);
    case Open => SocketLevels(w, step);
    case Relaunch => SocketLevels(w, step);
    case _ => StepKeeps(w, step);
  }

  // ---- what careful runs promise ---------------------------------------------------------------

  lemma CalmOvertakesNothing(w: World, step: Step)
    requires CalmInv(w) && Enabled(w, step) && Calm(w, step)
    ensures !Overtakes(w, step)
  {
    if step.Deliver? {
      forall j | Latest(w.log, j) && w.store.cursor < w.log[j].boardSeq < Frame(w).boardSeq
        ensures Settled(w.store, w.log[j])
      {
        assert j < w.head;
      }
    }
  }

  lemma FreshRevivesNothing(w: World, v: Note)
    requires Inv(w) && v in w.log && Fresh(w.store, v)
    ensures !Revives(w, v)
  {
    if Revives(w, v) {
      var i :| 0 <= i < |w.log| && w.log[i].id == v.id && w.log[i].deleted && w.log[i].boardSeq <= w.store.cursor;
      TombstoneIsLatest(w.log, i);
      assert false;
    }
  }

  lemma ArrivalIsGenuine(w: World, step: Step, v: Note)
    requires Inv(w) && Enabled(w, step) && Arrival(w, step, v)
    ensures v in w.log
  {
    if step.LandPost? {
      assert w.posts[step.k] in w.posts;
    } else if step.Land? {
      PageRows(w.log, w.pass.at, w.pass.after, w.pass.page);
    }
  }

  lemma CarefulSkipsNothing(w: World, step: Step)
    requires CalmInv(w) && Enabled(w, step) && Follows(ALL, w, step)
    ensures !Skips(w, step)
  {
    CalmOvertakesNothing(w, step);
    forall v | Arrival(w, step, v)
      ensures !Revives(w, v)
    {
      ArrivalIsGenuine(w, step, v);
      FreshRevivesNothing(w, v);
    }
  }

  /** EXACTLY WHEN the check turns away what a note now is: when the cursor has passed it and nothing of the note is shown. */
  lemma FreshRefusesExactly(w: World, j: int)
    requires Inv(w) && Latest(w.log, j) && !w.log[j].deleted
    ensures !Fresh(w.store, w.log[j]) <==> w.log[j].boardSeq < w.store.cursor && w.log[j].id !in w.store.notes
    ensures Covers(w) ==> Fresh(w.store, w.log[j])
  {
    LatestIsNotGone(w.log, w.store, j);
  }

  lemma {:induction false} CarefulRunSkipsNowhere(w: World, steps: seq<Step>)
    requires CalmInv(w) && Runs(w, steps) && Follow(ALL, w, steps)
    ensures SkipsNowhere(w, steps)
    decreases |steps|
  {
    if steps != [] {
      CarefulSkipsNothing(w, steps[0]);
      CalmKeeps(w, steps[0]);
      CarefulRunSkipsNowhere(Do(w, steps[0]), steps[1..]);
    }
  }

  /** SAFETY of a run by all five rules, from a first start and throughout: the cursor passes no unapplied change; so a device at rest shows the server's board. */
  lemma CarefulRunsCover(steps: seq<Step>)
    requires Runs(Start(), steps) && Follow(ALL, Start(), steps)
    ensures CoversThroughout(Start(), steps)
    ensures AtRest(After(Start(), steps)) ==> Exact(After(Start(), steps))
  {
    StartIsGood();
    CarefulRunSkipsNowhere(Start(), steps);
    CoversExactly(Start(), steps);
    EndCovers(Start(), steps);
    RunKeeps(Start(), steps);
    if AtRest(After(Start(), steps)) {
      RestExactly(After(Start(), steps));
    }
  }
}
