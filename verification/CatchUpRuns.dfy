/**
 * Runs of the message catch-up worth exhibiting: what a quiet pass brings, when a message is lost for good, the losses of
 * ids committed out of order and of a restart, and a loop that read its cursor again from the store.
 */
module CatchUpRuns {
  import opened Wrappers
  import opened CatchUp
  import opened CatchUpLaws
  import opened CatchUpOrder

  ghost predicate Reaches(w: World, w': World) {
    exists steps :: Runs(w, steps) && After(w, steps) == w'
  }

  lemma Stays(w: World)
    ensures Reaches(w, w)
  {
    assert Runs(w, []) && After(w, []) == w;
  }

  /** One more step in front of whatever can follow it. */
  lemma Then(w: World, step: Step, w': World)
    requires Enabled(w, step) && Reaches(Do(w, step), w')
    ensures Reaches(w, w')
  {
    var rest :| Runs(Do(w, step), rest) && After(Do(w, step), rest) == w';
    assert ([step] + rest)[1..] == rest;
    assert Runs(w, [step] + rest) && After(w, [step] + rest) == w';
  }

  lemma ReachesShape(w: World, w': World)
    requires Shape(w) && Reaches(w, w')
    ensures Shape(w')
  {
    var steps :| Runs(w, steps) && After(w, steps) == w';
    RunShape(w, steps);
  }

  // ---- a pass that is answered -----------------------------------------------------------------

  /** How many messages are above the loop. */
  function Above(w: World): nat
    requires w.pass.Asking?
  {
    |Beyond(w.log, w.pass.cursor)|
  }

  /** A page asked for and landed with the server quiet: the loop goes on from its last row with everything below that read, or is at rest with everything read. */
  lemma PageLands(w: World)
    requires Shape(w) && w.pass.Asking?
    ensures var w1 := Do(w, Answer);
      && Enabled(w1, Land)
      && var w2 := Do(w1, Land);
      && Shape(w2) && w2 == w.(held := w2.held, sequenced := w2.sequenced, pass := w2.pass) && w.sequenced <= w2.sequenced
      && (forall x | x in w2.sequenced :: x in w.sequenced || w.pass.cursor < x)
      && (w2.pass.Rest? || (w2.pass.Asking? && w.pass.cursor < w2.pass.cursor && w2.pass.cursor in w.log))
      && (forall m | m in w.log && w.pass.cursor < m && (w2.pass.Rest? || m <= w2.pass.cursor) :: m in w2.sequenced)
  {
    var w1 := Do(w, Answer);
    StepShape(w, Answer);
    StepShape(w1, Land);
    LandRows(w1);
    PageIs(w.log, w.pass.cursor);
    assert w.log[..|w.log|] == w.log;
  }

  lemma FewerAbove(w: World, w2: World)
    requires w.pass.Asking? && w2.pass.Asking? && w2.log == w.log && w.pass.cursor < w2.pass.cursor && w2.pass.cursor in w.log
    ensures Above(w2) < Above(w)
  {
    var fewer, more := Beyond(w2.log, w2.pass.cursor), Beyond(w.log, w.pass.cursor);
    assert w2.pass.cursor in more && w2.pass.cursor !in fewer;
    assert fewer <= more - {w2.pass.cursor};
    Smaller(fewer, more - {w2.pass.cursor});
  }

  lemma {:induction false} Smaller(s: set<int>, t: set<int>)
    requires s <= t
    ensures |s| <= |t|
  {
    assert t == s + (t - s);
  }

  /** The loop, answered until it rests and then ended: it has read everything above its cursor, and nothing at or below it. */
  lemma LoopFinishes(w: World) returns (w': World)
    requires Shape(w) && w.pass.Asking?
    ensures Reaches(w, w') && w' == w.(held := w'.held, sequenced := w'.sequenced, pass := Idle) && w.sequenced <= w'.sequenced
    ensures forall m | m in w.log && w.pass.cursor < m :: m in w'.sequenced
    ensures forall x | x in w'.sequenced :: x in w.sequenced || w.pass.cursor < x
    decreases Above(w)
  {
    var w1 := Do(w, Answer);
    PageLands(w);
    var w2 := Do(w1, Land);
    if w2.pass.Asking? {
      FewerAbove(w, w2);
      w' := LoopFinishes(w2);
    } else {
      w' := Do(w2, Finish);
      Stays(w');
      Then(w2, Finish, w');
    }
    Then(w1, Land, w');
    Then(w, Answer, w');
  }

  /** A pass from idle: what it brings is everything above the cursor it takes. */
  lemma PassBrings(w: World) returns (w': World)
    requires Shape(w) && w.pass.Idle?
    ensures Reaches(w, w') && w' == w.(held := w'.held, sequenced := w'.sequenced, pending := None, due := false)
    ensures forall m | m in w.log :: m in w'.sequenced <==> m in w.sequenced || Taken(w) < m
  {
    var w1 := Do(w, Refresh);
    var w2 := Do(w1, Begin);
    StepShape(w, Refresh);
    StepShape(w1, Begin);
    w' := LoopFinishes(w2);
    Then(w1, Begin, w');
    Then(w, Refresh, w');
  }

  /** PROGRESS, EXACTLY: with the server quiet and every frame read, one pass that is answered settles the chat, and then holds every message but those stranded before it. */
  lemma QuietPassSettles(w: World, floor: int) returns (w': World)
    requires Quiet(w) && w.pass.Idle?
    ensures Reaches(w, w') && Settled(w') && w'.log == w.log
    ensures forall m | m in w.log :: m in w'.sequenced <==> !Stranded(w, m)
    ensures HoldsAll(w', floor) <==> forall m | m in w.log && m > floor :: !Stranded(w, m)
  {
    w' := PassBrings(w);
    ReachesShape(w, w');
    assert w.published[w.head..] == [];
    forall m | m in w.log
      ensures m in w'.sequenced <==> !Stranded(w, m)
    {
      assert m !in w.sequenced ==> m != Newest(w.sequenced);
    }
  }

  // ---- lost for good ---------------------------------------------------------------------------

  /** No run whatever brings it. */
  ghost predicate NeverArrives(w: World, m: int) {
    forall steps | Runs(w, steps) :: m !in After(w, steps).sequenced
  }

  lemma Arrives(w: World, w': World, m: int)
    requires Reaches(w, w') && m in w'.sequenced
    ensures !NeverArrives(w, m)
  {
    var steps :| Runs(w, steps) && After(w, steps) == w';
  }

  /** It has not been sent out: a socket could be registered first. */
  lemma UnsentMayCome(w: World, m: int)
    requires Shape(w) && m in w.log && m !in w.published
    ensures !NeverArrives(w, m)
  {
    var w1 := Do(w, Drop);
    var w2 := Do(w1, Register);
    var w3 := Do(w2, Open);
    var w4 := Do(w3, Publish(m));
    var w5 := Do(w4, Deliver);
    assert w4.published[w4.head] == m;
    Stays(w5);
    Then(w4, Deliver, w5);
    Then(w3, Publish(m), w5);
    Then(w2, Open, w5);
    Then(w1, Register, w5);
    Then(w, Drop, w5);
    Arrives(w, w5, m);
  }

  lemma {:induction false} FramesRead(w: World, m: int) returns (w': World)
    requires Shape(w) && w.listening && Queued(w, m)
    ensures Reaches(w, w') && m in w'.sequenced
    decreases |w.published| - w.head
  {
    var w1 := Do(w, Deliver);
    assert w.published[w.head..] == [w.published[w.head]] + w.published[w.head + 1..];
    if w.published[w.head] == m {
      w' := w1;
      Stays(w');
    } else {
      StepShape(w, Deliver);
      w' := FramesRead(w1, m);
    }
    Then(w, Deliver, w');
  }

  lemma QueuedMayCome(w: World, m: int)
    requires Shape(w) && Queued(w, m)
    ensures !NeverArrives(w, m)
  {
    if w.listening {
      var w' := FramesRead(w, m);
      Arrives(w, w', m);
    } else {
      StepShape(w, Open);
      var w' := FramesRead(Do(w, Open), m);
      Then(w, Open, w');
      Arrives(w, w', m);
    }
  }

  /** A pass could begin below it. */
  lemma PassMayBring(w: World, m: int)
    requires Shape(w) && m in w.log && m !in w.sequenced
    requires PendingBelow(w, m) || (!w.pass.Idle? && w.pass.taken < m) || Newest(w.sequenced) < m
    ensures !NeverArrives(w, m)
  {
    if w.pass.Idle? {
      var w' := PassBrings(w);
      Arrives(w, w', m);
    } else {
      StepShape(w, Fail);
      var w' := PassBrings(Do(w, Fail));
      Then(w, Fail, w');
      Arrives(w, w', m);
    }
  }

  /** EXACTLY WHEN A MESSAGE IS LOST FOR GOOD, whatever the server, the connections and the passes do from here: when it is stranded. */
  lemma LostForGoodExactly(w: World, m: int)
    requires Shape(w) && m in w.log && m !in w.sequenced
    ensures NeverArrives(w, m) <==> Stranded(w, m)
  {
    if Stranded(w, m) {
      forall steps | Runs(w, steps)
        ensures m !in After(w, steps).sequenced
      {
        StrandedForGood(w, steps, m);
      }
    } else if m !in w.published {
      UnsentMayCome(w, m);
    } else if Queued(w, m) {
      QueuedMayCome(w, m);
    } else {
      assert m != Newest(w.sequenced);
      PassMayBring(w, m);
    }
  }

  // ---- a smaller id commits late ---------------------------------------------------------------

  /**
   * IDS COMMIT OUT OF ORDER: with a held, two messages draw their ids and the larger commits first. The device connects
   * and its page brings the larger; the socket drops; the smaller commits and is sent out to nobody. Nothing failed and
   * nothing restarted, and no run from here brings it; the next connection's pass settles without it.
   */
  lemma SmallerIdCommitsLate(a: int, smaller: int, larger: int) returns (down: World, settled: World)
    requires a < smaller < larger
    ensures var w := World([a], [a], {a}, {a}, None, false, false, false, 1, Idle);
      Launch(w) && Whole(w, a) && Reaches(w, down) && Reaches(down, settled)
    ensures NeverArrives(down, smaller) && Settled(settled) && smaller in settled.log && smaller !in settled.sequenced
  {
    down := World([a, larger, smaller], [a, larger, smaller], {a, larger}, {a, larger}, None, false, false, false, 2, Idle);
    LargerFirst(a, smaller, larger, down);
    Stays(down);
    assert larger in down.sequenced && smaller in down.published;
    settled := ReconnectSettles(down, smaller);
    LostForGoodExactly(down, smaller);
  }

  lemma LargerFirst(a: int, smaller: int, larger: int, down: World)
    requires a < smaller < larger
    requires down == World([a, larger, smaller], [a, larger, smaller], {a, larger}, {a, larger}, None, false, false, false, 2, Idle)
    ensures Reaches(World([a], [a], {a}, {a}, None, false, false, false, 1, Idle), down)
  {
    var w := World([a], [a], {a}, {a}, None, false, false, false, 1, Idle);
    var two := [a, larger];
    assert [a] + [larger] == two && two + [smaller] == [a, larger, smaller];
    var off := World(two, two, {a, larger}, {a, larger}, None, false, false, false, 2, Idle);
    Stays(down);
    Then(off.(log := [a, larger, smaller]), Publish(smaller), down);
    Then(off, Commit(smaller), down);
    Then(off.(registered := true, listening := true), Drop, down);
    ReadsLarger(a, larger, off.(registered := true, listening := true), down);
    Then(w.(log := two), Publish(larger), down);
    Then(w, Commit(larger), down);
  }

  /** A connection, and a pass whose one page brings the larger. */
  lemma ReadsLarger(a: int, larger: int, on: World, down: World)
    requires a < larger && on == World([a, larger], [a, larger], {a, larger}, {a, larger}, None, false, true, true, 2, Idle)
    requires Reaches(on, down)
    ensures Reaches(World([a, larger], [a, larger], {a}, {a}, None, false, false, false, 1, Idle), down)
  {
    var two := [a, larger];
    var w := World(two, two, {a}, {a}, None, false, false, false, 1, Idle);
    var open := World(two, two, {a}, {a}, Some(a), true, true, true, 2, Idle);
    var passing := World(two, two, {a}, {a}, None, false, true, true, 2, Asking(a, a, 2));
    assert two[0] == a && two[1] == larger && two[..2] == two;
    Then(on.(pass := Rest(a, 2)), Finish, down);
    PageOfOne(a, larger);
    assert {a} + (set m | m in [larger]) == {a, larger};
    Then(passing.(pass := Landing(a, a, 2, 2)), Land, down);
    Then(passing, Answer, down);
    Then(open, Begin, down);
    Then(w.(registered := true, head := 2), Open, down);
    Then(w, Register, down);
  }

  lemma PageOfOne(a: int, larger: int)
    requires a < larger
    ensures Page([a, larger], a) == [larger]
  {
    assert [a, larger][1] == larger;
    assert Beyond([a, larger], a) == {larger};
    assert Least({larger}) == larger && {larger} - {larger} == {};
    assert Lowest({larger}, PAGE_SIZE) == [larger] + Lowest({}, PAGE_SIZE - 1);
  }

  /** What is stranded stays so: the next connection's pass settles without it. */
  lemma ReconnectSettles(w: World, m: int) returns (w': World)
    requires Shape(w) && Stranded(w, m) && w.pass.Idle? && forall x | x in w.log :: x in w.published
    ensures Reaches(w, w') && Settled(w') && w'.log == w.log && m !in w'.sequenced
  {
    var w1 := Do(w, Drop);
    var w2 := Do(w1, Register);
    var w3 := Do(w2, Open);
    StaysStranded(w, Drop, m);
    StaysStranded(w1, Register, m);
    StaysStranded(w2, Open, m);
    w' := QuietPassSettles(w3, 0);
    Then(w2, Open, w');
    Then(w1, Register, w');
    Then(w, Drop, w');
  }

  // ---- a restart -------------------------------------------------------------------------------

  /** EXACTLY WHAT A RESTART LOSES FOR GOOD, of the messages sent out and not held: those below the newest in sequence. */
  lemma RelaunchExactly(w: World, m: int)
    requires Shape(w) && m in w.published && m !in w.sequenced
    ensures NeverArrives(Do(w, Relaunch), m) <==> m < Newest(w.sequenced)
  {
    StepShape(w, Relaunch);
    LostForGoodExactly(Do(w, Relaunch), m);
  }

  /** A MESSAGE LOST: one is missed while the socket is down, a live one lands before the pass, the process ends; no run of the next launch brings the missed one, and its first pass settles without it. Ids and frames are in order throughout. */
  lemma RelaunchLosesAMessage(a: int, missed: int, live: int) returns (before: World, settled: World)
    requires a < missed < live
    ensures var w := World([a], [a], {a}, {a}, None, false, false, false, 1, Idle);
      Launch(w) && Whole(w, a) && Reaches(w, before)
    ensures NeverArrives(Do(before, Relaunch), missed)
    ensures Reaches(Do(before, Relaunch), settled) && Settled(settled) && missed in settled.log && missed !in settled.sequenced
  {
    var w := World([a], [a], {a}, {a}, None, false, false, false, 1, Idle);
    before := World([a, missed, live], [a, missed, live], {a, live}, {a, live}, Some(a), true, true, true, 3, Idle);
    MissedThenLive(a, missed, live, before);
    assert live in before.sequenced && missed in before.published;
    RelaunchExactly(before, missed);
    StepShape(before, Relaunch);
    settled := ReconnectSettles(Do(before, Relaunch), missed);
  }

  lemma MissedThenLive(a: int, missed: int, live: int, before: World)
    requires a < missed < live
    requires before == World([a, missed, live], [a, missed, live], {a, live}, {a, live}, Some(a), true, true, true, 3, Idle)
    ensures Reaches(World([a], [a], {a}, {a}, None, false, false, false, 1, Idle), before)
  {
    var w := World([a], [a], {a}, {a}, None, false, false, false, 1, Idle);
    var two, three := [a, missed], [a, missed, live];
    assert [a] + [missed] == two && two + [live] == three && three[2] == live;
    var open := World(two, two, {a}, {a}, Some(a), true, true, true, 2, Idle);
    Stays(before);
    assert {a} + {live} == {a, live};
    Then(open.(log := three, published := three), Deliver, before);
    Then(open.(log := three), Publish(live), before);
    Then(open, Commit(live), before);
    Then(w.(log := two, published := two, registered := true, head := 2), Open, before);
    Then(w.(log := two, published := two), Register, before);
    Then(w.(log := two), Publish(missed), before);
    Then(w, Commit(missed), before);
  }

  // ---- a loop without its own cursor -----------------------------------------------------------

  /** The loop as it must not be: after a full page its cursor is read again from the store. */
  function DoReread(w: World, step: Step): World
    requires Enabled(w, step) && w.sequenced != {}
  {
    var w' := Do(w, step);
    if step.Land? && w'.pass.Asking? && w'.sequenced != {} then
      w'.(pass := Asking(w'.pass.taken, Newest(w'.sequenced), w'.pass.from))
    else w'
  }

  /** Some run of that loop leads from one world to the other. */
  ghost predicate RereadRun(w: World, steps: seq<Step>, w': World)
    decreases |steps|
  {
    if steps == [] then w == w'
    else w.sequenced != {} && Enabled(w, steps[0]) && RereadRun(DoReread(w, steps[0]), steps[1..], w')
  }

  ghost predicate RereadReaches(w: World, w': World) {
    exists steps :: RereadRun(w, steps, w')
  }

  lemma RereadStays(w: World)
    ensures RereadReaches(w, w)
  {
    assert RereadRun(w, [], w);
  }

  lemma RereadThen(w: World, step: Step, w': World)
    requires w.sequenced != {} && Enabled(w, step) && RereadReaches(DoReread(w, step), w')
    ensures RereadReaches(w, w')
  {
    var rest :| RereadRun(DoReread(w, step), rest, w');
    assert ([step] + rest)[1..] == rest;
    assert RereadRun(w, [step] + rest, w');
  }

  /** All that a page of that loop needs of the world it starts from. */
  ghost predicate Frozen(w: World) {
    Quiet(w.(pass := Idle)) && PassOk(w)
  }

  lemma RereadPage(w: World)
    requires Frozen(w) && w.pass.Asking?
    ensures var w1 := Do(w, Answer);
      && Enabled(w1, Land) && w1.sequenced != {}
      && var w2 := DoReread(w1, Land);
      && Frozen(w2) && w2 == w.(held := w2.held, sequenced := w2.sequenced, pass := w2.pass) && w.sequenced <= w2.sequenced
      && (forall x | x in w2.sequenced :: x in w.sequenced || w.pass.cursor < x)
      && (w2.pass.Rest? || (w2.pass.Asking? && w.pass.cursor < w2.pass.cursor && w2.pass.cursor in w.log))
  {
    RereadRows(w);
    RereadGoesOn(w);
  }

  lemma RereadRows(w: World)
    requires Frozen(w) && w.pass.Asking?
    ensures var w1 := Do(w, Answer); var page := Page(w.log, w.pass.cursor);
      && Enabled(w1, Land) && w1.sequenced != {} && w1.log[..w1.pass.at] == w.log
      && var w2 := DoReread(w1, Land);
      && w2 == w.(held := w.held + (set m | m in page), sequenced := w.sequenced + (set m | m in page), pass := w2.pass)
      && (w2.pass == Rest(w.pass.taken, w.pass.from)
          || (page != [] && w2.pass == Asking(w.pass.taken, Newest(w2.sequenced), w.pass.from)))
  {
    assert w.log[..|w.log|] == w.log;
    if Page(w.log, w.pass.cursor) == [] {
      assert (set m | m in Page(w.log, w.pass.cursor)) == {};
    }
  }

  lemma RereadGoesOn(w: World)
    requires Frozen(w) && w.pass.Asking?
    ensures var w2 := DoReread(Do(w, Answer), Land);
      && Frozen(w2)
      && (forall x | x in w2.sequenced :: x in w.sequenced || w.pass.cursor < x)
      && (w2.pass.Asking? ==> w.pass.cursor < w2.pass.cursor && w2.pass.cursor in w.log)
  {
    RereadRows(w);
    RowsAreMessages(w, DoReread(Do(w, Answer), Land));
  }

  lemma RowsAreMessages(w: World, w2: World)
    requires Frozen(w) && w.pass.Asking?
    requires var page := Page(w.log, w.pass.cursor);
      && w2 == w.(held := w.held + (set m | m in page), sequenced := w.sequenced + (set m | m in page), pass := w2.pass)
      && (w2.pass == Rest(w.pass.taken, w.pass.from)
          || (page != [] && w2.pass == Asking(w.pass.taken, Newest(w2.sequenced), w.pass.from)))
    ensures Frozen(w2) && (forall x | x in w2.sequenced :: x in w.sequenced || w.pass.cursor < x)
    ensures w2.pass.Asking? ==> w.pass.cursor < w2.pass.cursor && w2.pass.cursor in w.log
  {
    var page := Page(w.log, w.pass.cursor);
    PageIs(w.log, w.pass.cursor);
    assert page != [] ==> page[0] in page;
  }

  lemma RereadFinishes(w: World) returns (w': World)
    requires Frozen(w) && w.pass.Asking?
    ensures RereadReaches(w, w') && w' == w.(held := w'.held, sequenced := w'.sequenced, pass := Idle)
    ensures Quiet(w') && w.sequenced <= w'.sequenced && forall x | x in w'.sequenced :: x in w.sequenced || w.pass.cursor < x
    decreases Above(w)
  {
    var w1 := Do(w, Answer);
    RereadPage(w);
    var w2 := DoReread(w1, Land);
    if w2.pass.Asking? {
      FewerAbove(w, w2);
      w' := RereadFinishes(w2);
    } else {
      w' := Do(w2, Finish);
      RereadStays(w');
      RereadThen(w2, Finish, w');
    }
    RereadThen(w1, Land, w');
    RereadThen(w, Answer, w');
  }

  /**
   * WITHOUT ITS OWN CURSOR: a full page has landed, a message of its snapshot is still unread, and a live one above it is
   * held. The loop that reads its cursor again ends, settled, without the unread one, for good; the code's loop ends with it.
   */
  lemma RereadCursorSkips(w: World, m: int, live: int) returns (lost: World, kept: World)
    requires Quiet(w) && Enabled(w, Land) && w.pending.None? && Do(w, Land).pass.Asking?
    requires m in w.log[..w.pass.at] && m !in Do(w, Land).sequenced && w.pass.cursor < m
    requires live in w.sequenced && m < live
    ensures RereadReaches(w, lost) && Settled(lost) && lost.log == w.log && m !in lost.sequenced && NeverArrives(lost, m)
    ensures Reaches(w, kept) && Settled(kept) && kept.log == w.log && m in kept.sequenced
  {
    lost := SkipsUnread(w, m, live);
    LandShape(w);
    LandRows(w);
    kept := LoopFinishes(Do(w, Land));
    Then(w, Land, kept);
    ReachesShape(w, kept);
  }

  lemma RereadFrom(w: World)
    requires Quiet(w) && Enabled(w, Land) && Do(w, Land).pass.Asking?
    ensures var r := DoReread(w, Land);
      && Frozen(r) && r.pass.Asking? && r.sequenced == Do(w, Land).sequenced && w.sequenced <= r.sequenced
      && r.pass.cursor == Newest(r.sequenced) && r == w.(held := r.held, sequenced := r.sequenced, pass := r.pass)
  {
    LandShape(w);
    LandRows(w);
    assert Do(w, Land).pass.cursor in Do(w, Land).sequenced;
    CursorRaised(Do(w, Land));
  }

  lemma CursorRaised(w: World)
    requires Quiet(w) && w.pass.Asking? && w.pass.cursor in w.sequenced
    ensures Frozen(w.(pass := Asking(w.pass.taken, Newest(w.sequenced), w.pass.from)))
  {
  }

  lemma SkipsUnread(w: World, m: int, live: int) returns (lost: World)
    requires Quiet(w) && Enabled(w, Land) && w.pending.None? && Do(w, Land).pass.Asking?
    requires m in w.log && m !in Do(w, Land).sequenced && live in w.sequenced && m < live
    ensures RereadReaches(w, lost) && Settled(lost) && lost.log == w.log && m !in lost.sequenced && NeverArrives(lost, m)
  {
    var r := DoReread(w, Land);
    RereadFrom(w);
    assert live in r.sequenced;
    lost := RereadFinishes(r);
    RereadThen(w, Land, lost);
    QuietLeavesStranded(lost, m, live);
    LostForGoodExactly(lost, m);
  }

  lemma QuietLeavesStranded(w: World, m: int, live: int)
    requires Settled(w) && m in w.log && m !in w.sequenced && live in w.sequenced && m < live
    ensures Stranded(w, m)
  {
    assert w.published[w.head..] == [];
  }

  /** The ids of a run of messages. */
  function Counted(a: int, n: nat): seq<int> {
    seq(n, i => a + i)
  }

  function Members(s: seq<int>): set<int> {
    set m | m in s
  }

  lemma {:induction false} LowestCounted(b: int, n: nat, k: nat)
    requires k <= n
    ensures Lowest(Members(Counted(b, n)), k) == Counted(b, k)
    decreases k
  {
    if k > 0 {
      var all, rest := Counted(b, n), Counted(b + 1, n - 1);
      assert all == [b] + rest;
      assert Members(all) == {b} + Members(rest);
      assert Least(Members(all)) == b;
      assert Members(all) - {b} == Members(rest);
      LowestCounted(b + 1, n - 1, k - 1);
      assert [b] + Counted(b + 1, k - 1) == Counted(b, k);
    }
  }

  lemma CountedPage(a: int)
    ensures Page(Counted(a, PAGE_SIZE + 2), a) == Counted(a + 1, PAGE_SIZE)
  {
    var log := Counted(a, PAGE_SIZE + 2);
    assert log == [a] + Counted(a + 1, PAGE_SIZE + 1);
    assert Beyond(log, a) == Members(Counted(a + 1, PAGE_SIZE + 1));
    LowestCounted(a + 1, PAGE_SIZE + 1, PAGE_SIZE);
  }

  /** Such a run from a launch: one page and one more missed, and a live message before the first page lands. */
  lemma RereadLosesAMessage(a: int) returns (lost: World)
    ensures var log := Counted(a, PAGE_SIZE + 2);
      && Launch(World(log, log, {a}, {a}, None, false, false, false, 0, Idle))
      && Whole(World(log, log, {a}, {a}, None, false, false, false, 0, Idle), a)
      && RereadReaches(World(log, log, {a}, {a}, None, false, false, false, 0, Idle), lost)
    ensures Settled(lost) && a + PAGE_SIZE + 1 in lost.log && NeverArrives(lost, a + PAGE_SIZE + 1)
  {
    var log, live := Counted(a, PAGE_SIZE + 2), a + PAGE_SIZE + 2;
    var w := World(log, log, {a}, {a}, None, false, false, false, 0, Idle);
    assert log[0] == a && log[PAGE_SIZE + 1] == a + PAGE_SIZE + 1;
    var n := |log|;
    var w3 := World(log, log, {a}, {a}, None, false, true, true, n, Landing(a, a, n, n));
    var more := log + [live];
    var w6 := World(more, more, {a, live}, {a, live}, None, false, true, true, n + 1, Landing(a, a, n, n));
    lost := LosesTheNext(w6, a, live);
    LivesMeanwhile(a, w3, w6, lost);
    Connects(a, w, w3, lost);
  }

  lemma Connects(a: int, w: World, w3: World, lost: World)
    requires var log := Counted(a, PAGE_SIZE + 2);
      && w == World(log, log, {a}, {a}, None, false, false, false, 0, Idle)
      && w3 == World(log, log, {a}, {a}, None, false, true, true, |log|, Landing(a, a, |log|, |log|))
    requires RereadReaches(w3, lost)
    ensures RereadReaches(w, lost)
  {
    var n := |w.log|;
    var w1 := w.(registered := true, head := n);
    var w2 := w1.(listening := true, pending := Some(a), due := true);
    RereadThen(w3.(pass := Asking(a, a, n)), Answer, lost);
    RereadThen(w2, Begin, lost);
    RereadThen(w1, Open, lost);
    RereadThen(w, Register, lost);
  }

  lemma LivesMeanwhile(a: int, w3: World, w6: World, lost: World)
    requires var log, live := Counted(a, PAGE_SIZE + 2), a + PAGE_SIZE + 2;
      && w3 == World(log, log, {a}, {a}, None, false, true, true, |log|, Landing(a, a, |log|, |log|))
      && w6 == w3.(log := log + [live], published := log + [live], held := {a, live}, sequenced := {a, live}, head := |log| + 1)
    requires RereadReaches(w6, lost)
    ensures RereadReaches(w3, lost)
  {
    var live := a + PAGE_SIZE + 2;
    var w4 := w3.(log := w3.log + [live]);
    var w5 := w4.(published := w3.published + [live]);
    assert w5.published[w5.head] == live && {a} + {live} == {a, live};
    RereadThen(w5, Deliver, lost);
    RereadThen(w4, Publish(live), lost);
    RereadThen(w3, Commit(live), lost);
  }

  lemma LosesTheNext(w: World, a: int, live: int) returns (lost: World)
    requires live == a + PAGE_SIZE + 2
    requires var log := Counted(a, PAGE_SIZE + 2);
      w == World(log + [live], log + [live], {a, live}, {a, live}, None, false, true, true, |log| + 1, Landing(a, a, |log|, |log|))
    ensures RereadReaches(w, lost) && Settled(lost) && a + PAGE_SIZE + 1 in lost.log && NeverArrives(lost, a + PAGE_SIZE + 1)
  {
    var log, m := Counted(a, PAGE_SIZE + 2), a + PAGE_SIZE + 1;
    assert w.log[..|log|] == log && w.log[|log|] == live && log[PAGE_SIZE + 1] == m && log[0] == a && w.log[0] == a;
    CountedPage(a);
    var page := Page(log, a);
    assert page[PAGE_SIZE - 1] == a + PAGE_SIZE;
    assert m !in page;
    var kept;
    lost, kept := RereadCursorSkips(w, m, live);
  }
}
