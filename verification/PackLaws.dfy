/**
 * What holds of every run of module PackWorld, guarded or not: exactly which steps let the pack's cursor pass a change
 * that is not applied.
 */
module PackLaws {
  import opened Wrappers
  import opened Pack
  import opened PackWorld
  import opened PackSteps

  // ---- the cursor's promise --------------------------------------------------------------------

  /** The cursor passes no unapplied change: no add, or with `dead` no removal. */
  ghost predicate Covers(w: World, dead: bool) {
    forall j | Latest(w.log, j) && w.log[j].deleted == dead && w.log[j].packSeq <= w.store.cursor ::
      Settled(w.store, w.log[j])
  }

  /** A version that comes back from the dead: unknown here, and removed at or below the cursor. */
  ghost predicate Revives(w: World, v: Item) {
    !v.deleted && v.id !in w.store.items && v.id !in w.store.gone && Buried(w.log, v.id, w.store.cursor)
  }

  /** The versions a step puts through the per-item rule. */
  ghost predicate Arrival(w: World, step: Step, v: Item)
    requires Enabled(w, step)
  {
    match step
    case Deliver => v == Frame(w)
    case LandPost(k) => v == w.posts[k]
    case Land => w.pass.PageIn? && v in PageOf(w)
    case _ => false
  }

  /** A frame moves the cursor over some item's latest change that is not applied. */
  ghost predicate Overtakes(w: World, step: Step, dead: bool)
    requires Enabled(w, step)
  {
    && step.Deliver? && w.store.caughtUp
    && exists j :: Latest(w.log, j) && w.log[j].deleted == dead
         && w.store.cursor < w.log[j].packSeq < Frame(w).packSeq && !Settled(w.store, w.log[j])
  }

  ghost predicate Skips(w: World, step: Step, dead: bool)
    requires Enabled(w, step)
  {
    Overtakes(w, step, dead) || (dead && exists v :: Arrival(w, step, v) && Revives(w, v))
  }

  // ---- step by step ----------------------------------------------------------------------------

  lemma CommitCovers(guarded: bool, w: World, change: Item, dead: bool)
    requires Inv(w) && Covers(w, dead) && Enabled(w, Commit(change))
    ensures Covers(Do(guarded, w, Commit(change)), dead)
  {
    var log' := w.log + [change];
    CommitKeepsStore(w.log, w.store, change);
    forall j | Latest(log', j) && log'[j].packSeq <= w.store.cursor
      ensures Latest(w.log, j) && log'[j] == w.log[j]
    {
      assert log'[|w.log|] == change;
      forall k | j < k < |w.log|
        ensures w.log[k].id != w.log[j].id
      {
        assert log'[k] == w.log[k];
      }
    }
  }

  lemma RevivedUncovers(w: World, v: Item, t: Held)
    requires Inv(w) && v in w.log && Revives(w, v) && t.items == Applied(w.store, v).items && w.store.cursor <= t.cursor
    ensures !Covers(w.(store := t), true)
  {
    var j :| 0 <= j < |w.log| && w.log[j].id == v.id && w.log[j].deleted && w.log[j].packSeq <= w.store.cursor;
    TombstoneIsLatest(w.log, j);
    var i :| 0 <= i < |w.log| && w.log[i] == v;
    assert v.picture.Some? && v.addedBy > 0;
    assert !Settled(t, w.log[j]);
  }

  lemma DeliverCovers(guarded: bool, w: World, dead: bool)
    requires Inv(w) && Covers(w, dead) && Enabled(w, Deliver)
    ensures Covers(Do(guarded, w, Deliver), dead) <==> !Overtakes(w, Deliver, dead) && !(dead && Revives(w, Frame(w)))
  {
    var z, t := Frame(w), Received(w.store, Frame(w), LiveFrame);
    AppliedSettles(w.log, w.store, z);
    assert forall e :: Settled(t, e) <==> Settled(Applied(w.store, z), e);
    if dead && Revives(w, z) {
      RevivedUncovers(w, z, t);
    } else if Overtakes(w, Deliver, dead) {
      var j :| Latest(w.log, j) && w.log[j].deleted == dead
        && w.store.cursor < w.log[j].packSeq < z.packSeq && !Settled(w.store, w.log[j]);
      assert !Settled(t, w.log[j]);
    } else {
      forall j | Latest(w.log, j) && w.log[j].deleted == dead && w.log[j].packSeq <= t.cursor
        ensures Settled(t, w.log[j])
      {
        DeliverSettlesOne(w, j, dead);
      }
    }
  }

  lemma DeliverSettlesOne(w: World, j: int, dead: bool)
    requires Inv(w) && Covers(w, dead) && Enabled(w, Deliver)
    requires !Overtakes(w, Deliver, dead) && !(dead && Revives(w, Frame(w)))
    requires Latest(w.log, j) && w.log[j].deleted == dead
    requires w.log[j].packSeq <= Received(w.store, Frame(w), LiveFrame).cursor
    ensures Frame(w) == w.log[j] || (Settled(w.store, w.log[j]) && !RevivedBy(w.store, w.log[j], Frame(w)))
  {
    var z := Frame(w);
    if w.log[j] != z {
      assert w.log[j].packSeq != z.packSeq;
      assert Settled(w.store, w.log[j]);
      assert w.log[j].deleted && w.log[j].packSeq <= w.store.cursor ==> Buried(w.log, w.log[j].id, w.store.cursor);
      if RevivedBy(w.store, w.log[j], z) {
        TombstoneIsLatest(w.log, j);
      }
    }
  }

  lemma PostCovers(guarded: bool, w: World, k: nat, dead: bool)
    requires Inv(w) && Covers(w, dead) && Enabled(w, LandPost(k))
    ensures Covers(Do(guarded, w, LandPost(k)), dead) <==> !(dead && Revives(w, w.posts[k]))
  {
    var v, t := w.posts[k], Received(w.store, w.posts[k], Evidence);
    assert v in w.posts;
    AppliedSettles(w.log, w.store, v);
    assert forall e :: Settled(t, e) <==> Settled(Applied(w.store, v), e);
    if dead && Revives(w, v) {
      RevivedUncovers(w, v, t);
    } else {
      forall j | Latest(w.log, j) && w.log[j].deleted == dead && w.log[j].packSeq <= w.store.cursor
        ensures Settled(t, w.log[j])
      {
        assert w.log[j].deleted ==> Buried(w.log, w.log[j].id, w.store.cursor);
      }
    }
  }

  lemma DeleteCovers(guarded: bool, w: World, k: nat, dead: bool)
    requires Inv(w) && Covers(w, dead) && Enabled(w, LandDelete(k))
    ensures Covers(Do(guarded, w, LandDelete(k)), dead)
  {
    var id := w.deletes[k];
    assert id in w.deletes;
    var i :| 0 <= i < |w.log| && w.log[i].id == id && w.log[i].deleted;
    assert forall j | Latest(w.log, j) && w.log[j].id == id :: w.log[j].deleted;
  }

  lemma PageCovers(w: World, dead: bool)
    requires Inv(w) && Covers(w, dead) && w.pass.PageIn?
    ensures var v := w.(store := ReceivedPage(w.store, PageOf(w)));
      Covers(v, dead) <==> !(dead && exists r :: r in PageOf(w) && Revives(w, r))
  {
    var page, v := PageOf(w), w.(store := ReceivedPage(w.store, PageOf(w)));
    PageRows(w.log, w.pass.at, w.pass.was);
    AppliedAllSettles(w.log, w.store, page);
    HighestBounds(page, w.store.cursor);
    assert forall e :: Settled(v.store, e) <==> Settled(AppliedAll(w.store, page), e);
    if dead && exists r :: r in page && Revives(w, r) {
      var r :| r in page && Revives(w, r);
      PageRevives(w, r);
    } else {
      forall j | Latest(w.log, j) && w.log[j].deleted == dead && w.log[j].packSeq <= v.store.cursor
        ensures Settled(v.store, w.log[j])
      {
        PageSettlesOne(w, j, dead);
      }
    }
  }

  lemma PageRevives(w: World, r: Item)
    requires Inv(w) && w.pass.PageIn? && r in PageOf(w) && Revives(w, r)
    ensures !Covers(w.(store := ReceivedPage(w.store, PageOf(w))), true)
  {
    var page, t := PageOf(w), ReceivedPage(w.store, PageOf(w));
    PageRows(w.log, w.pass.at, w.pass.was);
    AppliedAllSettles(w.log, w.store, page);
    HighestBounds(page, w.store.cursor);
    var j :| 0 <= j < |w.log| && w.log[j].id == r.id && w.log[j].deleted && w.log[j].packSeq <= w.store.cursor;
    TombstoneIsLatest(w.log, j);
    assert w.log[j] !in page by { OneOfEach(page, r, w.log[j]); }
    assert RevivedBy(w.store, w.log[j], r);
    assert !Settled(AppliedAll(w.store, page), w.log[j]);
    assert !Settled(t, w.log[j]);
  }

  lemma OneOfEach(vs: seq<Item>, a: Item, b: Item)
    requires OneEach(vs) && a in vs && a != b && a.id == b.id
    ensures b !in vs
  {
  }

  lemma PageSettlesOne(w: World, j: int, dead: bool)
    requires Inv(w) && Covers(w, dead) && w.pass.PageIn? && !(dead && exists r :: r in PageOf(w) && Revives(w, r))
    requires Latest(w.log, j) && w.log[j].deleted == dead && w.log[j].packSeq <= Highest(PageOf(w), w.store.cursor)
    ensures w.log[j] in PageOf(w)
      || (Settled(w.store, w.log[j]) && forall r | r in PageOf(w) :: !RevivedBy(w.store, w.log[j], r))
  {
    if w.store.cursor < w.log[j].packSeq {
      PageHasAll(w.log, w.pass.at, w.pass.was, w.store.cursor, j);
    } else {
      assert w.log[j].deleted ==> Buried(w.log, w.log[j].id, w.store.cursor);
    }
  }

  lemma LandPageCovers(guarded: bool, w: World, dead: bool)
    requires Inv(w) && Covers(w, dead) && w.pass.PageIn?
    ensures Covers(Do(guarded, w, Land), dead) <==> !Skips(w, Land, dead)
  {
    var v := w.(store := ReceivedPage(w.store, PageOf(w)));
    PageCovers(w, dead);
    assert forall r :: Arrival(w, Land, r) <==> r in PageOf(w);
    assert PageOf(w) == [] ==> v.store == w.store;
    assert Covers(Do(guarded, w, Land), dead) <==> Covers(v, dead);
  }

  /** A full read, refused or not, keeps the promise; one that is not refused makes it true. */
  lemma WholeCovers(guarded: bool, w: World, dead: bool)
    requires Inv(w) && Enabled(w, Land) && w.pass.Whole?
    requires Covers(w, dead) || Top(w.log[..w.pass.at]) >= w.store.cursor
    ensures Covers(Do(guarded, w, Land), dead)
  {
    var mark := Top(w.log[..w.pass.at]);
    var t := Replaced(w.store, w.pass.answer, mark);
    WholeIs(w);
    PrefixGood(w.log, w.pass.at);
    if mark >= w.store.cursor {
      forall j | Latest(w.log, j) && w.log[j].packSeq <= mark
        ensures Settled(t, w.log[j])
      {
        WholeSettles(w, j);
      }
    }
  }

  lemma OthersCover(guarded: bool, w: World, step: Step, dead: bool)
    requires Inv(w) && Covers(w, dead) && Enabled(w, step)
    requires !step.Commit? && !step.Deliver? && !step.LandPost? && !step.LandDelete? && !step.Land?
    ensures Covers(Do(guarded, w, step), dead) && !Skips(w, step, dead)
  {
    var w' := Do(guarded, w, step);
    assert w'.store.items == w.store.items && w'.store.cursor == w.store.cursor && w'.log == w.log;
    assert forall e :: Settled(w'.store, e) <==> Settled(w.store, e);
  }

  /** EXACTLY WHICH STEPS let the cursor pass an unapplied change: a frame that overtakes one, and a version that brings back an item removed. */
  lemma StepCovers(guarded: bool, w: World, step: Step, dead: bool)
    requires Inv(w) && Covers(w, dead) && Enabled(w, step)
    ensures Covers(Do(guarded, w, step), dead) <==> !Skips(w, step, dead)
  {
    match step
    case Commit(change) => CommitCovers(guarded, w, change, dead);
    case Deliver =>
      DeliverCovers(guarded, w, dead);
      assert Arrival(w, step, Frame(w));
    case LandPost(k) =>
      PostCovers(guarded, w, k, dead);
      assert Arrival(w, step, w.posts[k]);
    case LandDelete(k) => DeleteCovers(guarded, w, k, dead);
    case Land =>
      if w.pass.PageIn? { LandPageCovers(guarded, w, dead); } else { WholeCovers(guarded, w, dead); }
    case _ => OthersCover(guarded, w, step, dead);
  }

  // ---- whole runs ------------------------------------------------------------------------------

  ghost predicate CoversThroughout(guarded: bool, w: World, steps: seq<Step>, dead: bool)
    requires Runs(guarded, w, steps)
    decreases |steps|
  {
    Covers(w, dead) && (steps == [] || CoversThroughout(guarded, Do(guarded, w, steps[0]), steps[1..], dead))
  }

  ghost predicate SkipsNowhere(guarded: bool, w: World, steps: seq<Step>, dead: bool)
    requires Runs(guarded, w, steps)
    decreases |steps|
  {
    steps == [] ||
    (!Skips(w, steps[0], dead) && SkipsNowhere(guarded, Do(guarded, w, steps[0]), steps[1..], dead))
  }

  lemma StartIsGood()
    ensures Inv(Start()) && Covers(Start(), false) && Covers(Start(), true)
  {
  }

  /** EXACTLY WHEN the pack's cursor keeps its promise through a whole run, of adds or of removals. */
  lemma {:induction false} CoversExactly(guarded: bool, w: World, steps: seq<Step>, dead: bool)
    requires Inv(w) && Covers(w, dead) && Runs(guarded, w, steps)
    ensures CoversThroughout(guarded, w, steps, dead) <==> SkipsNowhere(guarded, w, steps, dead)
    decreases |steps|
  {
    if steps != [] {
      StepCovers(guarded, w, steps[0], dead);
      StepKeeps(guarded, w, steps[0]);
      if Covers(Do(guarded, w, steps[0]), dead) {
        CoversExactly(guarded, Do(guarded, w, steps[0]), steps[1..], dead);
      }
    }
  }

  lemma {:induction false} EndCovers(guarded: bool, w: World, steps: seq<Step>, dead: bool)
    requires Runs(guarded, w, steps) && CoversThroughout(guarded, w, steps, dead)
    ensures Covers(After(guarded, w, steps), dead)
    decreases |steps|
  {
    if steps != [] {
      EndCovers(guarded, Do(guarded, w, steps[0]), steps[1..], dead);
    }
  }

  /** In every run, whatever is lost, late or out of order: what is held was really added, what is remembered as gone was really removed. */
  lemma NothingIsInvented(guarded: bool, steps: seq<Step>)
    requires Runs(guarded, Start(), steps)
    ensures var w := After(guarded, Start(), steps);
      && (forall id | id in w.store.items :: w.store.items[id] in w.log && w.store.items[id].id == id && id !in w.store.gone)
      && (forall id | id in w.store.gone :: Buried(w.log, id, Top(w.log)))
      && 0 <= w.store.fullMark <= w.store.cursor <= Top(w.log)
  {
    StartIsGood();
    RunKeeps(guarded, Start(), steps);
  }

  // ---- a check at the write --------------------------------------------------------------------

  /** What the store could check before it writes: the version is not below the cursor, or its id is known. */
  predicate Fresh(s: Held, v: Item) {
    v.deleted || v.packSeq >= s.cursor || v.id in s.items || v.id in s.gone
  }

  lemma FreshRevivesNothing(w: World, v: Item)
    requires Inv(w) && v in w.log && Fresh(w.store, v)
    ensures !Revives(w, v)
  {
    if Revives(w, v) {
      var i :| 0 <= i < |w.log| && w.log[i].id == v.id && w.log[i].deleted && w.log[i].packSeq <= w.store.cursor;
      RemovedAfterAdd(w.log, v, w.log[i]);
      assert false;
    }
  }

  /** EXACTLY WHEN that check turns away an item that is in the pack: when the cursor has passed it and it is not held. */
  lemma FreshRefusesExactly(w: World, j: int)
    requires Inv(w) && Latest(w.log, j) && !w.log[j].deleted
    ensures !Fresh(w.store, w.log[j]) <==> w.log[j].packSeq < w.store.cursor && !Settled(w.store, w.log[j])
    ensures Covers(w, false) ==> Fresh(w.store, w.log[j])
  {
    LatestIsNotGone(w.log, w.store, j);
  }
}
