/**
 * Runs of module PackWorld worth exhibiting: a quiet pass leaves exactly what the cursor had passed unapplied, and without
 * any one of the three rules of PackOrder the pack loses an add for good.
 */
module PackRuns {
  import opened Wrappers
  import opened Pack
  import opened PackWorld
  import opened PackSteps
  import opened PackLaws
  import opened PackOrder

  ghost predicate Reaches(r: Rules, w: World, w': World) {
    exists steps :: Runs(r.guarded, w, steps) && Follow(r, w, steps) && After(r.guarded, w, steps) == w'
  }

  lemma Stays(r: Rules, w: World)
    ensures Reaches(r, w, w)
  {
    assert Runs(r.guarded, w, []) && Follow(r, w, []) && After(r.guarded, w, []) == w;
  }

  /** One more step in front of whatever can follow it. */
  lemma Then(r: Rules, w: World, step: Step, w': World)
    requires Enabled(w, step) && Follows(r, w, step) && Reaches(r, Do(r.guarded, w, step), w')
    ensures Reaches(r, w, w')
  {
    var v := Do(r.guarded, w, step);
    var rest :| Runs(r.guarded, v, rest) && Follow(r, v, rest) && After(r.guarded, v, rest) == w';
    var steps := [step] + rest;
    assert steps[1..] == rest;
    assert Runs(r.guarded, w, steps) && Follow(r, w, steps) && After(r.guarded, w, steps) == w';
  }

  // ---- a quiet pass ----------------------------------------------------------------------------

  /** Listening, every frame sent out and read, and nothing committed since. */
  ghost predicate Quiet(w: World) {
    Inv(w) && w.listening && w.head == |w.published| == |w.log|
  }

  /** A pass of this connection has ended, none is running, and the server has nothing above the cursor: nothing will be asked for. */
  ghost predicate AtRest(w: World) {
    Quiet(w) && w.store.caughtUp && w.pass.Idle? && w.store.cursor == Top(w.log)
  }

  /** Between two worlds of one quiet pass: what the cursor had passed stays as it was, and what it passes on the way is applied. */
  ghost predicate Heals(w: World, w': World) {
    && w'.log == w.log && w.store.cursor <= w'.store.cursor
    && forall j | Latest(w.log, j) && w.log[j].packSeq <= w'.store.cursor ::
         Settled(w'.store, w.log[j]) <==> (w.store.cursor < w.log[j].packSeq || Settled(w.store, w.log[j]))
  }

  lemma PageHeals(w: World)
    requires Quiet(w) && w.pass == PageIn(w.store.connection, w.store.cursor, |w.log|)
    ensures Heals(w, w.(store := ReceivedPage(w.store, PageOf(w))))
  {
    var page, t := PageOf(w), ReceivedPage(w.store, PageOf(w));
    assert w.log[..|w.log|] == w.log;
    PageRows(w.log, |w.log|, w.pass.was);
    AppliedAllSettles(w.log, w.store, page);
    HighestBounds(page, w.store.cursor);
    assert forall e :: Settled(t, e) <==> Settled(AppliedAll(w.store, page), e);
    forall j | Latest(w.log, j) && w.log[j].packSeq <= t.cursor
      ensures Settled(t, w.log[j]) <==> (w.store.cursor < w.log[j].packSeq || Settled(w.store, w.log[j]))
    {
      if w.store.cursor < w.log[j].packSeq {
        PageHasAll(w.log, |w.log|, w.pass.was, w.store.cursor, j);
      }
      LatestRowsRevive(w.log, w.pass.was, w.store, j);
    }
  }

  /** A row of a page of the whole log is what its item now is. */
  lemma LatestRowsRevive(log: seq<Item>, after: int, s: Held, j: int)
    requires GoodLog(log) && Latest(log, j)
    ensures forall v | v in Page(log, after) :: !RevivedBy(s, log[j], v)
  {
    FeedMembers(log, after, 0);
    forall v | v in Page(log, after)
      ensures !RevivedBy(s, log[j], v)
    {
      assert v in Feed(log, after, 0);
      var i :| 0 <= i < |log| && log[i] == v && Latest(log, i);
    }
  }

  lemma PageQuiet(w: World)
    requires Quiet(w) && w.pass == AskedPage(w.store.connection, w.store.cursor)
    ensures var w1 := Do(true, w, AnswerPage);
      && Enabled(w1, Land)
      && var w2 := Do(true, w1, Land);
      && Quiet(w2) && Heals(w, w2)
      && (AtRest(w2) || (w2.pass == AskedPage(w2.store.connection, w2.store.cursor) && w.store.cursor < w2.store.cursor <= Top(w.log)))
  {
    var w1 := Do(true, w, AnswerPage);
    StepKeeps(true, w, AnswerPage);
    StepKeeps(true, w1, Land);
    PageLands(w1);
    HealsAlike(w1, Do(true, w1, Land), w, Do(true, w1, Land));
  }

  lemma PageLands(w: World)
    requires Quiet(w) && w.pass == PageIn(w.store.connection, w.store.cursor, |w.log|)
    ensures var w' := Do(true, w, Land);
      && Heals(w, w') && w'.listening && w'.head == w.head && w'.published == w.published
      && ((w'.pass.Idle? && w'.store.caughtUp && w'.store.cursor == Top(w.log))
          || (w'.pass == AskedPage(w'.store.connection, w'.store.cursor) && w.store.cursor < w'.store.cursor <= Top(w.log)))
  {
    var v := w.(store := ReceivedPage(w.store, PageOf(w)));
    PageHeals(w);
    PageKeepsStore(w);
    PageEnds(w);
    assert w.log[..|w.log|] == w.log;
    assert PageOf(w) == [] ==> v.store == w.store;
    HealsAlike(w, v, w, Do(true, w, Land));
  }

  /** The same stores, whatever the rest. */
  lemma HealsAlike(v: World, v': World, w: World, w': World)
    requires Heals(v, v') && w.log == v.log && w.store == v.store && w'.log == v'.log
    requires w'.store.items == v'.store.items && w'.store.cursor == v'.store.cursor
    ensures Heals(w, w')
  {
    assert forall e :: Settled(w'.store, e) <==> Settled(v'.store, e);
  }

  /** A short page ends at the newest change; a full one moves the cursor. */
  lemma PageEnds(w: World)
    requires Quiet(w) && w.pass == PageIn(w.store.connection, w.store.cursor, |w.log|)
    ensures var t := ReceivedPage(w.store, PageOf(w));
      if |PageOf(w)| < PAGE_SIZE then t.cursor == Top(w.log) else w.store.cursor < t.cursor <= Top(w.log)
  {
    PageKeepsStore(w);
    assert |PageOf(w)| <= PAGE_SIZE;
    if |PageOf(w)| < PAGE_SIZE {
      ShortPageReaches(w);
    } else {
      FullPageMoves(w);
    }
  }

  lemma HealsOn(w: World, w1: World, w2: World)
    requires Heals(w, w1) && Heals(w1, w2)
    ensures Heals(w, w2)
  {
  }

  lemma PagesLevel(w: World) returns (w': World)
    requires Quiet(w) && w.pass == AskedPage(w.store.connection, w.store.cursor)
    ensures Reaches(ALL, w, w') && AtRest(w') && Heals(w, w')
    decreases Top(w.log) - w.store.cursor
  {
    PageQuiet(w);
    var w1 := Do(true, w, AnswerPage);
    var w2 := Do(true, w1, Land);
    if AtRest(w2) {
      w' := w2;
      Stays(ALL, w2);
    } else {
      w' := PagesLevel(w2);
      HealsOn(w, w2, w');
    }
    Then(ALL, w1, Land, w');
    Then(ALL, w, AnswerPage, w');
  }

  lemma WholeLevels(w: World, live: seq<Item>)
    requires Quiet(w) && w.pass == AskedWhole(w.store.connection) && w.store.cursor == 0 && WholeOf(w.log, live)
    ensures var w' := Do(true, Do(true, w, AnswerWhole(live)), Land);
      Reaches(ALL, w, w') && AtRest(w') && Heals(w, w')
  {
    var w1 := Do(true, w, AnswerWhole(live));
    var w2 := Do(true, w1, Land);
    WholeLands(w, live);
    Stays(ALL, w2);
    Then(ALL, w1, Land, w2);
    Then(ALL, w, AnswerWhole(live), w2);
  }

  lemma WholeLands(w: World, live: seq<Item>)
    requires Quiet(w) && w.pass == AskedWhole(w.store.connection) && w.store.cursor == 0 && WholeOf(w.log, live)
    ensures var w' := Do(true, Do(true, w, AnswerWhole(live)), Land); AtRest(w') && Heals(w, w')
  {
    var w1 := Do(true, w, AnswerWhole(live));
    StepKeeps(true, w, AnswerWhole(live));
    StepKeeps(true, w1, Land);
    assert w.log[..|w.log|] == w.log;
    WholeIs(w1);
    WholeHeals(w1);
    HealsAlike(w1, Do(true, w1, Land), w, Do(true, w1, Land));
  }

  lemma WholeHeals(w: World)
    requires Inv(w) && w.pass.Whole? && w.pass.at == |w.log| && w.store.cursor == 0
    ensures Heals(w, Do(true, w, Land))
  {
    var w' := Do(true, w, Land);
    assert w.log[..|w.log|] == w.log;
    WholeIs(w);
    TopIsHighest(w.log);
    forall j | Latest(w.log, j)
      ensures Settled(w'.store, w.log[j])
    {
      WholeSettles(w, j);
    }
  }

  lemma DecideQuiet(w: World)
    requires Quiet(w) && w.pass == Marked(w.store.connection, |w.log|)
    ensures var w' := Do(true, w, Decide);
      && Quiet(w') && Heals(w, w') && w'.store.cursor == w.store.cursor
      && (AtRest(w') || (w'.pass == AskedWhole(w'.store.connection) && w'.store.cursor == 0)
          || w'.pass == AskedPage(w'.store.connection, w'.store.cursor))
  {
    var w' := Do(true, w, Decide);
    StepKeeps(true, w, Decide);
    assert w.log[..|w.log|] == w.log;
    assert forall e :: Settled(w'.store, e) <==> Settled(w.store, e);
  }

  /** A whole-pack read has an answer. */
  lemma AnswerExists(log: seq<Item>)
    requires GoodLog(log)
    ensures WholeOf(log, Live(Feed(log, 0, 0)))
  {
    FeedMembers(log, 0, 0);
    LiveMembers(Feed(log, 0, 0));
    forall v | LiveNow(log, v)
      ensures v in Live(Feed(log, 0, 0))
    {
      var i :| 0 <= i < |log| && log[i] == v && Latest(log, i);
      assert log[i] in Feed(log, 0, 0);
    }
    forall v | v in Live(Feed(log, 0, 0))
      ensures LiveNow(log, v)
    {
      assert v in Feed(log, 0, 0);
    }
  }

  /** PROGRESS, EXACTLY: with the server quiet and every frame read, one pass that is answered brings the device to rest; it then holds exactly the pack if and only if, as the pass began, the cursor had passed no unapplied change. */
  lemma QuietPassLevels(w: World) returns (w': World)
    requires Quiet(w) && w.pass.Idle?
    ensures Reaches(ALL, w, w') && AtRest(w') && w'.log == w.log
    ensures Exact(w') <==> Covers(w, false) && Covers(w, true)
  {
    var w1 := Do(true, w, Begin);
    StepKeeps(true, w, Begin);
    var w2 := Do(true, w1, ReadMark);
    StepKeeps(true, w1, ReadMark);
    AnswerExists(w.log);
    w' := MarkedLevels(w2, Live(Feed(w.log, 0, 0)));
    Then(ALL, w1, ReadMark, w');
    Then(ALL, w, Begin, w');
    HealsAlike(w2, w', w, w');
    HealedIsExact(w, w');
  }

  lemma MarkedLevels(w2: World, live: seq<Item>) returns (w': World)
    requires Quiet(w2) && w2.pass == Marked(w2.store.connection, |w2.log|) && WholeOf(w2.log, live)
    ensures Reaches(ALL, w2, w') && AtRest(w') && Heals(w2, w')
  {
    var w3 := Do(true, w2, Decide);
    DecideQuiet(w2);
    if AtRest(w3) {
      w' := w3;
      Stays(ALL, w3);
    } else if w3.pass.AskedWhole? {
      WholeLevels(w3, live);
      w' := Do(true, Do(true, w3, AnswerWhole(live)), Land);
      HealsOn(w2, w3, w');
    } else {
      w' := PagesLevel(w3);
      HealsOn(w2, w3, w');
    }
    Then(ALL, w2, Decide, w');
  }

  lemma HealedIsExact(w: World, w': World)
    requires AtRest(w') && Heals(w, w')
    ensures Exact(w') <==> Covers(w, false) && Covers(w, true)
  {
    TopIsHighest(w.log);
    ExactIsAllSettled(w');
    if AllSettled(w') {
      forall j | Latest(w.log, j) && w.log[j].packSeq <= w.store.cursor
        ensures Settled(w.store, w.log[j])
      {
        assert Settled(w'.store, w.log[j]);
      }
    }
    if Covers(w, false) && Covers(w, true) {
      forall j | Latest(w.log, j)
        ensures Settled(w'.store, w.log[j])
      {
        assert w.log[j].packSeq <= w.store.cursor ==> Settled(w.store, w.log[j]);
      }
    }
  }

  // ---- without one of the rules ----------------------------------------------------------------

  /** A listening device on a registered socket, with nothing of its own on its way. */
  function Connected(log: seq<Item>, published: seq<nat>, s: Held, head: nat, base: nat, pass: Pass): World {
    World(log, published, s, true, true, head, base, pass, [], [])
  }

  /** A live item is at or below the cursor, and neither held nor remembered. */
  ghost predicate Lost(w: World, v: Item) {
    LiveNow(w.log, v) && v.packSeq <= w.store.cursor && v.id !in w.store.items && v.id !in w.store.gone
  }

  lemma WholeReadOfOne(s: Held, a: Item, mark: int)
    requires s.items == map[] && s.gone == {} && s.cursor == 0 && s.fullMark == 0 && 0 < a.packSeq <= mark
    requires !a.deleted && a.picture.Some? && a.addedBy > 0
    ensures Replaced(s, [a], mark) == s.(items := map[a.id := a], cursor := mark, fullMark := mark)
  {
    assert Live([a]) == [a] + Live([]);
    assert Cleared(s, LiveIds([a]), mark) == s;
    assert AppliedAll(Applied(s, a), []) == Applied(s, a);
  }

  lemma DeliverNew(s: Held, z: Item)
    requires s.caughtUp && z.id !in s.items && z.id !in s.gone && s.cursor < z.packSeq
    requires !z.deleted && z.picture.Some? && z.addedBy > 0
    ensures Received(s, z, LiveFrame) == s.(items := s.items[z.id := z], cursor := z.packSeq)
  {
  }

  lemma GoodPrefixes(x: Item, y: Item, z: Item)
    requires GoodLog([x, y, z])
    ensures [x] + [y] == [x, y] && [x, y] + [z] == [x, y, z] && [0] + [1] == [0, 1] && [0, 1] + [2] == [0, 1, 2]
    ensures GoodLog([x]) && GoodLog([x, y])
  {
    Grown(x, y, z);
    Grown(0, 1, 2);
    PrefixGood([x, y, z], 1);
    PrefixGood([x, y, z], 2);
  }

  lemma LogFacts(x: Item, y: Item, z: Item)
    requires GoodLog([x, y, z])
    ensures 0 < x.packSeq < y.packSeq < z.packSeq
    ensures !x.deleted ==> x.picture.Some? && x.addedBy > 0
    ensures !y.deleted ==> y.picture.Some? && y.addedBy > 0
    ensures !z.deleted ==> z.picture.Some? && z.addedBy > 0
    ensures (!y.deleted ==> x.id != y.id) && (!z.deleted ==> x.id != z.id && y.id != z.id)
  {
    var log := [x, y, z];
    assert log[0] == x && log[1] == y && log[2] == z;
  }

  /** From a first start: x is added, the device connects, and its pass asks for the whole pack. */
  lemma FirstAsks(r: Rules, x: Item, w': World)
    requires GoodLog([x])
    requires Reaches(r, Connected([x], [0], Held(map[], {}, 0, 0, 1, false), 1, 1, AskedWhole(1)), w')
    ensures Reaches(r, Start(), w')
  {
    var none, log := Held(map[], {}, 0, 0, 0, false), [x];
    var w3 := World(log, [0], none, true, false, 1, 1, Idle, [], []);
    var w4 := Connected(log, [0], none.(connection := 1), 1, 1, Idle);
    assert [] + [x] == [x] && [] + [0] == [0];
    PassAsks(r, w4, w');
    Then(r, w3, Open, w');
    Then(r, w3.(registered := false, head := 0, base := 0), Register, w');
    Then(r, Start().(log := log), Publish(0), w');
    Then(r, Start(), Commit(x), w');
  }

  lemma PassAsks(r: Rules, w: World, w': World)
    requires w.log != [] && w.pass.Idle? && w.store.cursor == 0
    requires Reaches(r, w.(pass := AskedWhole(w.store.connection)), w')
    ensures Reaches(r, w, w')
  {
    var w1 := Do(r.guarded, w, Begin);
    var w2 := Do(r.guarded, w1, ReadMark);
    assert w.log[..|w.log|] == w.log;
    Then(r, w2, Decide, w');
    Then(r, w1, ReadMark, w');
    Then(r, w, Begin, w');
  }

  /** The whole pack is x. */
  lemma AnswersOne(r: Rules, w: World, x: Item, w': World)
    requires GoodLog([x]) && !x.deleted && w.log == [x] && w.pass == AskedWhole(w.store.connection)
    requires w.store.items == map[] && w.store.gone == {} && w.store.cursor == 0 && w.store.fullMark == 0
    requires Reaches(r, w.(store := Held(map[x.id := x], {}, x.packSeq, x.packSeq, w.store.connection, true), pass := Idle), w')
    ensures Reaches(r, w, w')
  {
    var w1 := w.(pass := Whole(w.store.connection, 1, [x]));
    OneIsWhole(x);
    assert [x][0] == x;
    WholeReadOfOne(w.store, x, x.packSeq);
    assert w.log[..1] == w.log;
    Then(r, w1, Land, w');
    Then(r, w, AnswerWhole([x]), w');
  }

  lemma OneIsWhole(x: Item)
    requires GoodLog([x]) && !x.deleted
    ensures WholeOf([x], [x])
  {
    assert Latest([x], 0) && [x][0] == x;
    assert LiveNow([x], x);
  }

  /** A pass on a level cursor asks for nothing. */
  lemma LevelPass(r: Rules, w: World)
    requires GoodLog(w.log) && w.log != [] && w.pass.Idle? && w.store.cursor == Top(w.log) > 0
    ensures Reaches(r, w, w.(store := w.store.(caughtUp := true)))
  {
    assert w.log[..|w.log|] == w.log;
    var w1 := Do(r.guarded, w, Begin);
    var w2 := Do(r.guarded, w1, ReadMark);
    var w3 := Do(r.guarded, w2, Decide);
    assert w3 == w.(store := w.store.(caughtUp := true));
    Stays(r, w3);
    Then(r, w2, Decide, w3);
    Then(r, w1, ReadMark, w3);
    Then(r, w, Begin, w3);
  }

  /** The socket drops and another opens, both sides in order, and the pass that follows asks for nothing. */
  lemma ReconnectLevel(r: Rules, w: World)
    requires GoodLog(w.log) && w.log != [] && w.pass.Idle? && w.store.cursor == Top(w.log) > 0
    ensures Reaches(r, w,
      w.(registered := true, listening := true, head := |w.published|, base := |w.log|,
         store := w.store.(connection := w.store.connection + 1, caughtUp := true)))
  {
    var w1 := Do(r.guarded, w, Drop);
    var w2 := Do(r.guarded, w1, Register);
    var w3 := Do(r.guarded, w2, Open);
    var w' := w3.(store := w3.store.(caughtUp := true));
    LevelPass(r, w3);
    Then(r, w2, Open, w');
    Then(r, w1, Register, w');
    Then(r, w, Drop, w');
  }

  /**
   * WITHOUT THE CONNECTION GUARD: a pass answered before the socket reopened calls the new connection caught up; the
   * next frame steps the cursor over y, added while the socket was down; and the new connection's own pass finds the
   * cursor level and asks for nothing. y is lost for good.
   */
  lemma UnguardedLosesAnAdd(x: Item, y: Item, z: Item) returns (w': World)
    requires GoodLog([x, y, z]) && !x.deleted && !y.deleted && !z.deleted
    ensures Reaches(ALL.(guarded := false), Start(), w') && AtRest(w') && Lost(w', y)
  {
    var r, log := ALL.(guarded := false), [x, y, z];
    LogFacts(x, y, z);
    assert log[1] == y && log[2] == z && Latest(log, 1);
    w' := Connected(log, [0, 1, 2], Held(map[x.id := x, z.id := z], {}, z.packSeq, x.packSeq, 2, true), 3, 2, Idle);
    LevelPass(r, w');
    StepsOver(r, x, y, z, w');
    EndsAtRest(r, w');
  }

  /** The frame of z, on a connection called caught up too soon. */
  lemma StepsOver(r: Rules, x: Item, y: Item, z: Item, w': World)
    requires GoodLog([x, y, z]) && !x.deleted && !z.deleted && !r.guarded
    requires Reaches(r, Connected([x, y, z], [0, 1, 2], Held(map[x.id := x, z.id := z], {}, z.packSeq, x.packSeq, 2, true), 3, 2, Idle), w')
    ensures Reaches(r, Start(), w')
  {
    var log := [x, y, z];
    GoodPrefixes(x, y, z);
    LogFacts(x, y, z);
    assert log[2] == z;
    var one := Held(map[x.id := x], {}, x.packSeq, x.packSeq, 2, true);
    DeliverNew(one, z);
    assert one.items[z.id := z] == map[x.id := x, z.id := z];
    Then(r, Connected(log, [0, 1, 2], one, 2, 2, Idle), Deliver, w');
    Then(r, Connected(log, [0, 1], one, 2, 2, Idle), Publish(2), w');
    Then(r, Connected([x, y], [0, 1], one, 2, 2, Idle), Commit(z), w');
    LandsLate(r, x, y, w');
  }

  lemma LandsLate(r: Rules, x: Item, y: Item, w': World)
    requires GoodLog([x, y]) && GoodLog([x]) && !x.deleted && !r.guarded && [x] + [y] == [x, y]
    requires Reaches(r, Connected([x, y], [0, 1], Held(map[x.id := x], {}, x.packSeq, x.packSeq, 2, true), 2, 2, Idle), w')
    ensures Reaches(r, Start(), w')
  {
    var late := Connected([x, y], [0, 1], Held(map[], {}, 0, 0, 2, false), 2, 2, Whole(1, 1, [x]));
    assert [x][0] == x && [x, y][..1] == [x];
    WholeReadOfOne(late.store, x, x.packSeq);
    Then(r, late, Land, w');
    OvertakenPass(r, x, y, w');
  }

  /** A first pass reads x whole; before its answer lands the socket drops, y is added, and the socket reopens. */
  lemma OvertakenPass(r: Rules, x: Item, y: Item, w': World)
    requires GoodLog([x, y]) && GoodLog([x]) && !x.deleted && [x] + [y] == [x, y]
    requires Reaches(r, Connected([x, y], [0, 1], Held(map[], {}, 0, 0, 2, false), 2, 2, Whole(1, 1, [x])), w')
    ensures Reaches(r, Start(), w')
  {
    var none, asked, answered := Held(map[], {}, 0, 0, 1, false), AskedWhole(1), Whole(1, 1, [x]);
    var down := World([x], [0], none, false, false, 1, 1, answered, [], []);
    OneIsWhole(x);
    assert [0] + [1] == [0, 1];
    Then(r, World([x, y], [0, 1], none, true, false, 2, 2, answered, [], []), Open, w');
    Then(r, down.(log := [x, y], published := [0, 1]), Register, w');
    Then(r, down.(log := [x, y]), Publish(1), w');
    Then(r, down, Commit(y), w');
    Then(r, Connected([x], [0], none, 1, 1, answered), Drop, w');
    Then(r, Connected([x], [0], none, 1, 1, asked), AnswerWhole([x]), w');
    FirstAsks(r, x, w');
  }

  /** What a run from a first start reaches keeps the invariant. */
  lemma EndsAtRest(r: Rules, w: World)
    requires Reaches(r, Start(), w) && w.listening && w.head == |w.published| == |w.log|
    requires w.store.caughtUp && w.pass.Idle? && w.store.cursor == Top(w.log)
    ensures AtRest(w)
  {
    var steps :| Runs(r.guarded, Start(), steps) && Follow(r, Start(), steps) && After(r.guarded, Start(), steps) == w;
    StartIsGood();
    RunKeeps(r.guarded, Start(), steps);
  }

  /** The first connection has read the whole pack, x alone. */
  lemma FirstRead(r: Rules, x: Item, w': World)
    requires GoodLog([x]) && !x.deleted
    requires Reaches(r, Connected([x], [0], Held(map[x.id := x], {}, x.packSeq, x.packSeq, 1, true), 1, 1, Idle), w')
    ensures Reaches(r, Start(), w')
  {
    AnswersOne(r, Connected([x], [0], Held(map[], {}, 0, 0, 1, false), 1, 1, AskedWhole(1)), x, w');
    FirstAsks(r, x, w');
  }

  /**
   * FRAMES OUT OF TURN: caught up, a and b are added, and b's frame is sent out first. With a's frame next in the queue,
   * a is live, not held and below the cursor, so that a store letting in only what is fresh would refuse it; and if the
   * socket drops now, the next pass finds the device level, and a is lost for good.
   */
  lemma FramesOutOfTurn(x: Item, a: Item, b: Item) returns (waiting: World, w': World)
    requires GoodLog([x, a, b]) && !x.deleted && !a.deleted && !b.deleted
    ensures Reaches(ALL.(inTurn := false), Start(), waiting) && Enabled(waiting, Deliver) && Frame(waiting) == a
    ensures Lost(waiting, a) && !Fresh(waiting.store, a)
    ensures Reaches(ALL.(inTurn := false), Start(), w') && AtRest(w') && Lost(w', a)
  {
    var r, log := ALL.(inTurn := false), [x, a, b];
    LogFacts(x, a, b);
    assert log[1] == a && log[2] == b && Latest(log, 1);
    var held := Held(map[x.id := x, b.id := b], {}, b.packSeq, x.packSeq, 1, true);
    waiting := Connected(log, [0, 2, 1], held, 2, 1, Idle);
    w' := Connected(log, [0, 2, 1], held.(connection := 2), 3, 3, Idle);
    Stays(r, waiting);
    OutOfTurn(r, x, a, b, waiting);
    ReconnectLevel(r, waiting);
    OutOfTurn(r, x, a, b, w');
    EndsAtRest(r, w');
  }

  lemma OutOfTurn(r: Rules, x: Item, a: Item, b: Item, w': World)
    requires GoodLog([x, a, b]) && !x.deleted && !b.deleted && !r.inTurn
    requires Reaches(r, Connected([x, a, b], [0, 2, 1], Held(map[x.id := x, b.id := b], {}, b.packSeq, x.packSeq, 1, true), 2, 1, Idle), w')
    ensures Reaches(r, Start(), w')
  {
    var log := [x, a, b];
    LogFacts(x, a, b);
    assert log[2] == b && [0, 2] + [1] == [0, 2, 1];
    var one := Held(map[x.id := x], {}, x.packSeq, x.packSeq, 1, true);
    var two := Held(map[x.id := x, b.id := b], {}, b.packSeq, x.packSeq, 1, true);
    Then(r, Connected(log, [0, 2], two, 2, 1, Idle), Publish(1), w');
    DeliverNew(one, b);
    Then(r, Connected(log, [0, 2], one, 1, 1, Idle), Deliver, w');
    SecondFirst(r, x, a, b, w');
  }

  lemma SecondFirst(r: Rules, x: Item, a: Item, b: Item, w': World)
    requires GoodLog([x, a, b]) && !x.deleted && !r.inTurn
    requires Reaches(r, Connected([x, a, b], [0, 2], Held(map[x.id := x], {}, x.packSeq, x.packSeq, 1, true), 1, 1, Idle), w')
    ensures Reaches(r, Start(), w')
  {
    GoodPrefixes(x, a, b);
    assert [0] + [2] == [0, 2];
    var one := Held(map[x.id := x], {}, x.packSeq, x.packSeq, 1, true);
    Then(r, Connected([x, a, b], [0], one, 1, 1, Idle), Publish(2), w');
    Then(r, Connected([x, a], [0], one, 1, 1, Idle), Commit(b), w');
    Then(r, Connected([x], [0], one, 1, 1, Idle), Commit(a), w');
    FirstRead(r, x, w');
  }

  /**
   * OPEN BEFORE IT IS REGISTERED: the device hears that its socket is open, passes, and is caught up; a is added and its
   * frame sent out before the server has registered the socket; b's frame then steps the cursor over a. Nothing drops,
   * every frame is read, and a is lost for good.
   */
  lemma OpenedTooSoon(x: Item, a: Item, b: Item) returns (w': World)
    requires GoodLog([x, a, b]) && !x.deleted && !a.deleted && !b.deleted
    ensures Reaches(ALL.(registeredFirst := false), Start(), w') && AtRest(w') && Lost(w', a)
  {
    var r, log := ALL.(registeredFirst := false), [x, a, b];
    LogFacts(x, a, b);
    assert log[1] == a && log[2] == b && Latest(log, 1);
    w' := Connected(log, [0, 1, 2], Held(map[x.id := x, b.id := b], {}, b.packSeq, x.packSeq, 1, true), 3, 2, Idle);
    Stays(r, w');
    StepsOverMissed(r, x, a, b, w');
    EndsAtRest(r, w');
  }

  /** The frame of b, on a socket registered after a was sent out. */
  lemma StepsOverMissed(r: Rules, x: Item, a: Item, b: Item, w': World)
    requires GoodLog([x, a, b]) && !x.deleted && !b.deleted && !r.registeredFirst
    requires Reaches(r, Connected([x, a, b], [0, 1, 2], Held(map[x.id := x, b.id := b], {}, b.packSeq, x.packSeq, 1, true), 3, 2, Idle), w')
    ensures Reaches(r, Start(), w')
  {
    var log := [x, a, b];
    GoodPrefixes(x, a, b);
    LogFacts(x, a, b);
    assert log[2] == b;
    var one := Held(map[x.id := x], {}, x.packSeq, x.packSeq, 1, true);
    DeliverNew(one, b);
    assert one.items[b.id := b] == map[x.id := x, b.id := b];
    Then(r, Connected(log, [0, 1, 2], one, 2, 2, Idle), Deliver, w');
    Then(r, Connected(log, [0, 1], one, 2, 2, Idle), Publish(2), w');
    Then(r, Connected([x, a], [0, 1], one, 2, 2, Idle), Commit(b), w');
    MissesOne(r, x, a, w');
  }

  /** a is added and its frame sent out to nobody; then the socket is registered. */
  lemma MissesOne(r: Rules, x: Item, a: Item, w': World)
    requires GoodLog([x, a]) && GoodLog([x]) && !x.deleted && [x] + [a] == [x, a] && !r.registeredFirst
    requires Reaches(r, Connected([x, a], [0, 1], Held(map[x.id := x], {}, x.packSeq, x.packSeq, 1, true), 2, 2, Idle), w')
    ensures Reaches(r, Start(), w')
  {
    var w1 := World([x], [0], Held(map[x.id := x], {}, x.packSeq, x.packSeq, 1, true), false, true, 0, 0, Idle, [], []);
    assert [0] + [1] == [0, 1];
    Then(r, w1.(log := [x, a], published := [0, 1]), Register, w');
    Then(r, w1.(log := [x, a]), Publish(1), w');
    Then(r, w1, Commit(a), w');
    ReadsUnregistered(r, x, w');
  }

  lemma ReadsUnregistered(r: Rules, x: Item, w': World)
    requires GoodLog([x]) && !x.deleted && !r.registeredFirst
    requires Reaches(r, World([x], [0], Held(map[x.id := x], {}, x.packSeq, x.packSeq, 1, true), false, true, 0, 0, Idle, [], []), w')
    ensures Reaches(r, Start(), w')
  {
    var none := Held(map[], {}, 0, 0, 0, false);
    var heard := World([x], [0], none.(connection := 1), false, true, 0, 0, Idle, [], []);
    assert [] + [x] == [x] && [] + [0] == [0];
    AnswersOne(r, heard.(pass := AskedWhole(1)), x, w');
    PassAsks(r, heard, w');
    Then(r, heard.(store := none, listening := false), Open, w');
    Then(r, Start().(log := [x]), Publish(0), w');
    Then(r, Start(), Commit(x), w');
  }

  // ---- with every rule in place ----------------------------------------------------------------

  /**
   * A REMOVED ITEM COMES BACK: x is added and removed while a first full read is on its way, so the read covers both
   * changes and lists neither; x's frame then lands on a store that never remembered it, and the socket drops before its
   * removal's frame. The device comes to rest, and keeps x.
   */
  lemma RemovedItemComesBack(a: Item, x: Item, gone: Item) returns (w': World)
    requires GoodLog([a, x, gone]) && !a.deleted && !x.deleted && gone.deleted && gone.id == x.id
    ensures Reaches(ALL, Start(), w') && AtRest(w')
    ensures x.id in w'.store.items && Buried(w'.log, x.id, w'.store.cursor) && !LiveNow(w'.log, x)
  {
    var log := [a, x, gone];
    LogFacts(a, x, gone);
    assert log[0] == a && log[1] == x && log[2] == gone;
    var back := Held(map[a.id := a, x.id := x], {}, gone.packSeq, gone.packSeq, 1, true);
    w' := Connected(log, [0, 1, 2], back.(connection := 2), 3, 3, Idle);
    ReconnectLevel(ALL, Connected(log, [0, 1, 2], back, 2, 1, Idle));
    LateFrame(a, x, gone, w');
    EndsAtRest(ALL, w');
    assert !Latest(log, 1);
  }

  /** x's frame, over a cursor that is past its removal. */
  lemma LateFrame(a: Item, x: Item, gone: Item, w': World)
    requires GoodLog([a, x, gone]) && !a.deleted && !x.deleted && gone.deleted && gone.id == x.id
    requires Reaches(ALL, Connected([a, x, gone], [0, 1, 2], Held(map[a.id := a, x.id := x], {}, gone.packSeq, gone.packSeq, 1, true), 2, 1, Idle), w')
    ensures Reaches(ALL, Start(), w')
  {
    var log := [a, x, gone];
    LogFacts(a, x, gone);
    assert log[1] == x;
    var read := Held(map[a.id := a], {}, gone.packSeq, gone.packSeq, 1, true);
    assert Received(read, x, LiveFrame) == read.(items := map[a.id := a, x.id := x]);
    Then(ALL, Connected(log, [0, 1, 2], read, 1, 1, Idle), Deliver, w');
    FullReadSkipsBoth(a, x, gone, w');
  }

  lemma ListsTheFirst(a: Item, x: Item, gone: Item)
    requires GoodLog([a, x, gone]) && !a.deleted && !x.deleted && gone.deleted && gone.id == x.id
    ensures WholeOf([a, x, gone], [a])
  {
    var log := [a, x, gone];
    LogFacts(a, x, gone);
    assert log[0] == a && log[1] == x && log[2] == gone;
    assert Latest(log, 0) && !Latest(log, 1);
    assert LiveNow(log, a);
  }

  /** The full read answered after both changes: a alone, under the removal's mark. */
  lemma FullReadSkipsBoth(a: Item, x: Item, gone: Item, w': World)
    requires GoodLog([a, x, gone]) && !a.deleted && !x.deleted && gone.deleted && gone.id == x.id
    requires Reaches(ALL, Connected([a, x, gone], [0, 1, 2], Held(map[a.id := a], {}, gone.packSeq, gone.packSeq, 1, true), 1, 1, Idle), w')
    ensures Reaches(ALL, Start(), w')
  {
    var log := [a, x, gone];
    var read := Held(map[], {}, 0, 0, 1, false);
    LogFacts(a, x, gone);
    ListsTheFirst(a, x, gone);
    assert log[..3] == log && log[2] == gone;
    WholeReadOfOne(read, a, gone.packSeq);
    Then(ALL, Connected(log, [0, 1, 2], read, 1, 1, Whole(1, 3, [a])), Land, w');
    Then(ALL, Connected(log, [0, 1, 2], read, 1, 1, AskedWhole(1)), AnswerWhole([a]), w');
    AskedBeforeBoth(a, x, gone, w');
  }

  lemma AskedBeforeBoth(a: Item, x: Item, gone: Item, w': World)
    requires GoodLog([a, x, gone])
    requires Reaches(ALL, Connected([a, x, gone], [0, 1, 2], Held(map[], {}, 0, 0, 1, false), 1, 1, AskedWhole(1)), w')
    ensures Reaches(ALL, Start(), w')
  {
    var read := Held(map[], {}, 0, 0, 1, false);
    GoodPrefixes(a, x, gone);
    Then(ALL, Connected([a, x, gone], [0, 1], read, 1, 1, AskedWhole(1)), Publish(2), w');
    Then(ALL, Connected([a, x], [0, 1], read, 1, 1, AskedWhole(1)), Commit(gone), w');
    Then(ALL, Connected([a, x], [0], read, 1, 1, AskedWhole(1)), Publish(1), w');
    Then(ALL, Connected([a], [0], read, 1, 1, AskedWhole(1)), Commit(x), w');
    FirstAsks(ALL, a, w');
  }
}
