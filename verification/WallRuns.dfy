/**
 * Five runs of module WallWorld from a first start, each by all the rules of WallCalm but one, in which the board's cursor
 * passes a change for good: the device comes to rest without it.
 */
module WallRuns {
  import opened Wrappers
  import opened WallStore
  import opened WallWorld
  import opened WallLaws
  import opened WallCalm

  ghost predicate Reaches(r: Rules, w: World, w': World) {
    exists steps :: Runs(w, steps) && Follow(r, w, steps) && After(w, steps) == w'
  }

  lemma Stays(r: Rules, w: World)
    ensures Reaches(r, w, w)
  {
    assert Runs(w, []) && Follow(r, w, []) && After(w, []) == w;
  }

  /** One more step in front of whatever can follow it. */
  lemma Then(r: Rules, w: World, step: Step, w': World)
    requires Enabled(w, step) && Follows(r, w, step) && Reaches(r, Do(w, step), w')
    ensures Reaches(r, w, w')
  {
    var v := Do(w, step);
    var rest :| Runs(v, rest) && Follow(r, v, rest) && After(v, rest) == w';
    var steps := [step] + rest;
    assert steps[1..] == rest;
    assert Runs(w, steps) && Follow(r, w, steps) && After(w, steps) == w';
  }

  /** A listening device on a registered socket, with nothing of its own on its way; this is its `connection`-th. */
  function Connected(log: seq<Note>, published: seq<nat>, s: Wall, head: nat, base: nat, connection: nat, caughtUp: bool, pass: Pass): World {
    World(log, published, s, true, true, head, base, connection, caughtUp, pass, [], [])
  }

  /** At rest, and the cursor has passed a change that is not applied. */
  ghost predicate RestsWithout(w: World, j: int) {
    AtRest(w) && Latest(w.log, j) && w.log[j].boardSeq <= w.store.cursor && !Settled(w.store, w.log[j])
  }

  // ---- pieces of the runs ----------------------------------------------------------------------

  lemma LogFacts(x: Note, y: Note, z: Note)
    requires GoodLog([x, y, z])
    ensures 0 < x.boardSeq < y.boardSeq < z.boardSeq
  {
    var log := [x, y, z];
    assert log[0] == x && log[1] == y && log[2] == z;
  }

  lemma GoodPrefixes(x: Note, y: Note, z: Note)
    requires GoodLog([x, y, z])
    ensures [x] + [y] == [x, y] && [x, y] + [z] == [x, y, z] && [0] + [1] == [0, 1] && [0, 1] + [2] == [0, 1, 2]
    ensures GoodLog([x]) && GoodLog([x, y])
  {
    Grown(x, y, z);
    Grown(0, 1, 2);
    GoodPrefix([x, y, z], 1);
    GoodPrefix([x, y, z], 2);
  }

  lemma GoodPrefix(log: seq<Note>, at: nat)
    requires GoodLog(log) && at <= |log|
    ensures GoodLog(log[..at])
  {
  }

  /** A pass that finds the device level. */
  lemma LevelPass(r: Rules, w: World)
    requires w.log != [] && w.pass.Idle? && w.store.cursor == Top(w.log) > 0
    ensures Reaches(r, w, w.(caughtUp := true))
  {
    var w1 := Do(w, Begin);
    var w2 := Do(w1, ReadMark);
    assert w.log[..|w.log|] == w.log;
    var w3 := Do(w2, Decide);
    assert w3 == w.(caughtUp := true);
    Stays(r, w3);
    Then(r, w2, Decide, w3);
    Then(r, w1, ReadMark, w3);
    Then(r, w, Begin, w3);
  }

  /** The socket drops and another opens, both sides in order, and the pass that follows asks for nothing. */
  lemma ReconnectLevel(r: Rules, w: World)
    requires w.log != [] && w.pass.Idle? && w.store.cursor == Top(w.log) > 0
    ensures Reaches(r, w,
      w.(registered := true, listening := true, head := |w.published|, base := |w.log|, connection := w.connection + 1, caughtUp := true))
  {
    var w1 := Do(w, Drop);
    var w2 := Do(w1, Register);
    var w3 := Do(w2, Open);
    LevelPass(r, w3);
    Then(r, w2, Open, w3.(caughtUp := true));
    Then(r, w1, Register, w3.(caughtUp := true));
    Then(r, w, Drop, w3.(caughtUp := true));
  }

  lemma PassAsks(r: Rules, w: World, w': World)
    requires w.pass.Idle? && w.log != [] && w.store.cursor == 0 && Reaches(r, w.(pass := AskedWhole(w.connection)), w')
    ensures Reaches(r, w, w')
  {
    var w1 := Do(w, Begin);
    var w2 := Do(w1, ReadMark);
    assert w.log[..|w.log|] == w.log;
    Then(r, w2, Decide, w');
    Then(r, w1, ReadMark, w');
    Then(r, w, Begin, w');
  }

  lemma WrittenOne(s: Wall, x: Note, mark: int)
    requires s.notes == map[] && s.gone == {} && s.fullMark <= mark && !x.deleted
    ensures Replaced(s, [x], mark) == Wall(map[x.id := x], {}, mark, mark)
  {
    assert Cleared(s, mark).notes == map[];
    assert Written(s.(notes := map[x.id := x]), []) == s.(notes := map[x.id := x]);
    assert [x][1..] == [];
  }

  /** The whole board is x: asked for, its mark and its notes taken, landed. */
  lemma AnswersOne(r: Rules, w: World, x: Note, w': World)
    requires GoodLog([x]) && !x.deleted && w.log == [x] && w.pass == AskedWhole(w.connection) && w.store == Wall(map[], {}, 0, 0)
    requires Reaches(r, w.(store := Wall(map[x.id := x], {}, x.boardSeq, x.boardSeq), caughtUp := true, pass := Idle), w')
    ensures Reaches(r, w, w')
  {
    var w1 := w.(pass := WholeMark(w.connection, 1));
    var w2 := w.(pass := Whole(w.connection, 1, 1, [x]));
    OneIsWhole(x);
    WrittenOne(w.store, x, x.boardSeq);
    assert w.log[..1] == w.log && [x][0] == x;
    Then(r, w2, Land, w');
    Then(r, w1, AnswerWhole([x]), w');
    Then(r, w, MarkWhole, w');
  }

  lemma OneIsWhole(x: Note)
    requires GoodLog([x]) && !x.deleted
    ensures IsWhole([x], [x])
  {
    assert Latest([x], 0);
  }

  /** A frame of a note not known here. */
  lemma NewFrame(s: Wall, z: Note)
    requires !z.deleted && z.id !in s.notes && z.id !in s.gone && 0 < s.cursor < z.boardSeq
    ensures Received(s, z, LiveFrame) == Wall(s.notes[z.id := z], s.gone, z.boardSeq, s.fullMark)
  {
  }

  /** From a first start: x is pinned, the device connects, and its whole read shows it. */
  lemma FirstRead(r: Rules, x: Note, w': World)
    requires GoodLog([x]) && !x.deleted
    requires Reaches(r, Connected([x], [0], Wall(map[x.id := x], {}, x.boardSeq, x.boardSeq), 1, 1, 1, true, Idle), w')
    ensures Reaches(r, Start(), w')
  {
    var none := Wall(map[], {}, 0, 0);
    var w2 := World([x], [0], none, true, false, 1, 1, 0, false, Idle, [], []);
    var w3 := Connected([x], [0], none, 1, 1, 1, false, Idle);
    assert [] + [x] == [x] && [] + [0] == [0];
    AnswersOne(r, w3.(pass := AskedWhole(1)), x, w');
    PassAsks(r, w3, w');
    Then(r, w2, Open, w');
    Then(r, w2.(registered := false, head := 0, base := 0), Register, w');
    Then(r, Start().(log := [x]), Publish(0), w');
    Then(r, Start(), Commit(x), w');
  }

  // ---- a frame before the pass -----------------------------------------------------------------

  /** A FRAME OVERTAKES: read whole, the socket drops, y is pinned, the socket reopens, z is pinned and its frame lands before the pass; the pass finds the device level, and y is never asked for. */
  lemma FrameOvertakes(x: Note, y: Note, z: Note) returns (w': World)
    requires GoodLog([x, y, z]) && !x.deleted && !y.deleted && !z.deleted && x.id != y.id && y.id != z.id && x.id != z.id
    ensures Reaches(ALL.(passFirst := false), Start(), w') && w'.log == [x, y, z] && RestsWithout(w', 1)
    ensures y.id !in w'.store.notes && y.id !in w'.store.gone
  {
    var r, log := ALL.(passFirst := false), [x, y, z];
    LogFacts(x, y, z);
    assert log[1] == y && log[2] == z;
    var w6 := Connected(log, [0, 1, 2], Wall(map[x.id := x][z.id := z], {}, z.boardSeq, x.boardSeq), 3, 2, 2, false, Idle);
    w' := w6.(caughtUp := true);
    LevelPass(r, w6);
    var held := Wall(map[x.id := x], {}, x.boardSeq, x.boardSeq);
    NewFrame(held, z);
    var w5 := Connected(log, [0, 1, 2], held, 2, 2, 2, false, Idle);
    assert Do(w5, Deliver) == w6;
    Then(r, w5, Deliver, w');
    Reconnects(r, x, y, z, w');
  }

  /** The socket drops and reopens, y pinned in between and z after. */
  lemma Reconnects(r: Rules, x: Note, y: Note, z: Note, w': World)
    requires GoodLog([x, y, z]) && !x.deleted
    requires Reaches(r, Connected([x, y, z], [0, 1, 2], Wall(map[x.id := x], {}, x.boardSeq, x.boardSeq), 2, 2, 2, false, Idle), w')
    ensures Reaches(r, Start(), w')
  {
    var held := Wall(map[x.id := x], {}, x.boardSeq, x.boardSeq);
    var down := World([x], [0], held, false, false, 1, 1, 1, true, Idle, [], []);
    GoodPrefixes(x, y, z);
    Then(r, Connected([x, y, z], [0, 1], held, 2, 2, 2, false, Idle), Publish(2), w');
    Then(r, Connected([x, y], [0, 1], held, 2, 2, 2, false, Idle), Commit(z), w');
    Then(r, World([x, y], [0, 1], held, true, false, 2, 2, 1, true, Idle, [], []), Open, w');
    Then(r, down.(log := [x, y], published := [0, 1]), Register, w');
    Then(r, down.(log := [x, y]), Publish(1), w');
    Then(r, down, Commit(y), w');
    Then(r, Connected([x], [0], held, 1, 1, 1, true, Idle), Drop, w');
    FirstRead(r, x, w');
  }

  // ---- frames out of turn ----------------------------------------------------------------------

  /**
   * FRAMES OUT OF TURN: caught up, a and b are pinned, and b's frame is sent out first. With a's frame next in the queue,
   * a is live, not shown and below the cursor, so that the check at the write would refuse it; and if the socket drops
   * now, the next pass finds the device level.
   */
  lemma FramesOutOfTurn(x: Note, a: Note, b: Note) returns (waiting: World, w': World)
    requires GoodLog([x, a, b]) && !x.deleted && !a.deleted && !b.deleted && x.id != a.id && a.id != b.id && x.id != b.id
    ensures Reaches(ALL.(inTurn := false), Start(), waiting) && Enabled(waiting, Deliver)
    ensures Frame(waiting) == a && Latest(waiting.log, 1) && !Fresh(waiting.store, a)
    ensures Reaches(ALL.(inTurn := false), Start(), w') && w'.log == [x, a, b] && RestsWithout(w', 1)
  {
    var r, log := ALL.(inTurn := false), [x, a, b];
    LogFacts(x, a, b);
    assert log[1] == a && log[2] == b;
    waiting := Connected(log, [0, 2, 1], Wall(map[x.id := x][b.id := b], {}, b.boardSeq, x.boardSeq), 2, 1, 1, true, Idle);
    w' := waiting.(head := 3, base := 3, connection := 2);
    Stays(r, waiting);
    OutOfTurn(r, x, a, b, waiting);
    ReconnectLevel(r, waiting);
    OutOfTurn(r, x, a, b, w');
  }

  lemma OutOfTurn(r: Rules, x: Note, a: Note, b: Note, w': World)
    requires GoodLog([x, a, b]) && !x.deleted && !b.deleted && x.id != b.id && !r.inTurn
    requires Reaches(r, Connected([x, a, b], [0, 2, 1], Wall(map[x.id := x][b.id := b], {}, b.boardSeq, x.boardSeq), 2, 1, 1, true, Idle), w')
    ensures Reaches(r, Start(), w')
  {
    var log, held := [x, a, b], Wall(map[x.id := x], {}, x.boardSeq, x.boardSeq);
    LogFacts(x, a, b);
    GoodPrefixes(x, a, b);
    assert log[2] == b && [0, 2] + [1] == [0, 2, 1] && [0] + [2] == [0, 2];
    NewFrame(held, b);
    Then(r, Connected(log, [0, 2], Wall(map[x.id := x][b.id := b], {}, b.boardSeq, x.boardSeq), 2, 1, 1, true, Idle), Publish(1), w');
    Then(r, Connected(log, [0, 2], held, 1, 1, 1, true, Idle), Deliver, w');
    Then(r, Connected(log, [0], held, 1, 1, 1, true, Idle), Publish(2), w');
    Then(r, Connected([x, a], [0], held, 1, 1, 1, true, Idle), Commit(b), w');
    Then(r, Connected([x], [0], held, 1, 1, 1, true, Idle), Commit(a), w');
    FirstRead(r, x, w');
  }

  // ---- open before it is registered ------------------------------------------------------------

  /** OPEN BEFORE IT IS REGISTERED: the device passes on a socket the server has not registered yet; a is pinned and its frame sent out to nobody; b's frame then steps the cursor over a. Nothing drops. */
  lemma OpenedTooSoon(x: Note, a: Note, b: Note) returns (w': World)
    requires GoodLog([x, a, b]) && !x.deleted && !a.deleted && !b.deleted && x.id != a.id && a.id != b.id && x.id != b.id
    ensures Reaches(ALL.(registeredFirst := false), Start(), w') && w'.log == [x, a, b] && RestsWithout(w', 1)
  {
    var r, log := ALL.(registeredFirst := false), [x, a, b];
    var held := Wall(map[x.id := x], {}, x.boardSeq, x.boardSeq);
    LogFacts(x, a, b);
    GoodPrefixes(x, a, b);
    assert log[1] == a && log[2] == b;
    w' := Connected(log, [0, 1, 2], Wall(map[x.id := x][b.id := b], {}, b.boardSeq, x.boardSeq), 3, 2, 1, true, Idle);
    Stays(r, w');
    NewFrame(held, b);
    Then(r, Connected(log, [0, 1, 2], held, 2, 2, 1, true, Idle), Deliver, w');
    Then(r, Connected(log, [0, 1], held, 2, 2, 1, true, Idle), Publish(2), w');
    Then(r, Connected([x, a], [0, 1], held, 2, 2, 1, true, Idle), Commit(b), w');
    MissesOne(r, x, a, w');
  }

  lemma MissesOne(r: Rules, x: Note, a: Note, w': World)
    requires GoodLog([x, a]) && GoodLog([x]) && !x.deleted && [x] + [a] == [x, a] && !r.registeredFirst
    requires Reaches(r, Connected([x, a], [0, 1], Wall(map[x.id := x], {}, x.boardSeq, x.boardSeq), 2, 2, 1, true, Idle), w')
    ensures Reaches(r, Start(), w')
  {
    var w1 := World([x], [0], Wall(map[x.id := x], {}, x.boardSeq, x.boardSeq), false, true, 0, 0, 1, true, Idle, [], []);
    assert [0] + [1] == [0, 1];
    Then(r, w1.(log := [x, a], published := [0, 1]), Register, w');
    Then(r, w1.(log := [x, a]), Publish(1), w');
    Then(r, w1, Commit(a), w');
    ReadsUnregistered(r, x, w');
  }

  lemma ReadsUnregistered(r: Rules, x: Note, w': World)
    requires GoodLog([x]) && !x.deleted && !r.registeredFirst
    requires Reaches(r, World([x], [0], Wall(map[x.id := x], {}, x.boardSeq, x.boardSeq), false, true, 0, 0, 1, true, Idle, [], []), w')
    ensures Reaches(r, Start(), w')
  {
    var w0 := World([x], [0], Wall(map[], {}, 0, 0), false, true, 0, 0, 1, false, Idle, [], []);
    assert [] + [x] == [x] && [] + [0] == [0];
    AnswersOne(r, w0.(pass := AskedWhole(1)), x, w');
    PassAsks(r, w0, w');
    Then(r, w0.(listening := false, connection := 0), Open, w');
    Then(r, Start().(log := [x]), Publish(0), w');
    Then(r, Start(), Commit(x), w');
  }

  // ---- a whole read that takes a note back -----------------------------------------------------

  /** The board is empty, and the first pass ends with nothing to read. */
  lemma EmptyPass(r: Rules, w': World)
    requires Reaches(r, Connected([], [], Wall(map[], {}, 0, 0), 0, 0, 1, true, Idle), w')
    ensures Reaches(r, Start(), w')
  {
    var none := Wall(map[], {}, 0, 0);
    var w1 := World([], [], none, true, false, 0, 0, 0, false, Idle, [], []);
    var w2 := Connected([], [], none, 0, 0, 1, false, Idle);
    var w3 := w2.(pass := Began(1));
    var w4 := w2.(pass := Marked(1, 0));
    Then(r, w4, Decide, w');
    Then(r, w3, ReadMark, w');
    Then(r, w2, Begin, w');
    Then(r, w1, Open, w');
    Then(r, Start(), Register, w');
  }

  /** A FRAME WHILE A WHOLE READ IS OUT: every frame of this run lands after a pass of its connection has ended. A note is pinned, the next pass asks for the whole board, the note is changed and its frame lands, the answer writes it back, and the next frame steps over the change. */
  lemma WholeReadTakesBack(a: Note, changed: Note, b: Note) returns (w': World)
    requires GoodLog([a, changed, b]) && !a.deleted && !changed.deleted && !b.deleted && a.id == changed.id != b.id
    ensures Reaches(ALL.(noWholeOut := false), Start(), w') && w'.log == [a, changed, b] && RestsWithout(w', 1)
    ensures a.id in w'.store.notes && w'.store.notes[a.id] == a && a.boardSeq < changed.boardSeq
  {
    var r, log := ALL.(noWholeOut := false), [a, changed, b];
    w' := Connected(log, [0, 1, 2], Wall(map[a.id := a][b.id := b], {}, b.boardSeq, a.boardSeq), 3, 0, 1, true, Idle);
    LogFacts(a, changed, b);
    GoodPrefixes(a, changed, b);
    assert log[1] == changed && log[2] == b;
    Stays(r, w');
    var held := Wall(map[a.id := a], {}, a.boardSeq, a.boardSeq);
    NewFrame(held, b);
    Then(r, Connected(log, [0, 1, 2], held, 2, 0, 1, true, Idle), Deliver, w');
    Then(r, Connected(log, [0, 1], held, 2, 0, 1, true, Idle), Publish(2), w');
    Then(r, Connected([a, changed], [0, 1], held, 2, 0, 1, true, Idle), Commit(b), w');
    ReadMeanwhile(r, a, changed, w');
    FirstFrame(r, a, w');
    EmptyPass(r, w');
  }

  /** The first note's frame, before the board has been read; the next pass asks for the whole board. */
  lemma FirstFrame(r: Rules, a: Note, w': World)
    requires GoodLog([a]) && !a.deleted
    requires Reaches(r, Connected([a], [0], Wall(map[a.id := a], {}, 0, 0), 1, 0, 1, true, AskedWhole(1)), w')
    ensures Reaches(r, Connected([], [], Wall(map[], {}, 0, 0), 0, 0, 1, true, Idle), w')
  {
    var none := Wall(map[], {}, 0, 0);
    assert [] + [a] == [a] && [] + [0] == [0] && [a][0] == a;
    PassAsks(r, Connected([a], [0], Wall(map[a.id := a], {}, 0, 0), 1, 0, 1, true, Idle), w');
    Then(r, Connected([a], [0], none, 0, 0, 1, true, Idle), Deliver, w');
    Then(r, Connected([a], [], none, 0, 0, 1, true, Idle), Publish(0), w');
    Then(r, Connected([], [], none, 0, 0, 1, true, Idle), Commit(a), w');
  }

  lemma ReadMeanwhile(r: Rules, a: Note, changed: Note, w': World)
    requires GoodLog([a, changed]) && GoodLog([a]) && !a.deleted && !changed.deleted && a.id == changed.id && [a] + [changed] == [a, changed]
    requires !r.noWholeOut
    requires Reaches(r, Connected([a, changed], [0, 1], Wall(map[a.id := a], {}, a.boardSeq, a.boardSeq), 2, 0, 1, true, Idle), w')
    ensures Reaches(r, Connected([a], [0], Wall(map[a.id := a], {}, 0, 0), 1, 0, 1, true, AskedWhole(1)), w')
  {
    var first, read := Wall(map[a.id := a], {}, 0, 0), Whole(1, 1, 1, [a]);
    var w9 := Connected([a, changed], [0, 1], Wall(map[a.id := changed], {}, 0, 0), 2, 0, 1, true, read);
    assert [a, changed][0] == a && [a, changed][1] == changed && [a, changed][..1] == [a] && [0] + [1] == [0, 1];
    TakesBack(w9.store, a);
    Then(r, w9, Land, w');
    assert first.notes[a.id := changed] == map[a.id := changed];
    Then(r, Connected([a, changed], [0, 1], first, 1, 0, 1, true, read), Deliver, w');
    Then(r, Connected([a, changed], [0], first, 1, 0, 1, true, read), Publish(1), w');
    Then(r, Connected([a], [0], first, 1, 0, 1, true, read), Commit(changed), w');
    ReadFirst(r, a, w');
  }

  lemma ReadFirst(r: Rules, a: Note, w': World)
    requires GoodLog([a]) && !a.deleted
    requires Reaches(r, Connected([a], [0], Wall(map[a.id := a], {}, 0, 0), 1, 0, 1, true, Whole(1, 1, 1, [a])), w')
    ensures Reaches(r, Connected([a], [0], Wall(map[a.id := a], {}, 0, 0), 1, 0, 1, true, AskedWhole(1)), w')
  {
    var first := Wall(map[a.id := a], {}, 0, 0);
    OneIsWhole(a);
    Then(r, Connected([a], [0], first, 1, 0, 1, true, WholeMark(1, 1)), AnswerWhole([a]), w');
    Then(r, Connected([a], [0], first, 1, 0, 1, true, AskedWhole(1)), MarkWhole, w');
  }

  lemma TakesBack(s: Wall, a: Note)
    requires s.gone == {} && s.notes.Keys == {a.id} && s.notes[a.id].boardSeq > a.boardSeq >= s.fullMark && !a.deleted
    ensures Replaced(s, [a], a.boardSeq) == Wall(map[a.id := a], {}, a.boardSeq, a.boardSeq)
  {
    var c := Cleared(s, a.boardSeq);
    assert Written(c.(notes := c.notes[a.id := a]), []) == c.(notes := c.notes[a.id := a]);
    assert [a][1..] == [];
    assert c.notes[a.id := a] == map[a.id := a];
  }

  // ---- a removal the whole read did not remember -----------------------------------------------

  /** A REMOVED NOTE COMES BACK: this device pins a note and the answer is slow, the note is taken down, a whole read leaves it out and remembers nothing, and the answer puts it up for good. */
  lemma RemovedNoteComesBack(x: Note, gone: Note) returns (w': World)
    requires GoodLog([x, gone]) && !x.deleted && gone.deleted && gone.id == x.id
    ensures Reaches(ALL.(freshOnly := false), Start(), w') && w'.log == [x, gone] && RestsWithout(w', 1)
    ensures x.id in w'.store.notes && w'.posts == []
  {
    var r, log := ALL.(freshOnly := false), [x, gone];
    var none, level := Wall(map[], {}, 0, 0), Wall(map[], {}, gone.boardSeq, gone.boardSeq);
    var w4 := World(log, [0, 1], none, true, true, 2, 2, 1, false, Idle, [x], []);
    var w10 := w4.(store := level, caughtUp := true);
    w' := w10.(store := level.(notes := map[x.id := x]), posts := []);
    assert log[0] == x && log[1] == gone;
    Stays(r, w');
    assert Do(w10, LandPost(0)) == w';
    Then(r, w10, LandPost(0), w');
    ReadsNothing(r, w4, gone, w');
    AnsweredAndRemoved(r, x, gone, w');
  }

  /** The note is pinned by this device, the write answered, the note taken down, and a socket opened after. */
  lemma AnsweredAndRemoved(r: Rules, x: Note, gone: Note, w': World)
    requires GoodLog([x, gone]) && !x.deleted && !r.freshOnly
    requires Reaches(r, World([x, gone], [0, 1], Wall(map[], {}, 0, 0), true, true, 2, 2, 1, false, Idle, [x], []), w')
    ensures Reaches(r, Start(), w')
  {
    var w1 := Start().(log := [x]);
    var w2 := w1.(posts := [x]);
    var w4 := w2.(log := [x, gone], published := [0]);
    assert [] + [x] == [x] && [x] + [gone] == [x, gone] && [] + [0] == [0] && [0] + [1] == [0, 1] && [x][0] == x;
    GoodPrefix([x, gone], 1);
    assert [x, gone][..1] == [x];
    Then(r, w4.(published := [0, 1], registered := true, head := 2, base := 2), Open, w');
    Then(r, w4.(published := [0, 1]), Register, w');
    Then(r, w4, Publish(1), w');
    Then(r, w4.(published := []), Publish(0), w');
    Then(r, w2, Commit(gone), w');
    Then(r, w1, AnswerPost(0), w');
    Then(r, Start(), Commit(x), w');
  }

  /** A pass that reads a board with no live note. */
  lemma ReadsNothing(r: Rules, w: World, gone: Note, w': World)
    requires |w.log| == 2 && GoodLog(w.log) && w.log[1] == gone && gone.deleted && w.log[0].id == gone.id
    requires w.pass.Idle? && w.store == Wall(map[], {}, 0, 0)
    requires Reaches(r, w.(store := Wall(map[], {}, gone.boardSeq, gone.boardSeq), caughtUp := true), w')
    ensures Reaches(r, w, w')
  {
    var w1 := w.(pass := AskedWhole(w.connection));
    var w2 := w.(pass := WholeMark(w.connection, 2));
    var w3 := w.(pass := Whole(w.connection, 2, 2, []));
    assert w.log[..2] == w.log;
    assert IsWhole(w.log, []);
    assert Replaced(w.store, [], gone.boardSeq) == Wall(map[], {}, gone.boardSeq, gone.boardSeq);
    Then(r, w3, Land, w');
    Then(r, w2, AnswerWhole([]), w');
    Then(r, w1, MarkWhole, w');
    PassAsks(r, w, w');
  }
}
