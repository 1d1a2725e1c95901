/**
 * What holds of every run of module WallWorld: exactly which steps let the board's cursor pass a change that is not
 * applied, and a way to run that has none of them.
 */
module WallLaws {
  import opened Wrappers
  import opened WallStore
  import opened WallWorld

  // ---- the cursor's promise --------------------------------------------------------------------

  /** A note's latest change is applied: the wall shows just that version, or shows nothing of a note removed. */
  predicate Settled(s: Wall, v: Note) {
    if v.deleted then v.id !in s.notes else v.id in s.notes && s.notes[v.id] == v
  }

  /** The cursor passes no unapplied change. */
  ghost predicate Covers(w: World) {
    forall j | Latest(w.log, j) && w.log[j].boardSeq <= w.store.cursor :: Settled(w.store, w.log[j])
  }

  /** A version comes back from the dead: unknown here, and removed at or below the cursor. */
  ghost predicate Revives(w: World, v: Note) {
    !v.deleted && v.id !in w.store.notes && v.id !in w.store.gone && Buried(w.log, v.id, w.store.cursor)
  }

  /** The versions a step puts through the per-note rule. */
  ghost predicate Arrival(w: World, step: Step, v: Note)
    requires Enabled(w, step)
  {
    match step
    case Deliver => v == Frame(w)
    case LandPost(k) => v == w.posts[k]
    case Land => w.pass.PageIn? && v in w.pass.page
    case _ => false
  }

  /** A frame moves the cursor over some note's latest change that is not applied. */
  ghost predicate Overtakes(w: World, step: Step)
    requires Enabled(w, step)
  {
    && step.Deliver? && w.store.cursor != 0
    && exists j :: Latest(w.log, j) && w.store.cursor < w.log[j].boardSeq < Frame(w).boardSeq && !Settled(w.store, w.log[j])
  }

  ghost predicate Skips(w: World, step: Step)
    requires Enabled(w, step)
  {
    Overtakes(w, step) || exists v :: Arrival(w, step, v) && Revives(w, v)
  }

  // ---- the log ---------------------------------------------------------------------------------

  lemma TopIsHighest(log: seq<Note>, at: nat)
    requires GoodLog(log) && at <= |log|
    ensures 0 <= Top(log[..at]) <= Top(log)
    ensures forall i | 0 <= i < |log| :: i < at <==> log[i].boardSeq <= Top(log[..at])
    ensures log[..|log|] == log
  {
    if at > 0 {
      assert log[..at][at - 1] == log[at - 1];
    }
  }

  lemma TombstoneIsLatest(log: seq<Note>, i: int)
    requires GoodLog(log) && 0 <= i < |log| && log[i].deleted
    ensures Latest(log, i)
    ensures forall v | v in log && v.id == log[i].id && !v.deleted :: v.boardSeq < log[i].boardSeq
  {
  }

  lemma LatestIsNotGone(log: seq<Note>, s: Wall, j: int)
    requires GoodLog(log) && Authentic(log, s) && Latest(log, j) && !log[j].deleted
    ensures log[j].id !in s.gone
    ensures log[j].id in s.notes ==> s.notes[log[j].id].boardSeq <= log[j].boardSeq
    ensures forall v | v in log && v.id == log[j].id && v != log[j] :: v.boardSeq < log[j].boardSeq && !v.deleted
  {
  }

  lemma PrefixLatest(log: seq<Note>, at: nat, j: int)
    requires at <= |log| && Latest(log, j) && j < at
    ensures Latest(log[..at], j) && log[..at][j] == log[j]
  {
  }

  // ---- one version -----------------------------------------------------------------------------

  /** It brings back a note that was rightly not shown. */
  predicate RevivedBy(s: Wall, e: Note, v: Note) {
    e.deleted && !v.deleted && v.id == e.id && v.id !in s.gone
  }

  /** One genuine version settles itself, and unsettles only the removal of a note it brings back. */
  lemma AppliedSettles(log: seq<Note>, s: Wall, v: Note)
    requires GoodLog(log) && Authentic(log, s) && v in log
    ensures Authentic(log, Applied(s, v))
    ensures forall j | Latest(log, j) ::
      Settled(Applied(s, v), log[j]) <==> v == log[j] || (Settled(s, log[j]) && !RevivedBy(s, log[j], v))
  {
    var t := Applied(s, v);
    if v.deleted {
      var i :| 0 <= i < |log| && log[i] == v;
      TopIsHighest(log, |log|);
      assert Buried(log, v.id, Top(log));
    }
    forall j | Latest(log, j)
      ensures Settled(t, log[j]) <==> v == log[j] || (Settled(s, log[j]) && !RevivedBy(s, log[j], v))
    {
      OneSettles(log, s, v, j);
    }
  }

  lemma OneSettles(log: seq<Note>, s: Wall, v: Note, j: int)
    requires GoodLog(log) && Authentic(log, s) && v in log && Latest(log, j)
    ensures Settled(Applied(s, v), log[j]) <==> v == log[j] || (Settled(s, log[j]) && !RevivedBy(s, log[j], v))
  {
    var i :| 0 <= i < |log| && log[i] == v;
    if !log[j].deleted {
      LatestIsNotGone(log, s, j);
    }
  }

  // ---- a page ----------------------------------------------------------------------------------

  /** Rows of distinct notes, one after another. */
  lemma {:induction false} AppliedAllSettles(log: seq<Note>, s: Wall, vs: seq<Note>)
    requires GoodLog(log) && Authentic(log, s) && OneEach(vs) && forall v | v in vs :: v in log
    ensures Authentic(log, AppliedAll(s, vs))
    ensures forall j | Latest(log, j) ::
      Settled(AppliedAll(s, vs), log[j]) <==>
        log[j] in vs || (Settled(s, log[j]) && forall v | v in vs :: !RevivedBy(s, log[j], v))
    decreases |vs|
  {
    if vs != [] {
      var v, rest, t := vs[0], vs[1..], Applied(s, vs[0]);
      assert vs == [v] + rest;
      assert forall u :: u in vs <==> u == v || u in rest;
      AppliedSettles(log, s, v);
      AppliedAllSettles(log, t, rest);
      forall j | Latest(log, j)
        ensures Settled(AppliedAll(s, vs), log[j]) <==>
          log[j] in vs || (Settled(s, log[j]) && forall u | u in vs :: !RevivedBy(s, log[j], u))
      {
        RestRevivesAlike(s, vs, log[j]);
      }
    }
  }

  lemma RestRevivesAlike(s: Wall, vs: seq<Note>, e: Note)
    requires vs != [] && OneEach(vs)
    ensures forall u | u in vs[1..] :: RevivedBy(Applied(s, vs[0]), e, u) <==> RevivedBy(s, e, u)
  {
    forall u | u in vs[1..]
      ensures u.id != vs[0].id
    {
      var k :| 0 <= k < |vs[1..]| && vs[1..][k] == u;
      assert vs[k + 1] == u;
    }
  }

  lemma {:induction false} HighestIs(vs: seq<Note>, start: int)
    ensures var h := Highest(vs, start);
      start <= h && (forall v | v in vs :: v.boardSeq <= h) && (h == start || exists v :: v in vs && v.boardSeq == h)
    decreases |vs|
  {
    if vs != [] {
      HighestIs(vs[1..], Max(start, vs[0].boardSeq));
      assert forall v :: v in vs <==> v == vs[0] || v in vs[1..];
    }
  }

  /** The rows of a page taken from part of the log. */
  lemma PageRows(log: seq<Note>, at: nat, after: int, page: seq<Note>)
    requires GoodLog(log) && at <= |log| && IsPage(log[..at], after, page)
    ensures OneEach(page) && forall v | v in page :: v in log && after < v.boardSeq <= Top(log[..at])
  {
    TopIsHighest(log, at);
    forall v | v in page
      ensures v in log && after < v.boardSeq <= Top(log[..at])
    {
      var j :| Latest(log[..at], j) && log[..at][j] == v;
      assert log[j] == v;
    }
    forall a, b | 0 <= a < b < |page|
      ensures page[a].id != page[b].id
    {
      assert page[a] in page && page[b] in page;
      var i :| Latest(log[..at], i) && log[..at][i] == page[a];
      var j :| Latest(log[..at], j) && log[..at][j] == page[b];
    }
  }

  /** A late page leaves no change between where it was asked for and where it ends. */
  lemma PageHasAll(log: seq<Note>, at: nat, after: int, page: seq<Note>, cursor: int, j: int)
    requires GoodLog(log) && at <= |log| && IsPage(log[..at], after, page) && after <= cursor
    requires Latest(log, j) && cursor < log[j].boardSeq <= Highest(page, cursor)
    ensures log[j] in page
  {
    PageRows(log, at, after, page);
    HighestIs(page, cursor);
    TopIsHighest(log, at);
    PrefixLatest(log, at, j);
  }

  lemma PageKeepsStore(w: World)
    requires Inv(w) && w.pass.PageIn?
    ensures var t := ReceivedPage(w.store, w.pass.page);
      && Authentic(w.log, t) && Marks(w.log, t) && w.store.cursor <= t.cursor
  {
    var page := w.pass.page;
    PageRows(w.log, w.pass.at, w.pass.after, page);
    AppliedAllSettles(w.log, w.store, page);
    AppliedAllKeepsMarks(w.store, page);
    HighestIs(page, w.store.cursor);
    TopIsHighest(w.log, w.pass.at);
  }

  lemma PageCovers(w: World)
    requires Inv(w) && Covers(w) && w.pass.PageIn?
    ensures var v := w.(store := ReceivedPage(w.store, w.pass.page));
      Covers(v) <==> forall r | r in w.pass.page :: !Revives(w, r)
  {
    var page, v := w.pass.page, w.(store := ReceivedPage(w.store, w.pass.page));
    PageRows(w.log, w.pass.at, w.pass.after, page);
    AppliedAllSettles(w.log, w.store, page);
    HighestIs(page, w.store.cursor);
    assert forall e :: Settled(v.store, e) <==> Settled(AppliedAll(w.store, page), e);
    if forall r | r in page :: !Revives(w, r) {
      forall j | Latest(w.log, j) && w.log[j].boardSeq <= v.store.cursor
        ensures Settled(v.store, w.log[j])
      {
        PageSettlesOne(w, j);
      }
    } else {
      var r :| r in page && Revives(w, r);
      PageRevives(w, r);
    }
  }

  lemma PageRevives(w: World, r: Note)
    requires Inv(w) && w.pass.PageIn? && r in w.pass.page && Revives(w, r)
    ensures !Covers(w.(store := ReceivedPage(w.store, w.pass.page)))
  {
    var page, t := w.pass.page, ReceivedPage(w.store, w.pass.page);
    PageRows(w.log, w.pass.at, w.pass.after, page);
    AppliedAllSettles(w.log, w.store, page);
    HighestIs(page, w.store.cursor);
    var j :| 0 <= j < |w.log| && w.log[j].id == r.id && w.log[j].deleted && w.log[j].boardSeq <= w.store.cursor;
    TombstoneIsLatest(w.log, j);
    OneOfEach(page, r, w.log[j]);
    assert RevivedBy(w.store, w.log[j], r);
    assert !Settled(AppliedAll(w.store, page), w.log[j]);
    assert !Settled(t, w.log[j]);
  }

  lemma OneOfEach(vs: seq<Note>, a: Note, b: Note)
    requires OneEach(vs) && a in vs && a != b && a.id == b.id
    ensures b !in vs
  {
  }

  lemma PageSettlesOne(w: World, j: int)
    requires Inv(w) && Covers(w) && w.pass.PageIn? && (forall r | r in w.pass.page :: !Revives(w, r))
    requires Latest(w.log, j) && w.log[j].boardSeq <= Highest(w.pass.page, w.store.cursor)
    ensures w.log[j] in w.pass.page
      || (Settled(w.store, w.log[j]) && forall r | r in w.pass.page :: !RevivedBy(w.store, w.log[j], r))
  {
    if w.store.cursor < w.log[j].boardSeq {
      PageHasAll(w.log, w.pass.at, w.pass.after, w.pass.page, w.store.cursor, j);
    } else {
      assert w.log[j].deleted ==> Buried(w.log, w.log[j].id, w.store.cursor);
    }
  }

  // ---- a whole read ----------------------------------------------------------------------------

  lemma {:induction false} WrittenOrigin(s: Wall, vs: seq<Note>)
    ensures var t := Written(s, vs);
      forall id | id in t.notes :: (id in s.notes && t.notes[id] == s.notes[id]) || (t.notes[id] in vs && !t.notes[id].deleted && t.notes[id].id == id)
    decreases |vs|
  {
    if vs != [] {
      var v := vs[0];
      WrittenOrigin(if v.deleted || v.id in s.gone then s else s.(notes := s.notes[v.id := v]), vs[1..]);
    }
  }

  /** A whole read as it lands: the wall is what it lists, beside what is held above its mark and it does not list. */
  lemma WholeIs(w: World)
    requires Inv(w) && w.pass.Whole?
    ensures var mark := Top(w.log[..w.pass.at]); var t := Replaced(w.store, w.pass.answer, mark);
      && Authentic(w.log, t) && Marks(w.log, t) && t.cursor == mark && t.gone == w.store.gone
      && (forall v | v in w.pass.answer && v.id !in t.gone :: v.id in t.notes && t.notes[v.id] == v)
      && (forall id | id in t.notes :: t.notes[id] in w.pass.answer || (id in w.store.notes && t.notes[id] == w.store.notes[id] && t.notes[id].boardSeq > mark))
  {
    var mark, answer := Top(w.log[..w.pass.at]), w.pass.answer;
    TopIsHighest(w.log, w.pass.at);
    WholeLists(w.log, w.pass.upTo, answer);
    WrittenRows(Cleared(w.store, mark), answer);
    WrittenOrigin(Cleared(w.store, mark), answer);
    WrittenFinal(Cleared(w.store, mark), answer);
  }

  lemma WholeLists(log: seq<Note>, upTo: nat, answer: seq<Note>)
    requires GoodLog(log) && upTo <= |log| && IsWhole(log[..upTo], answer)
    ensures forall v | v in answer :: v in log && !v.deleted
    ensures forall j | Latest(log, j) && j < upTo && !log[j].deleted :: log[j] in answer
    ensures forall j, v | 0 <= j < upTo && log[j].deleted && v in answer :: v.id != log[j].id
  {
    forall v | v in answer
      ensures v in log && !v.deleted
    {
      var j :| Latest(log[..upTo], j) && log[..upTo][j] == v;
      assert log[j] == v;
    }
    forall j | Latest(log, j) && j < upTo && !log[j].deleted
      ensures log[j] in answer
    {
      PrefixLatest(log, upTo, j);
    }
    forall j, v | 0 <= j < upTo && log[j].deleted && v in answer
      ensures v.id != log[j].id
    {
      var i :| Latest(log[..upTo], i) && log[..upTo][i] == v && !v.deleted;
      assert log[..upTo][j] == log[j] && log[i] == v;
    }
  }

  /** A full read always makes the promise true. */
  lemma WholeCovers(w: World)
    requires Inv(w) && w.pass.Whole?
    ensures Covers(w.(store := Replaced(w.store, w.pass.answer, Top(w.log[..w.pass.at]))))
  {
    var mark := Top(w.log[..w.pass.at]);
    var t := Replaced(w.store, w.pass.answer, mark);
    WholeIs(w);
    WholeLists(w.log, w.pass.upTo, w.pass.answer);
    TopIsHighest(w.log, w.pass.at);
    forall j | Latest(w.log, j) && w.log[j].boardSeq <= mark
      ensures Settled(t, w.log[j])
    {
      if w.log[j].deleted {
        TombstoneIsLatest(w.log, j);
      } else {
        LatestIsNotGone(w.log, t, j);
      }
    }
  }

  // ---- every step keeps the invariant ----------------------------------------------------------

  lemma CommitKeeps(w: World, change: Note)
    requires Inv(w) && Enabled(w, Commit(change))
    ensures Inv(Do(w, Commit(change)))
  {
    var log' := w.log + [change];
    CommitKeepsStore(w.log, change, w.store);
    forall id | Buried(w.log, id, Top(w.log))
      ensures Buried(log', id, Top(log'))
    {
      StaysBuried(w.log, change, id);
    }
    assert w.pass.Whole? ==> log'[..w.pass.upTo] == w.log[..w.pass.upTo];
    assert w.pass.PageIn? ==> log'[..w.pass.at] == w.log[..w.pass.at];
  }

  lemma StaysBuried(log: seq<Note>, change: Note, id: int)
    requires GoodLog(log + [change]) && Buried(log, id, Top(log))
    ensures Buried(log + [change], id, Top(log + [change]))
  {
    var log' := log + [change];
    var i :| 0 <= i < |log| && log[i].id == id && log[i].deleted && log[i].boardSeq <= Top(log);
    assert log'[i] == log[i] && log'[|log|] == change;
  }

  lemma CommitKeepsStore(log: seq<Note>, change: Note, s: Wall)
    requires GoodLog(log) && GoodLog(log + [change]) && Authentic(log, s) && Marks(log, s)
    ensures Authentic(log + [change], s) && Marks(log + [change], s) && Top(log) < Top(log + [change])
  {
    var log' := log + [change];
    assert forall i | 0 <= i < |log| :: log'[i] == log[i];
    assert log'[|log|] == change;
    forall id | id in s.gone
      ensures Buried(log', id, Top(log'))
    {
      StaysBuried(log, change, id);
    }
  }

  lemma DeliverKeeps(w: World)
    requires Inv(w) && Enabled(w, Deliver)
    ensures Inv(Do(w, Deliver))
  {
    AppliedSettles(w.log, w.store, Frame(w));
    TopIsHighest(w.log, |w.log|);
  }

  lemma LandKeeps(w: World)
    requires Inv(w) && Enabled(w, Land)
    ensures Inv(Do(w, Land))
  {
    if w.pass.PageIn? {
      PageKeepsStore(w);
    } else {
      WholeIs(w);
    }
  }

  lemma TakenKeeps(w: World, id: int)
    requires Inv(w) && Buried(w.log, id, Top(w.log))
    ensures var t := Taken(w.store, id);
      && Authentic(w.log, t) && t.cursor == w.store.cursor && t.fullMark == w.store.fullMark
      && forall j | Latest(w.log, j) && Settled(w.store, w.log[j]) :: Settled(t, w.log[j])
  {
    forall j | Latest(w.log, j) && Settled(w.store, w.log[j])
      ensures Settled(Taken(w.store, id), w.log[j])
    {
      if w.log[j].id == id {
        TakenIsBuried(w.log, id, j);
      }
    }
  }

  lemma TakenIsBuried(log: seq<Note>, id: int, j: int)
    requires GoodLog(log) && Buried(log, id, Top(log)) && Latest(log, j) && log[j].id == id
    ensures log[j].deleted
  {
    var i :| 0 <= i < |log| && log[i].id == id && log[i].deleted;
  }

  lemma OwnKeeps(w: World, step: Step)
    requires Inv(w) && Enabled(w, step)
    requires step.AnswerPost? || step.LandPost? || step.AnswerDelete? || step.LandDelete?
    ensures Inv(Do(w, step))
  {
    match step
    case LandPost(k) =>
      assert w.posts[k] in w.posts;
      AppliedSettles(w.log, w.store, w.posts[k]);
    case LandDelete(k) =>
      assert w.deletes[k] in w.deletes;
      TakenKeeps(w, w.deletes[k]);
    case _ =>
  }

  lemma AnswersKeep(w: World, step: Step)
    requires Inv(w) && Enabled(w, step)
    requires step.Begin? || step.ReadMark? || step.MarkWhole? || step.Fail?
    ensures Inv(Do(w, step))
  {
  }

  lemma SocketKeeps(w: World, step: Step)
    requires Inv(w) && Enabled(w, step)
    requires step.Publish? || step.Drop? || step.Register? || step.Open? || step.Relaunch?
    ensures Inv(Do(w, step))
  {
  }

  lemma DecideKeeps(w: World)
    requires Inv(w) && Enabled(w, Decide)
    ensures Inv(Do(w, Decide))
  {
  }

  lemma AnswerKeeps(w: World, step: Step)
    requires Inv(w) && Enabled(w, step) && (step.AnswerWhole? || step.AnswerPage?)
    ensures Inv(Do(w, step))
  {
    assert w.log[..|w.log|] == w.log;
  }

  lemma StepKeeps(w: World, step: Step)
    requires Inv(w) && Enabled(w, step)
    ensures Inv(Do(w, step))
  {
    match step
    case Commit(change) => CommitKeeps(w, change);
    case Deliver => DeliverKeeps(w);
    case Land => LandKeeps(w);
    case AnswerPost(_) => OwnKeeps(w, step);
    case LandPost(_) => OwnKeeps(w, step);
    case AnswerDelete(_) => OwnKeeps(w, step);
    case LandDelete(_) => OwnKeeps(w, step);
    case Publish(_) => SocketKeeps(w, step);
    case Drop => SocketKeeps(w, step);
    case Register => SocketKeeps(w, step);
    case Open => SocketKeeps(w, step);
    case Relaunch => SocketKeeps(w, step);
    case Decide => DecideKeeps(w);
    case AnswerWhole(_) => AnswerKeeps(w, step);
    case AnswerPage(_) => AnswerKeeps(w, step);
    case _ => AnswersKeep(w, step);
  }

  // ---- exactly which steps break the promise ---------------------------------------------------

  lemma CommitCovers(w: World, change: Note)
    requires Inv(w) && Covers(w) && Enabled(w, Commit(change))
    ensures Covers(Do(w, Commit(change)))
  {
    var log' := w.log + [change];
    TopIsHighest(log', |w.log|);
    assert log'[..|w.log|] == w.log;
    forall j | Latest(log', j) && log'[j].boardSeq <= w.store.cursor
      ensures Settled(w.store, log'[j])
    {
      assert j < |w.log| && log'[j] == w.log[j];
      assert Latest(w.log, j) by {
        forall k | j < k < |w.log|
          ensures w.log[k].id != w.log[j].id
        {
          assert log'[k] == w.log[k];
        }
      }
    }
  }

  lemma RevivedUncovers(w: World, v: Note, t: Wall)
    requires Inv(w) && v in w.log && Revives(w, v) && t.notes == Applied(w.store, v).notes && w.store.cursor <= t.cursor
    ensures !Covers(w.(store := t))
  {
    var j :| 0 <= j < |w.log| && w.log[j].id == v.id && w.log[j].deleted && w.log[j].boardSeq <= w.store.cursor;
    TombstoneIsLatest(w.log, j);
    assert !Settled(t, w.log[j]);
  }

  lemma DeliverCovers(w: World)
    requires Inv(w) && Covers(w) && Enabled(w, Deliver)
    ensures Covers(Do(w, Deliver)) <==> !Overtakes(w, Deliver) && !Revives(w, Frame(w))
  {
    var z, t := Frame(w), Received(w.store, Frame(w), LiveFrame);
    AppliedSettles(w.log, w.store, z);
    assert forall e :: Settled(t, e) <==> Settled(Applied(w.store, z), e);
    if Revives(w, z) {
      RevivedUncovers(w, z, t);
    } else if Overtakes(w, Deliver) {
      var j :| Latest(w.log, j) && w.store.cursor < w.log[j].boardSeq < z.boardSeq && !Settled(w.store, w.log[j]);
      assert !Settled(t, w.log[j]);
    } else {
      forall j | Latest(w.log, j) && w.log[j].boardSeq <= t.cursor
        ensures Settled(t, w.log[j])
      {
        DeliverSettlesOne(w, j);
      }
    }
  }

  lemma DeliverSettlesOne(w: World, j: int)
    requires Inv(w) && Covers(w) && Enabled(w, Deliver) && !Overtakes(w, Deliver) && !Revives(w, Frame(w))
    requires Latest(w.log, j) && w.log[j].boardSeq <= Received(w.store, Frame(w), LiveFrame).cursor
    ensures Frame(w) == w.log[j] || (Settled(w.store, w.log[j]) && !RevivedBy(w.store, w.log[j], Frame(w)))
  {
    var z := Frame(w);
    if w.log[j] != z {
      assert w.store.cursor != 0;
      assert w.log[j].boardSeq != z.boardSeq;
      assert Settled(w.store, w.log[j]);
      assert w.log[j].deleted && w.log[j].boardSeq <= w.store.cursor ==> Buried(w.log, w.log[j].id, w.store.cursor);
      if RevivedBy(w.store, w.log[j], z) {
        TombstoneIsLatest(w.log, j);
      }
    }
  }

  lemma PostCovers(w: World, k: nat)
    requires Inv(w) && Covers(w) && Enabled(w, LandPost(k))
    ensures Covers(Do(w, LandPost(k))) <==> !Revives(w, w.posts[k])
  {
    var v, t := w.posts[k], Received(w.store, w.posts[k], Evidence);
    assert v in w.posts;
    AppliedSettles(w.log, w.store, v);
    assert forall e :: Settled(t, e) <==> Settled(Applied(w.store, v), e);
    if Revives(w, v) {
      RevivedUncovers(w, v, t);
    } else {
      forall j | Latest(w.log, j) && w.log[j].boardSeq <= w.store.cursor
        ensures Settled(t, w.log[j])
      {
        assert w.log[j].deleted ==> Buried(w.log, w.log[j].id, w.store.cursor);
      }
    }
  }

  /** EXACTLY WHICH STEPS let the cursor pass an unapplied change: a frame that overtakes one, and a version that brings back a note removed. */
  lemma StepCovers(w: World, step: Step)
    requires Inv(w) && Covers(w) && Enabled(w, step)
    ensures Covers(Do(w, step)) <==> !Skips(w, step)
  {
    match step
    case Commit(change) => CommitCovers(w, change);
    case Deliver =>
      DeliverCovers(w);
      assert Arrival(w, step, Frame(w));
    case LandPost(k) =>
      PostCovers(w, k);
      assert Arrival(w, step, w.posts[k]);
    case LandDelete(k) => DeleteCovers(w, k);
    case Land =>
      if w.pass.PageIn? { LandPageCovers(w); } else { WholeCovers(w); }
    case _ => OthersCover(w, step);
  }

  lemma OthersCover(w: World, step: Step)
    requires Inv(w) && Covers(w) && Enabled(w, step)
    requires !step.Commit? && !step.Deliver? && !step.LandPost? && !step.LandDelete? && !step.Land?
    ensures Covers(Do(w, step)) && !Skips(w, step)
  {
    assert Do(w, step).store == w.store && Do(w, step).log == w.log;
  }

  lemma DeleteCovers(w: World, k: nat)
    requires Inv(w) && Covers(w) && Enabled(w, LandDelete(k))
    ensures Covers(Do(w, LandDelete(k)))
  {
    assert w.deletes[k] in w.deletes;
    TakenKeeps(w, w.deletes[k]);
  }

  lemma LandPageCovers(w: World)
    requires Inv(w) && Covers(w) && w.pass.PageIn?
    ensures Covers(Do(w, Land)) <==> !Skips(w, Land)
  {
    PageCovers(w);
    assert forall v :: Arrival(w, Land, v) <==> v in w.pass.page;
    assert w.pass.page == [] ==> ReceivedPage(w.store, w.pass.page) == w.store;
  }

  lemma {:induction false} RunKeeps(w: World, steps: seq<Step>)
    requires Inv(w) && Runs(w, steps)
    ensures Inv(After(w, steps))
    decreases |steps|
  {
    if steps != [] {
      StepKeeps(w, steps[0]);
      RunKeeps(Do(w, steps[0]), steps[1..]);
    }
  }

  ghost predicate CoversThroughout(w: World, steps: seq<Step>)
    requires Runs(w, steps)
    decreases |steps|
  {
    Covers(w) && (steps == [] || CoversThroughout(Do(w, steps[0]), steps[1..]))
  }

  ghost predicate SkipsNowhere(w: World, steps: seq<Step>)
    requires Runs(w, steps)
    decreases |steps|
  {
    steps == [] || (!Skips(w, steps[0]) && SkipsNowhere(Do(w, steps[0]), steps[1..]))
  }

  lemma StartIsGood()
    ensures Inv(Start()) && Covers(Start())
  {
  }

  /** EXACTLY WHEN the board's cursor keeps its promise through a whole run. */
  lemma {:induction false} CoversExactly(w: World, steps: seq<Step>)
    requires Inv(w) && Covers(w) && Runs(w, steps)
    ensures CoversThroughout(w, steps) <==> SkipsNowhere(w, steps)
    decreases |steps|
  {
    if steps != [] {
      StepCovers(w, steps[0]);
      StepKeeps(w, steps[0]);
      if Covers(Do(w, steps[0])) {
        CoversExactly(Do(w, steps[0]), steps[1..]);
      }
    }
  }

  lemma {:induction false} EndCovers(w: World, steps: seq<Step>)
    requires Runs(w, steps) && CoversThroughout(w, steps)
    ensures Covers(After(w, steps))
    decreases |steps|
  {
    if steps != [] {
      EndCovers(Do(w, steps[0]), steps[1..]);
    }
  }

  /** In every run, whatever is lost, late or out of order: what the wall shows was really written, what it remembers as gone was really removed. */
  lemma NothingIsInvented(steps: seq<Step>)
    requires Runs(Start(), steps)
    ensures var w := After(Start(), steps);
      && (forall id | id in w.store.notes :: w.store.notes[id] in w.log && w.store.notes[id].id == id && id !in w.store.gone)
      && (forall id | id in w.store.gone :: Buried(w.log, id, Top(w.log)))
      && 0 <= w.store.fullMark <= w.store.cursor <= Top(w.log)
  {
    StartIsGood();
    RunKeeps(Start(), steps);
  }

  // ---- a device at rest ------------------------------------------------------------------------

  /** Every frame sent out and read, a pass of the open connection ended, none running, and the server has nothing above the cursor: nothing will be asked for. */
  ghost predicate AtRest(w: World) {
    w.listening && w.caughtUp && w.head == |w.published| == |w.log| && w.pass.Idle? && w.store.cursor == Top(w.log)
  }

  ghost predicate Current(log: seq<Note>, v: Note) {
    !v.deleted && exists j :: Latest(log, j) && log[j] == v
  }

  /** The wall shows the server's board. */
  ghost predicate Exact(w: World) {
    forall id, v :: (id in w.store.notes && w.store.notes[id] == v) <==> (Current(w.log, v) && v.id == id)
  }

  /** EXACTLY WHEN a device at rest shows the server's board: when its cursor has passed no unapplied change. */
  lemma RestExactly(w: World)
    requires Inv(w) && AtRest(w)
    ensures Exact(w) <==> Covers(w)
  {
    if Covers(w) {
      CoveringIsExact(w);
    }
    if Exact(w) {
      forall j | Latest(w.log, j)
        ensures Settled(w.store, w.log[j])
      {
        ExactSettles(w, j);
      }
    }
  }

  lemma CoveringIsExact(w: World)
    requires Inv(w) && Covers(w) && w.store.cursor == Top(w.log)
    ensures Exact(w)
  {
    TopIsHighest(w.log, |w.log|);
    forall id | id in w.store.notes
      ensures Current(w.log, w.store.notes[id])
    {
      ShownIsLatest(w, id);
    }
    forall v | Current(w.log, v)
      ensures v.id in w.store.notes && w.store.notes[v.id] == v
    {
      var j :| Latest(w.log, j) && w.log[j] == v;
      assert Settled(w.store, w.log[j]);
    }
  }

  lemma ExactSettles(w: World, j: int)
    requires Inv(w) && Exact(w) && Latest(w.log, j)
    ensures Settled(w.store, w.log[j])
  {
    if !w.log[j].deleted {
      assert Current(w.log, w.log[j]);
    }
  }

  lemma ShownIsLatest(w: World, id: int)
    requires Inv(w) && Covers(w) && w.store.cursor == Top(w.log) && id in w.store.notes
    ensures exists j :: Latest(w.log, j) && w.log[j] == w.store.notes[id]
  {
    TopIsHighest(w.log, |w.log|);
    var i :| 0 <= i < |w.log| && w.log[i] == w.store.notes[id];
    var j := LastOf(w.log, i);
    assert Settled(w.store, w.log[j]);
  }

  /** Where what a note now is was written. */
  lemma {:induction false} LastOf(log: seq<Note>, i: int) returns (j: int)
    requires 0 <= i < |log|
    ensures Latest(log, j) && log[j].id == log[i].id
    decreases |log| - i
  {
    if Latest(log, i) {
      j := i;
    } else {
      var k :| i < k < |log| && log[k].id == log[i].id;
      j := LastOf(log, k);
    }
  }
}
