/**
 * One version, one page and one full read landing on the store of module PackWorld: which latest changes each leaves
 * applied; and what every step keeps.
 */
module PackSteps {
  import opened Wrappers
  import opened Pack
  import opened PackWorld

  /** An item's latest change is applied: it is held in just that version, or is not held once removed. */
  predicate Settled(s: Held, e: Item) {
    if e.deleted then e.id !in s.items else e.id in s.items && s.items[e.id] == e
  }

  // ---- the log ---------------------------------------------------------------------------------

  lemma TopIsHighest(log: seq<Item>)
    requires GoodLog(log)
    ensures 0 <= Top(log) && forall i | 0 <= i < |log| :: log[i].packSeq <= Top(log)
  {
    if log != [] {
      assert log[|log| - 1].packSeq > 0;
    }
  }

  lemma LiveUnique(log: seq<Item>, v: Item, e: Item)
    requires GoodLog(log) && v in log && e in log && v.id == e.id && !v.deleted && !e.deleted
    ensures v == e
  {
    var i :| 0 <= i < |log| && log[i] == v;
    var j :| 0 <= j < |log| && log[j] == e;
  }

  lemma RemovedAfterAdd(log: seq<Item>, v: Item, e: Item)
    requires GoodLog(log) && v in log && e in log && v.id == e.id && !v.deleted && e.deleted
    ensures v.packSeq < e.packSeq
  {
    var i :| 0 <= i < |log| && log[i] == v;
    var j :| 0 <= j < |log| && log[j] == e;
  }

  lemma TombstoneIsLatest(log: seq<Item>, i: int)
    requires GoodLog(log) && 0 <= i < |log| && log[i].deleted
    ensures Latest(log, i)
    ensures forall v | v in log && v.id == log[i].id && !v.deleted :: v.packSeq < log[i].packSeq
  {
    forall v | v in log && v.id == log[i].id && !v.deleted
      ensures v.packSeq < log[i].packSeq
    {
      RemovedAfterAdd(log, v, log[i]);
    }
  }

  lemma LatestIsNotGone(log: seq<Item>, s: Held, j: int)
    requires GoodLog(log) && Authentic(log, s) && Latest(log, j) && !log[j].deleted
    ensures log[j].id !in s.gone
    ensures log[j].id in s.items ==> s.items[log[j].id] == log[j]
  {
    if log[j].id in s.items {
      LiveUnique(log, log[j], s.items[log[j].id]);
    }
  }

  // ---- one version -----------------------------------------------------------------------------

  /** It brings back an item that was rightly not held. */
  predicate RevivedBy(s: Held, e: Item, v: Item) {
    e.deleted && !v.deleted && v.id == e.id && v.id !in s.gone
  }

  /** One genuine version settles itself, and unsettles only the removal of an item it brings back. */
  lemma AppliedSettles(log: seq<Item>, s: Held, v: Item)
    requires GoodLog(log) && Authentic(log, s) && v in log
    ensures Authentic(log, Applied(s, v))
    ensures forall j | Latest(log, j) ::
      Settled(Applied(s, v), log[j]) <==> v == log[j] || (Settled(s, log[j]) && !RevivedBy(s, log[j], v))
  {
    AppliedIsGenuine(log, s, v);
    forall j | Latest(log, j)
      ensures Settled(Applied(s, v), log[j]) <==> v == log[j] || (Settled(s, log[j]) && !RevivedBy(s, log[j], v))
    {
      OneSettles(log, s, v, j);
    }
  }

  lemma AppliedIsGenuine(log: seq<Item>, s: Held, v: Item)
    requires GoodLog(log) && Authentic(log, s) && v in log
    ensures Authentic(log, Applied(s, v))
  {
    TopIsHighest(log);
    if v.deleted {
      var i :| 0 <= i < |log| && log[i] == v;
      assert Buried(log, v.id, Top(log));
    }
  }

  lemma OneSettles(log: seq<Item>, s: Held, v: Item, j: int)
    requires GoodLog(log) && Authentic(log, s) && v in log && Latest(log, j)
    ensures Settled(Applied(s, v), log[j]) <==> v == log[j] || (Settled(s, log[j]) && !RevivedBy(s, log[j], v))
  {
    var i :| 0 <= i < |log| && log[i] == v;
    if !log[j].deleted {
      LatestIsNotGone(log, s, j);
    }
    if v.id in s.items {
      HeldMeets(log, s, v);
    }
  }

  /** What is held of an item, beside a genuine version of it. */
  lemma HeldMeets(log: seq<Item>, s: Held, v: Item)
    requires GoodLog(log) && Authentic(log, s) && v in log && v.id in s.items
    ensures if v.deleted then s.items[v.id].packSeq < v.packSeq else s.items[v.id] == v
  {
    if v.deleted {
      RemovedAfterAdd(log, s.items[v.id], v);
    } else {
      LiveUnique(log, s.items[v.id], v);
    }
  }

  /** No item twice. */
  ghost predicate OneEach(vs: seq<Item>) {
    forall i, j | 0 <= i < j < |vs| :: vs[i].id != vs[j].id
  }

  /** Versions of distinct items, one after another. */
  lemma {:induction false} AppliedAllSettles(log: seq<Item>, s: Held, vs: seq<Item>)
    requires GoodLog(log) && Authentic(log, s) && OneEach(vs) && forall v | v in vs :: v in log
    ensures Authentic(log, AppliedAll(s, vs))
    ensures forall j | Latest(log, j) ::
      Settled(AppliedAll(s, vs), log[j]) <==>
        log[j] in vs || (Settled(s, log[j]) && forall v | v in vs :: !RevivedBy(s, log[j], v))
    decreases |vs|
  {
    if vs != [] {
      var v, rest, t := vs[0], vs[1..], Applied(s, vs[0]);
      assert vs == [v] + rest;
      assert forall u :: u in vs <==> u == v || u in rest;
      AppliedSettles(log, s, v);
      AppliedAllSettles(log, t, rest);
      forall j | Latest(log, j)
        ensures Settled(AppliedAll(s, vs), log[j]) <==>
          log[j] in vs || (Settled(s, log[j]) && forall u | u in vs :: !RevivedBy(s, log[j], u))
      {
        RestRevivesAlike(s, vs, log[j]);
      }
    }
  }

  lemma RestRevivesAlike(s: Held, vs: seq<Item>, e: Item)
    requires vs != [] && OneEach(vs)
    ensures forall u | u in vs[1..] :: RevivedBy(Applied(s, vs[0]), e, u) <==> RevivedBy(s, e, u)
  {
    forall u | u in vs[1..]
      ensures u.id != vs[0].id
    {
      var k :| 0 <= k < |vs[1..]| && vs[1..][k] == u;
      assert vs[k + 1] == u;
    }
  }

  // ---- pages and marks -------------------------------------------------------------------------

  lemma {:induction false} FeedMembers(log: seq<Item>, after: int, i: nat)
    requires i <= |log|
    ensures var feed := Feed(log, after, i);
      && (forall v | v in feed :: exists j :: i <= j < |log| && log[j] == v && Latest(log, j) && v.packSeq > after)
      && (forall j | i <= j < |log| && Latest(log, j) && log[j].packSeq > after :: log[j] in feed)
    decreases |log| - i
  {
    if i < |log| {
      FeedMembers(log, after, i + 1);
      var rest, feed := Feed(log, after, i + 1), Feed(log, after, i);
      forall v | v in feed
        ensures exists j :: i <= j < |log| && log[j] == v && Latest(log, j) && v.packSeq > after
      {
        if v in rest {
          var j :| i + 1 <= j < |log| && log[j] == v && Latest(log, j) && v.packSeq > after;
        } else {
          assert log[i] == v && Latest(log, i);
        }
      }
      forall j | i <= j < |log| && Latest(log, j) && log[j].packSeq > after
        ensures log[j] in feed
      {
        if j > i {
          assert log[j] in rest;
        }
      }
    }
  }

  lemma {:induction false} FeedSorted(log: seq<Item>, after: int, i: nat)
    requires i <= |log| && GoodLog(log)
    ensures var feed := Feed(log, after, i);
      forall a, b | 0 <= a < b < |feed| :: feed[a].packSeq < feed[b].packSeq
    decreases |log| - i
  {
    if i < |log| {
      FeedSorted(log, after, i + 1);
      var rest := Feed(log, after, i + 1);
      forall b | 0 <= b < |rest|
        ensures log[i].packSeq < rest[b].packSeq
      {
        FeedRowAbove(log, after, i, rest[b]);
      }
      var feed := Feed(log, after, i);
      assert feed == rest || feed == [log[i]] + rest;
      forall a, b | 0 <= a < b < |feed|
        ensures feed[a].packSeq < feed[b].packSeq
      {
        assert feed == rest || (feed[b] == rest[b - 1] && (a > 0 ==> feed[a] == rest[a - 1]));
      }
    }
  }

  lemma FeedRowAbove(log: seq<Item>, after: int, i: nat, v: Item)
    requires i < |log| && GoodLog(log) && v in Feed(log, after, i + 1)
    ensures log[i].packSeq < v.packSeq
  {
    FeedMembers(log, after, i + 1);
  }

  lemma PageMembers(log: seq<Item>, after: int)
    requires GoodLog(log)
    ensures var page := Page(log, after);
      && (forall v | v in page :: v in log && v.packSeq > after)
      && (forall j | 0 <= j < |log| && Latest(log, j) && log[j].packSeq > after ::
            log[j] in page || (|page| == PAGE_SIZE && forall v | v in page :: v.packSeq < log[j].packSeq))
  {
    FeedMembers(log, after, 0);
    var feed := Feed(log, after, 0);
    assert forall v | v in Page(log, after) :: v in feed;
    forall j | 0 <= j < |log| && Latest(log, j) && log[j].packSeq > after && log[j] !in Page(log, after)
      ensures var page := Page(log, after); |page| == PAGE_SIZE && forall v | v in page :: v.packSeq < log[j].packSeq
    {
      CutPageIsBelow(log, after, log[j]);
    }
  }

  lemma CutPageIsBelow(log: seq<Item>, after: int, e: Item)
    requires GoodLog(log) && e in Feed(log, after, 0) && e !in Page(log, after)
    ensures var page := Page(log, after); |page| == PAGE_SIZE && forall v | v in page :: v.packSeq < e.packSeq
  {
    FeedSorted(log, after, 0);
    var feed := Feed(log, after, 0);
    var page := Page(log, after);
    var b :| 0 <= b < |feed| && feed[b] == e;
    assert forall a | 0 <= a < |page| :: feed[a] == page[a] && feed[a] in page;
    assert |page| <= b;
    forall v | v in page
      ensures v.packSeq < e.packSeq
    {
      var a :| 0 <= a < |page| && page[a] == v;
      assert feed[a].packSeq < feed[b].packSeq;
    }
  }

  lemma {:induction false} HighestBounds(vs: seq<Item>, start: int)
    ensures var h := Highest(vs, start);
      start <= h && (forall v | v in vs :: v.packSeq <= h) && (h == start || exists v :: v in vs && v.packSeq == h)
  {
    if vs != [] {
      HighestBounds(vs[1..], Max(start, vs[0].packSeq));
      assert vs == [vs[0]] + vs[1..];
      assert vs[0] in vs;
    }
  }

  lemma PrefixGood(log: seq<Item>, at: nat)
    requires GoodLog(log) && at <= |log|
    ensures GoodLog(log[..at]) && 0 <= Top(log[..at]) <= Top(log)
    ensures forall i | 0 <= i < |log| :: i < at <==> log[i].packSeq <= Top(log[..at])
    ensures forall i | 0 <= i < at && Latest(log, i) :: Latest(log[..at], i)
  {
    TopIsHighest(log);
    TopIsHighest(log[..at]);
  }

  // ---- a page ----------------------------------------------------------------------------------

  /** The page in flight, as it was answered. */
  function PageOf(w: World): seq<Item>
    requires w.pass.PageIn? && w.pass.at <= |w.log|
  {
    Page(w.log[..w.pass.at], w.pass.was)
  }

  /** The rows of a page taken from part of the log. */
  lemma PageRows(log: seq<Item>, at: nat, after: int)
    requires GoodLog(log) && at <= |log|
    ensures var page := Page(log[..at], after);
      OneEach(page) && forall v | v in page :: v in log && after < v.packSeq <= Top(log[..at])
  {
    var page := Page(log[..at], after);
    PrefixGood(log, at);
    PageMembers(log[..at], after);
    TopIsHighest(log[..at]);
    assert forall v | v in page :: v in log[..at];
    forall a, b | 0 <= a < b < |page|
      ensures page[a].id != page[b].id
    {
      PageDistinct(log[..at], after, a, b);
    }
  }

  lemma PageDistinct(log: seq<Item>, after: int, a: nat, b: nat)
    requires GoodLog(log) && a < b < |Page(log, after)|
    ensures Page(log, after)[a].id != Page(log, after)[b].id
  {
    var page, feed := Page(log, after), Feed(log, after, 0);
    FeedMembers(log, after, 0);
    FeedSorted(log, after, 0);
    assert page[a] == feed[a] && page[b] == feed[b] && feed[a] in feed && feed[b] in feed;
    var i :| 0 <= i < |log| && log[i] == page[a] && Latest(log, i);
    var j :| 0 <= j < |log| && log[j] == page[b] && Latest(log, j);
  }

  /** A late page leaves no change between where it was asked for and where it ends. */
  lemma PageHasAll(log: seq<Item>, at: nat, after: int, cursor: int, j: int)
    requires GoodLog(log) && at <= |log| && after <= cursor
    requires Latest(log, j) && cursor < log[j].packSeq <= Highest(Page(log[..at], after), cursor)
    ensures log[j] in Page(log[..at], after)
  {
    var prefix := log[..at];
    PageRows(log, at, after);
    HighestBounds(Page(prefix, after), cursor);
    PrefixGood(log, at);
    PageMembers(prefix, after);
    assert Latest(prefix, j) && prefix[j] == log[j];
  }

  lemma PageKeepsStore(w: World)
    requires Inv(w) && w.pass.PageIn?
    ensures var t := ReceivedPage(w.store, PageOf(w));
      && Authentic(w.log, t) && Marks(w.log, t) && w.store.cursor <= t.cursor
      && t.connection == w.store.connection && t.caughtUp == w.store.caughtUp
  {
    var page := PageOf(w);
    PageRows(w.log, w.pass.at, w.pass.was);
    AppliedAllSettles(w.log, w.store, page);
    AppliedAllKeepsMarks(w.store, page);
    HighestBounds(page, w.store.cursor);
    PrefixGood(w.log, w.pass.at);
  }

  // ---- a full read -----------------------------------------------------------------------------

  lemma {:induction false} LiveOneEach(vs: seq<Item>)
    requires OneEach(vs)
    ensures OneEach(Live(vs))
  {
    if vs != [] {
      LiveOneEach(vs[1..]);
      LiveMembers(vs[1..]);
      if !vs[0].deleted {
        assert Live(vs) == [vs[0]] + Live(vs[1..]);
        forall j | 0 <= j < |Live(vs[1..])|
          ensures Live(vs[1..])[j].id != vs[0].id
        {
          assert Live(vs[1..])[j] in vs[1..];
        }
      }
    }
  }

  lemma ClearedAuthentic(log: seq<Item>, at: nat, s: Held, answer: seq<Item>)
    requires GoodLog(log) && at <= |log| && Authentic(log, s) && WholeOf(log[..at], answer)
    ensures Authentic(log, Cleared(s, LiveIds(answer), Top(log[..at])))
  {
    var prefix := log[..at];
    var c := Cleared(s, LiveIds(answer), Top(prefix));
    TopIsHighest(log);
    PrefixGood(log, at);
    forall id | id in c.gone
      ensures Buried(log, id, Top(log))
    {
      if id !in s.gone {
        var v := s.items[id];
        var i :| 0 <= i < |log| && log[i] == v;
        assert prefix[i] == v;
        assert Latest(prefix, i) ==> LiveNow(prefix, v);
        assert !LiveNow(prefix, v);
        var j :| i < j < at && prefix[j].id == id;
        assert log[j] == prefix[j] && log[j].deleted;
      }
    }
  }

  lemma AnswerIsGenuine(log: seq<Item>, at: nat, answer: seq<Item>)
    requires GoodLog(log) && at <= |log| && WholeOf(log[..at], answer)
    ensures forall v | v in Live(answer) :: v in log && !v.deleted
    ensures forall j | Latest(log, j) && j < at && !log[j].deleted :: log[j] in Live(answer)
    ensures forall j, v | 0 <= j < at && log[j].deleted && v in Live(answer) :: v.id != log[j].id
  {
    var prefix := log[..at];
    LiveMembers(answer);
    PrefixGood(log, at);
    forall v | v in Live(answer)
      ensures v in log && !v.deleted
    {
      assert LiveNow(prefix, v);
    }
    forall j | Latest(log, j) && j < at && !log[j].deleted
      ensures log[j] in Live(answer)
    {
      assert prefix[j] == log[j] && LiveNow(prefix, log[j]);
    }
    forall j, v | 0 <= j < at && log[j].deleted && v in Live(answer)
      ensures v.id != log[j].id
    {
      assert LiveNow(prefix, v) && prefix[j] == log[j];
      var i :| 0 <= i < |prefix| && prefix[i] == v && Latest(prefix, i);
    }
  }

  /** A full read as it lands, when it is not refused: the pack it lists, beside what is held above its mark. */
  lemma WholeIs(w: World)
    requires Inv(w) && w.pass.Whole?
    ensures var mark := Top(w.log[..w.pass.at]); var t := Replaced(w.store, w.pass.answer, mark);
      && Authentic(w.log, t) && Marks(w.log, t) && w.store.cursor <= t.cursor
      && t.connection == w.store.connection && t.caughtUp == w.store.caughtUp
      && (mark < w.store.cursor ==> t == w.store)
      && (mark >= w.store.cursor ==> t.cursor == mark)
  {
    var mark, answer := Top(w.log[..w.pass.at]), w.pass.answer;
    PrefixGood(w.log, w.pass.at);
    AnswerIsGenuine(w.log, w.pass.at, answer);
    ClearedAuthentic(w.log, w.pass.at, w.store, answer);
    AppliedAllGenuine(w.log, Cleared(w.store, LiveIds(answer), mark), Live(answer));
    AppliedAllKeepsMarks(Cleared(w.store, LiveIds(answer), mark), Live(answer));
  }

  lemma {:induction false} AppliedAllGenuine(log: seq<Item>, s: Held, vs: seq<Item>)
    requires GoodLog(log) && Authentic(log, s) && forall v | v in vs :: v in log
    ensures Authentic(log, AppliedAll(s, vs))
    decreases |vs|
  {
    if vs != [] {
      AppliedIsGenuine(log, s, vs[0]);
      AppliedAllGenuine(log, Applied(s, vs[0]), vs[1..]);
    }
  }

  /** Every latest change at or below the mark of a full read that is not refused is applied. */
  lemma WholeSettles(w: World, j: int)
    requires Inv(w) && w.pass.Whole? && Top(w.log[..w.pass.at]) >= w.store.cursor
    requires Latest(w.log, j) && j < w.pass.at
    ensures Settled(Replaced(w.store, w.pass.answer, Top(w.log[..w.pass.at])), w.log[j])
  {
    var mark, answer, e := Top(w.log[..w.pass.at]), w.pass.answer, w.log[j];
    var c, t := Cleared(w.store, LiveIds(answer), mark), Replaced(w.store, answer, mark);
    WholeIs(w);
    AnswerIsGenuine(w.log, w.pass.at, answer);
    PrefixGood(w.log, w.pass.at);
    ClearedAuthentic(w.log, w.pass.at, w.store, answer);
    if e.deleted {
      AppliedAllOrigin(c, Live(answer));
      TombstoneIsLatest(w.log, j);
    } else {
      AppliedAllPutsInForce(c, Live(answer));
      assert InForce(AppliedAll(c, Live(answer)), e);
      LatestIsNotGone(w.log, t, j);
      assert e.picture.Some? && e.addedBy > 0;
    }
  }

  // ---- every step keeps the invariant ----------------------------------------------------------

  lemma StaysBuried(log: seq<Item>, change: Item, id: int)
    requires GoodLog(log + [change]) && Buried(log, id, Top(log))
    ensures Buried(log + [change], id, Top(log + [change]))
  {
    var log' := log + [change];
    var i :| 0 <= i < |log| && log[i].id == id && log[i].deleted && log[i].packSeq <= Top(log);
    assert log'[i] == log[i] && log'[|log|] == change;
  }

  lemma CommitKeepsStore(log: seq<Item>, s: Held, change: Item)
    requires GoodLog(log) && GoodLog(log + [change]) && Authentic(log, s) && Marks(log, s)
    ensures Authentic(log + [change], s) && Marks(log + [change], s) && Top(log) < change.packSeq == Top(log + [change])
  {
    var log' := log + [change];
    TopIsHighest(log');
    assert log'[|log|] == change;
    assert forall i | 0 <= i < |log| :: log'[i] == log[i];
    forall id | id in s.gone
      ensures Buried(log', id, Top(log'))
    {
      StaysBuried(log, change, id);
    }
  }

  lemma CommitKeeps(guarded: bool, w: World, change: Item)
    requires Inv(w) && Enabled(w, Commit(change))
    ensures Inv(Do(guarded, w, Commit(change)))
  {
    var log' := w.log + [change];
    CommitKeepsStore(w.log, w.store, change);
    forall id | Buried(w.log, id, Top(w.log))
      ensures Buried(log', id, Top(log'))
    {
      StaysBuried(w.log, change, id);
    }
    assert w.pass.Whole? ==> log'[..w.pass.at] == w.log[..w.pass.at];
  }

  lemma DeliverKeeps(guarded: bool, w: World)
    requires Inv(w) && Enabled(w, Deliver)
    ensures Inv(Do(guarded, w, Deliver))
  {
    AppliedIsGenuine(w.log, w.store, Frame(w));
    TopIsHighest(w.log);
  }

  /** A new store, and the pass where it goes next. */
  lemma LandsKeeps(w: World, t: Held, pass: Pass)
    requires Inv(w) && Authentic(w.log, t) && Marks(w.log, t) && t.connection == w.store.connection
    requires pass.Idle? || (pass.AskedPage? && pass.began <= t.connection && 0 < pass.was <= t.cursor)
    ensures Inv(w.(store := t, pass := pass))
  {
  }

  lemma LandPageKeeps(guarded: bool, w: World)
    requires Inv(w) && Enabled(w, Land) && w.pass.PageIn?
    ensures Inv(Do(guarded, w, Land))
  {
    var w' := Do(guarded, w, Land);
    var t := ReceivedPage(w.store, PageOf(w));
    PageKeepsStore(w);
    if PageOf(w) == [] {
      LandsKeeps(w, w'.store, Idle);
    } else if t.cursor <= w.pass.was || |PageOf(w)| < PAGE_SIZE {
      LandsKeeps(w, w'.store, Idle);
    } else {
      LandsKeeps(w, t, w'.pass);
    }
  }

  lemma LandWholeKeeps(guarded: bool, w: World)
    requires Inv(w) && Enabled(w, Land) && w.pass.Whole?
    ensures Inv(Do(guarded, w, Land))
  {
    WholeIs(w);
    LandsKeeps(w, Do(guarded, w, Land).store, Idle);
  }

  /** A pass that ended, or asks for the pack or for a page from the cursor. */
  lemma PassGoesOn(w: World, w': World)
    requires Inv(w) && w.pass.Marked? && w'.store == w.store.(caughtUp := w'.store.caughtUp)
    requires w' == w.(store := w'.store, pass := w'.pass)
    requires w'.pass.Idle? || w'.pass == AskedWhole(w.pass.began) || (w'.pass == AskedPage(w.pass.began, w.store.cursor) && w.store.cursor != 0)
    ensures Inv(w')
  {
  }

  lemma DecideKeeps(guarded: bool, w: World)
    requires Inv(w) && Enabled(w, Decide)
    ensures Inv(Do(guarded, w, Decide))
  {
    var w' := Do(guarded, w, Decide);
    PassGoesOn(w, w');
  }

  lemma AnswersKeep(guarded: bool, w: World, step: Step)
    requires Inv(w) && Enabled(w, step)
    requires step.Begin? || step.ReadMark? || step.AnswerWhole? || step.AnswerPage? || step.Fail?
    ensures Inv(Do(guarded, w, step))
  {
    assert w.log[..|w.log|] == w.log;
  }

  lemma SocketKeeps(guarded: bool, w: World, step: Step)
    requires Inv(w) && Enabled(w, step)
    requires step.Publish? || step.Drop? || step.Register? || step.Open? || step.Relaunch?
    ensures Inv(Do(guarded, w, step))
  {
  }

  lemma OwnKeeps(guarded: bool, w: World, step: Step)
    requires Inv(w) && Enabled(w, step)
    requires step.AnswerPost? || step.LandPost? || step.AnswerDelete? || step.LandDelete?
    ensures Inv(Do(guarded, w, step))
  {
    match step
    case LandPost(k) =>
      assert w.posts[k] in w.posts;
      AppliedIsGenuine(w.log, w.store, w.posts[k]);
    case LandDelete(k) =>
      assert w.deletes[k] in w.deletes;
    case _ =>
  }

  lemma StepKeeps(guarded: bool, w: World, step: Step)
    requires Inv(w) && Enabled(w, step)
    ensures Inv(Do(guarded, w, step))
  {
    match step
    case Commit(change) => CommitKeeps(guarded, w, change);
    case Deliver => DeliverKeeps(guarded, w);
    case Land => if w.pass.PageIn? { LandPageKeeps(guarded, w); } else { LandWholeKeeps(guarded, w); }
    case Decide => DecideKeeps(guarded, w);
    case AnswerPost(_) => OwnKeeps(guarded, w, step);
    case LandPost(_) => OwnKeeps(guarded, w, step);
    case AnswerDelete(_) => OwnKeeps(guarded, w, step);
    case LandDelete(_) => OwnKeeps(guarded, w, step);
    case Publish(_) => SocketKeeps(guarded, w, step);
    case Drop => SocketKeeps(guarded, w, step);
    case Register => SocketKeeps(guarded, w, step);
    case Open => SocketKeeps(guarded, w, step);
    case Relaunch => SocketKeeps(guarded, w, step);
    case _ => AnswersKeep(guarded, w, step);
  }

  lemma {:induction false} RunKeeps(guarded: bool, w: World, steps: seq<Step>)
    requires Inv(w) && Runs(guarded, w, steps)
    ensures Inv(After(guarded, w, steps))
    decreases |steps|
  {
    if steps != [] {
      StepKeeps(guarded, w, steps[0]);
      RunKeeps(guarded, Do(guarded, w, steps[0]), steps[1..]);
    }
  }
}
