/**
 * Every interleaving of a family's board changes, dropped and reopened sockets, live frames, catch-up passes,
 * failed requests and this device's own writes, over the store of module WallStore:
 * win/src/FamilyConnect.Core/Protocol/Resync.cs (BoardAsync), FrameRouter.cs, and server/src/handlers_board.rs.
 */
module WallWorld {
  import opened Wrappers
  import opened WallStore

  const PAGE_SIZE := 50

  // ---- the server ------------------------------------------------------------------------------

  /** Committed changes in board_seq order: a note is written any number of times and removed at most once, for good. */
  ghost predicate GoodLog(log: seq<Note>) {
    && (forall i | 0 <= i < |log| :: log[i].boardSeq > 0)
    && (forall i, j | 0 <= i < j < |log| :: log[i].boardSeq < log[j].boardSeq)
    && (forall i, j | 0 <= i < j < |log| && log[i].id == log[j].id :: !log[i].deleted)
  }

  /** The change that says what a note now is. */
  ghost predicate Latest(log: seq<Note>, i: int) {
    0 <= i < |log| && forall j | i < j < |log| :: log[j].id != log[i].id
  }

  ghost predicate Buried(log: seq<Note>, id: int, below: int) {
    exists i :: 0 <= i < |log| && log[i].id == id && log[i].deleted && log[i].boardSeq <= below
  }

  function Top(log: seq<Note>): int {
    if log == [] then 0 else log[|log| - 1].boardSeq
  }

  /** A page of the change feed: the first changed notes above the cursor, each in the state it is now in. */
  ghost predicate IsPage(log: seq<Note>, after: int, page: seq<Note>) {
    && |page| <= PAGE_SIZE
    && (forall v | v in page :: v.boardSeq > after && exists j :: Latest(log, j) && log[j] == v)
    && (forall a, b | 0 <= a < b < |page| :: page[a].boardSeq < page[b].boardSeq)
    && (forall j | Latest(log, j) && log[j].boardSeq > after ::
          log[j] in page || (|page| == PAGE_SIZE && forall v | v in page :: v.boardSeq < log[j].boardSeq))
  }

  /** The notes of a whole-board read: all that are live, each once, in whatever order. */
  ghost predicate IsWhole(log: seq<Note>, answer: seq<Note>) {
    && OneEach(answer)
    && forall v :: v in answer <==> exists j :: Latest(log, j) && log[j] == v && !v.deleted
  }

  // ---- the world and its steps -----------------------------------------------------------------

  /**
   * A pass, between the awaits of Resync.PassAsync and BoardAsync. `at` counts the log when a mark or a page was
   * taken; a whole read takes its mark first and its notes later (server/src/handlers_board.rs:795-812).
   */
  datatype Pass =
    | Idle
    | Began(began: nat)
    | Marked(began: nat, at: nat)
    | AskedWhole(began: nat)
    | WholeMark(began: nat, at: nat)
    | Whole(began: nat, at: nat, upTo: nat, answer: seq<Note>)
    | AskedPage(began: nat, after: int)
    | PageIn(began: nat, after: int, at: nat, page: seq<Note>)

  /**
   * The server's log; the entries whose frames it has sent out, in the order it sent them, which need not be that of
   * the changes (server/src/handlers_board.rs:1683-1715); the store; the socket, which the server registered when the
   * log held `base` entries and whose frames, while it is registered, are published[head..]; how many times a socket
   * has opened, and whether a pass begun on the open one has ended, which this store does not ask; the pass in flight;
   * and the answers to this device's own writes and removals still travelling.
   */
  datatype World = World(
    log: seq<Note>, published: seq<nat>, store: Wall, registered: bool, listening: bool, head: nat, base: nat,
    connection: nat, caughtUp: bool, pass: Pass, posts: seq<Note>, deletes: seq<int>)

  datatype Step =
    | Commit(change: Note)
    | Publish(i: nat)
    | Drop
    | Register
    | Open
    | Deliver
    | Begin
    | ReadMark
    | Decide
    | MarkWhole
    | AnswerWhole(answer: seq<Note>)
    | AnswerPage(page: seq<Note>)
    | Land
    | Fail
    | AnswerPost(i: nat)
    | LandPost(k: nat)
    | AnswerDelete(id: int)
    | LandDelete(k: nat)
    | Relaunch

  predicate HasFrame(w: World) {
    w.head < |w.published| && w.published[w.head] < |w.log|
  }

  /** The next frame of the open connection. */
  function Frame(w: World): Note
    requires HasFrame(w)
  {
    w.log[w.published[w.head]]
  }

  ghost predicate Enabled(w: World, step: Step) {
    match step
    case Commit(change) => GoodLog(w.log + [change])
    case Publish(i) => i < |w.log| && i !in w.published
    case Drop => true
    case Register => !w.registered
    case Open => !w.listening
    case Deliver => w.registered && w.listening && HasFrame(w)
    case Begin => w.pass.Idle?
    case ReadMark => w.pass.Began?
    case Decide => w.pass.Marked? && w.pass.at <= |w.log|
    case MarkWhole => w.pass.AskedWhole?
    case AnswerWhole(answer) => w.pass.WholeMark? && IsWhole(w.log, answer)
    case AnswerPage(page) => w.pass.AskedPage? && IsPage(w.log, w.pass.after, page)
    case Land => (w.pass.Whole? && w.pass.at <= |w.log|) || w.pass.PageIn?
    case Fail => true
    case AnswerPost(i) => i < |w.log| && !w.log[i].deleted
    case LandPost(k) => k < |w.posts|
    case AnswerDelete(id) => Buried(w.log, id, Top(w.log))
    case LandDelete(k) => k < |w.deletes|
    case Relaunch => true
  }

  /** The pass has ended without an error. */
  function Ended(w: World, began: nat): World {
    w.(caughtUp := w.caughtUp || began == w.connection, pass := Idle)
  }

  /** BoardAsync up to its first request: nothing there, already level, or what to ask for. */
  function Decided(w: World, began: nat, at: nat): World
    requires at <= |w.log|
  {
    if at == 0 && |w.store.notes| == 0 then Ended(w, began)
    else if at > 0 && w.store.cursor != 0 && Top(w.log[..at]) <= w.store.cursor then Ended(w, began)
    else if w.store.cursor == 0 then w.(pass := AskedWhole(began))
    else w.(pass := AskedPage(began, w.store.cursor))
  }

  /** A page landed: the loop compares the cursor with what it was as the answer came, and goes on from it. */
  function LandedPage(w: World, began: nat, page: seq<Note>): World {
    if page == [] then Ended(w, began)
    else
      var v := w.(store := ReceivedPage(w.store, page));
      if v.store.cursor <= w.store.cursor || |page| < PAGE_SIZE then Ended(v, began)
      else v.(pass := AskedPage(began, v.store.cursor))
  }

  /** This device's own delete was answered: a tombstone of its own making, which moves no cursor. */
  function Taken(s: Wall, id: int): Wall {
    Received(s, Note(id, if id in s.notes then s.notes[id].boardSeq else 0, true, ""), Evidence)
  }

  function Do(w: World, step: Step): World
    requires Enabled(w, step)
  {
    match step
    case Commit(change) => w.(log := w.log + [change])
    case Publish(i) => w.(published := w.published + [i])
    case Drop => w.(registered := false, listening := false)
    case Register => w.(registered := true, head := |w.published|, base := |w.log|)
    case Open => w.(listening := true, connection := w.connection + 1, caughtUp := false)
    case Deliver => w.(head := w.head + 1, store := Received(w.store, Frame(w), LiveFrame))
    case Begin => w.(pass := Began(w.connection))
    case ReadMark => w.(pass := Marked(w.pass.began, |w.log|))
    case Decide => Decided(w, w.pass.began, w.pass.at)
    case MarkWhole => w.(pass := WholeMark(w.pass.began, |w.log|))
    case AnswerWhole(answer) => w.(pass := Whole(w.pass.began, w.pass.at, |w.log|, answer))
    case AnswerPage(page) => w.(pass := PageIn(w.pass.began, w.pass.after, |w.log|, page))
    case Land =>
      if w.pass.PageIn? then LandedPage(w, w.pass.began, w.pass.page)
      else Ended(w.(store := Replaced(w.store, w.pass.answer, Top(w.log[..w.pass.at]))), w.pass.began)
    case Fail => w.(pass := Idle)
    case AnswerPost(i) => w.(posts := w.posts + [w.log[i]])
    case LandPost(k) =>
      w.(posts := w.posts[..k] + w.posts[k + 1..], store := Received(w.store, w.posts[k], Evidence))
    case AnswerDelete(id) => w.(deletes := w.deletes + [id])
    case LandDelete(k) =>
      w.(deletes := w.deletes[..k] + w.deletes[k + 1..], store := Taken(w.store, w.deletes[k]))
    case Relaunch =>
      w.(registered := false, listening := false, caughtUp := false, pass := Idle, posts := [], deletes := [])
  }

  /** A device that has read nothing, beside a server that has nothing yet. */
  function Start(): World {
    World([], [], Wall(map[], {}, 0, 0), false, false, 0, 0, 0, false, Idle, [], [])
  }

  // ---- what holds in every reachable world -----------------------------------------------------

  /** The store holds nothing the server never wrote, and remembers as gone only what the server removed. */
  ghost predicate Authentic(log: seq<Note>, s: Wall) {
    && (forall id | id in s.notes :: s.notes[id] in log && s.notes[id].id == id && !s.notes[id].deleted)
    && (forall id | id in s.gone :: Buried(log, id, Top(log)))
    && Disjoint(s)
  }

  ghost predicate Marks(log: seq<Note>, s: Wall) {
    0 <= s.fullMark <= s.cursor <= Top(log)
  }

  ghost predicate SocketOk(w: World) {
    (forall i | i in w.published :: i < |w.log|) && w.head <= |w.published| && w.base <= |w.log|
  }

  ghost predicate PassOk(w: World) {
    match w.pass
    case Idle => true
    case Began(began) => began <= w.connection
    case Marked(began, at) => began <= w.connection && at <= |w.log|
    case AskedWhole(began) => began <= w.connection && w.store.cursor == 0
    case WholeMark(began, at) => began <= w.connection && at <= |w.log| && w.store.cursor == 0
    case Whole(began, at, upTo, answer) =>
      began <= w.connection && w.store.cursor == 0 && at <= upTo <= |w.log| && IsWhole(w.log[..upTo], answer)
    case AskedPage(began, after) => began <= w.connection && 0 < after <= w.store.cursor
    case PageIn(began, after, at, page) =>
      began <= w.connection && at <= |w.log| && 0 < after <= w.store.cursor && IsPage(w.log[..at], after, page)
  }

  ghost predicate TravelOk(w: World) {
    && (forall v | v in w.posts :: v in w.log && !v.deleted)
    && (forall id | id in w.deletes :: Buried(w.log, id, Top(w.log)))
  }

  ghost predicate Inv(w: World) {
    GoodLog(w.log) && Authentic(w.log, w.store) && Marks(w.log, w.store) && SocketOk(w) && PassOk(w) && TravelOk(w)
  }

  // ---- whole runs ------------------------------------------------------------------------------

  ghost predicate Runs(w: World, steps: seq<Step>)
    decreases |steps|
  {
    steps == [] || (Enabled(w, steps[0]) && Runs(Do(w, steps[0]), steps[1..]))
  }

  ghost function After(w: World, steps: seq<Step>): World
    requires Runs(w, steps)
    decreases |steps|
  {
    if steps == [] then w else After(Do(w, steps[0]), steps[1..])
  }
}
