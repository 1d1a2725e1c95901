/**
 * Every interleaving of the family's changes, dropped and reopened sockets, live frames, catch-up
 * passes, failed requests and this device's own adds and removals, over the store of module Pack:
 * win/src/FamilyConnect.Core/Protocol/Resync.cs and FrameRouter.cs.
 */
module PackWorld {
  import opened Wrappers
  import opened Pack

  const PAGE_SIZE := 50

  // ---- the server ------------------------------------------------------------------------------

  /** Committed changes in pack_seq order; an id is added once and, after that, removed at most once. */
  ghost predicate GoodLog(log: seq<Item>) {
    && (forall i | 0 <= i < |log| :: log[i].packSeq > 0)
    && (forall i | 0 <= i < |log| && !log[i].deleted :: log[i].picture.Some? && log[i].addedBy > 0)
    && (forall i, j | 0 <= i < j < |log| :: log[i].packSeq < log[j].packSeq)
    && (forall i, j | 0 <= i < j < |log| && log[i].id == log[j].id :: !log[i].deleted && log[j].deleted)
  }

  /** The change that says what an item now is. */
  predicate Latest(log: seq<Item>, i: int) {
    0 <= i < |log| && forall j | i < j < |log| :: log[j].id != log[i].id
  }

  predicate LiveNow(log: seq<Item>, v: Item) {
    exists i :: 0 <= i < |log| && log[i] == v && Latest(log, i) && !v.deleted
  }

  ghost predicate Buried(log: seq<Item>, id: int, below: int) {
    exists i :: 0 <= i < |log| && log[i].id == id && log[i].deleted && log[i].packSeq <= below
  }

  function Top(log: seq<Item>): int {
    if log == [] then 0 else log[|log| - 1].packSeq
  }

  /** `max_pack_seq` of the family's own document: absent while the pack is empty and untouched. */
  function MarkOf(log: seq<Item>): Option<int> {
    if log == [] then None else Some(Top(log))
  }

  /** The change feed from entry i on: each item once, in the state it is now in. */
  function Feed(log: seq<Item>, after: int, i: nat): seq<Item>
    requires i <= |log|
    decreases |log| - i
  {
    if i == |log| then []
    else if Latest(log, i) && log[i].packSeq > after then [log[i]] + Feed(log, after, i + 1)
    else Feed(log, after, i + 1)
  }

  function Page(log: seq<Item>, after: int): seq<Item> {
    var feed := Feed(log, after, 0);
    if |feed| <= PAGE_SIZE then feed else feed[..PAGE_SIZE]
  }

  /** An answer to a whole-pack read: the live items, in whatever order. */
  ghost predicate WholeOf(log: seq<Item>, answer: seq<Item>) {
    forall v :: v in answer <==> LiveNow(log, v)
  }

  // ---- the world and its steps -----------------------------------------------------------------

  /** A resync pass, between the awaits of Resync.PassAsync and PackAsync. `at` counts the log when an answer was taken. */
  datatype Pass =
    | Idle
    | Began(began: nat)
    | Marked(began: nat, at: nat)
    | AskedWhole(began: nat)
    | Whole(began: nat, at: nat, answer: seq<Item>)
    | AskedPage(began: nat, was: int)
    | PageIn(began: nat, was: int, at: nat)

  /**
   * The server's log; the entries whose frames it has sent out, in the order it sent them; the store; the socket,
   * which the server registered when the log held `base` entries and whose frames, while it is registered, are
   * published[head..]; the pass in flight; and the answers to this device's own adds and removals still travelling.
   * A change is committed first and its frame sent out later, so frames may be sent in another order than their
   * changes (server/src/handlers_pack.rs:500-509), and this device may hear that its socket is open before the
   * server has registered it (server/src/ws.rs:457-482, ChatSocket.cs:201-204).
   */
  datatype World = World(
    log: seq<Item>, published: seq<nat>, store: Held, registered: bool, listening: bool, head: nat, base: nat,
    pass: Pass, posts: seq<Item>, deletes: seq<int>)

  datatype Step =
    | Commit(change: Item)
    | Publish(i: nat)
    | Drop
    | Register
    | Open
    | Deliver
    | Begin
    | ReadMark
    | Decide
    | AnswerWhole(answer: seq<Item>)
    | AnswerPage
    | Land
    | Fail
    | AnswerPost(item: Item)
    | LandPost(k: nat)
    | AnswerDelete(id: int)
    | LandDelete(k: nat)
    | Relaunch

  predicate HasFrame(w: World) {
    w.head < |w.published| && w.published[w.head] < |w.log|
  }

  /** The next frame of the open connection. */
  function Frame(w: World): Item
    requires HasFrame(w)
  {
    w.log[w.published[w.head]]
  }

  ghost predicate Enabled(w: World, step: Step) {
    match step
    case Commit(change) => GoodLog(w.log + [change])
    case Publish(i) => i < |w.log| && i !in w.published
    case Drop => true
    case Register => !w.registered
    case Open => !w.listening
    case Deliver => w.registered && w.listening && HasFrame(w)
    case Begin => w.pass.Idle?
    case ReadMark => w.pass.Began?
    case Decide => w.pass.Marked? && w.pass.at <= |w.log|
    case AnswerWhole(answer) => w.pass.AskedWhole? && WholeOf(w.log, answer)
    case AnswerPage => w.pass.AskedPage?
    case Land => (w.pass.Whole? || w.pass.PageIn?) && w.pass.at <= |w.log|
    case Fail => true
    case AnswerPost(item) => LiveNow(w.log, item)
    case LandPost(k) => k < |w.posts|
    case AnswerDelete(id) => Buried(w.log, id, Top(w.log))
    case LandDelete(k) => k < |w.deletes|
    case Relaunch => true
  }

  /** Saying "caught up". Without the guard a pass speaks for whatever connection is open now. */
  function Said(guarded: bool, s: Held, began: nat): Held {
    Levelled(s, if guarded then began else s.connection)
  }

  /** PackAsync up to its first request: nothing there, already level, or what to ask for. */
  function Decided(guarded: bool, w: World, began: nat, mark: Option<int>): World {
    if mark.None? && |w.store.items| == 0 then
      w.(store := Said(guarded, w.store, began), pass := Idle)
    else if mark.Some? && w.store.cursor != 0 && mark.value <= w.store.cursor then
      w.(store := Said(guarded, w.store, began), pass := Idle)
    else if w.store.cursor == 0 then w.(pass := AskedWhole(began))
    else w.(pass := AskedPage(began, w.store.cursor))
  }

  function Landed(guarded: bool, w: World, began: nat, was: int, page: seq<Item>): World {
    if page == [] then w.(store := Said(guarded, w.store, began), pass := Idle)
    else
      var s := ReceivedPage(w.store, page);
      if s.cursor <= was || |page| < PAGE_SIZE then w.(store := Said(guarded, s, began), pass := Idle)
      else w.(store := s, pass := AskedPage(began, s.cursor))
  }

  function Do(guarded: bool, w: World, step: Step): World
    requires Enabled(w, step)
  {
    match step
    case Commit(change) => w.(log := w.log + [change])
    case Publish(i) => w.(published := w.published + [i])
    case Drop => w.(registered := false, listening := false)
    case Register => w.(registered := true, head := |w.published|, base := |w.log|)
    case Open => w.(listening := true, store := Reopened(w.store))
    case Deliver => w.(head := w.head + 1, store := Received(w.store, Frame(w), LiveFrame))
    case Begin => w.(pass := Began(w.store.connection))
    case ReadMark => w.(pass := Marked(w.pass.began, |w.log|))
    case Decide => Decided(guarded, w, w.pass.began, MarkOf(w.log[..w.pass.at]))
    case AnswerWhole(answer) => w.(pass := Whole(w.pass.began, |w.log|, answer))
    case AnswerPage => w.(pass := PageIn(w.pass.began, w.pass.was, |w.log|))
    case Land =>
      if w.pass.PageIn? then
        Landed(guarded, w, w.pass.began, w.pass.was, Page(w.log[..w.pass.at], w.pass.was))
      else
        w.(store := Said(guarded, Replaced(w.store, w.pass.answer, Top(w.log[..w.pass.at])), w.pass.began), pass := Idle)
    case Fail => w.(pass := Idle)
    case AnswerPost(item) => w.(posts := w.posts + [item])
    case LandPost(k) =>
      w.(posts := w.posts[..k] + w.posts[k + 1..], store := Received(w.store, w.posts[k], Evidence))
    case AnswerDelete(id) => w.(deletes := w.deletes + [id])
    case LandDelete(k) =>
      w.(deletes := w.deletes[..k] + w.deletes[k + 1..], store := Without(w.store, w.deletes[k]))
    case Relaunch =>
      w.(registered := false, listening := false, pass := Idle, posts := [], deletes := [],
         store := w.store.(connection := 0, caughtUp := false))
  }

  /** A device that has read nothing, beside a server that has nothing yet. */
  function Start(): World {
    World([], [], Held(map[], {}, 0, 0, 0, false), false, false, 0, 0, Idle, [], [])
  }

  // ---- what holds in every reachable world -----------------------------------------------------

  /** The store holds nothing the server never said, and remembers as gone only what the server removed. */
  ghost predicate Authentic(log: seq<Item>, s: Held) {
    && (forall id | id in s.items :: s.items[id] in log && s.items[id].id == id && !s.items[id].deleted)
    && (forall id | id in s.gone :: Buried(log, id, Top(log)))
    && Disjoint(s)
  }

  ghost predicate Marks(log: seq<Item>, s: Held) {
    0 <= s.fullMark <= s.cursor <= Top(log)
  }

  ghost predicate SocketOk(w: World) {
    (forall i | i in w.published :: i < |w.log|) && w.head <= |w.published| && w.base <= |w.log|
  }

  ghost predicate PassOk(w: World) {
    match w.pass
    case Idle => true
    case Began(began) => began <= w.store.connection
    case Marked(began, at) => began <= w.store.connection && at <= |w.log|
    case AskedWhole(began) => began <= w.store.connection
    case Whole(began, at, answer) => began <= w.store.connection && at <= |w.log| && WholeOf(w.log[..at], answer)
    case AskedPage(began, was) => began <= w.store.connection && 0 < was <= w.store.cursor
    case PageIn(began, was, at) => began <= w.store.connection && at <= |w.log| && 0 < was <= w.store.cursor
  }

  ghost predicate TravelOk(w: World) {
    && (forall v | v in w.posts :: v in w.log && !v.deleted)
    && (forall id | id in w.deletes :: Buried(w.log, id, Top(w.log)))
  }

  ghost predicate Inv(w: World) {
    GoodLog(w.log) && Authentic(w.log, w.store) && Marks(w.log, w.store) && SocketOk(w) && PassOk(w) && TravelOk(w)
  }

  // ---- whole runs ------------------------------------------------------------------------------

  ghost predicate Runs(guarded: bool, w: World, steps: seq<Step>)
    decreases |steps|
  {
    steps == [] || (Enabled(w, steps[0]) && Runs(guarded, Do(guarded, w, steps[0]), steps[1..]))
  }

  ghost function After(guarded: bool, w: World, steps: seq<Step>): World
    requires Runs(guarded, w, steps)
    decreases |steps|
  {
    if steps == [] then w else After(guarded, Do(guarded, w, steps[0]), steps[1..])
  }
}
