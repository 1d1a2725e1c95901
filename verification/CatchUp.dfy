/**
 * The message catch-up of one chat this device holds something of in sequence, against live messages, drops, failed passes
 * and restarts: win/src/FamilyConnect.Core/Protocol/Resync.cs, LiveConnection.cs and ChatStore.CatchUpCursor.
 */
module CatchUp {
  import opened Wrappers

  const PAGE_SIZE := 50

  // ---- the server ------------------------------------------------------------------------------

  /**
   * Message ids in the order they were committed, each once. An id is drawn by the INSERT of a transaction that goes on
   * (server/src/handlers_chat.rs:888-910), so a smaller one may be committed after a larger.
   */
  ghost predicate GoodLog(log: seq<int>) {
    forall i, j | 0 <= i < j < |log| :: log[i] != log[j]
  }

  ghost predicate IsLeast(s: set<int>, c: int) {
    c in s && forall x | x in s :: c <= x
  }

  function Least(s: set<int>): (c: int)
    requires s != {}
    ensures IsLeast(s, c)
  {
    SetHasLeast(s);
    var c :| c in s && forall x | x in s :: c <= x;
    c
  }

  lemma {:induction false} SetHasLeast(s: set<int>)
    requires s != {}
    ensures exists c :: c in s && forall x | x in s :: c <= x
    decreases |s|
  {
    var x := AnyOf(s);
    if s != {x} {
      var rest := s - {x};
      assert s == rest + {x};
      SetHasLeast(rest);
      var c :| c in rest && forall y | y in rest :: c <= y;
      assert forall y | y in s :: y == x || y in rest;
      assert Min(c, x) in s;
    }
  }

  /** The n lowest of some ids, in order. */
  function Lowest(s: set<int>, n: nat): seq<int> {
    if n == 0 || s == {} then [] else [Least(s)] + Lowest(s - {Least(s)}, n - 1)
  }

  function Beyond(log: seq<int>, after: int): set<int> {
    set m | m in log && m > after
  }

  /** A page: the first committed messages after an id, by id. */
  function Page(log: seq<int>, after: int): seq<int> {
    Lowest(Beyond(log, after), PAGE_SIZE)
  }

  // ---- the device ------------------------------------------------------------------------------

  /** A pass: its messages loop between awaits, then the reads that follow it. `from` counts the log as the pass began, `at` as the last page was taken. */
  datatype Pass =
    | Idle
    | Asking(taken: int, cursor: int, from: nat)
    | Landing(taken: int, cursor: int, from: nat, at: nat)
    | Rest(taken: int, from: nat)

  /**
   * `published` are the messages whose frames were sent out, in the order they were sent, which need not be that of the
   * commits; while the socket is registered published[head..] are its frames. `held` is everything cached, `sequenced`
   * what was delivered in sequence (a page or a frame); `pending` is the cursor handed over for the next pass, `due`
   * whether a pass is owed.
   */
  datatype World = World(
    log: seq<int>, published: seq<int>, held: set<int>, sequenced: set<int>, pending: Option<int>, due: bool,
    registered: bool, listening: bool, head: nat, pass: Pass)

  datatype Step =
    | Commit(id: int)
    | Publish(id: int)
    | Drop
    | Register
    | Open
    | Deliver
    | Preview(id: int)
    | Refresh
    | Begin
    | Answer
    | Land
    | Finish
    | Fail
    | Relaunch

  ghost predicate IsNewest(s: set<int>, c: int) {
    c in s && forall x | x in s :: x <= c
  }

  /** MAX(message_id) over what was delivered in sequence. */
  function Newest(s: set<int>): (c: int)
    requires s != {}
    ensures IsNewest(s, c)
  {
    SetHasNewest(s);
    var c :| c in s && forall x | x in s :: x <= c;
    c
  }

  lemma {:induction false} SetHasNewest(s: set<int>)
    requires s != {}
    ensures exists c :: c in s && forall x | x in s :: x <= c
    decreases |s|
  {
    var x := AnyOf(s);
    if s != {x} {
      var rest := s - {x};
      assert s == rest + {x};
      SetHasNewest(rest);
      var c :| c in rest && forall y | y in rest :: y <= c;
      assert forall y | y in s :: y == x || y in rest;
      assert Max(c, x) in s;
    }
  }

  function Earliest(a: Option<int>, b: int): Option<int> {
    match a
    case None => Some(b)
    case Some(x) => Some(Min(x, b))
  }

  function Taken(w: World): int
    requires w.sequenced != {}
  {
    match w.pending
    case None => Newest(w.sequenced)
    case Some(p) => Min(p, Newest(w.sequenced))
  }

  ghost predicate Enabled(w: World, step: Step) {
    match step
    case Commit(id) => id !in w.log
    case Publish(id) => id in w.log && id !in w.published
    case Drop => true
    case Register => !w.registered
    case Open => !w.listening && w.sequenced != {}
    case Deliver => w.registered && w.listening && w.head < |w.published|
    case Preview(id) => id in w.log
    case Refresh => true
    case Begin => w.pass.Idle? && w.due && w.sequenced != {}
    case Answer => w.pass.Asking?
    case Land => w.pass.Landing? && w.pass.at <= |w.log|
    case Finish => w.pass.Rest?
    case Fail => !w.pass.Idle?
    case Relaunch => true
  }

  /** A page landed: its rows are in sequence, and the loop's own cursor moves to its largest id. */
  function Landed(w: World, taken: int, cursor: int, from: nat, at: nat): World
    requires at <= |w.log|
  {
    var page := Page(w.log[..at], cursor);
    if page == [] then w.(pass := Rest(taken, from))
    else
      var rows := set m | m in page;
      var next := page[|page| - 1];
      w.(held := w.held + rows, sequenced := w.sequenced + rows,
         pass := if next <= cursor || |page| < PAGE_SIZE then Rest(taken, from) else Asking(taken, next, from))
  }

  function Do(w: World, step: Step): World
    requires Enabled(w, step)
  {
    match step
    case Commit(id) => w.(log := w.log + [id])
    case Publish(id) => w.(published := w.published + [id])
    case Drop => w.(registered := false, listening := false)
    case Register => w.(registered := true, head := |w.published|)
    case Open => w.(listening := true, pending := Earliest(w.pending, Newest(w.sequenced)), due := true)
    case Deliver =>
      var id := w.published[w.head];
      w.(head := w.head + 1, held := w.held + {id}, sequenced := w.sequenced + {id})
    case Preview(id) => w.(held := w.held + {id})
    case Refresh => w.(due := true)
    case Begin => w.(pass := Asking(Taken(w), Taken(w), |w.log|), pending := None, due := false)
    case Answer => w.(pass := Landing(w.pass.taken, w.pass.cursor, w.pass.from, |w.log|))
    case Land => Landed(w, w.pass.taken, w.pass.cursor, w.pass.from, w.pass.at)
    case Finish => w.(pass := Idle)
    case Fail => w.(pass := Idle, pending := Earliest(w.pending, w.pass.taken))
    case Relaunch => w.(pending := None, due := false, registered := false, listening := false, pass := Idle)
  }

  // ---- whole runs ------------------------------------------------------------------------------

  ghost predicate Runs(w: World, steps: seq<Step>)
    decreases |steps|
  {
    steps == [] || (Enabled(w, steps[0]) && Runs(Do(w, steps[0]), steps[1..]))
  }

  ghost function After(w: World, steps: seq<Step>): World
    requires Runs(w, steps)
    decreases |steps|
  {
    if steps == [] then w else After(Do(w, steps[0]), steps[1..])
  }
}
