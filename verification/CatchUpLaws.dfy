/**
 * What holds of every run of the message catch-up, whatever order ids commit and frames are sent in: exactly which steps
 * lose a message and which bring it back within reach, what a loop has read when it ends, and that passes follow
 * connections and do not stack.
 */
module CatchUpLaws {
  import opened Wrappers
  import opened CatchUp

  // ---- pages -----------------------------------------------------------------------------------

  ghost predicate Ascending(page: seq<int>) {
    forall i, j | 0 <= i < j < |page| :: page[i] < page[j]
  }

  lemma {:induction false} LowestIs(s: set<int>, n: nat)
    ensures var page := Lowest(s, n);
      && |page| <= n && Ascending(page) && (forall m | m in page :: m in s)
      && (forall m | m in s && m !in page :: |page| == n && forall x | x in page :: x < m)
    decreases n
  {
    if n > 0 && s != {} {
      var c, rest := Least(s), Lowest(s - {Least(s)}, n - 1);
      LowestIs(s - {c}, n - 1);
      var page := Lowest(s, n);
      assert page == [c] + rest;
      assert forall m :: m in page <==> m == c || m in rest;
      forall i, j | 0 <= i < j < |page|
        ensures page[i] < page[j]
      {
        assert page[j] == rest[j - 1] && rest[j - 1] in rest;
        if i > 0 {
          assert page[i] == rest[i - 1];
        }
      }
    }
  }

  /** A page is the next ids after the cursor, in order; whatever it leaves out is beyond it, and a short page leaves out nothing. */
  lemma PageIs(log: seq<int>, after: int)
    ensures var page := Page(log, after);
      && |page| <= PAGE_SIZE && Ascending(page) && (forall m | m in page :: m in log && m > after)
      && (page != [] ==> page[|page| - 1] in page && forall m | m in page :: m <= page[|page| - 1])
      && (forall m | m in log && m > after && m !in page :: |page| == PAGE_SIZE && page[|page| - 1] < m)
  {
    LowestIs(Beyond(log, after), PAGE_SIZE);
  }

  // ---- the shape of a world --------------------------------------------------------------------

  ghost predicate PassOk(w: World) {
    match w.pass
    case Idle => true
    case Asking(taken, cursor, from) => taken <= cursor && from <= |w.log|
    case Landing(taken, cursor, from, at) => taken <= cursor && from <= at <= |w.log|
    case Rest(taken, from) => from <= |w.log|
  }

  /** What the loop has read of the messages there were as its pass began: all between where it started and its cursor. */
  ghost predicate LoopOk(w: World) {
    match w.pass
    case Idle => true
    case Asking(taken, cursor, from) =>
      from <= |w.log| && forall m | m in w.log[..from] && taken < m <= cursor :: m in w.sequenced
    case Landing(taken, cursor, from, at) =>
      from <= |w.log| && forall m | m in w.log[..from] && taken < m <= cursor :: m in w.sequenced
    case Rest(taken, from) =>
      from <= |w.log| && forall m | m in w.log[..from] && taken < m :: m in w.sequenced
  }

  ghost predicate Shape(w: World) {
    && GoodLog(w.log) && GoodLog(w.published) && (forall x | x in w.published :: x in w.log)
    && w.head <= |w.published| && w.sequenced != {}
    && (forall x | x in w.sequenced :: x in w.log && x in w.held) && (forall x | x in w.held :: x in w.log)
    && PassOk(w) && LoopOk(w)
  }

  /** A page landing: what its rows are, and where the loop goes. */
  lemma LandRows(w: World)
    requires Shape(w) && Enabled(w, Land)
    ensures var w' := Do(w, Land); var page := Page(w.log[..w.pass.at], w.pass.cursor);
      && (forall x | x in page :: x in w.log[..w.pass.at] && x in w.log && w.pass.cursor < x)
      && w' == w.(held := w.held + (set x | x in page), sequenced := w.sequenced + (set x | x in page), pass := w'.pass)
      && (if |page| < PAGE_SIZE then w'.pass == Rest(w.pass.taken, w.pass.from)
          else page != [] && w'.pass == Asking(w.pass.taken, page[|page| - 1], w.pass.from) && w.pass.cursor < w'.pass.cursor)
      && (forall m | m in w.log[..w.pass.at] && w.pass.cursor < m && m !in page ::
            |page| == PAGE_SIZE && page[|page| - 1] < m)
  {
    PageIs(w.log[..w.pass.at], w.pass.cursor);
    var page := Page(w.log[..w.pass.at], w.pass.cursor);
    if page == [] {
      assert (set x | x in page) == {};
    }
  }

  lemma LandShape(w: World)
    requires Shape(w) && Enabled(w, Land)
    ensures Shape(Do(w, Land))
  {
    var w' := Do(w, Land);
    LandRows(w);
    forall m | m in w.log[..w.pass.from] && w.pass.taken < m && (w'.pass.Rest? || m <= w'.pass.cursor)
      ensures m in w'.sequenced
    {
      assert m in w.log[..w.pass.at];
    }
  }

  lemma CommitShape(w: World, id: int)
    requires Shape(w) && Enabled(w, Commit(id))
    ensures Shape(Do(w, Commit(id)))
  {
    var log' := w.log + [id];
    assert log'[|w.log|] == id && forall i | 0 <= i < |w.log| :: log'[i] == w.log[i];
    if !w.pass.Idle? {
      assert log'[..w.pass.from] == w.log[..w.pass.from];
    }
  }

  lemma PublishShape(w: World, id: int)
    requires Shape(w) && Enabled(w, Publish(id))
    ensures Shape(Do(w, Publish(id)))
  {
    var published' := w.published + [id];
    assert published'[|w.published|] == id && forall i | 0 <= i < |w.published| :: published'[i] == w.published[i];
  }

  lemma StepShape(w: World, step: Step)
    requires Shape(w) && Enabled(w, step)
    ensures Shape(Do(w, step))
  {
    match step
    case Commit(id) => CommitShape(w, id);
    case Publish(id) => PublishShape(w, id);
    case Land => LandShape(w);
    case _ =>
  }

  lemma {:induction false} RunShape(w: World, steps: seq<Step>)
    requires Shape(w) && Runs(w, steps)
    ensures Shape(After(w, steps))
    decreases |steps|
  {
    if steps != [] {
      StepShape(w, steps[0]);
      RunShape(Do(w, steps[0]), steps[1..]);
    }
  }

  /** THE LOOP: when a pass's messages loop ends, everything above its starting cursor that there was as the pass began is held, whatever landed live and whatever was committed meanwhile. */
  lemma LoopReadsEverything(w: World, steps: seq<Step>)
    requires Shape(w) && Runs(w, steps) && After(w, steps).pass.Rest?
    ensures var w' := After(w, steps);
      && w'.pass.from <= |w'.log|
      && forall m | m in w'.log[..w'.pass.from] && m > w'.pass.taken :: m in w'.sequenced && m in w'.held
  {
    RunShape(w, steps);
  }

  // ---- what is still coming --------------------------------------------------------------------

  /** Its frame is on a registered socket. */
  ghost predicate Queued(w: World, m: int) {
    w.registered && w.head <= |w.published| && m in w.published[w.head..]
  }

  ghost predicate PendingBelow(w: World, m: int) {
    w.pending.Some? && w.pending.value < m
  }

  /** The running loop has its cursor below m. */
  ghost predicate Reads(w: World, m: int) {
    (w.pass.Asking? || w.pass.Landing?) && w.pass.cursor < m
  }

  /** Not committed yet, held in sequence, or still coming: by a frame that may be sent or read, or by a pass. */
  ghost predicate Safe(w: World, m: int) {
    m !in w.log || m in w.sequenced || m !in w.published || Queued(w, m) || PendingBelow(w, m) || Reads(w, m)
  }

  /** What stops a message from coming, where nothing else would bring it. */
  ghost predicate Loses(w: World, step: Step, m: int)
    requires Enabled(w, step)
  {
    && m in w.log && m !in w.sequenced
    && match step
       // its frame is sent out while no socket of this device is registered
       case Publish(id) => m == id && !w.registered && !PendingBelow(w, m) && !Reads(w, m)
       // its frame is queued on the socket that drops
       case Drop => Queued(w, m) && !PendingBelow(w, m) && !Reads(w, m)
       // it was committed after the page was taken, and the loop ends with the page or goes on above it
       case Land =>
         var page := Page(w.log[..w.pass.at], w.pass.cursor);
         && w.pass.cursor < m && m !in w.log[..w.pass.at] && (|page| < PAGE_SIZE || m <= page[|page| - 1])
         && m in w.published && !Queued(w, m) && !PendingBelow(w, m)
       // its frame was sent out, and all that would still bring it is forgotten
       case Relaunch => m in w.published
       case _ => false
  }

  /** What brings a message within reach, lost or not. */
  ghost predicate Recovers(w: World, step: Step, m: int)
    requires Enabled(w, step)
  {
    match step
    // a connection opens and hands over a cursor below it
    case Open => Newest(w.sequenced) < m
    // a pass begins below it
    case Begin => w.sequenced != {} && Taken(w) < m
    // a pass that began below it fails, and hands back where it began
    case Fail => w.pass.taken < m
    case _ => false
  }

  lemma QueueGrows(w: World, id: int, m: int)
    requires Shape(w) && Enabled(w, Publish(id))
    ensures Queued(Do(w, Publish(id)), m) <==> Queued(w, m) || (w.registered && m == id)
  {
    assert (w.published + [id])[w.head..] == w.published[w.head..] + [id];
  }

  lemma PublishSafe(w: World, id: int, m: int)
    requires Shape(w) && Enabled(w, Publish(id))
    ensures Safe(Do(w, Publish(id)), m) <==> Safe(w, m) && !Loses(w, Publish(id), m)
  {
    QueueGrows(w, id, m);
  }

  lemma DeliverSafe(w: World, m: int)
    requires Shape(w) && Enabled(w, Deliver)
    ensures Safe(Do(w, Deliver), m) <==> Safe(w, m)
  {
    assert w.published[w.head..] == [w.published[w.head]] + w.published[w.head + 1..];
  }

  lemma LandSafe(w: World, m: int)
    requires Shape(w) && Enabled(w, Land)
    ensures Safe(Do(w, Land), m) <==> Safe(w, m) && !Loses(w, Land, m)
  {
    LandRows(w);
    PageIs(w.log[..w.pass.at], w.pass.cursor);
  }

  lemma PassSafe(w: World, step: Step, m: int)
    requires Shape(w) && Enabled(w, step) && (step.Open? || step.Begin? || step.Fail?)
    ensures Safe(Do(w, step), m) <==> Safe(w, m) || Recovers(w, step, m)
  {
  }

  lemma SocketSafe(w: World, step: Step, m: int)
    requires Shape(w) && Enabled(w, step) && (step.Register? || step.Drop? || step.Relaunch?)
    ensures Safe(Do(w, step), m) <==> Safe(w, m) && !Loses(w, step, m)
  {
    assert w.published[|w.published|..] == [];
  }

  /** EXACTLY WHICH STEPS lose a message, and which bring it within reach again. */
  lemma StepSafe(w: World, step: Step, m: int)
    requires Shape(w) && Enabled(w, step)
    ensures Safe(Do(w, step), m) <==> (Safe(w, m) && !Loses(w, step, m)) || Recovers(w, step, m)
  {
    match step
    case Publish(id) => PublishSafe(w, id, m);
    case Deliver => DeliverSafe(w, m);
    case Land => LandSafe(w, m);
    case Open => PassSafe(w, step, m);
    case Begin => PassSafe(w, step, m);
    case Fail => PassSafe(w, step, m);
    case Register => SocketSafe(w, step, m);
    case Drop => SocketSafe(w, step, m);
    case Relaunch => SocketSafe(w, step, m);
    case _ =>
  }

  // ---- every run -------------------------------------------------------------------------------

  /** The last word on a message in a run: it was within reach, or was brought there, and nothing lost it after. */
  ghost predicate EndsSafe(w: World, steps: seq<Step>, m: int, safe: bool)
    requires Runs(w, steps)
    decreases |steps|
  {
    if steps == [] then safe
    else
      EndsSafe(Do(w, steps[0]), steps[1..], m, (safe && !Loses(w, steps[0], m)) || Recovers(w, steps[0], m))
  }

  lemma {:induction false} SafeExactly(w: World, steps: seq<Step>, m: int)
    requires Shape(w) && Runs(w, steps)
    ensures Safe(After(w, steps), m) <==> EndsSafe(w, steps, m, Safe(w, m))
    decreases |steps|
  {
    if steps != [] {
      StepSafe(w, steps[0], m);
      StepShape(w, steps[0]);
      SafeExactly(Do(w, steps[0]), steps[1..], m);
    }
  }

  /** This device holds in sequence every message above where its history of the chat begins. */
  ghost predicate HoldsAll(w: World, floor: int) {
    forall m | m in w.log && m > floor :: m in w.sequenced
  }

  /** Listening, with every frame sent out and read. */
  ghost predicate Quiet(w: World) {
    Shape(w) && w.listening && w.head == |w.published| && forall m | m in w.log :: m in w.published
  }

  /** Nothing is owed: no cursor handed over, no pass running, every frame sent out and read. */
  ghost predicate Settled(w: World) {
    Quiet(w) && w.pending.None? && w.pass.Idle?
  }

  /** EXACTLY WHICH SETTLED RUNS hold every message, restarts included: those in which each that was lost was brought within reach again, and not lost after. */
  lemma EveryMessageArrivesExactly(w: World, floor: int, steps: seq<Step>)
    requires Shape(w) && Runs(w, steps) && Settled(After(w, steps))
    ensures var w' := After(w, steps);
      HoldsAll(w', floor) <==> forall m | m in w'.log && m > floor :: EndsSafe(w, steps, m, Safe(w, m))
  {
    var w' := After(w, steps);
    forall m | m in w'.log
      ensures m in w'.sequenced <==> EndsSafe(w, steps, m, Safe(w, m))
    {
      SafeExactly(w, steps, m);
      assert w'.published[w'.head..] == [];
    }
  }

  // ---- lost for good ---------------------------------------------------------------------------

  /** Sent out and missed; no cursor handed over is below it, no running pass began below it, and a newer message is held in sequence. */
  ghost predicate Stranded(w: World, m: int) {
    && w.sequenced != {} && m in w.log && m !in w.sequenced && m in w.published && !Queued(w, m)
    && !PendingBelow(w, m) && (w.pass.Idle? || m <= w.pass.taken) && m < Newest(w.sequenced)
  }

  lemma NewestGrows(s: set<int>, t: set<int>)
    requires s != {} && s <= t
    ensures t != {} && Newest(s) <= Newest(t)
  {
    assert Newest(s) in t;
  }

  lemma StaysStranded(w: World, step: Step, m: int)
    requires Shape(w) && Enabled(w, step) && Stranded(w, m)
    ensures Stranded(Do(w, step), m)
  {
    var w' := Do(w, step);
    match step
    case Publish(id) => QueueGrows(w, id, m);
    case Deliver =>
      assert w.published[w.head..] == [w.published[w.head]] + w.published[w.head + 1..];
      NewestGrows(w.sequenced, w'.sequenced);
    case Land =>
      LandRows(w);
      NewestGrows(w.sequenced, w'.sequenced);
    case Register => assert w.published[|w.published|..] == [];
    case _ =>
  }

  lemma {:induction false} StrandedForGood(w: World, steps: seq<Step>, m: int)
    requires Shape(w) && Runs(w, steps) && Stranded(w, m)
    ensures Stranded(After(w, steps), m)
    decreases |steps|
  {
    if steps != [] {
      StaysStranded(w, steps[0], m);
      StepShape(w, steps[0]);
      StrandedForGood(Do(w, steps[0]), steps[1..], m);
    }
  }

  // ---- coalesced passes ------------------------------------------------------------------------

  predicate AsksForAPass(step: Step) {
    step.Open? || step.Refresh?
  }

  function Asked(steps: seq<Step>): nat {
    if steps == [] then 0 else (if AsksForAPass(steps[0]) then 1 else 0) + Asked(steps[1..])
  }

  function Begun(steps: seq<Step>): nat {
    if steps == [] then 0 else (if steps[0].Begin? then 1 else 0) + Begun(steps[1..])
  }

  /** Every connection, and every pull-to-refresh, is answered by a pass that began after it, or is still owed one, unless the process ends. */
  lemma {:induction false} EveryConnectionGetsItsPass(w: World, steps: seq<Step>, i: nat)
    requires Runs(w, steps) && i < |steps| && AsksForAPass(steps[i])
    ensures After(w, steps).due || exists j | i < j < |steps| :: steps[j].Begin? || steps[j].Relaunch?
    decreases |steps|
  {
    var rest := steps[1..];
    var w' := Do(w, steps[0]);
    if i > 0 {
      EveryConnectionGetsItsPass(w', rest, i - 1);
      if !After(w, steps).due {
        var j :| i - 1 < j < |rest| && (rest[j].Begin? || rest[j].Relaunch?);
        assert steps[j + 1] == rest[j];
      }
    } else {
      OwedUntilBegun(w', rest);
      if !After(w, steps).due {
        var j :| 0 <= j < |rest| && (rest[j].Begin? || rest[j].Relaunch?);
        assert steps[j + 1] == rest[j];
      }
    }
  }

  lemma {:induction false} OwedUntilBegun(w: World, steps: seq<Step>)
    requires Runs(w, steps) && w.due
    ensures After(w, steps).due || exists j | 0 <= j < |steps| :: steps[j].Begin? || steps[j].Relaunch?
    decreases |steps|
  {
    if steps != [] && !steps[0].Begin? && !steps[0].Relaunch? {
      OwedUntilBegun(Do(w, steps[0]), steps[1..]);
      if !After(w, steps).due {
        var j :| 0 <= j < |steps[1..]| && (steps[1..][j].Begin? || steps[1..][j].Relaunch?);
        assert steps[j + 1] == steps[1..][j];
      }
    }
  }

  predicate Restarts(steps: seq<Step>) {
    steps != [] && (steps[0].Relaunch? || Restarts(steps[1..]))
  }

  /** However connections flap, passes do not stack: no more begin than were asked for, and a stretch in which none begins and the process lives leaves exactly one owed however many asked. */
  lemma {:induction false} PassesNeverStack(w: World, steps: seq<Step>)
    requires Runs(w, steps)
    ensures Begun(steps) + (if After(w, steps).due then 1 else 0) <= Asked(steps) + (if w.due then 1 else 0)
    ensures Begun(steps) == 0 && !Restarts(steps) ==> (After(w, steps).due <==> w.due || Asked(steps) > 0)
    decreases |steps|
  {
    if steps != [] {
      PassesNeverStack(Do(w, steps[0]), steps[1..]);
    }
  }
}
