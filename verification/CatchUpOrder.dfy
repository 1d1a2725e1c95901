/**
 * What the cursor taken as a connection opens is for: runs of module CatchUp in which ids commit and frames are sent out
 * in order, and a socket is registered before this device hears that it is open.
 */
module CatchUpOrder {
  import opened Wrappers
  import opened CatchUp
  import opened CatchUpLaws

  ghost predicate Orderly(w: World, step: Step) {
    match step
    case Commit(id) => forall x | x in w.log :: x < id
    case Publish(id) => |w.published| < |w.log| && id == w.log[|w.published|]
    case Open => w.registered
    case Relaunch => false
    case _ => true
  }

  // ---- no hole is ever forgotten ---------------------------------------------------------------

  /** The running loop has still to read up to m. */
  ghost predicate PassBelow(w: World, m: int) {
    Reads(w, m) && (w.pass.Landing? ==> w.pass.at <= |w.log| && m in w.log[..w.pass.at])
  }

  /** Nothing beyond m has been delivered in sequence, and an open connection has its frame still to come. */
  ghost predicate Ahead(w: World, m: int) {
    (forall x | x in w.sequenced :: x < m) && (w.listening ==> m !in w.published || Queued(w, m))
  }

  ghost predicate Covered(w: World, m: int) {
    PendingBelow(w, m) || PassBelow(w, m) || Ahead(w, m)
  }

  /** Every message above where this chat's history begins is held in sequence or covered. */
  ghost predicate NoHole(w: World, floor: int) {
    forall m | m in w.log && m > floor && m !in w.sequenced :: Covered(w, m)
  }

  ghost predicate InOrder(w: World) {
    && Ascending(w.log) && w.published <= w.log && (w.listening ==> w.registered)
    && (w.pass.Asking? || w.pass.Landing? ==> exists x :: x in w.sequenced && w.pass.cursor <= x)
  }

  ghost predicate OrderInv(w: World, floor: int) {
    Shape(w) && InOrder(w) && NoHole(w, floor)
  }

  lemma CommitKeeps(w: World, floor: int, id: int)
    requires OrderInv(w, floor) && Enabled(w, Commit(id)) && Orderly(w, Commit(id))
    ensures OrderInv(Do(w, Commit(id)), floor)
  {
    var w' := Do(w, Commit(id));
    StepShape(w, Commit(id));
    assert w'.log[|w.log|] == id && forall i | 0 <= i < |w.log| :: w'.log[i] == w.log[i] && w.log[i] in w.log;
    forall m | m in w'.log && m > floor && m !in w.sequenced
      ensures Covered(w', m)
    {
      if m == id {
        assert Ahead(w', id);
      } else {
        assert Covered(w, m);
        assert w.pass.Landing? ==> w'.log[..w.pass.at] == w.log[..w.pass.at];
      }
    }
  }

  lemma PublishKeeps(w: World, floor: int, id: int)
    requires OrderInv(w, floor) && Enabled(w, Publish(id)) && Orderly(w, Publish(id))
    ensures OrderInv(Do(w, Publish(id)), floor)
  {
    var w' := Do(w, Publish(id));
    StepShape(w, Publish(id));
    assert w'.published == w.log[..|w.published| + 1];
    forall m | m in w.log && m > floor && m !in w.sequenced
      ensures Covered(w', m)
    {
      assert Covered(w, m);
      QueueGrows(w, id, m);
    }
  }

  lemma NextIsLowest(w: World, m: int)
    requires Shape(w) && InOrder(w) && Enabled(w, Deliver) && m in w.log && m != w.published[w.head]
    requires m !in w.published || Queued(w, m)
    ensures w.published[w.head] < m
  {
    var i :| 0 <= i < |w.log| && w.log[i] == m;
    assert w.log[w.head] == w.published[w.head];
    assert i < |w.published| ==> w.published[i] == m;
  }

  lemma DeliverKeeps(w: World, floor: int)
    requires OrderInv(w, floor) && Enabled(w, Deliver)
    ensures OrderInv(Do(w, Deliver), floor)
  {
    var w' := Do(w, Deliver);
    var f := w.published[w.head];
    StepShape(w, Deliver);
    assert w.published[w.head..] == [f] + w.published[w.head + 1..];
    forall m | m in w.log && m > floor && m !in w'.sequenced
      ensures Covered(w', m)
    {
      assert Covered(w, m);
      if Ahead(w, m) {
        NextIsLowest(w, m);
      }
    }
  }

  lemma PassKeeps(w: World, floor: int, step: Step)
    requires OrderInv(w, floor) && Enabled(w, step) && Orderly(w, step)
    requires step.Open? || step.Begin? || step.Answer? || step.Fail?
    ensures OrderInv(Do(w, step), floor)
  {
    var w' := Do(w, step);
    StepShape(w, step);
    assert w.log[..|w.log|] == w.log;
    forall m | m in w.log && m > floor && m !in w.sequenced
      ensures Covered(w', m)
    {
      assert Covered(w, m);
      if step.Open? && Ahead(w, m) {
        assert Newest(w.sequenced) < m;
      }
    }
  }

  lemma OthersKeep(w: World, floor: int, step: Step)
    requires OrderInv(w, floor) && Enabled(w, step)
    requires step.Drop? || step.Register? || step.Preview? || step.Refresh? || step.Finish?
    ensures OrderInv(Do(w, step), floor)
  {
    var w' := Do(w, step);
    StepShape(w, step);
    forall m | m in w.log && m > floor && m !in w.sequenced
      ensures Covered(w', m)
    {
      assert Covered(w, m);
    }
  }

  lemma LandKeeps(w: World, floor: int)
    requires OrderInv(w, floor) && Enabled(w, Land)
    ensures OrderInv(Do(w, Land), floor)
  {
    var w' := Do(w, Land);
    StepShape(w, Land);
    LandRows(w);
    assert w'.pass.Asking? ==> w'.pass.cursor in w'.sequenced;
    forall m | m in w.log && m > floor && m !in w'.sequenced
      ensures Covered(w', m)
    {
      assert Covered(w, m);
      LandCovers(w, m);
    }
  }

  lemma LandCovers(w: World, m: int)
    requires Shape(w) && InOrder(w) && Enabled(w, Land) && m in w.log && Covered(w, m) && m !in Do(w, Land).sequenced
    ensures Covered(Do(w, Land), m)
  {
    LandRows(w);
    if m in w.log[..w.pass.at] {
      assert w.pass.cursor < m || PendingBelow(w, m);
    } else {
      AfterPrefix(w.log, w.pass.at, m);
    }
  }

  lemma AfterPrefix(log: seq<int>, at: nat, m: int)
    requires Ascending(log) && at <= |log| && m in log && m !in log[..at]
    ensures forall x | x in log[..at] :: x < m
  {
    assert log == log[..at] + log[at..];
    var k :| 0 <= k < |log[at..]| && log[at..][k] == m;
    assert log[at + k] == m;
  }

  lemma StepKeeps(w: World, floor: int, step: Step)
    requires OrderInv(w, floor) && Enabled(w, step) && Orderly(w, step)
    ensures OrderInv(Do(w, step), floor)
  {
    match step
    case Commit(id) => CommitKeeps(w, floor, id);
    case Publish(id) => PublishKeeps(w, floor, id);
    case Deliver => DeliverKeeps(w, floor);
    case Land => LandKeeps(w, floor);
    case Open => PassKeeps(w, floor, step);
    case Begin => PassKeeps(w, floor, step);
    case Answer => PassKeeps(w, floor, step);
    case Fail => PassKeeps(w, floor, step);
    case _ => OthersKeep(w, floor, step);
  }

  ghost predicate OrderlyRun(w: World, steps: seq<Step>)
    requires Runs(w, steps)
    decreases |steps|
  {
    steps == [] || (Orderly(w, steps[0]) && OrderlyRun(Do(w, steps[0]), steps[1..]))
  }

  lemma {:induction false} RunKeeps(w: World, floor: int, steps: seq<Step>)
    requires OrderInv(w, floor) && Runs(w, steps) && OrderlyRun(w, steps)
    ensures OrderInv(After(w, steps), floor)
    decreases |steps|
  {
    if steps != [] {
      StepKeeps(w, floor, steps[0]);
      RunKeeps(Do(w, steps[0]), floor, steps[1..]);
    }
  }

  /** The cache has no hole between the floor and the newest message in sequence. */
  ghost predicate Whole(w: World, floor: int)
    requires w.sequenced != {}
  {
    forall m | m in w.log && floor < m <= Newest(w.sequenced) :: m in w.sequenced
  }

  /** A launch: nothing owed, nothing connected. */
  ghost predicate Launch(w: World) {
    Shape(w) && w.pending.None? && !w.due && !w.registered && !w.listening && w.pass.Idle?
  }

  /** In every orderly run from a launch whose cache is whole, whenever nothing is owed this device holds every message above where it began. */
  lemma EveryMessageArrives(w: World, floor: int, steps: seq<Step>)
    requires Launch(w) && Whole(w, floor) && Ascending(w.log) && w.published <= w.log
    requires Runs(w, steps) && OrderlyRun(w, steps) && Settled(After(w, steps))
    ensures HoldsAll(After(w, steps), floor)
  {
    forall m | m in w.log && m > floor && m !in w.sequenced
      ensures Covered(w, m)
    {
      assert Newest(w.sequenced) < m;
      assert Ahead(w, m);
    }
    RunKeeps(w, floor, steps);
    var w' := After(w, steps);
    assert w'.published[w'.head..] == [];
    forall m | m in w'.log && m > floor
      ensures m in w'.sequenced
    {
      assert m !in w'.sequenced ==> Covered(w', m);
    }
  }
}
