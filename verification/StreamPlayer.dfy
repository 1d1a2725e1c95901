/**
 * One load slot and one player under interleaved starts, stops and resuming loads
 * (ios/FamilyConnect/Core/AttachmentStreamPlayer.swift). A load suspends once; what it does after is one step.
 */
module StreamPlayer {
  import opened Wrappers

  /**
   * The fields, the loads suspended (by number, and whether each is cancelled), and what has happened to
   * players: built, handed back to a caller, and sounding.
   */
  datatype World = World(
    player: Option<nat>, slot: Option<nat>, loads: map<nat, bool>, begun: nat,
    built: seq<nat>, returned: seq<nat>, sounding: set<nat>)

  datatype Step = Start | Stop | Resume(load: nat, stream: bool)

  function Made(): World {
    World(None, None, map[], 0, [], [], {})
  }

  predicate Enabled(w: World, step: Step) {
    step.Resume? ==> step.load in w.loads
  }

  function Started(w: World): World {
    if w.player.Some? || w.slot.Some? then w
    else w.(slot := Some(w.begun), loads := w.loads[w.begun := false], begun := w.begun + 1)
  }

  function Stopped(w: World): World {
    var v := w.(slot := None,
      loads := if w.slot.Some? && w.slot.value in w.loads then w.loads[w.slot.value := true] else w.loads);
    match w.player
    case None => v
    case Some(p) => v.(player := None, returned := w.returned + [p], sounding := w.sounding - {p})
  }

  function Without(loads: map<nat, bool>, load: nat): map<nat, bool> {
    map k | k in loads && k != load :: loads[k]
  }

  function Resumed(w: World, load: nat, stream: bool): World
    requires load in w.loads
  {
    var v := w.(loads := Without(w.loads, load));
    if w.loads[load] then v
    else
      var free := v.(slot := None);
      if !stream || w.player.Some? then free
      else free.(player := Some(|w.built|), built := w.built + [|w.built|], sounding := w.sounding + {|w.built|})
  }

  function Do(w: World, step: Step): World
    requires Enabled(w, step)
  {
    match step
    case Start => Started(w)
    case Stop => Stopped(w)
    case Resume(load, stream) => Resumed(w, load, stream)
  }

  /** The loads that can still build a player. */
  ghost predicate Live(w: World, load: nat) {
    load in w.loads && !w.loads[load]
  }

  ghost predicate Inv(w: World) {
    && (forall k | k in w.loads :: k < w.begun)
    && (forall k: nat :: Live(w, k) <==> w.slot == Some(k))
    && (w.slot.Some? ==> w.player.None?)
    && (forall i | 0 <= i < |w.built| :: w.built[i] == i)
    && w.built == w.returned + (if w.player.Some? then [w.player.value] else [])
    && w.sounding == (if w.player.Some? then {w.player.value} else {})
  }

  lemma StepKeeps(w: World, step: Step)
    requires Inv(w) && Enabled(w, step)
    ensures Inv(Do(w, step))
  {
    var v := Do(w, step);
    assert w.begun !in w.loads;
    forall k: nat
      ensures Live(v, k) <==> v.slot == Some(k)
    {
      assert Live(w, k) <==> w.slot == Some(k);
      if step.Resume? {
        assert Live(w, step.load) <==> w.slot == Some(step.load);
      }
      if w.slot.Some? {
        assert Live(w, w.slot.value);
      }
    }
    if step.Resume? {
      assert Live(w, step.load) <==> w.slot == Some(step.load);
    }
    assert w.returned + [] == w.returned;
    assert v.returned + [] == v.returned;
  }

  ghost predicate Runs(w: World, steps: seq<Step>)
    decreases |steps|
  {
    steps == [] || (Enabled(w, steps[0]) && Runs(Do(w, steps[0]), steps[1..]))
  }

  ghost function After(w: World, steps: seq<Step>): World
    requires Runs(w, steps)
    decreases |steps|
  {
    if steps == [] then w else After(Do(w, steps[0]), steps[1..])
  }

  lemma {:induction false} RunKeeps(w: World, steps: seq<Step>)
    requires Inv(w) && Runs(w, steps)
    ensures Inv(After(w, steps))
    decreases |steps|
  {
    if steps != [] {
      StepKeeps(w, steps[0]);
      RunKeeps(Do(w, steps[0]), steps[1..]);
    }
  }

  /**
   * IN EVERY RUN at most one load can still build a player, and it holds the slot; there is at most one player,
   * nothing else sounds, and every player built was handed back, once and in order, but the one held.
   */
  lemma OneLoadOnePlayer(steps: seq<Step>)
    requires Runs(Made(), steps)
    ensures var w := After(Made(), steps);
      && (forall j: nat, k: nat :: Live(w, j) && Live(w, k) ==> j == k)
      && (forall k: nat :: Live(w, k) ==> w.slot == Some(k) && w.player.None?)
      && w.built == w.returned + (if w.player.Some? then [w.player.value] else [])
      && (forall i, j | 0 <= i < j < |w.built| :: w.built[i] != w.built[j])
      && w.sounding == (if w.player.Some? then {w.player.value} else {})
  {
    RunKeeps(Made(), steps);
  }

  /** A load stopped before it resumes builds nothing and frees no newer load's slot; a live one always frees its own, and builds exactly when it has a stream. */
  lemma ResumeExactly(w: World, load: nat, stream: bool)
    requires Inv(w) && load in w.loads
    ensures var v := Do(w, Resume(load, stream));
      && (!Live(w, load) ==> v == w.(loads := v.loads) && (v.slot.Some? ==> v.slot.value in v.loads))
      && (Live(w, load) ==> v.slot.None? && (v.player.Some? <==> stream) && |v.built| == |w.built| + if stream then 1 else 0)
  {
    assert Live(w, load) <==> w.slot == Some(load);
    if w.slot.Some? {
      assert Live(w, w.slot.value);
    }
  }

  /** The loader as it is: a player and a slot, set and cleared by start, stop and a resuming load. */
  class Loader {
    var player: Option<nat>
    var slot: Option<nat>
    var loads: map<nat, bool>
    var built: seq<nat>
    var returned: seq<nat>
    var sounding: set<nat>
    var count: nat

    ghost function View(): World
      reads this
    {
      World(player, slot, loads, count, built, returned, sounding)
    }

    constructor ()
      ensures View() == Made()
    {
      player, slot, loads, count, built, returned, sounding := None, None, map[], 0, [], [], {};
    }

    method StartLoad()
      modifies this
      ensures View() == Started(old(View()))
    {
      if player.Some? || slot.Some? {
        return;
      }
      slot := Some(count);
      loads := loads[count := false];
      count := count + 1;
    }

    method StopLoad()
      modifies this
      ensures View() == Stopped(old(View()))
    {
      if slot.Some? && slot.value in loads {
        loads := loads[slot.value := true];
      }
      slot := None;
      if player.Some? {
        returned := returned + [player.value];
        sounding := sounding - {player.value};
      }
      player := None;
    }

    method ResumeLoad(load: nat, stream: bool)
      requires load in loads
      modifies this
      ensures View() == Resumed(old(View()), load, stream)
    {
      var cancelled := loads[load];
      loads := Without(loads, load);
      if cancelled {
        return;
      }
      slot := None;
      if !stream || player.Some? {
        return;
      }
      var created := |built|;
      built := built + [created];
      player := Some(created);
      sounding := sounding + {created};
    }
  }
}
