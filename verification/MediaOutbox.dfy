/**
 * One queued media message between two uploaders — the app's own leg and the system's — its delivery leg, and
 * what a crash leaves behind (ios/FamilyConnect/Core/ChatSyncCoordinator.swift, BackgroundUploads.swift).
 * Everything between two awaits is one step.
 */
module MediaOutbox {
  import opened Wrappers

  /** One staged attachment: its server id once uploaded, and whether its bytes are still on disk. */
  datatype Item = Item(id: Option<int>, file: bool)

  datatype Status = Pending | Failed | Sent

  /** What the message row lists as its attachments: placeholders drawn from the device, nothing, or server ids. */
  datatype Listed = Placeholders | Cleared | Ids(ids: seq<int>)

  /** The upload leg: asking what the system carries, one item's bytes or preview on their way, or winding up. */
  datatype Leg =
    | NoLeg
    | Asking
    | Uploading(at: nat, handed: set<nat>)
    | Previewing(at: nat, handed: set<nat>)
    | Closing

  datatype Outcome = Expired | Transient | Terminal | Unauthorized

  /**
   * `count` is the row's own count of attachments still owed; `carrying` what the system uploads, `owed` what it
   * is about to be handed; `posts` every list a message was posted with; `doubles` how often the count was taken
   * down for an item that already had an id.
   */
  datatype World = World(
    status: Status, count: int, listed: Listed, items: seq<Item>, leg: Leg, delivering: bool,
    carrying: set<nat>, owed: set<nat>, posts: seq<Listed>, doubles: nat)

  datatype Step =
    | Sweep(slotFree: bool)
    | Retry(slotFree: bool)
    | HearCarried
    | UploadOk(id: int)
    | UploadFail(outcome: Outcome)
    | PreviewDone
    | Close
    | Delivered
    | DeliverFail(outcome: Outcome)
    | Echo
    | Background
    | HandOver
    | Land(at: nat, id: int)
    | Dropped(at: nat)
    | LoseFile(at: nat)
    | Relaunch

  // ---- the rows --------------------------------------------------------------------------------

  function Missing(items: seq<Item>): nat
    decreases |items|
  {
    if items == [] then 0
    else Missing(items[..|items| - 1]) + if items[|items| - 1].id.None? then 1 else 0
  }

  predicate AllUp(items: seq<Item>) {
    forall i | 0 <= i < |items| :: items[i].id.Some?
  }

  /** The uploaded ids, in the sender's order. */
  function IdsOf(items: seq<Item>): (ids: seq<int>)
    requires AllUp(items)
    ensures |ids| == |items|
  {
    seq(|items|, i requires 0 <= i < |items| => items[i].id.value)
  }

  function Emptied(items: seq<Item>): (r: seq<Item>)
    ensures |r| == |items|
  {
    seq(|items|, i requires 0 <= i < |items| => items[i].(id := None))
  }

  /** What a failed send or upload does to the row. */
  function AfterFailure(w: World, outcome: Outcome): World {
    if w.status == Sent || outcome == Unauthorized then w
    else if outcome == Expired && w.items != [] && forall i | 0 <= i < |w.items| :: w.items[i].file then
      w.(items := Emptied(w.items), listed := Cleared, count := |w.items|, doubles := 0, status := Pending)
    else if outcome == Transient then w.(status := Pending)
    else w.(status := Failed)
  }

  /** The next item the upload loop stops at: one with no id that the system was not carrying when the leg began. */
  function NextOwed(items: seq<Item>, handed: set<nat>, from: nat): nat
    decreases |items| - from
  {
    if from >= |items| then from
    else if items[from].id.None? && from !in handed then from
    else NextOwed(items, handed, from + 1)
  }

  /** The loop goes on from an item: to the next upload, or past the last, or to the first whose bytes are gone. */
  function Advance(w: World, handed: set<nat>, from: nat): World {
    var at := NextOwed(w.items, handed, from);
    if at >= |w.items| then w.(leg := Closing)
    else if w.items[at].file then w.(leg := Uploading(at, handed))
    else AfterFailure(w, Terminal).(leg := Closing)
  }

  predicate Free(w: World) {
    w.leg == NoLeg && !w.delivering
  }

  /** deliver(localID:): posts only at a count of zero, and posts whatever the row lists. */
  function Deliver(w: World): World {
    if w.delivering || w.leg != NoLeg || w.status == Sent || w.count != 0 then w
    else w.(status := Pending, delivering := true, posts := w.posts + [w.listed])
  }

  /** uploadAndDeliver(localID:), up to its first await. */
  function StartLeg(w: World, slotFree: bool): World {
    if !Free(w) || !slotFree || w.status == Sent then w else w.(status := Pending, leg := Asking)
  }

  function Routed(w: World, slotFree: bool): World {
    if w.count > 0 then StartLeg(w, slotFree) else Deliver(w)
  }

  /** The message landed: the row is sent, and its items and their files are released. */
  function Released(w: World): World {
    w.(status := Sent, count := 0, items := [], doubles := 0)
  }

  function Landed(w: World, at: nat, id: int): World {
    var v := w.(carrying := w.carrying - {at});
    if at < |w.items| && w.items[at].id.None? then
      v.(items := w.items[at := w.items[at].(id := Some(id))], count := w.count - 1)
    else v
  }

  /** The leg's own upload came back: the id is written and the count taken down, whatever happened meanwhile. */
  function Uploaded(w: World, at: nat, id: int): World {
    if at < |w.items| then
      w.(items := w.items[at := w.items[at].(id := Some(id))], count := w.count - 1,
         doubles := w.doubles + if w.items[at].id.Some? then 1 else 0)
    else w.(count := w.count - 1)
  }

  /** Everything landed: the set is written onto the row and handed to delivery in the same step. */
  function Closed(w: World): World {
    var v := w.(leg := NoLeg);
    if w.status != Sent && AllUp(w.items) then
      Deliver(v.(listed := Ids(IdsOf(w.items)), count := 0, doubles := 0))
    else v
  }

  predicate Enabled(w: World, step: Step) {
    match step
    case Sweep(_) => w.status == Pending
    case Retry(_) => w.status == Failed
    case HearCarried => w.leg == Asking
    case UploadOk(_) => w.leg.Uploading?
    case UploadFail(outcome) => w.leg.Uploading? && outcome != Expired
    case PreviewDone => w.leg.Previewing?
    case Close => w.leg == Closing
    case Delivered => w.delivering
    case DeliverFail(_) => w.delivering
    case Echo => w.posts != []
    case Land(at, _) => at in w.carrying
    case Dropped(at) => at in w.carrying
    case LoseFile(at) => at < |w.items|
    case _ => true
  }

  function Do(w: World, step: Step): World
    requires Enabled(w, step)
  {
    match step
    case Sweep(slotFree) => Routed(w, slotFree)
    case Retry(slotFree) => Routed(w.(status := Pending), slotFree)
    case HearCarried => Advance(w, w.carrying, 0)
    case UploadOk(id) => Uploaded(w, w.leg.at, id).(leg := Previewing(w.leg.at, w.leg.handed))
    case UploadFail(outcome) => AfterFailure(w, outcome).(leg := Closing)
    case PreviewDone => Advance(w, w.leg.handed, w.leg.at + 1)
    case Close => Closed(w)
    case Delivered => Released(w).(delivering := false)
    case DeliverFail(outcome) => AfterFailure(w, outcome).(delivering := false)
    case Echo => Released(w)
    case Background => w.(owed := set i | 0 <= i < |w.items| && w.items[i].id.None? && w.items[i].file)
    case HandOver => w.(carrying := w.carrying + w.owed, owed := {})
    case Land(at, id) => Landed(w, at, id)
    case Dropped(at) => w.(carrying := w.carrying - {at})
    case LoseFile(at) => w.(items := w.items[at := w.items[at].(file := false)])
    case Relaunch => w.(leg := NoLeg, delivering := false, owed := {})
  }

  /** A send of n attachments as sendMedia leaves it: rows and bytes in place, the count armed, the leg begun. */
  function Queued(n: nat): World {
    World(Pending, n, Placeholders, seq(n, i requires 0 <= i < n => Item(None, true)), Asking, false, {}, {}, [], 0)
  }

  /** A send whose count was armed and saved, before any item row was. */
  function Armed(n: nat): World {
    World(Pending, n, Cleared, [], NoLeg, false, {}, {}, [], 0)
  }

  ghost predicate Runs(w: World, steps: seq<Step>)
    decreases |steps|
  {
    steps == [] || (Enabled(w, steps[0]) && Runs(Do(w, steps[0]), steps[1..]))
  }

  ghost function After(w: World, steps: seq<Step>): World
    requires Runs(w, steps)
    decreases |steps|
  {
    if steps == [] then w else After(Do(w, steps[0]), steps[1..])
  }
}
