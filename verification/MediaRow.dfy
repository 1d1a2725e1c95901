/**
 * The queued message and its items as the rows they are: fields updated in place, each method held to the step
 * it is in MediaOutbox (ios/FamilyConnect/Core/ChatSyncCoordinator.swift).
 */
module MediaRow {
  import opened Wrappers
  import opened MediaOutbox

  class Row {
    var status: Status
    var count: int
    var listed: Listed
    var items: seq<Item>
    var leg: Leg
    var delivering: bool
    var carrying: set<nat>
    var owed: set<nat>
    var posts: seq<Listed>
    ghost var doubles: nat

    ghost function View(): World
      reads this
    {
      World(status, count, listed, items, leg, delivering, carrying, owed, posts, doubles)
    }

    /** A row just enqueued, nothing about it saved but its body. */
    constructor ()
      ensures View() == Armed(0)
    {
      status, count, listed, items := Pending, 0, Cleared, [];
      leg, delivering, carrying, owed, posts, doubles := NoLeg, false, {}, {}, [], 0;
    }

    /** Of the prepared attachments those whose bytes could be adopted become items, in the order given; with none the row is taken back. */
    method SendMedia(adopted: seq<bool>) returns (kept: bool)
      requires View() == Armed(0) && adopted != []
      modifies this
      ensures kept <==> true in adopted
      ensures kept ==> View() == Queued(Staged(adopted)) && 0 < Staged(adopted) <= |adopted|
    {
      count := |adopted|;
      var staged := 0;
      var i := 0;
      while i < |adopted|
        invariant 0 <= i <= |adopted| && staged == Staged(adopted[..i]) && staged <= i
        invariant items == Queued(staged).items
        invariant staged > 0 <==> true in adopted[..i]
        invariant View() == Armed(0).(count := |adopted|, items := items)
      {
        assert adopted[..i + 1] == adopted[..i] + [adopted[i]];
        assert adopted[..i + 1][..i] == adopted[..i];
        if adopted[i] {
          items := items + [Item(None, true)];
          staged := staged + 1;
        }
        i := i + 1;
      }
      assert adopted[..i] == adopted;
      if staged == 0 {
        return false;
      }
      count := staged;
      listed := Placeholders;
      leg := Asking;
      return true;
    }

    /** An upload the system finished: the same answer twice is the same as once. */
    method RecordBackgroundUpload(at: nat, id: int)
      modifies `items, `count, `carrying
      ensures View() == Landed(old(View()), at, id)
    {
      carrying := carrying - {at};
      if at < |items| && items[at].id.None? {
        items := items[at := items[at].(id := Some(id))];
        count := count - 1;
      }
    }

    /** The leg's own upload came back. */
    method FinishUpload(id: int)
      requires leg.Uploading?
      modifies `items, `count, `leg, `doubles
      ensures View() == Do(old(View()), UploadOk(id))
    {
      var at := leg.at;
      if at < |items| {
        doubles := doubles + if items[at].id.Some? then 1 else 0;
        items := items[at := items[at].(id := Some(id))];
      }
      count := count - 1;
      leg := Previewing(at, leg.handed);
    }

    method RecordSendFailure(outcome: Outcome)
      modifies `items, `listed, `count, `status, `doubles
      ensures View() == AfterFailure(old(View()), outcome)
    {
      if status == Sent || outcome == Unauthorized {
        return;
      }
      if outcome == Expired && items != [] && forall i | 0 <= i < |items| :: items[i].file {
        var i := 0;
        while i < |items|
          invariant 0 <= i <= |items| && |items| == |old(items)|
          invariant forall k | 0 <= k < |items| :: items[k] == if k < i then old(items)[k].(id := None) else old(items)[k]
        {
          items := items[i := items[i].(id := None)];
          i := i + 1;
        }
        assert items == Emptied(old(items));
        listed := Cleared;
        count := |items|;
        doubles := 0;
        status := Pending;
        return;
      }
      status := if outcome == Transient then Pending else Failed;
    }

    method DeliverIt()
      modifies `status, `delivering, `posts
      ensures View() == Deliver(old(View()))
    {
      if delivering || leg != NoLeg || status == Sent || count != 0 {
        return;
      }
      status := Pending;
      delivering := true;
      posts := posts + [listed];
    }

    method UploadAndDeliver(slotFree: bool)
      modifies `status, `leg
      ensures View() == StartLeg(old(View()), slotFree)
    {
      if leg == NoLeg && !delivering && slotFree && status != Sent {
        status := Pending;
        leg := Asking;
      }
    }

    method SweepOutbox(slotFree: bool)
      requires status == Pending
      modifies `status, `leg, `delivering, `posts
      ensures View() == Do(old(View()), Sweep(slotFree))
    {
      if count > 0 {
        UploadAndDeliver(slotFree);
      } else {
        DeliverIt();
      }
    }

    method RetryIt(slotFree: bool)
      requires status == Failed
      modifies `status, `leg, `delivering, `posts
      ensures View() == Do(old(View()), Retry(slotFree))
    {
      status := Pending;
      SweepOutbox(slotFree);
    }

    /** The loop over the items, up to the next one it must wait for. */
    method GoOn(handed: set<nat>, from: nat)
      modifies this
      ensures View() == Advance(old(View()), handed, from)
    {
      var at := from;
      while at < |items| && (items[at].id.Some? || at in handed)
        invariant NextOwed(items, handed, at) == NextOwed(items, handed, from)
        decreases |items| - at
      {
        at := at + 1;
      }
      if at >= |items| {
        leg := Closing;
      } else if items[at].file {
        leg := Uploading(at, handed);
      } else {
        RecordSendFailure(Terminal);
        leg := Closing;
      }
    }

    /** The end of the leg: everything landed, so the set is written onto the row and delivered. */
    method WindUp()
      requires leg == Closing
      modifies this
      ensures View() == Do(old(View()), Close)
    {
      leg := NoLeg;
      if status != Sent && AllUp(items) {
        listed := Ids(IdsOf(items));
        count := 0;
        doubles := 0;
        DeliverIt();
      }
    }

    /** The message landed, in an answer, an ack or an echo. */
    method Landing()
      modifies this
      ensures View() == Released(old(View()))
    {
      status := Sent;
      count := 0;
      items := [];
      doubles := 0;
    }
  }

  /** How many of the prepared attachments could be staged. */
  function Staged(adopted: seq<bool>): nat
    decreases |adopted|
  {
    if adopted == [] then 0
    else Staged(adopted[..|adopted| - 1]) + if adopted[|adopted| - 1] then 1 else 0
  }
}
