/**
 * What holds of every run of a queued media message: its count, what is posted, and the runs that post a wrong claim.
 */
module OutboxLaws {
  import opened Wrappers
  import opened MediaOutbox

  // ---- counting --------------------------------------------------------------------------------

  lemma {:induction false} NoneMissing(items: seq<Item>)
    ensures Missing(items) == 0 <==> AllUp(items)
    ensures Missing(items) <= |items|
    ensures (forall i | 0 <= i < |items| :: items[i].id.None?) ==> Missing(items) == |items|
    decreases |items|
  {
    if items != [] {
      var rest := items[..|items| - 1];
      NoneMissing(rest);
      assert forall i | 0 <= i < |rest| :: rest[i] == items[i];
    }
  }

  lemma {:induction false} MissingAfter(items: seq<Item>, at: nat, item: Item)
    requires at < |items|
    ensures Missing(items[at := item]) ==
      Missing(items) + (if item.id.None? then 1 else 0) - (if items[at].id.None? then 1 else 0)
    decreases |items|
  {
    var n := |items| - 1;
    if at == n {
      assert items[at := item][..n] == items[..n];
    } else {
      MissingAfter(items[..n], at, item);
      assert items[at := item][..n] == items[..n][at := item];
    }
  }

  /** What every state keeps: the count is the items without an id, less one for every id written over. */
  ghost predicate Inv(w: World) {
    && (w.status != Sent ==> w.count == Missing(w.items) - w.doubles)
    && (w.status == Sent ==> w.items == [])
    && (w.listed.Ids? && w.status != Sent ==>
          AllUp(w.items) && w.listed.ids == IdsOf(w.items) && w.leg == NoLeg && w.count == 0)
    && (w.delivering ==> w.leg == NoLeg)
    && (w.leg.Uploading? && w.status != Sent ==> w.leg.at < |w.items|)
  }

  lemma UploadsKeep(w: World, step: Step)
    requires Inv(w) && Enabled(w, step) && (step.UploadOk? || step.Land? || step.LoseFile?)
    ensures Inv(Do(w, step))
  {
    NoneMissing(w.items);
    match step {
      case UploadOk(id) =>
        if w.leg.at < |w.items| { MissingAfter(w.items, w.leg.at, w.items[w.leg.at].(id := Some(id))); }
      case Land(at, id) =>
        if at < |w.items| { MissingAfter(w.items, at, w.items[at].(id := Some(id))); }
      case LoseFile(at) =>
        MissingAfter(w.items, at, w.items[at].(file := false));
        NoneMissing(w.items[at := w.items[at].(file := false)]);
        if AllUp(w.items) { assert IdsOf(w.items[at := w.items[at].(file := false)]) == IdsOf(w.items); }
    }
  }

  lemma FailureKeeps(w: World, outcome: Outcome, leg: Leg)
    requires Inv(w) && (leg == NoLeg || leg == Closing) && (w.listed.Ids? && w.status != Sent ==> leg == NoLeg)
    ensures Inv(AfterFailure(w, outcome).(leg := leg, delivering := false))
  {
    NoneMissing(w.items);
    NoneMissing(Emptied(w.items));
  }

  lemma AdvanceKeeps(w: World, handed: set<nat>, from: nat)
    requires Inv(w) && w.leg != NoLeg
    ensures Inv(Advance(w, handed, from))
  {
    FailureKeeps(w, Terminal, Closing);
  }

  lemma ClosedKeeps(w: World)
    requires Inv(w) && w.leg == Closing
    ensures Inv(Closed(w))
  {
    NoneMissing(w.items);
  }

  lemma StepKeeps(w: World, step: Step)
    requires Inv(w) && Enabled(w, step)
    ensures Inv(Do(w, step))
  {
    if step.UploadOk? || step.Land? || step.LoseFile? {
      UploadsKeep(w, step);
    } else if step.UploadFail? {
      FailureKeeps(w, step.outcome, Closing);
    } else if step.DeliverFail? {
      FailureKeeps(w, step.outcome, NoLeg);
    } else if step.HearCarried? {
      AdvanceKeeps(w, w.carrying, 0);
    } else if step.PreviewDone? {
      AdvanceKeeps(w, w.leg.handed, w.leg.at + 1);
    } else if step.Close? {
      ClosedKeeps(w);
    }
  }

  lemma {:induction false} RunKeeps(w: World, steps: seq<Step>)
    requires Inv(w) && Runs(w, steps)
    ensures Inv(After(w, steps))
    decreases |steps|
  {
    if steps != [] {
      StepKeeps(w, steps[0]);
      RunKeeps(Do(w, steps[0]), steps[1..]);
    }
  }

  lemma QueuedIsGood(n: nat)
    ensures Inv(Queued(n))
  {
    NoneMissing(Queued(n).items);
  }

  /** THE COUNT, in every run: the items still without an id, less one for each id the leg wrote over one the system had already landed; and a sent message holds no item and no file. */
  lemma CountExactly(n: nat, steps: seq<Step>)
    requires Runs(Queued(n), steps)
    ensures var w := After(Queued(n), steps);
      if w.status == Sent then w.items == [] else w.count == Missing(w.items) - w.doubles
  {
    QueuedIsGood(n);
    RunKeeps(Queued(n), steps);
  }

  // ---- what is posted --------------------------------------------------------------------------

  /** A post claims every attachment of the message, in the order it was composed. */
  ghost predicate Whole(w: World, posted: Listed) {
    AllUp(w.items) && posted == Ids(IdsOf(w.items))
  }

  /** A sweep or a retry that delivers before the set has been written onto the row: routed by the count alone. */
  predicate Premature(w: World, step: Step) {
    && (step.Sweep? || step.Retry?)
    && w.status == (if step.Sweep? then Pending else Failed)
    && Free(w) && w.count == 0 && !w.listed.Ids?
  }

  /** EXACTLY WHEN a step posts the wrong claim: every other post carries all the message's ids in the composed order. */
  lemma PostExactly(w: World, step: Step)
    requires Inv(w) && Enabled(w, step)
    ensures var v := Do(w, step);
      && (v.posts == w.posts || (v.posts == w.posts + [v.listed] && v.items == w.items))
      && (v.posts != w.posts ==> (Whole(v, v.listed) <==> !Premature(w, step)))
      && (Premature(w, step) ==> v.posts == w.posts + [w.listed] && !w.listed.Ids?)
  {
    NoneMissing(w.items);
    StepKeeps(w, step);
  }

  /** A post of a run, beside the ids the items held as it was made. */
  datatype Post = Post(claim: Listed, held: seq<Option<int>>)

  function HeldIds(items: seq<Item>): seq<Option<int>> {
    seq(|items|, i requires 0 <= i < |items| => items[i].id)
  }

  ghost function Posted(w: World, steps: seq<Step>): seq<Post>
    requires Runs(w, steps)
    decreases |steps|
  {
    if steps == [] then []
    else
      var v := Do(w, steps[0]);
      (if |v.posts| > |w.posts| then [Post(v.posts[|v.posts| - 1], HeldIds(v.items))] else []) + Posted(v, steps[1..])
  }

  function Claims(posts: seq<Post>): seq<Listed> {
    if posts == [] then [] else [posts[0].claim] + Claims(posts[1..])
  }

  /** It claims the ids of all n items as they then were, each item's own in its own place, and nothing else. */
  predicate ClaimsAll(n: nat, p: Post) {
    && p.claim.Ids? && |p.claim.ids| == n == |p.held|
    && forall i | 0 <= i < n :: p.held[i] == Some(p.claim.ids[i])
  }

  ghost predicate AllClaimAll(n: nat, posts: seq<Post>) {
    forall p | p in posts :: ClaimsAll(n, p)
  }

  ghost predicate Hurries(w: World, steps: seq<Step>)
    requires Runs(w, steps)
    decreases |steps|
  {
    steps != [] && (Premature(w, steps[0]) || Hurries(Do(w, steps[0]), steps[1..]))
  }

  ghost predicate OfN(w: World, n: nat) {
    w.status != Sent ==> |w.items| == n
  }

  lemma StepOfN(w: World, n: nat, step: Step)
    requires Inv(w) && Enabled(w, step) && OfN(w, n)
    ensures OfN(Do(w, step), n)
  {
  }

  /** What one step adds to the posts claims all the ids then held, or was premature. */
  lemma StepPosts(w: World, n: nat, step: Step)
    requires Inv(w) && Enabled(w, step) && OfN(w, n)
    ensures var v := Do(w, step);
      && (v.posts == w.posts || v.posts == w.posts + [v.listed])
      && (Premature(w, step) ==> v.posts != w.posts)
      && (v.posts != w.posts ==> (ClaimsAll(n, Post(v.listed, HeldIds(v.items))) <==> !Premature(w, step)))
  {
    var v := Do(w, step);
    PostExactly(w, step);
    StepOfN(w, n, step);
    if v.posts != w.posts {
      assert v.status != Sent;
      if Whole(v, v.listed) {
        assert forall i | 0 <= i < n :: HeldIds(v.items)[i] == Some(v.listed.ids[i]);
      }
    }
  }

  /** The posts of a run are what its worlds say was posted. */
  lemma {:induction false} PostedAreThePosts(w: World, n: nat, steps: seq<Step>)
    requires Inv(w) && Runs(w, steps) && OfN(w, n)
    ensures After(w, steps).posts == w.posts + Claims(Posted(w, steps))
    decreases |steps|
  {
    if steps != [] {
      var v := Do(w, steps[0]);
      StepKeeps(w, steps[0]);
      StepOfN(w, n, steps[0]);
      StepPosts(w, n, steps[0]);
      PostedAreThePosts(v, n, steps[1..]);
      var rest := Posted(v, steps[1..]);
      if |v.posts| > |w.posts| {
        ClaimsCons(w.posts, Post(v.listed, HeldIds(v.items)), rest);
      } else {
        assert [] + rest == rest;
      }
    }
  }

  lemma ClaimsCons(before: seq<Listed>, p: Post, rest: seq<Post>)
    ensures before + Claims([p] + rest) == before + [p.claim] + Claims(rest)
  {
    assert ([p] + rest)[1..] == rest;
  }

  lemma {:induction false} PostsRun(w: World, n: nat, steps: seq<Step>)
    requires Inv(w) && Runs(w, steps) && OfN(w, n)
    ensures AllClaimAll(n, Posted(w, steps)) <==> !Hurries(w, steps)
    decreases |steps|
  {
    if steps != [] {
      var v := Do(w, steps[0]);
      StepKeeps(w, steps[0]);
      StepOfN(w, n, steps[0]);
      StepPosts(w, n, steps[0]);
      PostsRun(v, n, steps[1..]);
      var all, rest := Posted(w, steps), Posted(v, steps[1..]);
      if v.posts != w.posts {
        assert all == [Post(v.listed, HeldIds(v.items))] + rest;
        assert all[0] == Post(v.listed, HeldIds(v.items));
      } else {
        assert all == rest;
      }
      assert forall p :: p in all <==> p in rest || (v.posts != w.posts && p == Post(v.listed, HeldIds(v.items)));
    }
  }

  /** EVERY POST CLAIMS ALL n IDS the items hold, each in its place, exactly in the runs where no sweep or retry delivers ahead of the set. */
  lemma EveryPostIsWholeExactly(n: nat, steps: seq<Step>)
    requires Runs(Queued(n), steps)
    ensures AllClaimAll(n, Posted(Queued(n), steps)) <==> !Hurries(Queued(n), steps)
    ensures After(Queued(n), steps).posts == Claims(Posted(Queued(n), steps))
  {
    QueuedIsGood(n);
    PostsRun(Queued(n), n, steps);
    PostedAreThePosts(Queued(n), n, steps);
    assert [] + Claims(Posted(Queued(n), steps)) == Claims(Posted(Queued(n), steps));
  }

  // ---- the app's own leg -----------------------------------------------------------------------

  lemma {:induction false} NextIsOwed(items: seq<Item>, handed: set<nat>, from: nat)
    ensures var at := NextOwed(items, handed, from);
      && at >= from && (at < |items| ==> items[at].id.None? && at !in handed)
      && forall k | from <= k < at && k < |items| :: items[k].id.Some? || k in handed
    decreases |items| - from
  {
    if from < |items| && !(items[from].id.None? && from !in handed) {
      NextIsOwed(items, handed, from + 1);
    }
  }

  /** A landed id is not uploaded again: the leg begins an upload only for an item without one, whose bytes are there and which the system was not carrying when the leg began. */
  lemma LegUploadsOnlyWhatIsOwed(w: World, step: Step)
    requires Inv(w) && Enabled(w, step) && Do(w, step).leg.Uploading? && !w.leg.Uploading?
    ensures var v := Do(w, step); var at := v.leg.at;
      at < |v.items| && v.items == w.items && v.items[at].id.None? && v.items[at].file && at !in v.leg.handed
  {
    NextIsOwed(w.items, w.carrying, 0);
    if w.leg.Previewing? {
      NextIsOwed(w.items, w.leg.handed, w.leg.at + 1);
    }
  }

  // ---- what the system is handed ---------------------------------------------------------------

  /** One item lands in a step, from either uploader. */
  predicate Lands(w: World, step: Step, i: nat) {
    (step.UploadOk? && w.leg.Uploading? && w.leg.at == i) || (step.Land? && step.at == i)
  }

  /** The set expires in a step: every id is taken back. */
  predicate Expires(w: World, step: Step) {
    && step.DeliverFail? && step.outcome == Expired && w.status != Sent
    && w.items != [] && forall k | 0 <= k < |w.items| :: w.items[k].file
  }

  /** The last that happened to an item in a run, of landing and expiring, was landing. */
  ghost predicate LandedLast(w: World, steps: seq<Step>, i: nat, before: bool)
    requires Runs(w, steps)
    decreases |steps|
  {
    if steps == [] then before
    else LandedLast(Do(w, steps[0]), steps[1..], i, (before || Lands(w, steps[0], i)) && !Expires(w, steps[0]))
  }

  /** Between the app going to the background and the requests being handed over. */
  ghost predicate OnTheWay(steps: seq<Step>) {
    forall k | 0 <= k < |steps| :: !steps[k].Background? && !steps[k].HandOver? && !steps[k].Relaunch?
  }

  lemma StepLands(w: World, step: Step, i: nat)
    requires Enabled(w, step) && i < |Do(w, step).items|
    requires !step.Background? && !step.HandOver? && !step.Relaunch?
    ensures i < |w.items| && Do(w, step).owed == w.owed
    ensures Do(w, step).items[i].id.Some? <==> (w.items[i].id.Some? || Lands(w, step, i)) && !Expires(w, step)
  {
  }

  lemma {:induction false} LandedMeanwhile(w: World, steps: seq<Step>, i: nat)
    requires Runs(w, steps) && OnTheWay(steps) && i < |After(w, steps).items|
    ensures i < |w.items| && After(w, steps).owed == w.owed
    ensures After(w, steps).items[i].id.Some? <==> LandedLast(w, steps, i, w.items[i].id.Some?)
    decreases |steps|
  {
    if steps != [] {
      assert forall k | 0 <= k < |steps[1..]| :: steps[1..][k] == steps[k + 1];
      LandedMeanwhile(Do(w, steps[0]), steps[1..], i);
      StepLands(w, steps[0], i);
    }
  }

  /** EXACTLY WHEN A LANDED ID IS UPLOADED AGAIN BY THE SYSTEM: what was owed when the app went to the background is handed over however it has fared since, so an item goes up a second time exactly if it landed, and did not expire, on the way. */
  lemma HandsOverTheLandedExactly(w: World, steps: seq<Step>, i: nat)
    requires Runs(Do(w, Background), steps) && OnTheWay(steps)
    requires i in Do(w, Background).owed && i < |After(Do(w, Background), steps).items|
    ensures var u := After(Do(w, Background), steps);
      && i in Do(u, HandOver).carrying
      && (u.items[i].id.Some? <==> LandedLast(Do(w, Background), steps, i, false))
  {
    LandedMeanwhile(Do(w, Background), steps, i);
  }

  /** What the second upload brings back is let go: the item keeps the id it has, and the count stands. */
  lemma SecondLandingIsLetGo(w: World, i: nat, again: int)
    requires i in w.carrying && i < |w.items| && w.items[i].id.Some?
    ensures Do(w, Land(i, again)) == w.(carrying := w.carrying - {i})
  {
  }

  /** What a run without the system's uploader and without a crash adds. */
  ghost predicate Alone(w: World) {
    && w.doubles == 0
    && (w.leg.Uploading? && w.status != Sent ==> w.leg.at < |w.items| && w.items[w.leg.at].id.None?)
    && (w.delivering && w.status != Sent ==> w.listed.Ids?)
    && (Free(w) && w.status != Sent && w.count == 0 ==> w.listed.Ids?)
    && (w.leg != NoLeg && w.status != Sent ==> !w.listed.Ids?)
  }

  lemma AloneStep(w: World, n: nat, step: Step)
    requires Inv(w) && Alone(w) && Enabled(w, step) && !step.Land? && !step.Relaunch? && n > 0 && OfN(w, n)
    ensures Alone(Do(w, step)) && !Premature(w, step)
  {
    NoneMissing(w.items);
    if step.HearCarried? {
      NextIsOwed(w.items, w.carrying, 0);
    } else if step.PreviewDone? {
      NextIsOwed(w.items, w.leg.handed, w.leg.at + 1);
    } else if step.Close? {
      ClosedKeeps(w);
    }
  }

  ghost predicate NoSystem(steps: seq<Step>) {
    forall i | 0 <= i < |steps| :: !steps[i].Land? && !steps[i].Relaunch?
  }

  lemma {:induction false} AloneRun(w: World, n: nat, steps: seq<Step>)
    requires Inv(w) && Alone(w) && Runs(w, steps) && NoSystem(steps) && n > 0 && OfN(w, n)
    ensures Alone(After(w, steps)) && !Hurries(w, steps)
    decreases |steps|
  {
    if steps != [] {
      StepKeeps(w, steps[0]);
      AloneStep(w, n, steps[0]);
      StepOfN(w, n, steps[0]);
      AloneRun(Do(w, steps[0]), n, steps[1..]);
    }
  }

  /** THE APP'S OWN LEG ALONE, with every failure, expiry, echo and retry it meets: the count is exactly the items without an id, and every post claims all n ids in order. */
  lemma InAppAloneIsWhole(n: nat, steps: seq<Step>)
    requires n > 0 && Runs(Queued(n), steps) && NoSystem(steps)
    ensures var w := After(Queued(n), steps);
      AllClaimAll(n, Posted(Queued(n), steps)) && (w.status != Sent ==> w.count == Missing(w.items))
  {
    QueuedIsGood(n);
    AloneRun(Queued(n), n, steps);
    EveryPostIsWholeExactly(n, steps);
    CountExactly(n, steps);
  }

  // ---- what a wrong claim does next ------------------------------------------------------------

  /** A refused claim that was not the set is claimed again, unchanged, by whatever tries next. */
  lemma WrongClaimRepeats(w: World, step: Step, outcome: Outcome, slotFree: bool)
    requires Inv(w) && Enabled(w, step) && Premature(w, step) && (outcome == Transient || outcome == Terminal)
    ensures var v := Do(w, step);
      && Enabled(v, DeliverFail(outcome))
      && var u := Do(v, DeliverFail(outcome));
      && u.listed == w.listed && Premature(u, if outcome == Transient then Sweep(slotFree) else Retry(slotFree))
  {
  }

  /** A count below zero is owed nothing and posts nothing: no sweep moves the message again. */
  lemma BelowZeroIsStuck(w: World, slotFree: bool)
    requires w.status == Pending && w.count < 0
    ensures Do(w, Sweep(slotFree)) == w
  {
  }

  // ---- runs that post the wrong claim ----------------------------------------------------------

  ghost predicate Reaches(w: World, steps: seq<Step>, v: World) {
    Runs(w, steps) && After(w, steps) == v
  }

  lemma Then(w: World, step: Step, u: World, rest: seq<Step>, v: World)
    requires Enabled(w, step) && Do(w, step) == u && Reaches(u, rest, v)
    ensures Reaches(w, [step] + rest, v)
  {
    assert ([step] + rest)[1..] == rest;
  }

  /** A CRASH BEFORE THE SET IS WRITTEN: the last upload has counted down to zero, the process ends during its preview, and the sweep posts the placeholders. */
  lemma CrashInThePreview(id: int)
    ensures var steps := [HearCarried, UploadOk(id), Relaunch, Sweep(true)];
      Runs(Queued(1), steps) && After(Queued(1), steps).posts == [Placeholders] && After(Queued(1), steps).items == [Item(Some(id), true)]
  {
    var up := [Item(Some(id), true)];
    var w1 := World(Pending, 1, Placeholders, [Item(None, true)], Uploading(0, {}), false, {}, {}, [], 0);
    var w2 := World(Pending, 0, Placeholders, up, Previewing(0, {}), false, {}, {}, [], 0);
    var w3 := World(Pending, 0, Placeholders, up, NoLeg, false, {}, {}, [], 0);
    var w4 := World(Pending, 0, Placeholders, up, NoLeg, true, {}, {}, [Placeholders], 0);
    assert Queued(1).items == [Item(None, true)];
    assert [Item(None, true)][0 := Item(Some(id), true)] == up;
    assert [] + [Placeholders] == [Placeholders];
    Then(w3, Sweep(true), w4, [], w4);
    Then(w2, Relaunch, w3, [Sweep(true)], w4);
    Then(w1, UploadOk(id), w2, [Relaunch, Sweep(true)], w4);
    Then(Queued(1), HearCarried, w1, [UploadOk(id), Relaunch, Sweep(true)], w4);
  }

  /** THE SYSTEM FINISHES THE SEND: the app's leg loses the network, the system lands the bytes, and the sweep its hand-back triggers posts the placeholders. */
  lemma SystemFinishesTheSend(id: int)
    ensures var steps := [HearCarried, UploadFail(Transient), Close, Background, HandOver, Land(0, id), Sweep(true)];
      Runs(Queued(1), steps) && After(Queued(1), steps).posts == [Placeholders] && After(Queued(1), steps).items == [Item(Some(id), true)]
  {
    var owing, up := [Item(None, true)], [Item(Some(id), true)];
    var w3 := World(Pending, 1, Placeholders, owing, NoLeg, false, {}, {}, [], 0);
    var w7 := World(Pending, 0, Placeholders, up, NoLeg, true, {}, {}, [Placeholders], 0);
    SystemLandsIt(id, Placeholders, []);
    assert [] + [Placeholders] == [Placeholders];
    LegLosesTheNetwork(w3, [Background, HandOver, Land(0, id), Sweep(true)], w7);
    assert [HearCarried, UploadFail(Transient), Close] + [Background, HandOver, Land(0, id), Sweep(true)]
        == [HearCarried, UploadFail(Transient), Close, Background, HandOver, Land(0, id), Sweep(true)];
  }

  lemma LegLosesTheNetwork(w3: World, rest: seq<Step>, v: World)
    requires w3 == World(Pending, 1, Placeholders, [Item(None, true)], NoLeg, false, {}, {}, [], 0) && Reaches(w3, rest, v)
    ensures Reaches(Queued(1), [HearCarried, UploadFail(Transient), Close] + rest, v)
  {
    var w1 := w3.(leg := Uploading(0, {}));
    var w2 := w3.(leg := Closing);
    assert Queued(1).items == [Item(None, true)];
    assert w2.items[0].id.None? && !AllUp(w2.items);
    Then(w2, Close, w3, rest, v);
    Then(w1, UploadFail(Transient), w2, [Close] + rest, v);
    Then(Queued(1), HearCarried, w1, [UploadFail(Transient)] + ([Close] + rest), v);
    assert [HearCarried] + ([UploadFail(Transient)] + ([Close] + rest)) == [HearCarried, UploadFail(Transient), Close] + rest;
  }

  /** One item owed and nothing under way: handed over, landed and swept, it is posted with whatever the row lists. */
  lemma SystemLandsIt(id: int, listed: Listed, posts: seq<Listed>)
    requires !listed.Ids?
    ensures Reaches(World(Pending, 1, listed, [Item(None, true)], NoLeg, false, {}, {}, posts, 0),
              [Background, HandOver, Land(0, id), Sweep(true)],
              World(Pending, 0, listed, [Item(Some(id), true)], NoLeg, true, {}, {}, posts + [listed], 0))
  {
    var owing, up := [Item(None, true)], [Item(Some(id), true)];
    var w3 := World(Pending, 1, listed, owing, NoLeg, false, {}, {}, posts, 0);
    var w4 := w3.(owed := {0});
    var w5 := w3.(carrying := {0});
    var w6 := World(Pending, 0, listed, up, NoLeg, false, {}, {}, posts, 0);
    var w7 := World(Pending, 0, listed, up, NoLeg, true, {}, {}, posts + [listed], 0);
    assert owing[0 := Item(Some(id), true)] == up;
    assert Do(w3, Background).owed == {0};
    Then(w6, Sweep(true), w7, [], w7);
    Then(w5, Land(0, id), w6, [Sweep(true)], w7);
    Then(w4, HandOver, w5, [Land(0, id), Sweep(true)], w7);
    Then(w3, Background, w4, [HandOver, Land(0, id), Sweep(true)], w7);
  }

  /** AFTER AN EXPIRY the row lists nothing, so the same hand-back posts a message with no attachment at all. */
  lemma ExpiredSendGoesEmpty(w: World, id: int)
    requires Inv(w) && w.delivering && w.status == Pending && w.items == [Item(Some(id), true)] && w.carrying == {} && w.owed == {}
    ensures var steps := [DeliverFail(Expired), Background, HandOver, Land(0, id), Sweep(true)];
      Runs(w, steps) && After(w, steps).posts == w.posts + [Cleared]
  {
    var w1 := World(Pending, 1, Cleared, [Item(None, true)], NoLeg, false, {}, {}, w.posts, 0);
    var w5 := World(Pending, 0, Cleared, [Item(Some(id), true)], NoLeg, true, {}, {}, w.posts + [Cleared], 0);
    assert Emptied(w.items) == [Item(None, true)];
    SystemLandsIt(id, Cleared, w.posts);
    Then(w, DeliverFail(Expired), w1, [Background, HandOver, Land(0, id), Sweep(true)], w5);
  }

  /** THE LANDED IS HANDED OVER: the app goes to the background while the leg sends the first of two, which lands before the requests are built. */
  lemma LandedIsHandedOver(id: int)
    ensures var steps := [HearCarried, Background, UploadOk(id), HandOver];
      && Runs(Queued(2), steps)
      && var w := After(Queued(2), steps); w.items == [Item(Some(id), true), Item(None, true)] && w.carrying == {0, 1}
  {
    var owing, up := [Item(None, true), Item(None, true)], [Item(Some(id), true), Item(None, true)];
    var w1 := World(Pending, 2, Placeholders, owing, Uploading(0, {}), false, {}, {}, [], 0);
    var w2 := w1.(owed := {0, 1});
    var w3 := World(Pending, 1, Placeholders, up, Previewing(0, {}), false, {}, {0, 1}, [], 0);
    var w4 := w3.(owed := {}, carrying := {0, 1});
    assert Queued(2).items == owing && owing[0 := Item(Some(id), true)] == up;
    assert Do(w1, Background).owed == {0, 1};
    Then(w3, HandOver, w4, [], w4);
    Then(w2, UploadOk(id), w3, [HandOver], w4);
    Then(w1, Background, w2, [UploadOk(id), HandOver], w4);
    Then(Queued(2), HearCarried, w1, [Background, UploadOk(id), HandOver], w4);
  }

  /** TWO UPLOADERS ON ONE ITEM: handed over while the leg is sending it, it is counted down twice, and the message counts zero with its second item still owed. */
  lemma BothUploadersCount(id: int, again: int)
    ensures var steps := [HearCarried, Background, HandOver, Land(0, id), UploadOk(again)];
      && Runs(Queued(2), steps)
      && var w := After(Queued(2), steps); w.count == 0 && w.doubles == 1 && w.items == [Item(Some(again), true), Item(None, true)]
  {
    var owing := [Item(None, true), Item(None, true)];
    var w1 := World(Pending, 2, Placeholders, owing, Uploading(0, {}), false, {}, {}, [], 0);
    var w2 := w1.(owed := {0, 1});
    var w3 := w1.(carrying := {0, 1});
    var w5 := World(Pending, 0, Placeholders, [Item(Some(again), true), Item(None, true)], Previewing(0, {}), false, {1}, {}, [], 1);
    assert Queued(2).items == owing;
    assert Do(w1, Background).owed == {0, 1};
    BothLand(id, again);
    Then(w2, HandOver, w3, [Land(0, id), UploadOk(again)], w5);
    Then(w1, Background, w2, [HandOver, Land(0, id), UploadOk(again)], w5);
    Then(Queued(2), HearCarried, w1, [Background, HandOver, Land(0, id), UploadOk(again)], w5);
  }

  lemma BothLand(id: int, again: int)
    ensures Reaches(World(Pending, 2, Placeholders, [Item(None, true), Item(None, true)], Uploading(0, {}), false, {0, 1}, {}, [], 0),
              [Land(0, id), UploadOk(again)],
              World(Pending, 0, Placeholders, [Item(Some(again), true), Item(None, true)], Previewing(0, {}), false, {1}, {}, [], 1))
  {
    var owing := [Item(None, true), Item(None, true)];
    var w3 := World(Pending, 2, Placeholders, owing, Uploading(0, {}), false, {0, 1}, {}, [], 0);
    var w4 := w3.(carrying := {1}, count := 1, items := [Item(Some(id), true), Item(None, true)]);
    var w5 := World(Pending, 0, Placeholders, [Item(Some(again), true), Item(None, true)], Previewing(0, {}), false, {1}, {}, [], 1);
    assert owing[0 := Item(Some(id), true)] == w4.items;
    assert w4.items[0 := Item(Some(again), true)] == w5.items;
    assert {0, 1} - {0} == {1};
    Then(w4, UploadOk(again), w5, [], w5);
    Then(w3, Land(0, id), w4, [UploadOk(again)], w5);
  }

  /** A CRASH BETWEEN THE COUNT AND THE ROWS: no item is missing an id, so the next pass posts the message without its attachments. */
  lemma ArmedCrashGoesEmpty(n: nat)
    requires n > 0
    ensures var steps := [Sweep(true), HearCarried, Close];
      Runs(Armed(n), steps) && After(Armed(n), steps).posts == [Ids([])]
  {
    var w1 := Armed(n).(leg := Asking);
    var w2 := Armed(n).(leg := Closing);
    var w3 := Armed(n).(count := 0, listed := Ids([]), delivering := true, posts := [Ids([])]);
    assert IdsOf([]) == [];
    assert [] + [Ids([])] == [Ids([])];
    Then(w2, Close, w3, [], w3);
    Then(w1, HearCarried, w2, [Close], w3);
    Then(Armed(n), Sweep(true), w1, [HearCarried, Close], w3);
  }
}
