/** The family's sticker pack as one device holds it: win/src/FamilyConnect.Core/Store/PackStore.cs. */
module Pack {
  import opened Wrappers

  /** One version of a pack item: live with a picture and whoever added it, or a tombstone. */
  datatype Item = Item(id: int, packSeq: int, deleted: bool, addedBy: int, picture: Option<int>)

  /** Where a version came from, which decides whether it may move the cursor. */
  datatype Route = LiveFrame | CatchUpPage | Evidence

  /** The value of a store: the rows, the remembered removals, the two marks and one connection's catch-up. */
  datatype Held = Held(
    items: map<int, Item>, gone: set<int>, cursor: int, fullMark: int, connection: nat, caughtUp: bool)

  // ---- what each operation does to the value ---------------------------------------------------

  function Without(s: Held, id: int): Held {
    s.(items := s.items - {id}, gone := s.gone + {id})
  }

  /** One version under the one guard for both states. */
  function Applied(s: Held, v: Item): Held {
    if v.id in s.items && s.items[v.id].packSeq >= v.packSeq then s
    else if v.deleted then Without(s, v.id)
    else if v.picture.None? || v.addedBy <= 0 then s
    else if v.id in s.gone then s
    else s.(items := s.items[v.id := v])
  }

  function AppliedAll(s: Held, vs: seq<Item>): Held
    decreases |vs|
  {
    if vs == [] then s else AppliedAll(Applied(s, vs[0]), vs[1..])
  }

  /** How many rows of a page change what is drawn, each against the store the rows before it left. */
  function Drawn(s: Held, vs: seq<Item>): nat
    decreases |vs|
  {
    if vs == [] then 0
    else (if Applied(s, vs[0]).items == s.items then 0 else 1) + Drawn(Applied(s, vs[0]), vs[1..])
  }

  function Highest(vs: seq<Item>, start: int): int {
    if vs == [] then start else Highest(vs[1..], Max(start, vs[0].packSeq))
  }

  function Received(s: Held, v: Item, route: Route): Held {
    var mayMove := match route
      case Evidence => false
      case LiveFrame => s.caughtUp
      case CatchUpPage => true;
    Applied(s, v).(cursor := if mayMove then Max(s.cursor, v.packSeq) else s.cursor)
  }

  function ReceivedPage(s: Held, vs: seq<Item>): Held {
    AppliedAll(s, vs).(cursor := Highest(vs, s.cursor))
  }

  function Live(vs: seq<Item>): seq<Item> {
    if vs == [] then [] else (if vs[0].deleted then [] else [vs[0]]) + Live(vs[1..])
  }

  function LiveIds(vs: seq<Item>): set<int> {
    set v | v in vs && !v.deleted :: v.id
  }

  /** What a full read clears before it writes: every row at or below its mark, the unlisted ones remembered. */
  function Cleared(s: Held, listed: set<int>, mark: int): Held {
    s.(items := map id | id in s.items && s.items[id].packSeq > mark :: s.items[id],
       gone := s.gone + set id | id in s.items && s.items[id].packSeq <= mark && id !in listed)
  }

  function Replaced(s: Held, vs: seq<Item>, mark: int): Held {
    if mark < Max(s.fullMark, s.cursor) then s
    else AppliedAll(Cleared(s, LiveIds(vs), mark), Live(vs)).(cursor := mark, fullMark := mark)
  }

  function Reopened(s: Held): Held {
    s.(connection := s.connection + 1, caughtUp := false)
  }

  function Levelled(s: Held, began: nat): Held {
    if began != s.connection then s else s.(caughtUp := true)
  }

  // ---- facts about single operations -----------------------------------------------------------

  lemma {:induction false} AppliedAllAppend(s: Held, vs: seq<Item>, v: Item)
    ensures AppliedAll(s, vs + [v]) == Applied(AppliedAll(s, vs), v)
    decreases |vs|
  {
    if vs == [] {
      assert [v][1..] == [];
      assert vs + [v] == [v];
      assert AppliedAll(Applied(s, v), []) == Applied(s, v);
    } else {
      assert (vs + [v])[1..] == vs[1..] + [v];
      AppliedAllAppend(Applied(s, vs[0]), vs[1..], v);
    }
  }

  lemma {:induction false} DrawnAppend(s: Held, vs: seq<Item>, v: Item)
    ensures Drawn(s, vs + [v]) ==
      Drawn(s, vs) + (if Applied(AppliedAll(s, vs), v).items == AppliedAll(s, vs).items then 0 else 1)
    decreases |vs|
  {
    if vs == [] {
      assert vs + [v] == [v];
      assert Drawn(Applied(s, v), []) == 0;
    } else {
      assert (vs + [v])[1..] == vs[1..] + [v];
      DrawnAppend(Applied(s, vs[0]), vs[1..], v);
    }
  }

  lemma {:induction false} HighestAppend(vs: seq<Item>, v: Item, start: int)
    ensures Highest(vs + [v], start) == Max(Highest(vs, start), v.packSeq)
  {
    if vs == [] {
      assert vs + [v] == [v];
      assert [v][1..] == [];
      assert Highest([v], start) == Highest([], Max(start, v.packSeq));
    } else {
      assert (vs + [v])[1..] == vs[1..] + [v];
      HighestAppend(vs[1..], v, Max(start, vs[0].packSeq));
    }
  }

  lemma {:induction false} LiveAppend(vs: seq<Item>, v: Item)
    ensures Live(vs + [v]) == Live(vs) + (if v.deleted then [] else [v])
  {
    if vs == [] {
      assert vs + [v] == [v];
      assert [v][1..] == [];
      assert Live([v]) == (if v.deleted then [] else [v]) + Live([]);
    } else {
      assert (vs + [v])[1..] == vs[1..] + [v];
      LiveAppend(vs[1..], v);
    }
  }

  lemma {:induction false} LiveMembers(vs: seq<Item>)
    ensures forall v :: v in Live(vs) <==> v in vs && !v.deleted
  {
    if vs != [] {
      LiveMembers(vs[1..]);
      assert vs == [vs[0]] + vs[1..];
      assert forall v :: v in vs <==> v == vs[0] || v in vs[1..];
    }
  }

  lemma {:induction false} AppliedAllKeepsMarks(s: Held, vs: seq<Item>)
    ensures var t := AppliedAll(s, vs);
      t.cursor == s.cursor && t.fullMark == s.fullMark && t.connection == s.connection && t.caughtUp == s.caughtUp
    decreases |vs|
  {
    if vs != [] {
      AppliedAllKeepsMarks(Applied(s, vs[0]), vs[1..]);
    }
  }

  /** With nothing assumed of the server: a removal is final and a held row is only replaced by a newer one. */
  ghost predicate Advances(s: Held, t: Held) {
    && s.gone <= t.gone
    && forall id | id in s.items ::
         (id in t.items && t.items[id].packSeq >= s.items[id].packSeq) || id in t.gone
  }

  ghost predicate Disjoint(s: Held) {
    forall id | id in s.items :: id !in s.gone
  }

  lemma {:induction false} AppliedAllAdvances(s: Held, vs: seq<Item>)
    requires Disjoint(s)
    ensures Disjoint(AppliedAll(s, vs)) && Advances(s, AppliedAll(s, vs))
    decreases |vs|
  {
    if vs != [] {
      var t := Applied(s, vs[0]);
      assert Disjoint(t) && Advances(s, t);
      AppliedAllAdvances(t, vs[1..]);
    }
  }

  /** Any version already listed is in force afterwards: a tombstone removes, a whole live item is held at least as new, or gone. */
  ghost predicate InForce(s: Held, v: Item) {
    if v.deleted then v.id in s.gone || (v.id in s.items && s.items[v.id].packSeq >= v.packSeq)
    else v.picture.None? || v.addedBy <= 0 || v.id in s.gone
         || (v.id in s.items && s.items[v.id].packSeq >= v.packSeq)
  }

  lemma {:induction false} AppliedAllPutsInForce(s: Held, vs: seq<Item>)
    requires Disjoint(s)
    ensures forall v | v in vs :: InForce(AppliedAll(s, vs), v)
    decreases |vs|
  {
    if vs != [] {
      var t := Applied(s, vs[0]);
      assert InForce(t, vs[0]);
      AppliedAllAdvances(t, vs[1..]);
      AppliedAllPutsInForce(t, vs[1..]);
      assert vs == [vs[0]] + vs[1..];
    }
  }

  /** Nothing is held or remembered that was not before or is not in the list. */
  lemma {:induction false} AppliedAllOrigin(s: Held, vs: seq<Item>)
    ensures var t := AppliedAll(s, vs);
      && (forall id | id in t.items :: (id in s.items && t.items[id] == s.items[id])
            || (t.items[id] in vs && t.items[id].id == id && !t.items[id].deleted && id !in s.gone))
      && (forall id | id in t.gone :: id in s.gone || exists v :: v in vs && v.deleted && v.id == id)
    decreases |vs|
  {
    if vs != [] {
      AppliedAllOrigin(Applied(s, vs[0]), vs[1..]);
      assert vs == [vs[0]] + vs[1..];
      assert vs[0] in vs;
    }
  }

  /** A full read: an older one changes nothing, and an applied one obeys the two laws of the store. */
  lemma FullReadAdvances(s: Held, vs: seq<Item>, mark: int)
    requires Disjoint(s) && s.fullMark <= s.cursor
    requires forall v | v in vs && !v.deleted :: v.picture.Some? && v.addedBy > 0
    requires forall v, w | v in vs && w in vs && v.id == w.id :: v == w
    ensures var t := Replaced(s, vs, mark);
      && Disjoint(t) && s.gone <= t.gone
      && t.cursor >= s.cursor && t.fullMark >= s.fullMark
      && (mark < s.cursor ==> t == s)
      && (mark >= s.cursor ==>
            && (forall id | id in s.items && s.items[id].packSeq <= mark && id !in LiveIds(vs) :: id in t.gone)
            && (forall id | id in s.items && s.items[id].packSeq > mark ::
                  id in t.items && t.items[id].packSeq >= s.items[id].packSeq)
            && (forall v | v in vs && !v.deleted :: v.id in t.gone || v.id in t.items)
            && (forall id | id in t.items && t.items[id].packSeq <= mark :: t.items[id] in vs))
  {
    if mark >= s.cursor {
      var c := Cleared(s, LiveIds(vs), mark);
      assert Disjoint(c);
      LiveMembers(vs);
      AppliedAllAdvances(c, Live(vs));
      AppliedAllPutsInForce(c, Live(vs));
      AppliedAllOrigin(c, Live(vs));
      AppliedAllKeepsMarks(c, Live(vs));
      var t := AppliedAll(c, Live(vs));
      forall id | id in s.items && s.items[id].packSeq > mark
        ensures id in t.items && t.items[id].packSeq >= s.items[id].packSeq
      {
        assert id in c.items && id !in c.gone;
        assert id !in t.gone;
      }
      forall v | v in vs && !v.deleted
        ensures v.id in t.gone || v.id in t.items
      {
        assert v in Live(vs);
        assert InForce(t, v);
      }
    }
  }

  // ---- the store itself ------------------------------------------------------------------------

  /**
   * The store over its tables. Each method is proved to take the value it holds to the function
   * above; the laws of the value are then proved once, here and in PackLaws.
   */
  class PackStore {
    var items: map<int, Item>
    var gone: set<int>
    var cursor: int
    var fullMark: int
    var connection: nat
    var caughtUp: bool

    function View(): Held
      reads this
    {
      Held(items, gone, cursor, fullMark, connection, caughtUp)
    }

    /** An empty cache at launch: nothing read, and no connection caught up. */
    constructor ()
      ensures View() == Held(map[], {}, 0, 0, 0, false)
    {
      items, gone, cursor, fullMark, connection, caughtUp := map[], {}, 0, 0, 0, false;
    }

    method Remove(id: int) returns (changed: bool)
      modifies this`items, this`gone
      ensures View() == Without(old(View()), id)
      ensures changed == (items != old(items))
    {
      gone := gone + {id};
      changed := id in items;
      items := items - {id};
      assert changed ==> id in old(items) && id !in items;
      assert !changed ==> items == old(items);
    }

    method ApplyRow(v: Item) returns (changed: bool)
      modifies this`items, this`gone
      ensures View() == Applied(old(View()), v)
      ensures changed == (items != old(items))
    {
      if v.id in items && items[v.id].packSeq >= v.packSeq {
        return false;
      }
      if v.deleted {
        changed := Remove(v.id);
        return;
      }
      if v.picture.None? || v.addedBy <= 0 {
        return false;
      }
      if v.id in gone {
        return false;
      }
      items := items[v.id := v];
      assert v.id !in old(items) || old(items)[v.id] != items[v.id];
      changed := true;
    }

    /** One version from a frame, the feed, or the answer to this device's own add. */
    method Apply(v: Item, route: Route) returns (changed: bool)
      modifies this`items, this`gone, this`cursor
      ensures View() == Received(old(View()), v, route)
      ensures changed == (items != old(items))
    {
      changed := ApplyRow(v);
      var mayMove := match route
        case Evidence => false
        case LiveFrame => caughtUp
        case CatchUpPage => true;
      if mayMove && v.packSeq > cursor {
        cursor := v.packSeq;
      }
    }

    /** A page of the change feed, in order; the cursor follows the page's highest seq. */
    method ApplyPage(vs: seq<Item>) returns (changed: nat)
      modifies this`items, this`gone, this`cursor
      ensures View() == ReceivedPage(old(View()), vs)
      ensures changed == Drawn(old(View()), vs)
    {
      changed := 0;
      var highest := cursor;
      for i := 0 to |vs|
        invariant View() == AppliedAll(old(View()), vs[..i])
        invariant highest == Highest(vs[..i], old(cursor))
        invariant changed == Drawn(old(View()), vs[..i])
      {
        assert vs[..i + 1] == vs[..i] + [vs[i]];
        AppliedAllAppend(old(View()), vs[..i], vs[i]);
        HighestAppend(vs[..i], vs[i], old(cursor));
        DrawnAppend(old(View()), vs[..i], vs[i]);
        var drawn := ApplyRow(vs[i]);
        if drawn {
          changed := changed + 1;
        }
        highest := Max(highest, vs[i].packSeq);
      }
      assert vs[..|vs|] == vs;
      AppliedAllKeepsMarks(old(View()), vs);
      cursor := highest;
    }

    /** A whole-pack read: what arrived is the pack, unless something newer is already applied. */
    method Replace(vs: seq<Item>, mark: int) returns (applied: bool)
      modifies this
      ensures View() == Replaced(old(View()), vs, mark)
      ensures applied == (mark >= Max(old(fullMark), old(cursor)))
    {
      if mark < Max(fullMark, cursor) {
        return false;
      }
      var arrived := LiveIds(vs);
      var left := set id | id in items && items[id].packSeq <= mark && id !in arrived;
      gone := gone + left;
      items := map id | id in items && items[id].packSeq > mark :: items[id];
      ghost var cleared := Cleared(old(View()), arrived, mark);
      assert View() == cleared;
      for i := 0 to |vs|
        invariant View() == AppliedAll(cleared, Live(vs[..i]))
      {
        assert vs[..i + 1] == vs[..i] + [vs[i]];
        LiveAppend(vs[..i], vs[i]);
        if !vs[i].deleted {
          AppliedAllAppend(cleared, Live(vs[..i]), vs[i]);
          var _ := ApplyRow(vs[i]);
        } else {
          assert Live(vs[..i + 1]) == Live(vs[..i]);
        }
      }
      assert vs[..|vs|] == vs;
      cursor := mark;
      fullMark := mark;
      applied := true;
    }

    /** This device's own removal was answered: the item goes and is remembered; no cursor moves. */
    method Removed(id: int) returns (changed: bool)
      modifies this`items, this`gone
      ensures View() == Without(old(View()), id)
      ensures changed == (items != old(items))
    {
      changed := Remove(id);
    }

    /** A socket has opened: frames on it move nothing until a pass that began on it has caught up. */
    method Reconnected()
      modifies this`connection, this`caughtUp
      ensures View() == Reopened(old(View()))
    {
      connection := connection + 1;
      caughtUp := false;
    }

    /** A pass is level with the server; its word counts only for the connection it began on. */
    method CaughtUp(began: nat) returns (counted: bool)
      modifies this`caughtUp
      ensures View() == Levelled(old(View()), began)
      ensures counted == (began == connection)
    {
      if began != connection {
        return false;
      }
      caughtUp := true;
      counted := true;
    }
  }
}
