/**
 * The board as the Windows client caches it: win/src/FamilyConnect.Core/Store/BoardStore.cs. It has
 * the pack's shape without the pack's connection guard, and its full read writes without the per-note guard.
 */
module WallStore {
  import opened Wrappers

  datatype Note = Note(id: int, boardSeq: int, deleted: bool, text: string)

  datatype Route = LiveFrame | CatchUpPage | Evidence

  datatype Wall = Wall(notes: map<int, Note>, gone: set<int>, cursor: int, fullMark: int)

  function Applied(s: Wall, v: Note): Wall {
    if v.deleted then s.(notes := s.notes - {v.id}, gone := s.gone + {v.id})
    else if v.id in s.gone then s
    else if v.id in s.notes && s.notes[v.id].boardSeq >= v.boardSeq then s
    else s.(notes := s.notes[v.id := v])
  }

  function AppliedAll(s: Wall, vs: seq<Note>): Wall
    decreases |vs|
  {
    if vs == [] then s else AppliedAll(Applied(s, vs[0]), vs[1..])
  }

  /** How many rows of a page change what is drawn, each against the store the rows before it left. */
  function Drawn(s: Wall, vs: seq<Note>): nat
    decreases |vs|
  {
    if vs == [] then 0
    else (if Applied(s, vs[0]).notes == s.notes then 0 else 1) + Drawn(Applied(s, vs[0]), vs[1..])
  }

  function Highest(vs: seq<Note>, start: int): int {
    if vs == [] then start else Highest(vs[1..], Max(start, vs[0].boardSeq))
  }

  function Received(s: Wall, v: Note, route: Route): Wall {
    var mayMove := match route
      case Evidence => false
      case LiveFrame => s.cursor != 0
      case CatchUpPage => true;
    Applied(s, v).(cursor := if mayMove then Max(s.cursor, v.boardSeq) else s.cursor)
  }

  function ReceivedPage(s: Wall, vs: seq<Note>): Wall {
    AppliedAll(s, vs).(cursor := Highest(vs, s.cursor))
  }

  /** A full read's rows, written over whatever is there unless the note is gone. */
  function Written(s: Wall, vs: seq<Note>): Wall
    decreases |vs|
  {
    if vs == [] then s
    else
      var v := vs[0];
      Written(if v.deleted || v.id in s.gone then s else s.(notes := s.notes[v.id := v]), vs[1..])
  }

  function Cleared(s: Wall, mark: int): Wall {
    s.(notes := map id | id in s.notes && s.notes[id].boardSeq > mark :: s.notes[id])
  }

  function Replaced(s: Wall, vs: seq<Note>, mark: int): Wall {
    if mark < s.fullMark then s
    else Written(Cleared(s, mark), vs).(cursor := mark, fullMark := mark)
  }

  // ---- the store -------------------------------------------------------------------------------

  lemma {:induction false} AppliedAllAppend(s: Wall, vs: seq<Note>, v: Note)
    ensures AppliedAll(s, vs + [v]) == Applied(AppliedAll(s, vs), v)
    decreases |vs|
  {
    if vs == [] {
      assert vs + [v] == [v];
      assert AppliedAll(Applied(s, v), []) == Applied(s, v);
    } else {
      assert (vs + [v])[1..] == vs[1..] + [v];
      AppliedAllAppend(Applied(s, vs[0]), vs[1..], v);
    }
  }

  lemma {:induction false} DrawnAppend(s: Wall, vs: seq<Note>, v: Note)
    ensures Drawn(s, vs + [v]) ==
      Drawn(s, vs) + (if Applied(AppliedAll(s, vs), v).notes == AppliedAll(s, vs).notes then 0 else 1)
    decreases |vs|
  {
    if vs == [] {
      assert vs + [v] == [v];
      assert Drawn(Applied(s, v), []) == 0;
    } else {
      assert (vs + [v])[1..] == vs[1..] + [v];
      DrawnAppend(Applied(s, vs[0]), vs[1..], v);
    }
  }

  lemma {:induction false} HighestAppend(vs: seq<Note>, v: Note, start: int)
    ensures Highest(vs + [v], start) == Max(Highest(vs, start), v.boardSeq)
  {
    if vs == [] {
      assert vs + [v] == [v];
      assert Highest([v], start) == Highest([], Max(start, v.boardSeq));
    } else {
      assert (vs + [v])[1..] == vs[1..] + [v];
      HighestAppend(vs[1..], v, Max(start, vs[0].boardSeq));
    }
  }

  lemma {:induction false} WrittenAppend(s: Wall, vs: seq<Note>, v: Note)
    ensures var t := Written(s, vs);
      Written(s, vs + [v]) == if v.deleted || v.id in t.gone then t else t.(notes := t.notes[v.id := v])
    decreases |vs|
  {
    if vs == [] {
      assert vs + [v] == [v];
      assert [v][1..] == [];
    } else {
      assert (vs + [v])[1..] == vs[1..] + [v];
      var u := vs[0];
      WrittenAppend(if u.deleted || u.id in s.gone then s else s.(notes := s.notes[u.id := u]), vs[1..], v);
    }
  }

  lemma {:induction false} AppliedAllKeepsMarks(s: Wall, vs: seq<Note>)
    ensures AppliedAll(s, vs).cursor == s.cursor && AppliedAll(s, vs).fullMark == s.fullMark
    decreases |vs|
  {
    if vs != [] {
      AppliedAllKeepsMarks(Applied(s, vs[0]), vs[1..]);
    }
  }

  class BoardStore {
    var notes: map<int, Note>
    var gone: set<int>
    var cursor: int
    var fullMark: int

    function View(): Wall
      reads this
    {
      Wall(notes, gone, cursor, fullMark)
    }

    constructor ()
      ensures View() == Wall(map[], {}, 0, 0)
    {
      notes, gone, cursor, fullMark := map[], {}, 0, 0;
    }

    method ApplyRow(v: Note) returns (changed: bool)
      modifies this`notes, this`gone
      ensures View() == Applied(old(View()), v)
      ensures changed == (notes != old(notes))
    {
      if v.deleted {
        gone := gone + {v.id};
        changed := v.id in notes;
        notes := notes - {v.id};
        assert changed ==> v.id in old(notes) && v.id !in notes;
        assert !changed ==> notes == old(notes);
        return;
      }
      if v.id in gone {
        return false;
      }
      if v.id in notes && notes[v.id].boardSeq >= v.boardSeq {
        return false;
      }
      notes := notes[v.id := v];
      assert v.id !in old(notes) || old(notes)[v.id] != notes[v.id];
      changed := true;
    }

    method Apply(v: Note, route: Route) returns (changed: bool)
      modifies this`notes, this`gone, this`cursor
      ensures View() == Received(old(View()), v, route)
      ensures changed == (notes != old(notes))
    {
      changed := ApplyRow(v);
      var mayMove := match route
        case Evidence => false
        case LiveFrame => cursor != 0
        case CatchUpPage => true;
      if mayMove && v.boardSeq > cursor {
        cursor := v.boardSeq;
      }
    }

    method ApplyPage(vs: seq<Note>) returns (changed: nat)
      modifies this`notes, this`gone, this`cursor
      ensures View() == ReceivedPage(old(View()), vs)
      ensures changed == Drawn(old(View()), vs)
    {
      changed := 0;
      var highest := cursor;
      for i := 0 to |vs|
        invariant View() == AppliedAll(old(View()), vs[..i])
        invariant highest == Highest(vs[..i], old(cursor))
        invariant changed == Drawn(old(View()), vs[..i])
      {
        assert vs[..i + 1] == vs[..i] + [vs[i]];
        AppliedAllAppend(old(View()), vs[..i], vs[i]);
        HighestAppend(vs[..i], vs[i], old(cursor));
        DrawnAppend(old(View()), vs[..i], vs[i]);
        var drawn := ApplyRow(vs[i]);
        if drawn {
          changed := changed + 1;
        }
        highest := Max(highest, vs[i].boardSeq);
      }
      assert vs[..|vs|] == vs;
      AppliedAllKeepsMarks(old(View()), vs);
      cursor := highest;
    }

    method Replace(vs: seq<Note>, mark: int)
      modifies this
      ensures View() == Replaced(old(View()), vs, mark)
    {
      if mark < fullMark {
        return;
      }
      notes := map id | id in notes && notes[id].boardSeq > mark :: notes[id];
      ghost var cleared := View();
      for i := 0 to |vs|
        invariant View() == Written(cleared, vs[..i])
      {
        assert vs[..i + 1] == vs[..i] + [vs[i]];
        WrittenAppend(cleared, vs[..i], vs[i]);
        if !vs[i].deleted && vs[i].id !in gone {
          notes := notes[vs[i].id := vs[i]];
        }
      }
      assert vs[..|vs|] == vs;
      cursor := mark;
      fullMark := mark;
    }
  }

  // ---- a tombstone is the last word, in every run ----------------------------------------------

  datatype Event = One(note: Note, route: Route) | Page(notes: seq<Note>) | FullRead(notes: seq<Note>, mark: int)

  function Heard(s: Wall, e: Event): Wall {
    match e
    case One(v, route) => Received(s, v, route)
    case Page(vs) => ReceivedPage(s, vs)
    case FullRead(vs, mark) => Replaced(s, vs, mark)
  }

  function HeardAll(s: Wall, es: seq<Event>): Wall
    decreases |es|
  {
    if es == [] then s else HeardAll(Heard(s, es[0]), es[1..])
  }

  ghost predicate Disjoint(s: Wall) {
    forall id | id in s.notes :: id !in s.gone
  }

  lemma {:induction false} AppliedAllFinal(s: Wall, vs: seq<Note>)
    requires Disjoint(s)
    ensures Disjoint(AppliedAll(s, vs)) && s.gone <= AppliedAll(s, vs).gone
    decreases |vs|
  {
    if vs != [] {
      AppliedAllFinal(Applied(s, vs[0]), vs[1..]);
    }
  }

  lemma {:induction false} WrittenFinal(s: Wall, vs: seq<Note>)
    requires Disjoint(s)
    ensures Disjoint(Written(s, vs)) && s.gone == Written(s, vs).gone
    decreases |vs|
  {
    if vs != [] {
      var v := vs[0];
      WrittenFinal(if v.deleted || v.id in s.gone then s else s.(notes := s.notes[v.id := v]), vs[1..]);
    }
  }

  lemma {:induction false} TombstoneIsFinal(s: Wall, es: seq<Event>)
    requires Disjoint(s)
    ensures Disjoint(HeardAll(s, es)) && s.gone <= HeardAll(s, es).gone
    decreases |es|
  {
    if es != [] {
      match es[0] {
        case One(v, route) =>
        case Page(vs) => AppliedAllFinal(s, vs);
        case FullRead(vs, mark) => WrittenFinal(Cleared(s, mark), vs);
      }
      TombstoneIsFinal(Heard(s, es[0]), es[1..]);
    }
  }

  // ---- a full read may take a note back to an older version ------------------------------------

  ghost predicate Listed(vs: seq<Note>, v: Note) {
    v in vs && !v.deleted
  }

  ghost predicate OneEach(vs: seq<Note>) {
    forall i, j | 0 <= i < j < |vs| :: vs[i].id != vs[j].id
  }

  lemma {:induction false} WrittenRows(s: Wall, vs: seq<Note>)
    requires OneEach(vs)
    ensures var t := Written(s, vs);
      && t.gone == s.gone
      && (forall v | Listed(vs, v) && v.id !in s.gone :: v.id in t.notes && t.notes[v.id] == v)
      && (forall id | id in s.notes && (forall v | Listed(vs, v) :: v.id != id) :: id in t.notes && t.notes[id] == s.notes[id])
    decreases |vs|
  {
    if vs != [] {
      var us, v := vs[..|vs| - 1], vs[|vs| - 1];
      assert vs == us + [v];
      WrittenRows(s, us);
      WrittenAppend(s, us, v);
      forall w | Listed(vs, w) && w.id !in s.gone
        ensures w.id in Written(s, vs).notes && Written(s, vs).notes[w.id] == w
      {
        if w != v {
          var i :| 0 <= i < |us| && us[i] == w;
          assert vs[i] == w && Listed(us, w);
        }
      }
      assert forall w | Listed(us, w) :: Listed(vs, w);
      assert !v.deleted ==> Listed(vs, v);
    }
  }

  /** EXACTLY WHEN a full read that is applied keeps a note held above its mark as new as it was: when it lists no older copy of it. */
  lemma FullReadKeepsExactly(s: Wall, vs: seq<Note>, mark: int, id: int)
    requires Disjoint(s) && OneEach(vs) && s.fullMark <= mark
    requires id in s.notes && s.notes[id].boardSeq > mark
    ensures var t := Replaced(s, vs, mark);
      id in t.notes &&
      (t.notes[id].boardSeq >= s.notes[id].boardSeq <==>
        forall v | Listed(vs, v) && v.id == id :: v.boardSeq >= s.notes[id].boardSeq)
  {
    WrittenRows(Cleared(s, mark), vs);
    if v :| Listed(vs, v) && v.id == id {
      assert forall w | Listed(vs, w) && w.id == id :: w == v;
    }
  }

  /** Where it does list an older copy, that copy is written over the newer one; the change undone is above the cursor, for a page to bring again. */
  lemma FullReadTakesBack(s: Wall, vs: seq<Note>, mark: int, v: Note)
    requires Disjoint(s) && OneEach(vs) && s.fullMark <= mark
    requires Listed(vs, v) && v.boardSeq <= mark && v.id in s.notes && s.notes[v.id].boardSeq > mark
    ensures var t := Replaced(s, vs, mark);
      && v.id in t.notes && t.notes[v.id] == v && t.notes[v.id].boardSeq < s.notes[v.id].boardSeq
      && t.cursor == mark < s.notes[v.id].boardSeq
      && var again := ReceivedPage(t, [s.notes[v.id]]);
         s.notes[v.id].id == v.id && !s.notes[v.id].deleted ==>
           v.id in again.notes && again.notes[v.id] == s.notes[v.id]
  {
    WrittenRows(Cleared(s, mark), vs);
    var t := Replaced(s, vs, mark);
    assert AppliedAll(t, [s.notes[v.id]]) == AppliedAll(Applied(t, s.notes[v.id]), []);
  }
}
