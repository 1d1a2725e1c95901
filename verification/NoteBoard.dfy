/** The family's board as an Apple client caches it: ios/FamilyConnect/Core/ChatSyncCoordinator.swift, applyNote, replaceBoard, deleteNote. */
module NoteBoard {
  import opened Wrappers

  /** One version of a note; `content` is absent when a required field is, which no live note should be. */
  datatype Note = Note(id: int, boardSeq: int, deleted: bool, content: Option<string>)

  datatype Wall = Wall(rows: map<int, Note>, gone: set<int>)

  predicate Complete(v: Note) {
    !v.deleted && v.content.Some?
  }

  function Forgotten(s: Wall, ids: set<int>): Wall {
    Wall(s.rows - ids, s.gone + ids)
  }

  /** One note under its seq guard: strictly older is refused, the same seq is written, gone is the last word. */
  function Applied(s: Wall, v: Note): Wall {
    if v.id in s.gone then s
    else if v.id in s.rows && v.boardSeq < s.rows[v.id].boardSeq then s
    else if v.deleted then Forgotten(s, {v.id})
    else if v.content.None? then s
    else s.(rows := s.rows[v.id := v])
  }

  function AppliedAll(s: Wall, vs: seq<Note>): Wall
    decreases |vs|
  {
    if vs == [] then s else AppliedAll(Applied(s, vs[0]), vs[1..])
  }

  function Ids(vs: seq<Note>): set<int> {
    set v | v in vs :: v.id
  }

  function LeftOut(s: Wall, vs: seq<Note>, mark: int): set<int> {
    set id | id in s.rows && id !in Ids(vs) && s.rows[id].boardSeq <= mark
  }

  function Replaced(s: Wall, vs: seq<Note>, mark: int): Wall {
    AppliedAll(Forgotten(s, LeftOut(s, vs, mark)), vs)
  }

  // ---- the cache -------------------------------------------------------------------------------

  lemma {:induction false} AppliedAllAppend(s: Wall, vs: seq<Note>, v: Note)
    ensures AppliedAll(s, vs + [v]) == Applied(AppliedAll(s, vs), v)
    decreases |vs|
  {
    if vs == [] {
      assert vs + [v] == [v];
      assert AppliedAll(Applied(s, v), []) == Applied(s, v);
    } else {
      assert (vs + [v])[1..] == vs[1..] + [v];
      AppliedAllAppend(Applied(s, vs[0]), vs[1..], v);
    }
  }

  class BoardCache {
    var rows: map<int, Note>
    var gone: set<int>

    function View(): Wall
      reads this
    {
      Wall(rows, gone)
    }

    constructor ()
      ensures View() == Wall(map[], {})
    {
      rows, gone := map[], {};
    }

    method ApplyNote(v: Note) returns (changed: bool)
      modifies this
      ensures View() == Applied(old(View()), v)
      ensures !changed ==> View() == old(View())
    {
      if v.id in gone {
        return false;
      }
      if v.id in rows && v.boardSeq < rows[v.id].boardSeq {
        return false;
      }
      if v.deleted {
        gone := gone + {v.id};
        rows := rows - {v.id};
        return true;
      }
      if v.content.None? {
        return false;
      }
      rows := rows[v.id := v];
      changed := true;
    }

    /** A full read: what it leaves out at or below its mark is gone, and is remembered so. */
    method ReplaceBoard(vs: seq<Note>, mark: int)
      modifies this
      ensures View() == Replaced(old(View()), vs, mark)
    {
      var left := set id | id in rows && id !in Ids(vs) && rows[id].boardSeq <= mark;
      gone := gone + left;
      rows := rows - left;
      ghost var cleared := View();
      for i := 0 to |vs|
        invariant View() == AppliedAll(cleared, vs[..i])
      {
        assert vs[..i + 1] == vs[..i] + [vs[i]];
        AppliedAllAppend(cleared, vs[..i], vs[i]);
        var _ := ApplyNote(vs[i]);
      }
      assert vs[..|vs|] == vs;
    }

    /** This client's own delete was answered. */
    method DeleteNote(id: int)
      modifies this
      ensures View() == Forgotten(old(View()), {id})
    {
      gone := gone + {id};
      rows := rows - {id};
    }
  }

  // ---- with nothing assumed of the server ------------------------------------------------------

  datatype Event = Frame(note: Note) | Page(notes: seq<Note>) | FullRead(notes: seq<Note>, mark: int) | OwnDelete(id: int)

  function Heard(s: Wall, e: Event): Wall {
    match e
    case Frame(v) => Applied(s, v)
    case Page(vs) => AppliedAll(s, vs)
    case FullRead(vs, mark) => Replaced(s, vs, mark)
    case OwnDelete(id) => Forgotten(s, {id})
  }

  function HeardAll(s: Wall, es: seq<Event>): Wall
    decreases |es|
  {
    if es == [] then s else HeardAll(Heard(s, es[0]), es[1..])
  }

  ghost predicate Disjoint(s: Wall) {
    forall id | id in s.rows :: id !in s.gone
  }

  /** A gone note stays gone, and a held one is held at least as new or gone. */
  ghost predicate Forward(s: Wall, t: Wall) {
    && Disjoint(t) && s.gone <= t.gone
    && forall id | id in s.rows :: id in t.gone || (id in t.rows && s.rows[id].boardSeq <= t.rows[id].boardSeq)
  }

  lemma {:induction false} AppliedAllForward(s: Wall, vs: seq<Note>)
    requires Disjoint(s)
    ensures Forward(s, AppliedAll(s, vs))
    decreases |vs|
  {
    if vs != [] {
      assert Forward(s, Applied(s, vs[0]));
      AppliedAllForward(Applied(s, vs[0]), vs[1..]);
    }
  }

  lemma HeardForward(s: Wall, e: Event)
    requires Disjoint(s)
    ensures Forward(s, Heard(s, e))
  {
    match e
    case Frame(v) =>
    case Page(vs) => AppliedAllForward(s, vs);
    case FullRead(vs, mark) => AppliedAllForward(Forgotten(s, LeftOut(s, vs, mark)), vs);
    case OwnDelete(id) =>
  }

  /** In every run of frames, pages, full reads and deletes, in any order and however wrong. */
  lemma {:induction false} NothingComesBack(s: Wall, es: seq<Event>)
    requires Disjoint(s)
    ensures Forward(s, HeardAll(s, es))
    decreases |es|
  {
    if es != [] {
      HeardForward(s, es[0]);
      NothingComesBack(Heard(s, es[0]), es[1..]);
    }
  }

  // ---- order and repetition do not matter ------------------------------------------------------

  /** A server's history: content is fixed by id and seq, and a tombstone is the last of its id. */
  ghost predicate Consistent(vs: seq<Note>) {
    && (forall v, w | v in vs && w in vs && v.id == w.id && v.boardSeq == w.boardSeq :: v == w)
    && (forall v, w | v in vs && w in vs && v.id == w.id && v.deleted :: w.boardSeq <= v.boardSeq)
  }

  ghost predicate Buried(vs: seq<Note>, id: int) {
    exists v :: v in vs && v.deleted && v.id == id
  }

  /** v is what the history says of its note: live, whole, and newer than every other whole version. */
  ghost predicate Current(vs: seq<Note>, v: Note) {
    v in vs && Complete(v) && forall w | w in vs && w.id == v.id && Complete(w) :: w.boardSeq <= v.boardSeq
  }

  /** The wall a history means, said without any order. */
  ghost predicate Means(vs: seq<Note>, s: Wall) {
    && (forall id :: id in s.gone <==> Buried(vs, id))
    && (forall id | id in s.rows :: id !in s.gone && s.rows[id].id == id && Current(vs, s.rows[id]))
    && (forall v | v in vs && Complete(v) && v.id !in s.gone :: v.id in s.rows)
  }

  lemma ConsistentPrefix(vs: seq<Note>, v: Note)
    requires Consistent(vs + [v])
    ensures Consistent(vs)
    ensures forall w | w in vs && w.id == v.id && w.boardSeq == v.boardSeq :: w == v
    ensures forall w | w in vs && w.id == v.id && w.deleted :: v.boardSeq <= w.boardSeq
    ensures forall w | w in vs && w.id == v.id && v.deleted :: w.boardSeq <= v.boardSeq
  {
    assert forall w | w in vs :: w in vs + [v];
    assert v in vs + [v];
  }

  lemma {:induction false} AppliedAllMeans(vs: seq<Note>)
    requires Consistent(vs)
    ensures Means(vs, AppliedAll(Wall(map[], {}), vs))
    decreases |vs|
  {
    if vs != [] {
      var us, v := vs[..|vs| - 1], vs[|vs| - 1];
      assert vs == us + [v];
      ConsistentPrefix(us, v);
      AppliedAllMeans(us);
      AppliedAllAppend(Wall(map[], {}), us, v);
      OneMore(us, v, AppliedAll(Wall(map[], {}), us));
    }
  }

  lemma OneMore(us: seq<Note>, v: Note, s: Wall)
    requires Consistent(us + [v]) && Means(us, s)
    ensures Means(us + [v], Applied(s, v))
  {
    var vs, t := us + [v], Applied(s, v);
    ConsistentPrefix(us, v);
    assert forall w :: w in vs <==> w in us || w == v;
    forall id
      ensures id in t.gone <==> Buried(vs, id)
    {
      assert Buried(us, id) ==> Buried(vs, id);
      assert v.deleted ==> Buried(vs, v.id);
    }
    forall id | id in t.rows
      ensures id !in t.gone && t.rows[id].id == id && Current(vs, t.rows[id])
    {
      if id in s.rows && t.rows[id] == s.rows[id] {
        assert Current(us, s.rows[id]);
      }
    }
  }

  lemma MeaningIsUnique(vs: seq<Note>, s: Wall, t: Wall)
    requires Consistent(vs) && Means(vs, s) && Means(vs, t)
    ensures s == t
  {
    forall id
      ensures id in s.gone <==> id in t.gone
    {
      assert Buried(vs, id) || !Buried(vs, id);
    }
    forall id | id in s.rows
      ensures id in t.rows && s.rows[id] == t.rows[id]
    {
      assert Current(vs, s.rows[id]);
      assert Current(vs, t.rows[id]);
    }
    forall id | id in t.rows
      ensures id in s.rows
    {
      assert Current(vs, t.rows[id]);
    }
  }

  lemma MeansSameSet(us: seq<Note>, vs: seq<Note>, s: Wall)
    requires Means(us, s) && forall v :: v in us <==> v in vs
    ensures Means(vs, s)
  {
    forall id
      ensures id in s.gone <==> Buried(vs, id)
    {
      assert Buried(us, id) <==> Buried(vs, id);
    }
    forall id | id in s.rows
      ensures Current(vs, s.rows[id])
    {
      assert Current(us, s.rows[id]);
    }
  }

  /** ANY ORDER, ANY REPEATS: two deliveries of the same versions of a consistent history leave the same wall. */
  lemma AnyOrderSameWall(us: seq<Note>, vs: seq<Note>)
    requires Consistent(us) && forall v :: v in us <==> v in vs
    ensures AppliedAll(Wall(map[], {}), us) == AppliedAll(Wall(map[], {}), vs)
    ensures Means(us, AppliedAll(Wall(map[], {}), vs))
  {
    assert Consistent(vs);
    AppliedAllMeans(us);
    AppliedAllMeans(vs);
    MeansSameSet(vs, us, AppliedAll(Wall(map[], {}), vs));
    MeaningIsUnique(us, AppliedAll(Wall(map[], {}), us), AppliedAll(Wall(map[], {}), vs));
  }

  // ---- full reads ------------------------------------------------------------------------------

  /** What a full read leaves: nothing unlisted at or below its mark, everything held above it, and every whole listed note not gone. */
  lemma FullReadReplaces(s: Wall, vs: seq<Note>, mark: int)
    requires Disjoint(s)
    ensures var t := Replaced(s, vs, mark);
      && (forall id | id in t.rows :: id in Ids(vs) || (id in s.rows && s.rows[id] == t.rows[id] && t.rows[id].boardSeq > mark))
      && (forall id | id in s.rows && id !in Ids(vs) && s.rows[id].boardSeq > mark :: id in t.rows && t.rows[id] == s.rows[id])
      && (forall id | id in s.rows && id !in Ids(vs) && s.rows[id].boardSeq <= mark :: id in t.gone)
      && (forall v | v in vs && Complete(v) && v.id !in t.gone :: v.id in t.rows && v.boardSeq <= t.rows[v.id].boardSeq)
  {
    var c := Forgotten(s, LeftOut(s, vs, mark));
    AppliedAllTouches(c, vs);
    AppliedAllForward(c, vs);
  }

  lemma {:induction false} AppliedAllTouches(s: Wall, vs: seq<Note>)
    requires Disjoint(s)
    ensures var t := AppliedAll(s, vs);
      && (forall id | id !in Ids(vs) :: (id in t.rows <==> id in s.rows) && (id in t.gone <==> id in s.gone)
                                        && (id in s.rows ==> t.rows[id] == s.rows[id]))
      && (forall v | v in vs && Complete(v) && v.id !in t.gone :: v.id in t.rows && v.boardSeq <= t.rows[v.id].boardSeq)
    decreases |vs|
  {
    if vs != [] {
      var s1 := Applied(s, vs[0]);
      assert vs == [vs[0]] + vs[1..];
      assert vs[0] in vs;
      assert forall v | v in vs[1..] :: v in vs;
      assert Forward(s, s1);
      AppliedAllTouches(s1, vs[1..]);
      AppliedAllForward(s1, vs[1..]);
    }
  }

  /** EXACTLY WHEN a full read and a copy it does not list may arrive in either order: when the copy is above the mark. */
  lemma CopyAndReadCommute(s: Wall, v: Note, vs: seq<Note>, mark: int)
    requires Disjoint(s) && Complete(v) && v.id !in s.rows && v.id !in s.gone && v.id !in Ids(vs)
    ensures Applied(Replaced(s, vs, mark), v) == Replaced(Applied(s, v), vs, mark) <==> v.boardSeq > mark
  {
    var t := Applied(s, v);
    var c, d := Forgotten(s, LeftOut(s, vs, mark)), Forgotten(t, LeftOut(t, vs, mark));
    AppliedAllTouches(c, vs);
    AppliedAllTouches(d, vs);
    if v.boardSeq > mark {
      assert LeftOut(t, vs, mark) == LeftOut(s, vs, mark);
      assert d == Applied(c, v);
      AppliedAllSwaps(c, vs, v);
    }
  }

  lemma {:induction false} AppliedAllSwaps(s: Wall, vs: seq<Note>, v: Note)
    requires v.id !in Ids(vs)
    ensures AppliedAll(Applied(s, v), vs) == Applied(AppliedAll(s, vs), v)
    decreases |vs|
  {
    if vs != [] {
      assert vs[0] in vs;
      assert forall w | w in vs[1..] :: w in vs;
      assert Applied(Applied(s, v), vs[0]) == Applied(Applied(s, vs[0]), v);
      AppliedAllSwaps(Applied(s, vs[0]), vs[1..], v);
    }
  }

  /** The repair: the same seq is written again, so the last copy of a version is the one kept. */
  lemma SameSeqRepairs(s: Wall, v: Note)
    requires Complete(v) && v.id in s.rows && v.id !in s.gone && s.rows[v.id].boardSeq == v.boardSeq
    ensures Applied(s, v).rows[v.id] == v
    ensures forall id | id in s.rows && id != v.id :: id in Applied(s, v).rows && Applied(s, v).rows[id] == s.rows[id]
  {
  }
}
