/**
 * What a byte-budget cache means: entries from least to most recently used
 * (ios/FamilyConnect/Core/ByteBudgetCache.swift).
 */
module RecencyOrder {
  import opened Wrappers

  datatype Entry<K, V> = Entry(key: K, value: V, cost: nat)

  function Cost<K, V>(s: seq<Entry<K, V>>): nat {
    if s == [] then 0 else s[0].cost + Cost(s[1..])
  }

  predicate Holds<K(==), V>(s: seq<Entry<K, V>>, key: K) {
    exists i | 0 <= i < |s| :: s[i].key == key
  }

  function Without<K(==), V>(s: seq<Entry<K, V>>, key: K): seq<Entry<K, V>> {
    if s == [] then []
    else if s[0].key == key then Without(s[1..], key)
    else [s[0]] + Without(s[1..], key)
  }

  function At<K(==), V>(s: seq<Entry<K, V>>, key: K): (e: Entry<K, V>)
    requires Holds(s, key)
    ensures e in s && e.key == key
  {
    if s[0].key == key then s[0]
    else
      assert forall i | 0 < i < |s| :: s[i] == s[1..][i - 1];
      At(s[1..], key)
  }

  /** Oldest first, until the budget holds or one entry is left. */
  function Evicted<K, V>(s: seq<Entry<K, V>>, budget: nat): seq<Entry<K, V>> {
    if |s| > 1 && Cost(s) > budget then Evicted(s[1..], budget) else s
  }

  function Inserted<K(==), V>(s: seq<Entry<K, V>>, key: K, value: V, cost: int, budget: nat): seq<Entry<K, V>> {
    Evicted(Without(s, key) + [Entry(key, value, Max(cost, 0))], budget)
  }

  function Touched<K(==), V>(s: seq<Entry<K, V>>, key: K): seq<Entry<K, V>> {
    if Holds(s, key) then Without(s, key) + [At(s, key)] else s
  }

  ghost predicate Distinct<K, V>(s: seq<Entry<K, V>>) {
    forall i, j | 0 <= i < j < |s| :: s[i].key != s[j].key
  }

  // ---- sums and removals -----------------------------------------------------------------------

  lemma {:induction false} CostAdds<K, V>(a: seq<Entry<K, V>>, b: seq<Entry<K, V>>)
    ensures Cost(a + b) == Cost(a) + Cost(b)
    decreases |a|
  {
    if a == [] {
      assert a + b == b;
    } else {
      CostAdds(a[1..], b);
      assert (a + b)[1..] == a[1..] + b;
    }
  }

  lemma {:induction false} WithoutMembers<K, V>(s: seq<Entry<K, V>>, key: K)
    ensures forall e :: e in Without(s, key) <==> e in s && e.key != key
    ensures !Holds(Without(s, key), key)
    ensures |Without(s, key)| <= |s|
    ensures Cost(Without(s, key)) <= Cost(s)
    decreases |s|
  {
    if s != [] {
      WithoutMembers(s[1..], key);
      assert s == [s[0]] + s[1..];
    }
  }

  lemma {:induction false} WithoutIn<K, V>(s: seq<Entry<K, V>>, key: K, e: Entry<K, V>)
    requires e in Without(s, key)
    ensures e in s && e.key != key
    decreases |s|
  {
    if s[0].key == key || e != s[0] {
      WithoutIn(s[1..], key, e);
    }
  }

  lemma {:induction false} WithoutDistinct<K, V>(s: seq<Entry<K, V>>, key: K)
    requires Distinct(s)
    ensures Distinct(Without(s, key))
    decreases |s|
  {
    if s != [] {
      var r := Without(s[1..], key);
      WithoutDistinct(s[1..], key);
      WithoutMembers(s[1..], key);
      forall j | 0 <= j < |r|
        ensures r[j].key != s[0].key
      {
        WithoutIn(s[1..], key, r[j]);
        var k := PlaceOf(s[1..], r[j]);
        assert s[k + 1] == r[j];
      }
    }
  }

  lemma PlaceOf<T>(s: seq<T>, e: T) returns (k: nat)
    requires e in s
    ensures k < |s| && s[k] == e
  {
    k :| 0 <= k < |s| && s[k] == e;
  }

  /** With distinct keys, taking a key out is cutting at its place. */
  lemma {:induction false} WithoutCuts<K, V>(s: seq<Entry<K, V>>, i: nat)
    requires Distinct(s) && i < |s|
    ensures Without(s, s[i].key) == s[..i] + s[i + 1..]
    decreases |s|
  {
    if i == 0 {
      WithoutNothing(s[1..], s[0].key);
      assert s[..0] + s[1..] == s[1..];
    } else {
      assert s[0].key != s[i].key;
      WithoutCuts(s[1..], i - 1);
      assert s[1..][i - 1] == s[i];
      assert [s[0]] + s[1..][..i - 1] == s[..i];
      assert s[1..][i..] == s[i + 1..];
    }
  }

  lemma {:induction false} WithoutNothing<K, V>(s: seq<Entry<K, V>>, key: K)
    requires !Holds(s, key)
    ensures Without(s, key) == s
    decreases |s|
  {
    if s != [] {
      assert s[0].key != key;
      assert forall i | 0 <= i < |s[1..]| :: s[1..][i] == s[i + 1];
      WithoutNothing(s[1..], key);
    }
  }

  lemma {:induction false} AtIs<K, V>(s: seq<Entry<K, V>>, i: nat)
    requires Distinct(s) && i < |s|
    ensures Holds(s, s[i].key) && At(s, s[i].key) == s[i]
    decreases |s|
  {
    if i > 0 {
      assert s[0].key != s[i].key;
      AtIs(s[1..], i - 1);
      assert s[1..][i - 1] == s[i];
    }
  }

  // ---- eviction --------------------------------------------------------------------------------

  /** EVICTION takes the shortest run of oldest entries that brings the cost within the budget, and never the newest entry. */
  lemma {:induction false} EvictsTheShortestPrefix<K, V>(s: seq<Entry<K, V>>, budget: nat)
    requires s != []
    ensures var r := Evicted(s, budget);
      && r != [] && |r| <= |s| && r == s[|s| - |r|..] && r[|r| - 1] == s[|s| - 1]
      && (Cost(r) <= budget || |r| == 1)
      && forall k | 0 <= k < |s| - |r| :: Cost(s[k..]) > budget
    decreases |s|
  {
    if |s| > 1 && Cost(s) > budget {
      EvictsTheShortestPrefix(s[1..], budget);
      var r := Evicted(s, budget);
      assert s[1..][|s| - 1 - |r|..] == s[|s| - |r|..];
      forall k | 0 <= k < |s| - |r|
        ensures Cost(s[k..]) > budget
      {
        if k == 0 {
          assert s[0..] == s;
        } else {
          assert s[k..] == s[1..][k - 1..];
        }
      }
    } else {
      assert s[0..] == s;
    }
  }

  // ---- every run of operations -----------------------------------------------------------------

  datatype Op<K, V> = Insert(key: K, value: V, cost: int) | Read(key: K) | Remove(key: K) | RemoveAll

  function Applied<K(==), V>(s: seq<Entry<K, V>>, op: Op<K, V>, budget: nat): seq<Entry<K, V>> {
    match op
    case Insert(key, value, cost) => Inserted(s, key, value, cost, budget)
    case Read(key) => Touched(s, key)
    case Remove(key) => Without(s, key)
    case RemoveAll => []
  }

  /** What an empty cache holds after a run, the last operation last. */
  function Ran<K(==), V>(ops: seq<Op<K, V>>, budget: nat): seq<Entry<K, V>>
    decreases |ops|
  {
    if ops == [] then [] else Applied(Ran(ops[..|ops| - 1], budget), ops[|ops| - 1], budget)
  }

  predicate Uses<K(==), V>(op: Op<K, V>, key: K) {
    (op.Insert? || op.Read?) && op.key == key
  }

  /** When a key was last used: one more than the place of its last insert or read, 0 if none. */
  function LastUse<K(==), V>(ops: seq<Op<K, V>>, key: K): (t: nat)
    ensures t <= |ops|
    decreases |ops|
  {
    if ops == [] then 0
    else if Uses(ops[|ops| - 1], key) then |ops|
    else LastUse(ops[..|ops| - 1], key)
  }

  /** The last thing inserted under a key. */
  function LastInsert<K(==), V>(ops: seq<Op<K, V>>, key: K): Option<Entry<K, V>>
    decreases |ops|
  {
    if ops == [] then None
    else
      var op := ops[|ops| - 1];
      if op.Insert? && op.key == key then Some(Entry(key, op.value, Max(op.cost, 0)))
      else LastInsert(ops[..|ops| - 1], key)
  }

  /** Least recently used first, and never a stale value. */
  ghost predicate ByUse<K, V>(s: seq<Entry<K, V>>, ops: seq<Op<K, V>>) {
    && (forall i, j | 0 <= i < j < |s| :: LastUse(ops, s[i].key) < LastUse(ops, s[j].key))
    && (forall i | 0 <= i < |s| :: LastInsert(ops, s[i].key) == Some(s[i]))
  }

  lemma {:induction false} WithoutByUse<K, V>(s: seq<Entry<K, V>>, ops: seq<Op<K, V>>, key: K)
    requires ByUse(s, ops) && Distinct(s)
    ensures ByUse(Without(s, key), ops)
  {
    if Holds(s, key) {
      var i :| 0 <= i < |s| && s[i].key == key;
      WithoutCuts(s, i);
    } else {
      WithoutNothing(s, key);
    }
  }

  /** A use of one key moves no other. */
  lemma OtherKeysStand<K, V>(s: seq<Entry<K, V>>, ops: seq<Op<K, V>>, op: Op<K, V>)
    requires ByUse(s, ops)
    requires forall i | 0 <= i < |s| :: !Uses(op, s[i].key)
    ensures ByUse(s, ops + [op])
    ensures forall i | 0 <= i < |s| :: LastUse(ops + [op], s[i].key) <= |ops|
  {
    assert (ops + [op])[..|ops|] == ops;
    assert forall i | 0 <= i < |s| :: LastUse(ops + [op], s[i].key) == LastUse(ops, s[i].key);
    assert forall i | 0 <= i < |s| :: LastInsert(ops + [op], s[i].key) == LastInsert(ops, s[i].key);
  }

  lemma MembersByUse<K, V>(s: seq<Entry<K, V>>, ops: seq<Op<K, V>>, e: Entry<K, V>)
    requires ByUse(s, ops) && e in s
    ensures LastInsert(ops, e.key) == Some(e)
  {
  }

  ghost predicate Good<K, V>(s: seq<Entry<K, V>>, ops: seq<Op<K, V>>, budget: nat) {
    Distinct(s) && ByUse(s, ops) && (Cost(s) <= budget || |s| == 1)
  }

  /** An entry used now goes to the young end of the others. */
  lemma UsedLast<K, V>(s: seq<Entry<K, V>>, ops: seq<Op<K, V>>, op: Op<K, V>, e: Entry<K, V>)
    requires Distinct(s) && ByUse(s, ops) && Uses(op, e.key)
    requires LastInsert(ops + [op], e.key) == Some(e)
    ensures var r := Without(s, e.key) + [e]; Distinct(r) && ByUse(r, ops + [op])
  {
    var others := Without(s, e.key);
    WithoutMembers(s, e.key);
    WithoutDistinct(s, e.key);
    WithoutByUse(s, ops, e.key);
    forall i | 0 <= i < |others|
      ensures others[i].key != e.key
    {
      assert others[i] in others;
    }
    OtherKeysStand(others, ops, op);
  }

  lemma InsertKeeps<K, V>(s: seq<Entry<K, V>>, ops: seq<Op<K, V>>, op: Op<K, V>, budget: nat)
    requires Good(s, ops, budget) && op.Insert?
    ensures Good(Applied(s, op, budget), ops + [op], budget)
  {
    var e := Entry(op.key, op.value, Max(op.cost, 0));
    var all := Without(s, op.key) + [e];
    UsedLast(s, ops, op, e);
    EvictsTheShortestPrefix(all, budget);
  }

  lemma ReadKeeps<K, V>(s: seq<Entry<K, V>>, ops: seq<Op<K, V>>, op: Op<K, V>, budget: nat)
    requires Good(s, ops, budget) && op.Read?
    ensures Good(Applied(s, op, budget), ops + [op], budget)
  {
    assert (ops + [op])[..|ops|] == ops;
    if Holds(s, op.key) {
      var e := At(s, op.key);
      MembersByUse(s, ops, e);
      UsedLast(s, ops, op, e);
      var i :| 0 <= i < |s| && s[i] == e;
      WithoutCuts(s, i);
      CostAdds(s[..i], s[i + 1..]);
      CostAdds(s[..i] + s[i + 1..], [e]);
      CostAdds(s[..i], [e] + s[i + 1..]);
      CostAdds([e], s[i + 1..]);
      assert s == s[..i] + ([e] + s[i + 1..]);
    } else {
      OtherKeysStand(s, ops, op);
    }
  }

  lemma RemoveKeeps<K, V>(s: seq<Entry<K, V>>, ops: seq<Op<K, V>>, op: Op<K, V>, budget: nat)
    requires Good(s, ops, budget) && (op.Remove? || op.RemoveAll?)
    ensures Good(Applied(s, op, budget), ops + [op], budget)
  {
    OtherKeysStand(s, ops, op);
    if op.Remove? {
      WithoutMembers(s, op.key);
      WithoutDistinct(s, op.key);
      WithoutByUse(s, ops + [op], op.key);
    }
  }

  /**
   * EVERY RUN of operations leaves the cache in the order its keys were last used, each holding what was last
   * inserted under it, within its budget unless only one entry is left.
   */
  lemma {:induction false} EveryRunIsByUse<K, V>(ops: seq<Op<K, V>>, budget: nat)
    ensures Good(Ran(ops, budget), ops, budget)
    decreases |ops|
  {
    if ops != [] {
      var n := |ops| - 1;
      var before, op := ops[..n], ops[n];
      EveryRunIsByUse(before, budget);
      assert ops == before + [op];
      var s := Ran(before, budget);
      match op
      case Insert(_, _, _) => InsertKeeps(s, before, op, budget);
      case Read(_) => ReadKeeps(s, before, op, budget);
      case _ => RemoveKeeps(s, before, op, budget);
    }
  }

  /** What was just inserted is there to be read, whatever it costs. */
  lemma NewestSurvives<K, V>(s: seq<Entry<K, V>>, key: K, value: V, cost: int, budget: nat)
    ensures var r := Inserted(s, key, value, cost, budget);
      r != [] && r[|r| - 1] == Entry(key, value, Max(cost, 0)) && Holds(r, key)
  {
    EvictsTheShortestPrefix(Without(s, key) + [Entry(key, value, Max(cost, 0))], budget);
  }
}
