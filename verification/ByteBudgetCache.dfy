/**
 * The cache as it is built — a dictionary of nodes in a doubly linked list — held to the recency-ordered
 * sequence it stands for (ios/FamilyConnect/Core/ByteBudgetCache.swift).
 */
module ByteBudgetCache {
  import opened Wrappers
  import opened RecencyOrder

  class Node<K(==), V(0)> {
    const key: K
    var value: V
    var cost: nat
    var older: Node?<K, V>
    var newer: Node?<K, V>

    constructor (key: K, value: V, cost: nat)
      ensures this.key == key && this.value == value && this.cost == cost && older == null && newer == null
    {
      this.key, this.value, this.cost, older, newer := key, value, cost, null, null;
    }
  }

  class Cache<K(==), V(0)> {
    const budget: nat
    var totalCost: int
    var nodes: map<K, Node<K, V>>
    var oldest: Node?<K, V>
    var newest: Node?<K, V>
    /** The nodes from oldest to newest, and the entries they stand for. */
    ghost var order: seq<Node<K, V>>
    ghost var entries: seq<Entry<K, V>>

    /** The pointers follow the order. */
    ghost predicate Linked()
      reads `order, `oldest, `newest, order`older, order`newer
    {
      && (forall i, j | 0 <= i < j < |order| :: order[i] != order[j])
      && (forall i | 0 < i < |order| :: order[i].older == order[i - 1])
      && (forall i | 0 <= i < |order| - 1 :: order[i].newer == order[i + 1])
      && (order != [] ==> order[0].older == null && order[|order| - 1].newer == null)
      && oldest == (if order == [] then null else order[0])
      && newest == (if order == [] then null else order[|order| - 1])
    }

    ghost predicate Valid()
      reads this, order
    {
      Linked() && Mirrors(order, entries) && Indexed(nodes, order) && totalCost == Cost(entries)
    }

    constructor (budget: int)
      ensures Valid() && this.budget == Max(budget, 0) && entries == []
    {
      this.budget := Max(budget, 0);
      totalCost, nodes, oldest, newest, order, entries := 0, map[], null, null, [], [];
    }

    lemma HeldIsIndexed(key: K)
      requires Indexed(nodes, order) && Mirrors(order, entries)
      ensures Distinct(entries)
      ensures key in nodes <==> Holds(entries, key)
    {
      forall i, j | 0 <= i < j < |order|
        ensures entries[i].key != entries[j].key
      {
        KeysDiffer(nodes, order, i, j);
      }
      if key in nodes {
        var i := HasAPlace(nodes, order, key);
        assert entries[i].key == key;
      } else {
        forall i | 0 <= i < |order|
          ensures entries[i].key != key
        {
          FoundByKey(nodes, order, i);
        }
      }
    }

    method Contains(key: K) returns (held: bool)
      requires Valid()
      ensures held <==> Holds(entries, key)
    {
      HeldIsIndexed(key);
      held := key in nodes;
    }

    // ---- the list ------------------------------------------------------------------------------

    method Append(node: Node<K, V>)
      requires Linked() && node !in order
      modifies this`oldest, this`newest, this`order, node`older, node`newer, order`newer
      ensures Linked() && order == old(order) + [node]
    {
      ghost var was := order;
      node.older := newest;
      node.newer := null;
      if newest != null {
        newest.newer := node;
      }
      newest := node;
      if oldest == null {
        oldest := node;
      }
      order := order + [node];
      assert forall i | 0 <= i < |was| :: order[i] == was[i];
    }

    method Unlink(node: Node<K, V>, ghost i: nat)
      requires Linked() && i < |order| && order[i] == node
      modifies this`oldest, this`newest, this`order, order`older, order`newer
      ensures Linked() && order == old(order[..i] + order[i + 1..])
      ensures node !in order
    {
      ghost var was := order;
      assert node.older == (if i == 0 then null else was[i - 1]);
      assert node.newer == (if i == |was| - 1 then null else was[i + 1]);
      if node.older != null {
        node.older.newer := node.newer;
      } else {
        oldest := node.newer;
      }
      if node.newer != null {
        node.newer.older := node.older;
      } else {
        newest := node.older;
      }
      node.older := null;
      node.newer := null;
      order := order[..i] + order[i + 1..];
      assert forall j | 0 <= j < |order| :: order[j] == if j < i then was[j] else was[j + 1];
    }

    method Relink(node: Node<K, V>, ghost i: nat)
      requires Linked() && i < |order| && order[i] == node
      modifies this`oldest, this`newest, this`order, order`older, order`newer
      ensures Linked() && order == old(order[..i] + order[i + 1..] + [node])
    {
      if node == newest {
        assert order == order[..i] + order[i + 1..] + [node];
        return;
      }
      Unlink(node, i);
      Append(node);
    }

    method MoveToNewest(node: Node<K, V>, ghost i: nat)
      requires Valid() && i < |order| && order[i] == node
      modifies this`oldest, this`newest, this`order, this`entries, order`older, order`newer
      ensures Valid() && order == old(order[..i] + order[i + 1..] + [node])
      ensures entries == old(entries[..i] + entries[i + 1..] + [entries[i]])
    {
      MovedIndexed(nodes, order, i);
      MirrorsCut(order, entries, i);
      ghost var moved := entries[..i] + entries[i + 1..] + [entries[i]];
      MovedCost(entries, i, moved);
      Relink(node, i);
      entries := moved;
    }

    /** A node off the list leaves the dictionary and the total too. */
    method Forget(node: Node<K, V>, ghost cut: seq<Entry<K, V>>)
      requires Linked() && Mirrors(order, cut) && Indexed(nodes - {node.key}, order) && totalCost == Cost(cut) + node.cost
      modifies this`entries, this`nodes, this`totalCost
      ensures Valid() && entries == cut
    {
      nodes := nodes - {node.key};
      totalCost := totalCost - node.cost;
      entries := cut;
    }

    method RemoveNode(node: Node<K, V>, ghost i: nat)
      requires Valid() && i < |order| && order[i] == node
      modifies this`oldest, this`newest, this`order, this`entries, this`nodes, this`totalCost, order`older, order`newer
      ensures Valid() && order == old(order[..i] + order[i + 1..])
      ensures entries == old(entries[..i] + entries[i + 1..])
    {
      CutIndexed(nodes, order, i);
      MirrorsCut(order, entries, i);
      CutCost(entries, i);
      ghost var cut := entries[..i] + entries[i + 1..];
      assert totalCost == Cost(cut) + node.cost;
      Unlink(node, i);
      Forget(node, cut);
    }

    // ---- the cache -----------------------------------------------------------------------------

    /** The value, if held, made the most recently used. */
    method Value(key: K) returns (value: Option<V>)
      requires Valid()
      modifies this`oldest, this`newest, this`order, this`entries, order`older, order`newer
      ensures Valid() && entries == Touched(old(entries), key)
      ensures value == if Holds(old(entries), key) then Some(At(old(entries), key).value) else None
    {
      HeldIsIndexed(key);
      if key !in nodes {
        return None;
      }
      var node := nodes[key];
      ghost var i := HasAPlace(nodes, order, key);
      AtIs(entries, i);
      WithoutCuts(entries, i);
      MoveToNewest(node, i);
      value := Some(node.value);
    }

    /** The node at i given another value and cost where it stands. */
    method Rewrite(node: Node<K, V>, ghost i: nat, value: V, cost: nat)
      requires Valid() && i < |order| && order[i] == node
      modifies this`totalCost, this`entries, node`value, node`cost
      ensures Valid() && entries == old(entries)[i := Entry(node.key, value, cost)]
    {
      ghost var new' := entries[i := Entry(node.key, value, cost)];
      RewrittenCost(entries, i, new'[i]);
      totalCost := totalCost + cost - node.cost;
      node.value := value;
      node.cost := cost;
      entries := new';
      assert Linked();
      assert Mirrors(order, entries);
    }

    /** A node for a key not held, at the young end. */
    method Add(node: Node<K, V>)
      requires Valid() && node.key !in nodes && node !in order
      modifies this`oldest, this`newest, this`order, this`entries, this`nodes, this`totalCost, node`older, node`newer, order`newer
      ensures Valid() && order == old(order) + [node]
      ensures entries == old(entries) + [Entry(node.key, node.value, node.cost)]
    {
      AppendIndexed(nodes, order, node);
      CostAdds(entries, [Entry(node.key, node.value, node.cost)]);
      nodes := nodes[node.key := node];
      totalCost := totalCost + node.cost;
      entries := entries + [Entry(node.key, node.value, node.cost)];
      Append(node);
      assert Mirrors(order, entries);
    }

    /** A held node given another value and cost, and made the newest. */
    method Renew(node: Node<K, V>, ghost i: nat, value: V, cost: nat)
      requires Valid() && i < |order| && order[i] == node
      modifies this`oldest, this`newest, this`order, this`entries, this`totalCost, order
      ensures Valid() && order == old(order[..i] + order[i + 1..] + [node])
      ensures entries == old(entries[..i] + entries[i + 1..]) + [Entry(node.key, value, cost)]
    {
      ghost var others := entries[..i] + entries[i + 1..];
      Rewrite(node, i, value, cost);
      assert entries[..i] + entries[i + 1..] == others;
      MoveToNewest(node, i);
    }

    method Put(key: K, value: V, cost: nat)
      requires Valid()
      modifies this`oldest, this`newest, this`order, this`entries, this`nodes, this`totalCost, order
      ensures Valid() && entries == Without(old(entries), key) + [Entry(key, value, cost)]
      ensures forall i | 0 <= i < |order| :: order[i] in old(order) || fresh(order[i])
    {
      HeldIsIndexed(key);
      if key in nodes {
        var node := nodes[key];
        ghost var i := HasAPlace(nodes, order, key);
        WithoutCuts(entries, i);
        Renew(node, i, value, cost);
      } else {
        WithoutNothing(entries, key);
        var node := new Node(key, value, cost);
        Add(node);
      }
    }

    /** Oldest first, until the budget holds or one entry is left. */
    method Evict()
      requires Valid()
      modifies this`oldest, this`newest, this`order, this`entries, this`nodes, this`totalCost, order`older, order`newer
      ensures Valid() && entries == Evicted(old(entries), budget)
      ensures forall i | 0 <= i < |order| :: order[i] in old(order)
    {
      while totalCost > budget && oldest != null && oldest != newest
        invariant Valid() && Evicted(entries, budget) == Evicted(old(entries), budget)
        invariant |order| <= |old(order)| && order == old(order)[|old(order)| - |order|..]
        decreases |entries|
      {
        assert |order| > 1;
        ghost var before := entries;
        RemoveNode(oldest, 0);
        assert entries == before[1..];
      }
      assert |order| > 1 ==> order[0] != order[|order| - 1];
    }

    /** Hold a value, replacing what was there, then evict: never the entry just inserted. */
    method Insert(key: K, value: V, cost: int)
      requires Valid()
      modifies this`oldest, this`newest, this`order, this`entries, this`nodes, this`totalCost, order
      ensures Valid() && entries == Inserted(old(entries), key, value, cost, budget)
      ensures forall i | 0 <= i < |order| :: order[i] in old(order) || fresh(order[i])
    {
      Put(key, value, Max(cost, 0));
      Evict();
    }

    method Remove(key: K)
      requires Valid()
      modifies this`oldest, this`newest, this`order, this`entries, this`nodes, this`totalCost, order`older, order`newer
      ensures Valid() && entries == Without(old(entries), key)
      ensures forall i | 0 <= i < |order| :: order[i] in old(order)
    {
      HeldIsIndexed(key);
      if key in nodes {
        var node := nodes[key];
        ghost var i := HasAPlace(nodes, order, key);
        WithoutCuts(entries, i);
        RemoveNode(node, i);
      } else {
        WithoutNothing(entries, key);
      }
    }

    method KeysOldestFirst() returns (keys: seq<K>)
      requires Valid()
      ensures |keys| == |entries| && forall i | 0 <= i < |keys| :: keys[i] == entries[i].key
    {
      keys := [];
      var node := oldest;
      while node != null
        invariant |keys| <= |order| && node == (if |keys| == |order| then null else order[|keys|])
        invariant forall i | 0 <= i < |keys| :: keys[i] == entries[i].key
        decreases |order| - |keys|
      {
        keys := keys + [node.key];
        node := node.newer;
      }
    }

    /** Every link broken, then everything forgotten. */
    method RemoveAll()
      requires Valid()
      modifies this`oldest, this`newest, this`order, this`entries, this`nodes, this`totalCost, order`older, order`newer
      ensures Valid() && entries == [] && totalCost == 0
      ensures forall n | n in old(order) :: n.older == null && n.newer == null
    {
      var node := oldest;
      ghost var k := 0;
      while node != null
        invariant 0 <= k <= |order| && order == old(order) && node == (if k == |order| then null else order[k])
        invariant forall i | 0 <= i < k :: order[i].older == null && order[i].newer == null
        invariant forall i | k <= i < |order| - 1 :: order[i].newer == order[i + 1]
        invariant order != [] ==> order[|order| - 1].newer == null
        invariant forall i, j | 0 <= i < j < |order| :: order[i] != order[j]
        decreases |order| - k
      {
        var current := node;
        node := current.newer;
        current.older := null;
        current.newer := null;
        k := k + 1;
      }
      nodes := map[];
      oldest := null;
      newest := null;
      totalCost := 0;
      order, entries := [], [];
    }
  }

  /** The nodes hold what the entries say. */
  ghost predicate Mirrors<K, V(0)>(order: seq<Node<K, V>>, entries: seq<Entry<K, V>>)
    reads order`value, order`cost
  {
    && |entries| == |order|
    && forall i | 0 <= i < |entries| ::
         entries[i].key == order[i].key && entries[i].value == order[i].value && entries[i].cost == order[i].cost
  }

  lemma MirrorsCut<K, V(0)>(order: seq<Node<K, V>>, entries: seq<Entry<K, V>>, i: nat)
    requires Mirrors(order, entries) && i < |order|
    ensures Mirrors(order[..i] + order[i + 1..], entries[..i] + entries[i + 1..])
    ensures Mirrors(order[..i] + order[i + 1..] + [order[i]], entries[..i] + entries[i + 1..] + [entries[i]])
  {
  }

  /** The dictionary finds each node of the list by its key, and nothing else. */
  ghost predicate Indexed<K, V(0)>(nodes: map<K, Node<K, V>>, order: seq<Node<K, V>>)
    decreases |order|
  {
    if order == [] then nodes == map[]
    else
      var n := order[|order| - 1];
      n.key in nodes && nodes[n.key] == n && Indexed(nodes - {n.key}, order[..|order| - 1])
  }

  lemma {:induction false} FoundByKey<K, V(0)>(nodes: map<K, Node<K, V>>, order: seq<Node<K, V>>, i: nat)
    requires Indexed(nodes, order) && i < |order|
    ensures order[i].key in nodes && nodes[order[i].key] == order[i]
    decreases |order|
  {
    var n := |order| - 1;
    if i < n {
      FoundByKey(nodes - {order[n].key}, order[..n], i);
    }
  }

  lemma {:induction false} HasAPlace<K, V(0)>(nodes: map<K, Node<K, V>>, order: seq<Node<K, V>>, key: K) returns (i: nat)
    requires Indexed(nodes, order) && key in nodes
    ensures i < |order| && order[i] == nodes[key] && order[i].key == key
    decreases |order|
  {
    i := |order| - 1;
    if order[i].key != key {
      i := HasAPlace(nodes - {order[i].key}, order[..i], key);
    }
  }

  lemma {:induction false} KeysDiffer<K, V(0)>(nodes: map<K, Node<K, V>>, order: seq<Node<K, V>>, i: nat, j: nat)
    requires Indexed(nodes, order) && i < j < |order|
    ensures order[i].key != order[j].key
    decreases |order|
  {
    var n := |order| - 1;
    if j < n {
      KeysDiffer(nodes - {order[n].key}, order[..n], i, j);
    } else {
      FoundByKey(nodes - {order[n].key}, order[..n], i);
    }
  }

  lemma {:induction false} CutIndexed<K, V(0)>(nodes: map<K, Node<K, V>>, order: seq<Node<K, V>>, i: nat)
    requires Indexed(nodes, order) && i < |order|
    ensures Indexed(nodes - {order[i].key}, order[..i] + order[i + 1..])
    decreases |order|
  {
    var n := |order| - 1;
    var cut := order[..i] + order[i + 1..];
    if i == n {
      assert cut == order[..n];
    } else {
      var key, last := order[i].key, order[n].key;
      KeysDiffer(nodes, order, i, n);
      CutIndexed(nodes - {last}, order[..n], i);
      assert cut[..|cut| - 1] == order[..n][..i] + order[..n][i + 1..];
      assert (nodes - {key}) - {last} == (nodes - {last}) - {key};
    }
  }

  lemma AppendIndexed<K, V(0)>(nodes: map<K, Node<K, V>>, order: seq<Node<K, V>>, node: Node<K, V>)
    requires Indexed(nodes, order) && node.key !in nodes
    ensures Indexed(nodes[node.key := node], order + [node])
  {
    assert (order + [node])[..|order|] == order;
    assert nodes[node.key := node] - {node.key} == nodes;
  }

  lemma MovedIndexed<K, V(0)>(nodes: map<K, Node<K, V>>, order: seq<Node<K, V>>, i: nat)
    requires Indexed(nodes, order) && i < |order|
    ensures Indexed(nodes, order[..i] + order[i + 1..] + [order[i]])
  {
    var key := order[i].key;
    FoundByKey(nodes, order, i);
    CutIndexed(nodes, order, i);
    AppendIndexed(nodes - {key}, order[..i] + order[i + 1..], order[i]);
    assert (nodes - {key})[key := order[i]] == nodes;
  }

  lemma CutCost<K, V>(s: seq<Entry<K, V>>, i: nat)
    requires i < |s|
    ensures Cost(s[..i] + s[i + 1..]) == Cost(s) - s[i].cost
  {
    CostAdds(s[..i], s[i + 1..]);
    CostAdds(s[..i], [s[i]] + s[i + 1..]);
    assert ([s[i]] + s[i + 1..])[1..] == s[i + 1..];
    assert s == s[..i] + ([s[i]] + s[i + 1..]);
  }

  lemma MovedCost<K, V>(s: seq<Entry<K, V>>, i: nat, t: seq<Entry<K, V>>)
    requires i < |s| && t == s[..i] + s[i + 1..] + [s[i]]
    ensures Cost(t) == Cost(s)
  {
    CutCost(s, i);
    CostAdds(s[..i] + s[i + 1..], [s[i]]);
  }

  lemma RewrittenCost<K, V>(s: seq<Entry<K, V>>, i: nat, e: Entry<K, V>)
    requires i < |s|
    ensures Cost(s[i := e]) == Cost(s) - s[i].cost + e.cost
  {
    CutCost(s, i);
    CutCost(s[i := e], i);
    assert s[i := e][..i] == s[..i] && s[i := e][i + 1..] == s[i + 1..];
  }
}
