/**
 * A page of messages applied with its lookups prefetched, against the same messages applied one at a time
 * (ios/FamilyConnect/Core/ChatSyncCoordinator.swift). One chat's rows, in the order the store fetches them.
 */
module PageUpsert {
  import opened Wrappers

  /** A row's own key: minted here for a send, or made of the server's id. */
  datatype Key = Minted(n: int) | Server(id: int)

  datatype Row = Row(key: Key, serverID: Option<int>, client: Option<string>, body: string, editSeq: nat, sent: bool)

  datatype Message = Message(id: int, client: Option<string>, body: string, editSeq: nat)

  // ---- one message at a time -------------------------------------------------------------------

  /** The first row a query finds, if any. */
  function FindClient(rows: seq<Row>, client: string): (at: Option<nat>)
    ensures at.Some? ==> at.value < |rows| && rows[at.value].client == Some(client)
    ensures forall i | 0 <= i < (if at.Some? then at.value else |rows|) :: rows[i].client != Some(client)
    decreases |rows|
  {
    if rows == [] then None
    else
      var n := |rows| - 1;
      var before := FindClient(rows[..n], client);
      if before.Some? then before else if rows[n].client == Some(client) then Some(n) else None
  }

  function FindKey(rows: seq<Row>, id: int): (at: Option<nat>)
    ensures at.Some? ==> at.value < |rows| && rows[at.value].key == Server(id)
    ensures forall i | 0 <= i < (if at.Some? then at.value else |rows|) :: rows[i].key != Server(id)
    decreases |rows|
  {
    if rows == [] then None
    else
      var n := |rows| - 1;
      var before := FindKey(rows[..n], id);
      if before.Some? then before else if rows[n].key == Server(id) then Some(n) else None
  }

  /** A body is replaced by an edit no older than the one held. */
  function Bodied(row: Row, m: Message): Row {
    if m.editSeq >= row.editSeq then row.(body := m.body, editSeq := m.editSeq) else row
  }

  /** What a message does to the row it was found to be, or to none. */
  function Put(rows: seq<Row>, m: Message, mine: Option<nat>, held: Option<nat>): seq<Row>
    requires mine.Some? ==> mine.value < |rows|
    requires held.Some? ==> held.value < |rows|
  {
    if mine.Some? then rows[mine.value := Bodied(rows[mine.value], m).(serverID := Some(m.id), sent := true)]
    else if held.Some? then rows[held.value := Bodied(rows[held.value], m).(sent := true)]
    else rows + [Row(Server(m.id), Some(m.id), m.client, m.body, m.editSeq, true)]
  }

  function Mine(rows: seq<Row>, m: Message): (at: Option<nat>)
    ensures at.Some? ==> at.value < |rows| && rows[at.value].client == m.client && m.client.Some?
  {
    if m.client.Some? then FindClient(rows, m.client.value) else None
  }

  function Upserted(rows: seq<Row>, m: Message): seq<Row> {
    Put(rows, m, Mine(rows, m), FindKey(rows, m.id))
  }

  function UpsertedAll(rows: seq<Row>, page: seq<Message>): seq<Row>
    decreases |page|
  {
    if page == [] then rows else UpsertedAll(Upserted(rows, page[0]), page[1..])
  }

  // ---- the prefetch ----------------------------------------------------------------------------

  /** The keys a page will ask for, and the first row seen under each. */
  datatype Lookup = Lookup(ids: set<int>, clients: set<string>, byKey: map<int, nat>, byClient: map<string, nat>)

  /** A row indexed under both its keys; the first row seen for a key keeps it. */
  function Noted(l: Lookup, row: Row, at: nat): Lookup {
    l.(byKey := if row.key.Server? && row.key.id !in l.byKey then l.byKey[row.key.id := at] else l.byKey,
       byClient := if row.client.Some? && row.client.value !in l.byClient then l.byClient[row.client.value := at] else l.byClient)
  }

  function Ids(page: seq<Message>): set<int> {
    set i | 0 <= i < |page| :: page[i].id
  }

  /** An empty client id is left to the ordinary query. */
  function Clients(page: seq<Message>): set<string> {
    set i | 0 <= i < |page| && page[i].client.Some? && page[i].client.value != "" :: page[i].client.value
  }

  function Low(page: seq<Message>): int
    requires page != []
  {
    if |page| == 1 then page[0].id else Min(page[0].id, Low(page[1..]))
  }

  function High(page: seq<Message>): int
    requires page != []
  {
    if |page| == 1 then page[0].id else Max(page[0].id, High(page[1..]))
  }

  /** What the one query brings back: rows with no server id, and those in the page's range. */
  predicate Fetched(row: Row, low: int, high: int) {
    row.serverID.None? || low <= row.serverID.value <= high
  }

  function Prefetched(rows: seq<Row>, l: Lookup, low: int, high: int): Lookup
    decreases |rows|
  {
    if rows == [] then l
    else
      var n := |rows| - 1;
      var before := Prefetched(rows[..n], l, low, high);
      if Fetched(rows[n], low, high) then Noted(before, rows[n], n) else before
  }

  function MineVia(l: Lookup, rows: seq<Row>, m: Message): Option<nat> {
    if m.client.None? then None
    else if m.client.value in l.clients then
      if m.client.value in l.byClient then Some(l.byClient[m.client.value]) else None
    else FindClient(rows, m.client.value)
  }

  function HeldVia(l: Lookup, rows: seq<Row>, m: Message): Option<nat> {
    if m.id in l.ids then
      if m.id in l.byKey then Some(l.byKey[m.id]) else None
    else FindKey(rows, m.id)
  }

  /** The lookup answers what the store would, for every key it covers. */
  ghost predicate Answers(l: Lookup, rows: seq<Row>) {
    && (forall id | id in l.ids :: FindKey(rows, id) == if id in l.byKey then Some(l.byKey[id]) else None)
    && (forall c | c in l.clients :: FindClient(rows, c) == if c in l.byClient then Some(l.byClient[c]) else None)
  }

  /** No row the query leaves out carries a key the page asks for. */
  ghost predicate NoStranger(rows: seq<Row>, ids: set<int>, clients: set<string>, low: int, high: int) {
    && (forall i | 0 <= i < |rows| && rows[i].key.Server? && rows[i].key.id in ids :: Fetched(rows[i], low, high))
    && (forall i | 0 <= i < |rows| && rows[i].client.Some? && rows[i].client.value in clients :: Fetched(rows[i], low, high))
  }

  lemma FindKeyMore(rows: seq<Row>, row: Row, id: int)
    ensures FindKey(rows + [row], id) ==
      if FindKey(rows, id).Some? then FindKey(rows, id) else if row.key == Server(id) then Some(|rows|) else None
  {
    assert (rows + [row])[..|rows|] == rows;
  }

  lemma FindClientMore(rows: seq<Row>, row: Row, client: string)
    ensures FindClient(rows + [row], client) ==
      if FindClient(rows, client).Some? then FindClient(rows, client) else if row.client == Some(client) then Some(|rows|) else None
  {
    assert (rows + [row])[..|rows|] == rows;
  }

  /** Noting the row after those a lookup answers for, it answers for one more. */
  lemma NotedAnswers(l: Lookup, rows: seq<Row>, row: Row)
    requires Answers(l, rows)
    ensures Answers(Noted(l, row, |rows|), rows + [row])
  {
    forall id | id in l.ids
      ensures FindKey(rows + [row], id) == var b := Noted(l, row, |rows|).byKey; if id in b then Some(b[id]) else None
    {
      FindKeyMore(rows, row, id);
    }
    forall c | c in l.clients
      ensures FindClient(rows + [row], c) == var b := Noted(l, row, |rows|).byClient; if c in b then Some(b[c]) else None
    {
      FindClientMore(rows, row, c);
    }
  }

  /** A row under no key the page asks for changes no answer. */
  lemma StrangeRowAnswers(l: Lookup, rows: seq<Row>, row: Row)
    requires Answers(l, rows)
    requires row.key.Server? ==> row.key.id !in l.ids
    requires row.client.Some? ==> row.client.value !in l.clients
    ensures Answers(l, rows + [row])
  {
    forall id | id in l.ids
      ensures FindKey(rows + [row], id) == FindKey(rows, id)
    {
      FindKeyMore(rows, row, id);
    }
    forall c | c in l.clients
      ensures FindClient(rows + [row], c) == FindClient(rows, c)
    {
      FindClientMore(rows, row, c);
    }
  }

  lemma {:induction false} PrefetchAnswers(rows: seq<Row>, ids: set<int>, clients: set<string>, low: int, high: int)
    requires NoStranger(rows, ids, clients, low, high)
    ensures var l := Prefetched(rows, Lookup(ids, clients, map[], map[]), low, high);
      l.ids == ids && l.clients == clients && Answers(l, rows)
    decreases |rows|
  {
    if rows != [] {
      var n := |rows| - 1;
      var l := Prefetched(rows[..n], Lookup(ids, clients, map[], map[]), low, high);
      PrefetchAnswers(rows[..n], ids, clients, low, high);
      assert rows == rows[..n] + [rows[n]];
      if Fetched(rows[n], low, high) {
        NotedAnswers(l, rows[..n], rows[n]);
      } else {
        StrangeRowAnswers(l, rows[..n], rows[n]);
      }
    }
  }

  /** Updating a row in place moves no key. */
  lemma {:induction false} InPlaceAnswers(rows: seq<Row>, at: nat, row: Row, id: int, client: string)
    requires at < |rows| && row.key == rows[at].key && row.client == rows[at].client
    ensures FindKey(rows[at := row], id) == FindKey(rows, id)
    ensures FindClient(rows[at := row], client) == FindClient(rows, client)
    decreases |rows|
  {
    var n := |rows| - 1;
    if at == n {
      assert rows[at := row][..n] == rows[..n];
    } else {
      assert rows[at := row][..n] == rows[..n][at := row];
      InPlaceAnswers(rows[..n], at, row, id, client);
    }
  }

  /** One message through the lookup finds the same row. */
  lemma LooksAlike(l: Lookup, rows: seq<Row>, m: Message)
    requires Answers(l, rows)
    ensures MineVia(l, rows, m) == Mine(rows, m) && HeldVia(l, rows, m) == FindKey(rows, m.id)
  {
  }

  lemma UpdateAnswers(l: Lookup, rows: seq<Row>, at: nat, row: Row)
    requires Answers(l, rows) && at < |rows| && row.key == rows[at].key && row.client == rows[at].client
    ensures Answers(l, rows[at := row])
  {
    var next := rows[at := row];
    forall id | id in l.ids
      ensures FindKey(next, id) == FindKey(rows, id)
    {
      InPlaceAnswers(rows, at, row, id, "");
    }
    forall c | c in l.clients
      ensures FindClient(next, c) == FindClient(rows, c)
    {
      InPlaceAnswers(rows, at, row, 0, c);
    }
  }

  // ---- a page through its lookup ---------------------------------------------------------------

  /** Every index the lookup holds is a row's. */
  ghost predicate Indexes(l: Lookup, rows: seq<Row>) {
    (forall id | id in l.byKey :: l.byKey[id] < |rows|) && (forall c | c in l.byClient :: l.byClient[c] < |rows|)
  }

  lemma {:induction false} PrefetchIndexes(rows: seq<Row>, ids: set<int>, clients: set<string>, low: int, high: int)
    ensures var l := Prefetched(rows, Lookup(ids, clients, map[], map[]), low, high);
      l.ids == ids && l.clients == clients && Indexes(l, rows)
    decreases |rows|
  {
    if rows != [] {
      PrefetchIndexes(rows[..|rows| - 1], ids, clients, low, high);
    }
  }

  /** One message written through the lookup; a row it inserts is noted. */
  ghost function UpsertedVia(l: Lookup, rows: seq<Row>, m: Message): (r: (Lookup, seq<Row>))
    requires Indexes(l, rows)
    ensures Indexes(r.0, r.1)
  {
    var mine, held := MineVia(l, rows, m), HeldVia(l, rows, m);
    var next := Put(rows, m, mine, held);
    if mine.Some? || held.Some? then (l, next) else (Noted(l, next[|rows|], |rows|), next)
  }

  ghost function ViaAll(l: Lookup, rows: seq<Row>, page: seq<Message>): seq<Row>
    requires Indexes(l, rows)
    decreases |page|
  {
    if page == [] then rows
    else
      var r := UpsertedVia(l, rows, page[0]);
      ViaAll(r.0, r.1, page[1..])
  }

  /** applyPage: through a lookup for a page of more than one message. */
  ghost function Paged(rows: seq<Row>, page: seq<Message>): seq<Row> {
    if |page| <= 1 then UpsertedAll(rows, page)
    else
      PrefetchIndexes(rows, Ids(page), Clients(page), Low(page), High(page));
      ViaAll(Prefetched(rows, Lookup(Ids(page), Clients(page), map[], map[]), Low(page), High(page)), rows, page)
  }

  lemma ViaIsUpsert(l: Lookup, rows: seq<Row>, m: Message)
    requires Answers(l, rows) && Indexes(l, rows)
    ensures var r := UpsertedVia(l, rows, m); r.1 == Upserted(rows, m) && Answers(r.0, r.1)
  {
    LooksAlike(l, rows, m);
    var mine, held := Mine(rows, m), FindKey(rows, m.id);
    var next := Upserted(rows, m);
    if mine.Some? {
      UpdateAnswers(l, rows, mine.value, next[mine.value]);
    } else if held.Some? {
      UpdateAnswers(l, rows, held.value, next[held.value]);
    } else {
      NotedAnswers(l, rows, next[|rows|]);
    }
  }

  lemma {:induction false} ViaAllIsUpsertedAll(l: Lookup, rows: seq<Row>, page: seq<Message>)
    requires Answers(l, rows) && Indexes(l, rows)
    ensures ViaAll(l, rows, page) == UpsertedAll(rows, page)
    decreases |page|
  {
    if page != [] {
      ViaIsUpsert(l, rows, page[0]);
      var r := UpsertedVia(l, rows, page[0]);
      ViaAllIsUpsertedAll(r.0, r.1, page[1..]);
    }
  }

  /** THE PAGE: applied through its prefetched lookup it is its messages applied one at a time, when the one query left out no row the page asks for. */
  lemma PageIsRowByRow(rows: seq<Row>, page: seq<Message>)
    requires |page| > 1 ==> NoStranger(rows, Ids(page), Clients(page), Low(page), High(page))
    ensures Paged(rows, page) == UpsertedAll(rows, page)
  {
    if |page| > 1 {
      PrefetchAnswers(rows, Ids(page), Clients(page), Low(page), High(page));
      PrefetchIndexes(rows, Ids(page), Clients(page), Low(page), High(page));
      ViaAllIsUpsertedAll(Prefetched(rows, Lookup(Ids(page), Clients(page), map[], map[]), Low(page), High(page)), rows, page);
    }
  }

  // ---- exactly when ----------------------------------------------------------------------------

  /** No two rows share a client id, and a row under the server's key has the server's id. */
  ghost predicate Keyed(rows: seq<Row>) {
    && (forall i, j | 0 <= i < j < |rows| && rows[i].client.Some? :: rows[i].client != rows[j].client)
    && (forall i | 0 <= i < |rows| && rows[i].key.Server? :: rows[i].serverID == Some(rows[i].key.id))
  }

  /** The lookup names no row j. */
  ghost predicate Avoids(l: Lookup, j: nat) {
    (forall id | id in l.byKey :: l.byKey[id] != j) && (forall c | c in l.byClient :: l.byClient[c] != j)
  }

  lemma {:induction false} PrefetchAvoids(rows: seq<Row>, ids: set<int>, clients: set<string>, low: int, high: int, j: nat)
    requires j < |rows| ==> !Fetched(rows[j], low, high)
    ensures Avoids(Prefetched(rows, Lookup(ids, clients, map[], map[]), low, high), j)
    decreases |rows|
  {
    if rows != [] {
      PrefetchAvoids(rows[..|rows| - 1], ids, clients, low, high, j);
    }
  }

  /** Through a lookup that never names it, a row keeps the server id it has. */
  lemma {:induction false} NeverReached(l: Lookup, rows: seq<Row>, page: seq<Message>, j: nat)
    requires Indexes(l, rows) && Avoids(l, j) && j < |rows| && rows[j].client.Some? && rows[j].client.value != ""
    requires Ids(page) <= l.ids && Clients(page) <= l.clients
    ensures var last := ViaAll(l, rows, page); j < |last| && last[j].serverID == rows[j].serverID
    decreases |page|
  {
    if page != [] {
      var m := page[0];
      assert m.id in Ids(page);
      assert m.client.Some? && m.client.value != "" ==> m.client.value in Clients(page);
      var r := UpsertedVia(l, rows, m);
      forall id | id in Ids(page[1..])
        ensures id in l.ids
      {
        var i :| 0 <= i < |page[1..]| && page[1..][i].id == id;
        assert page[i + 1].id in Ids(page);
      }
      forall c | c in Clients(page[1..])
        ensures c in l.clients
      {
        var i :| 0 <= i < |page[1..]| && page[1..][i].client == Some(c);
        assert page[i + 1].client == Some(c);
        assert c in Clients(page);
      }
      NeverReached(r.0, r.1, page[1..], j);
    }
  }

  /** One at a time, the row found for a client id of the page comes to hold a server id of the page. */
  lemma {:induction false} Reached(rows: seq<Row>, page: seq<Message>, j: nat, c: string, ids: set<int>)
    requires FindClient(rows, c) == Some(j) && Ids(page) <= ids
    requires (rows[j].serverID.Some? && rows[j].serverID.value in ids) || exists k | 0 <= k < |page| :: page[k].client == Some(c)
    ensures var last := UpsertedAll(rows, page); j < |last| && last[j].serverID.Some? && last[j].serverID.value in ids
    decreases |page|
  {
    if page != [] {
      var m, next := page[0], Upserted(rows, page[0]);
      var mine, held := Mine(rows, m), FindKey(rows, m.id);
      assert m.id in Ids(page);
      if mine.None? && held.None? {
        FindClientMore(rows, next[|rows|], c);
      } else {
        var at := if mine.Some? then mine.value else held.value;
        InPlaceAnswers(rows, at, next[at], 0, c);
      }
      forall id | id in Ids(page[1..])
        ensures id in ids
      {
        var i :| 0 <= i < |page[1..]| && page[1..][i].id == id;
        assert page[i + 1].id in Ids(page);
      }
      if m.client != Some(c) && !(rows[j].serverID.Some? && rows[j].serverID.value in ids) {
        var k :| 0 <= k < |page| && page[k].client == Some(c);
        assert page[1..][k - 1].client == Some(c);
      }
      Reached(next, page[1..], j, c, ids);
    }
  }

  lemma {:induction false} OnlyOne(rows: seq<Row>, j: nat)
    requires Keyed(rows) && j < |rows| && rows[j].client.Some?
    ensures FindClient(rows, rows[j].client.value) == Some(j)
  {
    var at := FindClient(rows, rows[j].client.value);
    assert at.Some?;
    assert rows[at.value].client == rows[j].client;
  }

  /** EXACTLY WHEN a page through its lookup is its messages one at a time: when no row the one query leaves out holds a client id of the page. */
  lemma PageExactly(rows: seq<Row>, page: seq<Message>)
    requires Keyed(rows) && |page| > 1
    ensures Paged(rows, page) == UpsertedAll(rows, page) <==> NoStranger(rows, Ids(page), Clients(page), Low(page), High(page))
  {
    var low, high := Low(page), High(page);
    if NoStranger(rows, Ids(page), Clients(page), low, high) {
      PageIsRowByRow(rows, page);
    } else {
      forall i | 0 <= i < |rows| && rows[i].key.Server? && rows[i].key.id in Ids(page)
        ensures Fetched(rows[i], low, high)
      {
        var k :| 0 <= k < |page| && page[k].id == rows[i].key.id;
        InRange(page, k);
      }
      var j :| 0 <= j < |rows| && rows[j].client.Some? && rows[j].client.value in Clients(page) && !Fetched(rows[j], low, high);
      StrangerDiverges(rows, page, j);
    }
  }

  lemma StrangerDiverges(rows: seq<Row>, page: seq<Message>, j: nat)
    requires Keyed(rows) && |page| > 1 && j < |rows| && rows[j].client.Some? && rows[j].client.value in Clients(page)
    requires !Fetched(rows[j], Low(page), High(page))
    ensures Paged(rows, page) != UpsertedAll(rows, page)
  {
    var low, high := Low(page), High(page);
    var c := rows[j].client.value;
    var l := Prefetched(rows, Lookup(Ids(page), Clients(page), map[], map[]), low, high);
    PrefetchIndexes(rows, Ids(page), Clients(page), low, high);
    PrefetchAvoids(rows, Ids(page), Clients(page), low, high, j);
    NeverReached(l, rows, page, j);
    OnlyOne(rows, j);
    var k :| 0 <= k < |page| && page[k].client == Some(c);
    Reached(rows, page, j, c, Ids(page));
    var last := UpsertedAll(rows, page);
    var i :| 0 <= i < |page| && page[i].id == last[j].serverID.value;
    InRange(page, i);
  }

  lemma {:induction false} InRange(page: seq<Message>, i: nat)
    requires i < |page|
    ensures Low(page) <= page[i].id <= High(page)
    decreases |page|
  {
    if i > 0 {
      InRange(page[1..], i - 1);
    }
  }

  /** The store as it is: rows updated in place, and a lookup that lives for one page. */
  class Store {
    var rows: seq<Row>

    constructor (rows: seq<Row>)
      ensures this.rows == rows
    {
      this.rows := rows;
    }

    /** One query for the whole page, indexed row by row. */
    method MakeLookup(page: seq<Message>) returns (l: Lookup)
      requires page != []
      ensures l == Prefetched(rows, Lookup(Ids(page), Clients(page), map[], map[]), Low(page), High(page))
    {
      var low, high := Low(page), High(page);
      l := Lookup(Ids(page), Clients(page), map[], map[]);
      var i := 0;
      while i < |rows|
        invariant 0 <= i <= |rows| && l == Prefetched(rows[..i], Lookup(Ids(page), Clients(page), map[], map[]), low, high)
      {
        assert rows[..i + 1][..i] == rows[..i];
        if Fetched(rows[i], low, high) {
          l := Noted(l, rows[i], i);
        }
        i := i + 1;
      }
      assert rows[..i] == rows;
    }

    /** A message written to the row found for it, or to a new one. */
    method Write(m: Message, mine: Option<nat>, held: Option<nat>)
      requires (mine.Some? ==> mine.value < |rows|) && (held.Some? ==> held.value < |rows|)
      modifies this
      ensures rows == Put(old(rows), m, mine, held)
    {
      if mine.Some? {
        var row := Bodied(rows[mine.value], m);
        row := row.(serverID := Some(m.id));
        row := row.(sent := true);
        rows := rows[mine.value := row];
      } else if held.Some? {
        var row := Bodied(rows[held.value], m);
        rows := rows[held.value := row.(sent := true)];
      } else {
        rows := rows + [Row(Server(m.id), Some(m.id), m.client, m.body, m.editSeq, true)];
      }
    }

    method ApplyEach(page: seq<Message>)
      modifies this
      ensures rows == UpsertedAll(old(rows), page)
    {
      var i := 0;
      while i < |page|
        invariant 0 <= i <= |page| && UpsertedAll(rows, page[i..]) == UpsertedAll(old(rows), page)
      {
        assert page[i..][1..] == page[i + 1..];
        Write(page[i], Mine(rows, page[i]), FindKey(rows, page[i].id));
        i := i + 1;
      }
    }

    /** A message through the lookup; a row it inserts is noted. */
    method UpsertVia(l: Lookup, m: Message) returns (next: Lookup)
      requires Indexes(l, rows)
      modifies this
      ensures Indexes(next, rows) && (next, rows) == UpsertedVia(l, old(rows), m)
    {
      var mine, held := MineVia(l, rows, m), HeldVia(l, rows, m);
      var inserted := |rows|;
      Write(m, mine, held);
      next := if mine.None? && held.None? then Noted(l, rows[inserted], inserted) else l;
    }

    method ApplyPage(page: seq<Message>)
      modifies this
      ensures rows == Paged(old(rows), page)
    {
      if |page| <= 1 {
        ApplyEach(page);
        return;
      }
      var l := MakeLookup(page);
      PrefetchIndexes(rows, Ids(page), Clients(page), Low(page), High(page));
      var i := 0;
      while i < |page|
        invariant 0 <= i <= |page| && Indexes(l, rows) && ViaAll(l, rows, page[i..]) == Paged(old(rows), page)
      {
        assert page[i..][1..] == page[i + 1..];
        l := UpsertVia(l, page[i]);
        i := i + 1;
      }
    }
  }

  /** A row the query leaves out, holding one of the page's client ids under a server id of its own. */
  lemma StrangerDiffers(body: string)
    ensures var rows := [Row(Server(5), Some(5), Some("x"), body, 0, true)];
      var page := [Message(8, Some("x"), body, 0), Message(9, Some("y"), body, 0)];
      |UpsertedAll(rows, page)| == 2 && |Paged(rows, page)| == 3
  {
    var row := Row(Server(5), Some(5), Some("x"), body, 0, true);
    var rows := [row];
    var m, n := Message(8, Some("x"), body, 0), Message(9, Some("y"), body, 0);
    var page := [m, n];
    assert page[1..] == [n] && [n][1..] == [];
    assert rows[..0] == [];
    assert FindClient(rows, "x") == Some(0);
    var once := Upserted(rows, m);
    assert once == [row.(serverID := Some(8))];
    assert once[..0] == [];
    assert FindClient(once, "y") == None && FindKey(once, 9) == None;
    assert UpsertedAll(rows, page) == UpsertedAll(once, [n]) == Upserted(once, n);
    assert Low(page) == 8 && High(page) == 9 by { assert Low([n]) == 9 && High([n]) == 9; }
    var l := Lookup(Ids(page), Clients(page), map[], map[]);
    assert Prefetched(rows, l, 8, 9) == l;
    assert "x" in Clients(page) by { assert page[0].client.value == "x"; }
    assert "y" in Clients(page) by { assert page[1].client.value == "y"; }
    assert 8 in Ids(page) by { assert page[0].id == 8; }
    assert 9 in Ids(page) by { assert page[1].id == 9; }
    var r := UpsertedVia(l, rows, m);
    assert r.1 == rows + [Row(Server(8), Some(8), Some("x"), body, 0, true)];
    assert ViaAll(l, rows, page) == ViaAll(r.0, r.1, [n]) == UpsertedVia(r.0, r.1, n).1;
  }

  // ---- what a page leaves ----------------------------------------------------------------------

  /** The client id the server keeps for each message: fixed, and no two messages share one. */
  ghost predicate OneToOne(client: map<int, string>) {
    forall a, b | a in client && b in client && client[a] == client[b] :: a == b
  }

  function ClientOf(client: map<int, string>, id: int): Option<string> {
    if id in client then Some(client[id]) else None
  }

  ghost predicate FromServer(client: map<int, string>, m: Message) {
    m.client == ClientOf(client, m.id)
  }

  /** A store that holds each message once: its server id says its client id, and a row without a server id is a send of this device's. */
  ghost predicate Good(client: map<int, string>, rows: seq<Row>) {
    && (forall i, j | 0 <= i < j < |rows| :: rows[i].key != rows[j].key && (rows[i].client.Some? ==> rows[i].client != rows[j].client)
          && (rows[i].serverID.Some? ==> rows[i].serverID != rows[j].serverID))
    && (forall i | 0 <= i < |rows| :: GoodRow(client, rows[i]))
  }

  ghost predicate GoodRow(client: map<int, string>, row: Row) {
    && (row.serverID.Some? ==> row.client == ClientOf(client, row.serverID.value))
    && (row.key.Server? ==> row.serverID == Some(row.key.id))
    && (row.key.Minted? ==> row.client.Some?)
  }

  /** In such a store the row a message finds under the server's id is the row that has its server id, if it has no client id. */
  lemma UpsertKeepsGood(client: map<int, string>, rows: seq<Row>, m: Message)
    requires OneToOne(client) && Good(client, rows) && FromServer(client, m)
    ensures Good(client, Upserted(rows, m))
  {
    var next := Upserted(rows, m);
    var mine, held := Mine(rows, m), FindKey(rows, m.id);
    if mine.Some? {
      var at := mine.value;
      forall j | 0 <= j < |rows| && j != at
        ensures rows[j].serverID != Some(m.id)
      {
        assert GoodRow(client, rows[j]) && GoodRow(client, rows[at]);
      }
      assert GoodRow(client, rows[at]);
      assert GoodRow(client, next[at]);
    } else if held.Some? {
      assert GoodRow(client, next[held.value]) by { assert GoodRow(client, rows[held.value]); }
    } else {
      forall j | 0 <= j < |rows|
        ensures rows[j].serverID != Some(m.id) && rows[j].key != Server(m.id) && (m.client.Some? ==> rows[j].client != m.client)
      {
        assert GoodRow(client, rows[j]);
      }
    }
  }

  /** The server's own client ids leave no such stranger. */
  lemma GoodHasNoStranger(client: map<int, string>, rows: seq<Row>, page: seq<Message>)
    requires OneToOne(client) && Good(client, rows) && page != [] && forall i | 0 <= i < |page| :: FromServer(client, page[i])
    ensures NoStranger(rows, Ids(page), Clients(page), Low(page), High(page))
  {
    forall i | 0 <= i < |rows| && rows[i].key.Server? && rows[i].key.id in Ids(page)
      ensures Fetched(rows[i], Low(page), High(page))
    {
      var k :| 0 <= k < |page| && page[k].id == rows[i].key.id;
      InRange(page, k);
      assert GoodRow(client, rows[i]);
    }
    forall i | 0 <= i < |rows| && rows[i].client.Some? && rows[i].client.value in Clients(page)
      ensures Fetched(rows[i], Low(page), High(page))
    {
      var k :| 0 <= k < |page| && page[k].client == Some(rows[i].client.value);
      InRange(page, k);
      assert GoodRow(client, rows[i]) && FromServer(client, page[k]);
    }
  }

  /** A row keeps its place, its keys and its server id through every message, and never goes back to an older edit. */
  ghost predicate Continues(row: Row, later: Row) {
    && later.key == row.key && later.client == row.client && later.editSeq >= row.editSeq
    && (row.serverID.Some? ==> later.serverID == row.serverID) && (row.sent ==> later.sent)
  }

  lemma UpsertContinues(client: map<int, string>, rows: seq<Row>, m: Message)
    requires OneToOne(client) && Good(client, rows) && FromServer(client, m)
    ensures var next := Upserted(rows, m);
      && |next| >= |rows| && (forall i | 0 <= i < |rows| :: Continues(rows[i], next[i]))
      && (exists i | 0 <= i < |next| :: next[i].serverID == Some(m.id) && next[i].sent)
      && (Mine(rows, m).Some? ==> next[Mine(rows, m).value].serverID == Some(m.id) && next[Mine(rows, m).value].sent)
  {
    var next := Upserted(rows, m);
    var mine, held := Mine(rows, m), FindKey(rows, m.id);
    if mine.Some? {
      assert GoodRow(client, rows[mine.value]);
      assert next[mine.value].serverID == Some(m.id) && next[mine.value].sent;
    } else if held.Some? {
      assert GoodRow(client, rows[held.value]);
      assert next[held.value].serverID == Some(m.id) && next[held.value].sent;
    } else {
      assert next[|rows|].serverID == Some(m.id) && next[|rows|].sent;
    }
  }

  lemma {:induction false} PageContinues(client: map<int, string>, rows: seq<Row>, page: seq<Message>)
    requires OneToOne(client) && Good(client, rows) && forall i | 0 <= i < |page| :: FromServer(client, page[i])
    ensures var next := UpsertedAll(rows, page);
      && Good(client, next) && |next| >= |rows| && forall i | 0 <= i < |rows| :: Continues(rows[i], next[i])
    decreases |page|
  {
    if page != [] {
      UpsertKeepsGood(client, rows, page[0]);
      UpsertContinues(client, rows, page[0]);
      PageContinues(client, Upserted(rows, page[0]), page[1..]);
    }
  }

  lemma {:induction false} EachIsHeld(client: map<int, string>, rows: seq<Row>, page: seq<Message>, k: nat)
    requires OneToOne(client) && Good(client, rows) && k < |page| && forall i | 0 <= i < |page| :: FromServer(client, page[i])
    ensures exists i | 0 <= i < |UpsertedAll(rows, page)| ::
      UpsertedAll(rows, page)[i].serverID == Some(page[k].id) && UpsertedAll(rows, page)[i].sent
    decreases |page|
  {
    var next := Upserted(rows, page[0]);
    var last := UpsertedAll(rows, page);
    UpsertKeepsGood(client, rows, page[0]);
    if k == 0 {
      UpsertContinues(client, rows, page[0]);
      PageContinues(client, next, page[1..]);
      var i :| 0 <= i < |next| && next[i].serverID == Some(page[0].id) && next[i].sent;
      assert Continues(next[i], last[i]);
    } else {
      EachIsHeld(client, next, page[1..], k - 1);
    }
  }

  lemma {:induction false} SendIsDelivered(client: map<int, string>, rows: seq<Row>, page: seq<Message>, k: nat, at: nat)
    requires OneToOne(client) && Good(client, rows) && k < |page| && forall i | 0 <= i < |page| :: FromServer(client, page[i])
    requires at < |rows| && rows[at].client.Some? && rows[at].client == page[k].client
    ensures var last := UpsertedAll(rows, page);
      at < |last| && last[at].key == rows[at].key && last[at].serverID == Some(page[k].id) && last[at].sent
    decreases |page|
  {
    var next := Upserted(rows, page[0]);
    UpsertKeepsGood(client, rows, page[0]);
    UpsertContinues(client, rows, page[0]);
    PageContinues(client, next, page[1..]);
    if k == 0 {
      assert Mine(rows, page[0]) == Some(at);
      assert Continues(next[at], UpsertedAll(rows, page)[at]);
    } else {
      assert Continues(rows[at], next[at]);
      SendIsDelivered(client, next, page[1..], k - 1, at);
    }
  }

  /**
   * ONE ROW PER MESSAGE: of a good store, a page through its lookup — duplicates, held rows and this device's
   * own sends among it — leaves a good store, in which every message of the page has one row, a pending send
   * has become its delivered row in its place, and no row has gone back to an older edit.
   */
  lemma PageLeavesOneRowEach(client: map<int, string>, rows: seq<Row>, page: seq<Message>)
    requires OneToOne(client) && Good(client, rows) && forall i | 0 <= i < |page| :: FromServer(client, page[i])
    ensures var last := Paged(rows, page);
      && last == UpsertedAll(rows, page) && Good(client, last)
      && (forall k | 0 <= k < |page| :: exists i | 0 <= i < |last| :: last[i].serverID == Some(page[k].id) && last[i].sent)
      && (forall i, j | 0 <= i < j < |last| && last[i].serverID.Some? :: last[i].serverID != last[j].serverID)
      && (forall k, at | 0 <= k < |page| && 0 <= at < |rows| && rows[at].client.Some? && rows[at].client == page[k].client ::
            at < |last| && last[at].key == rows[at].key && last[at].serverID == Some(page[k].id) && last[at].sent)
      && (forall i | 0 <= i < |rows| :: i < |last| && Continues(rows[i], last[i]))
  {
    if |page| > 1 {
      GoodHasNoStranger(client, rows, page);
    }
    PageIsRowByRow(rows, page);
    PageContinues(client, rows, page);
    forall k | 0 <= k < |page|
      ensures exists i | 0 <= i < |UpsertedAll(rows, page)| ::
        UpsertedAll(rows, page)[i].serverID == Some(page[k].id) && UpsertedAll(rows, page)[i].sent
    {
      EachIsHeld(client, rows, page, k);
    }
    forall k, at | 0 <= k < |page| && 0 <= at < |rows| && rows[at].client.Some? && rows[at].client == page[k].client
      ensures var last := UpsertedAll(rows, page);
        at < |last| && last[at].key == rows[at].key && last[at].serverID == Some(page[k].id) && last[at].sent
    {
      SendIsDelivered(client, rows, page, k, at);
    }
  }
}
