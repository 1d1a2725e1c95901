/**
 * Handing staged files from the share extension to the app: the URL both ways, the paths its ids name, and the
 * sweep of what never completed (ios/FamilyConnectShared/ShareHandoff.swift).
 */
module ShareHandoff {
  import opened Wrappers
  import opened UnicodeText

  const SCHEME := "familyconnect"
  const HOST := "share"
  const MAX_ATTACHMENTS := 10

  // ---- ids -------------------------------------------------------------------------------------

  predicate IsHex(c: char) {
    '0' <= c <= '9' || 'a' <= c <= 'f' || 'A' <= c <= 'F'
  }

  /** The string form of a UUID, section 4 of RFC 9562. */
  predicate IsUuid(s: string) {
    |s| == 36 && forall i | 0 <= i < 36 :: if i in {8, 13, 18, 23} then s[i] == '-' else IsHex(s[i])
  }

  predicate AllUuids(ids: seq<string>) {
    forall i | 0 <= i < |ids| :: IsUuid(ids[i])
  }

  function FirstTen(ids: seq<string>): seq<string> {
    if |ids| <= MAX_ATTACHMENTS then ids else ids[..MAX_ATTACHMENTS]
  }

  // ---- the URL ---------------------------------------------------------------------------------

  /** A URL as its components come apart; a query item may have no value. */
  datatype Url = Url(scheme: string, host: string, query: seq<(string, Option<string>)>)

  function Lowered(s: string): (t: string)
    ensures |t| == |s|
  {
    seq(|s|, i requires 0 <= i < |s| => if 'A' <= s[i] <= 'Z' then (s[i] as int + 32) as char else s[i])
  }

  function Joined(ids: seq<string>): string {
    if ids == [] then "" else if |ids| == 1 then ids[0] else ids[0] + "," + Joined(ids[1..])
  }

  /** Up to the first comma, or all of it. */
  function Piece(raw: string): (piece: string)
    ensures |piece| <= |raw| && piece == raw[..|piece|] && ',' !in piece && (|piece| < |raw| ==> raw[|piece|] == ',')
  {
    if raw == "" || raw[0] == ',' then "" else [raw[0]] + Piece(raw[1..])
  }

  /** Cut at the commas, empty pieces left out. */
  function Split(raw: string): seq<string>
    decreases |raw|
  {
    if raw == "" then []
    else
      var piece := Piece(raw);
      var rest := if |piece| == |raw| then [] else Split(raw[|piece| + 1..]);
      if piece == "" then rest else [piece] + rest
  }

  /** The producer. */
  function HandoffUrl(ids: seq<string>): Option<Url> {
    if ids == [] || !AllUuids(ids) then None
    else Some(Url(SCHEME, HOST, [("ids", Some(Joined(FirstTen(ids))))]))
  }

  function FirstNamed(query: seq<(string, Option<string>)>, name: string): Option<string> {
    if query == [] then None
    else if query[0].0 == name then query[0].1
    else FirstNamed(query[1..], name)
  }

  /** The consumer. */
  function IdsFrom(url: Url): Option<seq<string>> {
    if Lowered(url.scheme) != SCHEME || Lowered(url.host) != HOST then None
    else
      match FirstNamed(url.query, "ids")
      case None => None
      case Some(raw) =>
        var parts := Split(raw);
        if parts == [] || !AllUuids(parts) then None else Some(FirstTen(parts))
  }

  lemma UuidIsPlain(s: string)
    requires IsUuid(s)
    ensures s != "" && ',' !in s && '/' !in s && '.' !in s && s != "." && s != ".."
  {
  }

  lemma {:induction false} PieceOf(piece: string, rest: string)
    requires ',' !in piece && (rest != "" ==> rest[0] == ',')
    ensures Piece(piece + rest) == piece
    decreases |piece|
  {
    if piece == "" {
      assert piece + rest == rest;
    } else {
      assert (piece + rest)[1..] == piece[1..] + rest;
      PieceOf(piece[1..], rest);
    }
  }

  lemma {:induction false} SplitJoined(ids: seq<string>)
    requires forall i | 0 <= i < |ids| :: ids[i] != "" && ',' !in ids[i]
    ensures Split(Joined(ids)) == ids
    decreases |ids|
  {
    if |ids| == 1 {
      assert ids[0] + "" == ids[0];
      PieceOf(ids[0], "");
    } else if |ids| > 1 {
      var tail := Joined(ids[1..]);
      assert ids[0] + "," + tail == ids[0] + ("," + tail);
      PieceOf(ids[0], "," + tail);
      assert (ids[0] + "," + tail)[|ids[0]| + 1..] == tail;
      SplitJoined(ids[1..]);
    }
  }

  lemma ProducedIsRead(ids: seq<string>)
    requires ids != [] && AllUuids(ids)
    ensures HandoffUrl(ids).Some? && IdsFrom(HandoffUrl(ids).value) == Some(FirstTen(ids))
  {
    var ten := FirstTen(ids);
    forall i | 0 <= i < |ten|
      ensures ten[i] != "" && ',' !in ten[i]
    {
      UuidIsPlain(ten[i]);
    }
    SplitJoined(ten);
    assert Lowered(SCHEME) == SCHEME && Lowered(HOST) == HOST;
  }

  /** ROUND TRIP, on every list: the consumer reads back the first ten in order where the producer mints a URL, which is exactly for a list of ids and nothing else. */
  lemma HandoffRoundTrip(ids: seq<string>)
    ensures HandoffUrl(ids).Some? <==> ids != [] && AllUuids(ids)
    ensures HandoffUrl(ids).Some? ==> IdsFrom(HandoffUrl(ids).value) == Some(FirstTen(ids))
  {
    if HandoffUrl(ids).Some? {
      ProducedIsRead(ids);
    }
  }

  /** The pieces of a split: none is empty, and none holds a comma. */
  lemma {:induction false} SplitPieces(raw: string)
    ensures forall i | 0 <= i < |Split(raw)| :: Split(raw)[i] != "" && ',' !in Split(raw)[i]
    decreases |raw|
  {
    if raw != "" && |Piece(raw)| < |raw| {
      SplitPieces(raw[|Piece(raw)| + 1..]);
    }
  }

  /** ONE BAD ID POISONS THE WHOLE: a URL is accepted exactly when it is a hand-off naming something and every piece of it is an id. */
  lemma AcceptedExactly(url: Url)
    ensures IdsFrom(url).Some? <==>
      && Lowered(url.scheme) == SCHEME && Lowered(url.host) == HOST
      && FirstNamed(url.query, "ids").Some?
      && var parts := Split(FirstNamed(url.query, "ids").value); parts != [] && AllUuids(parts)
    ensures IdsFrom(url).Some? ==>
      var ids := IdsFrom(url).value; 0 < |ids| <= MAX_ATTACHMENTS && ids <= Split(FirstNamed(url.query, "ids").value) && AllUuids(ids)
  {
  }

  // ---- paths -----------------------------------------------------------------------------------

  function InboxOf(container: seq<string>): seq<string> {
    container + ["ShareInbox"]
  }

  function StagingDirectory(container: seq<string>, id: string): Option<seq<string>> {
    if IsUuid(id) then Some(InboxOf(container) + [id]) else None
  }

  /** A path's parts, as a file system takes them apart and follows them. */
  ghost predicate OnePlainPart(part: string) {
    part != "" && '/' !in part && part != "." && part != ".."
  }

  /** Every id a hand-off is accepted with names a directory directly inside the inbox. */
  lemma AcceptedStaysInTheInbox(url: Url, container: seq<string>, k: nat)
    requires IdsFrom(url).Some? && k < |IdsFrom(url).value|
    ensures var at := StagingDirectory(container, IdsFrom(url).value[k]);
      at.Some? && at.value[..|at.value| - 1] == InboxOf(container) && OnePlainPart(at.value[|at.value| - 1])
  {
    AcceptedExactly(url);
    UuidIsPlain(IdsFrom(url).value[k]);
  }

  // ---- the sweep -------------------------------------------------------------------------------

  /** An inbox entry: what can be read of its dates, and whether removing it succeeds. */
  datatype Entry = Entry(name: string, modified: Option<int>, created: Option<int>, removable: bool)

  function Stamp(e: Entry): Option<int> {
    if e.modified.Some? then e.modified else e.created
  }

  predicate Swept(e: Entry, now: int, age: int) {
    e.removable && Stamp(e).Some? && now - Stamp(e).value > age
  }

  /** What a sweep leaves, in order. */
  function Left(entries: seq<Entry>, now: int, age: int): seq<Entry>
    decreases |entries|
  {
    if entries == [] then []
    else
      var n := |entries| - 1;
      Left(entries[..n], now, age) + if Swept(entries[n], now, age) then [] else [entries[n]]
  }

  class Inbox {
    var entries: seq<Entry>

    constructor (entries: seq<Entry>)
      ensures this.entries == entries
    {
      this.entries := entries;
    }

    /** Every entry stamped longer ago than the grace goes, if it can be removed; the answer is how many went. */
    method Sweep(now: int, age: int) returns (removed: nat)
      modifies this
      ensures entries == Left(old(entries), now, age)
      ensures removed == |old(entries)| - |entries|
    {
      removed := 0;
      var names := entries;
      var kept: seq<Entry> := [];
      var i := 0;
      while i < |names|
        invariant 0 <= i <= |names| && kept == Left(names[..i], now, age) && removed == i - |kept|
        invariant entries == kept + names[i..]
      {
        var e := names[i];
        LeftGoesOn(names, i, now, age);
        EntryStands(kept, names, i);
        var stamp := if e.modified.Some? then e.modified else e.created;
        if stamp.Some? && now - stamp.value > age && e.removable {
          entries := entries[..|kept|] + entries[|kept| + 1..];
          removed := removed + 1;
        } else {
          kept := kept + [e];
        }
        i := i + 1;
      }
      assert names[..i] == names;
      assert kept + names[i..] == kept;
    }
  }

  lemma LeftGoesOn(entries: seq<Entry>, i: nat, now: int, age: int)
    requires i < |entries|
    ensures Left(entries[..i + 1], now, age) == Left(entries[..i], now, age) + if Swept(entries[i], now, age) then [] else [entries[i]]
  {
    assert entries[..i + 1][..i] == entries[..i];
  }

  /** The entry a sweep has come to, between those kept and those still ahead. */
  lemma EntryStands(kept: seq<Entry>, names: seq<Entry>, i: nat)
    requires i < |names|
    ensures var all := kept + names[i..];
      && all[..|kept|] + all[|kept| + 1..] == kept + names[i + 1..]
      && all == (kept + [names[i]]) + names[i + 1..]
      && kept + [] == kept
  {
    var all := kept + names[i..];
    assert all[..|kept|] == kept && all[|kept| + 1..] == names[i + 1..];
    assert names[i..] == [names[i]] + names[i + 1..];
  }

  /** Of each entry: it is gone exactly when its stamp can be read, is older than the grace, and it could be removed — whatever its name. */
  lemma {:induction false} SweepExactly(entries: seq<Entry>, now: int, age: int)
    ensures forall e :: e in Left(entries, now, age) <==> e in entries && !Swept(e, now, age)
    decreases |entries|
  {
    if entries != [] {
      var n := |entries| - 1;
      SweepExactly(entries[..n], now, age);
      assert entries == entries[..n] + [entries[n]];
    }
  }

  /** A share in flight is safe: nothing stamped within the grace goes, nothing stamped in the future, nothing with no date to read. */
  lemma InFlightIsLeft(entries: seq<Entry>, now: int, age: int, e: Entry)
    requires e in entries && age >= 0
    requires Stamp(e).None? || Stamp(e).value >= now || now - Stamp(e).value <= age
    ensures e in Left(entries, now, age)
  {
    SweepExactly(entries, now, age);
  }

  // ---- names -----------------------------------------------------------------------------------

  /** What the platform trims: Unicode white space, new lines and the zero width space. */
  predicate IsBlank(c: char) {
    var v := c as int;
    0x09 <= v <= 0x0D || v == 0x20 || v == 0x85 || v == 0xA0 || v == 0x1680 || 0x2000 <= v <= 0x200B
    || v == 0x2028 || v == 0x2029 || v == 0x202F || v == 0x205F || v == 0x3000
  }

  function Cleaned(s: string): (t: string)
    ensures |t| == |s| && '/' !in t && ':' !in t
  {
    seq(|s|, i requires 0 <= i < |s| => if s[i] == '/' || s[i] == ':' then '_' else s[i])
  }

  function TrimLeft(s: string): (t: string)
    ensures |t| <= |s| && (forall c | c in t :: c in s) && (t != "" ==> !IsBlank(t[0]))
  {
    if s != "" && IsBlank(s[0]) then TrimLeft(s[1..]) else s
  }

  function TrimRight(s: string): (t: string)
    ensures |t| <= |s| && (forall c | c in t :: c in s) && (t != "" ==> !IsBlank(t[|t| - 1]))
  {
    if s != "" && IsBlank(s[|s| - 1]) then TrimRight(s[..|s| - 1]) else s
  }

  /** What drop(while:) passes: the leading characters that are a dot and nothing more. */
  function DotsPast(table: Table, s: string, i: nat): (r: nat)
    requires i <= |s|
    ensures i <= r <= |s| && (r < |s| && s[r] == '.' ==> NextBreak(table, s, r) > r + 1)
    decreases |s| - i
  {
    if i < |s| && s[i] == '.' && NextBreak(table, s, i) == i + 1 then DotsPast(table, s, i + 1) else i
  }

  function Visible(table: Table, name: string): string {
    var trimmed := TrimRight(TrimLeft(Cleaned(name)));
    trimmed[DotsPast(table, trimmed, 0)..]
  }

  const LONGEST := 255

  function SafeFileName(table: Table, name: string): string {
    var visible := Visible(table, name);
    if visible == "" then "file" else visible[..ClustersEnd(table, visible, 0, LONGEST)]
  }

  lemma VisibleIsClean(table: Table, name: string)
    requires Lawful(table)
    ensures var v := Visible(table, name);
      && '/' !in v && ':' !in v
      && (v != "" && v[0] == '.' ==> |v| > 1 && LeansBack(table, v[1]) && NextBreak(table, v, 0) > 1)
  {
    var trimmed, v := TrimRight(TrimLeft(Cleaned(name))), Visible(table, name);
    var i := DotsPast(table, trimmed, 0);
    assert forall c | c in v :: c in trimmed;
    if v != "" && v[0] == '.' {
      assert trimmed[i] == '.';
      BreakAfter(table, trimmed, i + 1);
      assert v[1] == trimmed[i + 1];
      BreakAfter(table, v, 1);
    }
  }

  /** A NAME SAFE TO CREATE, from any string: one path part, never empty, at most 255 characters; hidden exactly when what is left begins with a dot that another scalar leans on. */
  lemma SafeNameIsSafe(table: Table, name: string)
    requires Lawful(table)
    ensures var safe := SafeFileName(table, name);
      && OnePlainPart(safe) && ':' !in safe && safe != "" && Clusters(table, safe, 0) <= LONGEST
      && var v := Visible(table, name); safe[0] == '.' <==> |v| > 1 && v[0] == '.' && LeansBack(table, v[1])
  {
    var safe, v := SafeFileName(table, name), Visible(table, name);
    VisibleIsClean(table, name);
    if v == "" {
      FileIsPlain(table);
    } else {
      var e := ClustersEnd(table, v, 0, LONGEST);
      CutHasFew(table, v, 0, LONGEST, e);
      if v[0] == '.' {
        assert safe[1] == v[1] != '.';
      }
    }
  }

  lemma FileIsPlain(table: Table)
    requires Lawful(table)
    ensures Clusters(table, "file", 0) == 4
  {
    PrintableIsPlain(table, "file", 0);
  }

  /** A printable ASCII name also fits the 255 bytes a file system allows. */
  lemma AsciiNameFits(table: Table, name: string)
    requires Lawful(table) && AllPrintable(name)
    ensures |Utf8(SafeFileName(table, name))| <= LONGEST
  {
    var safe := SafeFileName(table, name);
    SafeNameIsSafe(table, name);
    assert AllPrintable(safe) by { SafeIsPrintable(table, name); }
    PrintableIsPlain(table, safe, 0);
    assert safe[0..] == safe;
  }

  lemma SafeIsPrintable(table: Table, name: string)
    requires AllPrintable(name)
    ensures AllPrintable(SafeFileName(table, name))
  {
    var cleaned := Cleaned(name);
    var trimmed := TrimRight(TrimLeft(cleaned));
    assert forall c | c in cleaned :: IsPrintable(c);
    assert forall c | c in trimmed :: IsPrintable(c);
    assert forall c | c in Visible(table, name) :: c in trimmed;
    forall i | 0 <= i < |SafeFileName(table, name)|
      ensures IsPrintable(SafeFileName(table, name)[i])
    {
      if Visible(table, name) != "" {
        assert SafeFileName(table, name)[i] in trimmed;
      }
    }
  }

  /** OTHERS MAY NOT: 128 characters of two bytes are within the 255 characters and are 256 bytes. */
  lemma LongNameOverflows(table: Table)
    requires Lawful(table) && table('\U{00E9}') == Properties(Other, false, NoConjunct)
    ensures var name := seq(128, i => '\U{00E9}'); SafeFileName(table, name) == name && |Utf8(name)| == 256
  {
    var name := seq(128, i => '\U{00E9}');
    assert Cleaned(name) == name;
    assert TrimLeft(name) == name && TrimRight(name) == name;
    assert Visible(table, name) == name;
    SameEach(table, name, 0);
    WholeIfFew(table, name, 0, LONGEST);
    assert name[0..] == name;
  }

  lemma {:induction false} SameEach(table: Table, s: string, i: nat)
    requires i <= |s| && forall k | 0 <= k < |s| :: s[k] == '\U{00E9}'
    requires table('\U{00E9}') == Properties(Other, false, NoConjunct)
    ensures Clusters(table, s, i) == |s| - i && |Utf8(s[i..])| == 2 * (|s| - i)
    decreases |s| - i
  {
    if i < |s| {
      assert i + 1 < |s| ==> !Joins(table, s, i + 1);
      SameEach(table, s, i + 1);
      assert s[i..][1..] == s[i + 1..] && |Utf8Of(s[i])| == 2;
    }
  }

  lemma {:induction false} WholeIfFew(table: Table, s: string, i: nat, n: nat)
    requires i <= |s| && Clusters(table, s, i) <= n
    ensures ClustersEnd(table, s, i, n) == |s|
    decreases n
  {
    if i < |s| {
      WholeIfFew(table, s, NextBreak(table, s, i), n - 1);
    }
  }
}
