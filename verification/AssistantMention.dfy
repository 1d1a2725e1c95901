/**
 * The assistant's mention in a message body: `@ai` anywhere it stands alone
 * (ios/FamilyConnect/Models/AssistantMention.swift), beside the server's own scan (server/src/mentions.rs). A body is a
 * sequence of Unicode scalars.
 */
module AssistantMention {
  import opened Wrappers
  import opened UnicodeText

  const TOKEN := "@ai"
  const DRAW := "/draw"

  // ---- the tables ------------------------------------------------------------------------------

  /** An ASCII letter, digit or underscore is what a token may not sit against. */
  predicate IsBoundary(v: int) {
    !(0x30 <= v <= 0x39 || 0x41 <= v <= 0x5A || 0x61 <= v <= 0x7A || v == 0x5F)
  }

  /** The Unicode property White_Space. */
  predicate IsWhite(c: char) {
    var v := c as int;
    0x09 <= v <= 0x0D || v == 0x20 || v == 0x85 || v == 0xA0 || v == 0x1680 || 0x2000 <= v <= 0x200A
    || v == 0x2028 || v == 0x2029 || v == 0x202F || v == 0x205F || v == 0x3000
  }

  /** Only A to Z move. */
  function Folded(v: int): int {
    if 0x41 <= v <= 0x5A then v + 0x20 else v
  }

  // ---- `@ai` -----------------------------------------------------------------------------------

  /** A byte with its 0x20 bit set. */
  function Lowered(b: Byte): int {
    if b / 0x20 % 2 == 0 then b + 0x20 else b
  }

  /** The byte scan's test at one place. */
  predicate MentionAtByte(bytes: seq<Byte>, at: nat) {
    && at + 3 <= |bytes|
    && bytes[at] == 0x40 && Lowered(bytes[at + 1]) == 0x61 && Lowered(bytes[at + 2]) == 0x69
    && (at == 0 || IsBoundary(bytes[at - 1]))
    && (at + 3 == |bytes| || IsBoundary(bytes[at + 3]))
  }

  lemma MentionsDoNotOverlap(bytes: seq<Byte>, at: nat, next: nat)
    requires MentionAtByte(bytes, at) && MentionAtByte(bytes, next) && at < next
    ensures at + 3 <= next
  {
  }

  /** The rule itself, in characters. */
  predicate MentionAt(s: string, at: nat) {
    && at + 3 <= |s|
    && Folded(s[at] as int) == 0x40 && Folded(s[at + 1] as int) == 0x61 && Folded(s[at + 2] as int) == 0x69
    && (at == 0 || s[at - 1] as int >= 0x80 || IsBoundary(s[at - 1] as int))
    && (at + 3 == |s| || s[at + 3] as int >= 0x80 || IsBoundary(s[at + 3] as int))
  }

  /** Where a character begins in the bytes. */
  function Offset(s: string, i: nat): nat
    requires i <= |s|
  {
    |Utf8(s[..i])|
  }

  lemma {:induction false} Utf8Joins(a: string, b: string)
    ensures Utf8(a + b) == Utf8(a) + Utf8(b)
    decreases |a|
  {
    if a == [] {
      assert a + b == b;
    } else {
      Utf8Joins(a[1..], b);
      assert (a + b)[0] == a[0] && (a + b)[1..] == a[1..] + b;
      Associates(Utf8Of(a[0]), Utf8(a[1..]), Utf8(b));
    }
  }

  lemma CutAt(s: string, i: nat)
    requires i < |s|
    ensures s == s[..i] + ([s[i]] + s[i + 1..]) && s[..i + 1] == s[..i] + [s[i]]
  {
  }

  lemma OneChar(c: char)
    ensures Utf8([c]) == Utf8Of(c)
  {
    assert [c][1..] == [];
  }

  lemma JoinedAround(a: string, c: char, b: string)
    ensures Utf8(a + ([c] + b)) == Utf8(a) + (Utf8Of(c) + Utf8(b))
    ensures Utf8(a + [c]) == Utf8(a) + Utf8Of(c)
  {
    ThreeJoin(a, [c], b);
    OneChar(c);
  }

  lemma Around(s: string, i: nat)
    requires i < |s|
    ensures Utf8(s) == Utf8(s[..i]) + (Utf8Of(s[i]) + Utf8(s[i + 1..]))
    ensures Utf8(s[..i + 1]) == Utf8(s[..i]) + Utf8Of(s[i])
  {
    CutAt(s, i);
    JoinedAround(s[..i], s[i], s[i + 1..]);
  }

  lemma ThreeJoin(a: string, b: string, c: string)
    ensures Utf8(a + (b + c)) == Utf8(a) + (Utf8(b) + Utf8(c))
    ensures Utf8(a + b) == Utf8(a) + Utf8(b)
  {
    Utf8Joins(a, b + c);
    Utf8Joins(b, c);
    Utf8Joins(a, b);
  }

  /** The bytes of one character, where they stand: its own code if it is ASCII, nothing under 0x80 if it is not. */
  lemma CharStands(s: string, i: nat)
    requires i < |s|
    ensures var bytes := Utf8(s); var p, q := Offset(s, i), Offset(s, i + 1);
      && p < q <= |bytes|
      && (s[i] as int < 0x80 ==> q == p + 1 && bytes[p] == s[i] as int)
      && (s[i] as int >= 0x80 ==> forall k | p <= k < q :: bytes[k] >= 0x80)
  {
    var a, b, c := Utf8(s[..i]), Utf8Of(s[i]), Utf8(s[i + 1..]);
    Around(s, i);
    var bytes := Utf8(s);
    forall k | |a| <= k < |a| + |b|
      ensures bytes[k] == b[k - |a|]
    {
      assert bytes[|a| + (k - |a|)] == b[k - |a|];
    }
  }

  lemma OffsetEnd(s: string)
    ensures Offset(s, |s|) == |Utf8(s)| && Offset(s, 0) == 0
  {
    assert s[..|s|] == s;
    assert s[..0] == [];
  }

  /** Every byte belongs to one character. */
  lemma {:induction false} CharOfByte(s: string, p: nat, n: nat) returns (i: nat)
    requires n <= |s| && p < Offset(s, n)
    ensures i < n && Offset(s, i) <= p < Offset(s, i + 1)
    decreases n
  {
    OffsetEnd(s);
    if Offset(s, n - 1) <= p {
      i := n - 1;
    } else {
      i := CharOfByte(s, p, n - 1);
    }
  }

  /** An ASCII byte, where a character begins, is that character; and the next begins after it. */
  lemma AsciiStands(s: string, i: nat)
    requires i <= |s|
    ensures var bytes := Utf8(s); var p := Offset(s, i);
      && p <= |bytes| && (i == |s| <==> p == |bytes|)
      && (i < |s| && bytes[p] < 0x80 ==> s[i] as int == bytes[p] && Offset(s, i + 1) == p + 1)
      && (i < |s| && s[i] as int < 0x80 ==> s[i] as int == bytes[p] && Offset(s, i + 1) == p + 1)
  {
    OffsetEnd(s);
    if i < |s| {
      CharStands(s, i);
    }
  }

  /** What stands before a character, as a byte and as a character, is a boundary or not alike; and so what stands at it. */
  lemma BoundariesAgree(s: string, i: nat)
    requires i <= |s|
    ensures Offset(s, i) <= |Utf8(s)| && (i == 0 <==> Offset(s, i) == 0)
    ensures i > 0 ==> (IsBoundary(Utf8(s)[Offset(s, i) - 1]) <==> s[i - 1] as int >= 0x80 || IsBoundary(s[i - 1] as int))
    ensures i < |s| ==>
      && Offset(s, i) < |Utf8(s)|
      && (IsBoundary(Utf8(s)[Offset(s, i)]) <==> s[i] as int >= 0x80 || IsBoundary(s[i] as int))
  {
    AsciiStands(s, i);
    OffsetEnd(s);
    if i > 0 {
      CharStands(s, i - 1);
    }
    if i < |s| {
      CharStands(s, i);
    }
  }

  /** Three ASCII bytes from a place are the three characters from it, and the other way about. */
  lemma ThreeStand(s: string, i: nat)
    requires i < |s|
    ensures var bytes, p := Utf8(s), Offset(s, i);
      (i + 3 <= |s| && s[i] as int < 0x80 && s[i + 1] as int < 0x80 && s[i + 2] as int < 0x80) <==>
      (p + 3 <= |bytes| && bytes[p] < 0x80 && bytes[p + 1] < 0x80 && bytes[p + 2] < 0x80)
    ensures i + 3 <= |s| && s[i] as int < 0x80 && s[i + 1] as int < 0x80 && s[i + 2] as int < 0x80 ==>
      var bytes, p := Utf8(s), Offset(s, i);
      bytes[p] == s[i] as int && bytes[p + 1] == s[i + 1] as int && bytes[p + 2] == s[i + 2] as int && Offset(s, i + 3) == p + 3
  {
    var bytes, p := Utf8(s), Offset(s, i);
    AsciiStands(s, i);
    if s[i] as int < 0x80 || bytes[p] < 0x80 {
      AsciiStands(s, i + 1);
      if i + 1 < |s| && (s[i + 1] as int < 0x80 || bytes[p + 1] < 0x80) {
        AsciiStands(s, i + 2);
      }
    }
  }

  predicate Spells(a: int, b: int, c: int) {
    a == 0x40 && (b == 0x41 || b == 0x61) && (c == 0x49 || c == 0x69)
  }

  lemma RuleSpells(s: string, i: nat)
    requires i + 3 <= |s|
    ensures Folded(s[i] as int) == 0x40 && Folded(s[i + 1] as int) == 0x61 && Folded(s[i + 2] as int) == 0x69
      <==> Spells(s[i] as int, s[i + 1] as int, s[i + 2] as int)
  {
  }

  lemma ByteSpells(bytes: seq<Byte>, p: nat)
    requires p + 3 <= |bytes|
    ensures bytes[p] == 0x40 && Lowered(bytes[p + 1]) == 0x61 && Lowered(bytes[p + 2]) == 0x69
      <==> Spells(bytes[p], bytes[p + 1], bytes[p + 2])
  {
    LoweredIs(bytes[p + 1]);
    LoweredIs(bytes[p + 2]);
  }

  lemma LoweredIs(b: Byte)
    ensures Lowered(b) == 0x61 <==> b == 0x41 || b == 0x61
    ensures Lowered(b) == 0x69 <==> b == 0x49 || b == 0x69
  {
  }

  /** What stands on either side of three characters is a boundary, or an end, as it is of their three bytes. */
  lemma SidesAgree(s: string, i: nat)
    requires i + 3 <= |s| && Offset(s, i + 3) == Offset(s, i) + 3
    ensures var bytes, p := Utf8(s), Offset(s, i);
      && p + 3 <= |bytes|
      && ((i == 0 || s[i - 1] as int >= 0x80 || IsBoundary(s[i - 1] as int)) <==> (p == 0 || IsBoundary(bytes[p - 1])))
      && ((i + 3 == |s| || s[i + 3] as int >= 0x80 || IsBoundary(s[i + 3] as int)) <==> (p + 3 == |bytes| || IsBoundary(bytes[p + 3])))
  {
    BoundariesAgree(s, i);
    BoundariesAgree(s, i + 3);
    AsciiStands(s, i + 3);
  }

  /** At the place a character begins, the byte test and the rule say the same. */
  lemma TestIsTheRule(s: string, i: nat)
    requires i < |s|
    ensures MentionAt(s, i) <==> MentionAtByte(Utf8(s), Offset(s, i))
  {
    var bytes, p := Utf8(s), Offset(s, i);
    ThreeStand(s, i);
    if i + 3 <= |s| && s[i] as int < 0x80 && s[i + 1] as int < 0x80 && s[i + 2] as int < 0x80 {
      RuleSpells(s, i);
      ByteSpells(bytes, p);
      SidesAgree(s, i);
    } else {
      assert !MentionAt(s, i) by {
        if i + 3 <= |s| {
          RuleSpells(s, i);
        }
      }
      assert !MentionAtByte(bytes, p) by {
        if p + 3 <= |bytes| {
          ByteSpells(bytes, p);
        }
      }
    }
  }

  // ---- where a byte stands among the characters ------------------------------------------------

  /** The scalar that begins at a byte, if one does; the end counts as one. */
  function ScalarAt(s: string, p: nat): Option<nat>
    decreases |s|
  {
    if p == 0 then Some(0)
    else if s == [] || p < |Utf8Of(s[0])| then None
    else match ScalarAt(s[1..], p - |Utf8Of(s[0])|) { case None => None case Some(i) => Some(i + 1) }
  }

  lemma {:induction false} ScalarAtIs(s: string, p: nat)
    ensures ScalarAt(s, p).Some? ==> ScalarAt(s, p).value <= |s| && Offset(s, ScalarAt(s, p).value) == p
    ensures forall i | 0 <= i <= |s| && Offset(s, i) == p :: ScalarAt(s, p) == Some(i)
    decreases |s|
  {
    OffsetEnd(s);
    if s != [] {
      var n := |Utf8Of(s[0])|;
      if p >= n {
        ScalarAtIs(s[1..], p - n);
      }
      forall i | 0 < i <= |s|
        ensures Offset(s, i) == n + Offset(s[1..], i - 1)
      {
        assert s[..i][0] == s[0] && s[..i][1..] == s[1..][..i - 1];
      }
    }
  }

  /** samePosition(in:): the place of a byte in the string, if a cluster ends there. */
  function SamePosition(table: Table, s: string, p: nat): Option<nat> {
    match ScalarAt(s, p)
    case Some(i) => if i <= |s| && IsBreak(table, s, i) then Some(i) else None
    case None => None
  }

  /** A byte that passes the test is the place of a mention, and its end is three characters on. */
  lemma MentionOfByte(s: string, p: nat) returns (i: nat)
    requires MentionAtByte(Utf8(s), p)
    ensures i < |s| && Offset(s, i) == p && MentionAt(s, i) && Offset(s, i + 3) == p + 3
  {
    OffsetEnd(s);
    i := CharOfByte(s, p, |s|);
    CharStands(s, i);
    TestIsTheRule(s, i);
    ThreeStand(s, i);
    RuleSpells(s, i);
  }

  lemma ByteOfMention(s: string, i: nat)
    requires MentionAt(s, i)
    ensures Offset(s, i) + 3 <= |Utf8(s)| && MentionAtByte(Utf8(s), Offset(s, i)) && Offset(s, i + 3) == Offset(s, i) + 3
  {
    TestIsTheRule(s, i);
    ThreeStand(s, i);
    RuleSpells(s, i);
  }

  // ---- what is highlighted ---------------------------------------------------------------------

  datatype Range = Range(lower: nat, upper: nat)

  /** A token by the rule, with a cluster ending at each of its ends. */
  predicate Highlight(table: Table, s: string, r: Range) {
    MentionAt(s, r.lower) && r.upper == r.lower + 3 && IsBreak(table, s, r.lower) && IsBreak(table, s, r.upper)
  }

  /** The highlights that begin before a byte: all and only they, in order and disjoint. */
  ghost predicate FoundUpTo(table: Table, s: string, found: seq<Range>, upTo: nat) {
    && (forall r | r in found :: Highlight(table, s, r) && Offset(s, r.lower) < upTo)
    && (forall r | Highlight(table, s, r) && Offset(s, r.lower) < upTo :: r in found)
    && (forall i, j | 0 <= i < j < |found| :: found[i].upper <= found[j].lower)
  }

  /** ALL AND ONLY THE HIGHLIGHTS, in order and disjoint: the byte scan with its two checks on each place. */
  method Ranges(table: Table, s: string) returns (found: seq<Range>)
    ensures forall r :: r in found <==> Highlight(table, s, r)
    ensures forall i, j | 0 <= i < j < |found| :: found[i].upper <= found[j].lower
  {
    var bytes := Utf8(s);
    found := [];
    if |bytes| < 3 {
      NothingPast(table, s, 0, found);
      return;
    }
    for index := 0 to |bytes| - 2
      invariant FoundUpTo(table, s, found, index)
    {
      if MentionAtByte(bytes, index) {
        var lower := SamePosition(table, s, index);
        var upper := SamePosition(table, s, index + 3);
        ByteDecides(table, s, index, found);
        if lower.Some? && upper.Some? {
          found := found + [Range(lower.value, upper.value)];
        }
      } else {
        NoneAtByte(table, s, index);
      }
    }
    NothingPast(table, s, |bytes| - 2, found);
  }

  lemma NothingPast(table: Table, s: string, upTo: nat, found: seq<Range>)
    requires |Utf8(s)| < upTo + 3 && FoundUpTo(table, s, found, upTo)
    ensures forall r :: r in found <==> Highlight(table, s, r)
  {
    forall r | Highlight(table, s, r)
      ensures r in found
    {
      ByteOfMention(s, r.lower);
    }
  }

  lemma NoneAtByte(table: Table, s: string, p: nat)
    requires !MentionAtByte(Utf8(s), p)
    ensures forall r | Highlight(table, s, r) :: Offset(s, r.lower) != p
  {
    forall r | Highlight(table, s, r)
      ensures Offset(s, r.lower) != p
    {
      ByteOfMention(s, r.lower);
    }
  }

  /** At a byte that passes the test, both places are found exactly for a highlight there; and it follows every one before. */
  lemma ByteDecides(table: Table, s: string, p: nat, found: seq<Range>)
    requires MentionAtByte(Utf8(s), p) && FoundUpTo(table, s, found, p)
    ensures var lower, upper := SamePosition(table, s, p), SamePosition(table, s, p + 3);
      && (lower.Some? && upper.Some? ==>
            && Highlight(table, s, Range(lower.value, upper.value)) && Offset(s, lower.value) == p
            && forall r | r in found :: r.upper <= lower.value)
      && forall r | Highlight(table, s, r) && Offset(s, r.lower) == p ::
           lower == Some(r.lower) && upper == Some(r.upper)
  {
    var i := MentionOfByte(s, p);
    ScalarAtIs(s, p);
    ScalarAtIs(s, p + 3);
    forall r | r in found
      ensures r.upper <= i
    {
      ByteOfMention(s, r.lower);
      MentionsDoNotOverlap(Utf8(s), Offset(s, r.lower), p);
      OffsetGrows(s, i, r.upper);
    }
  }

  lemma {:induction false} OffsetGrows(s: string, i: nat, j: nat)
    requires i <= |s| && j <= |s|
    ensures i < j ==> Offset(s, i) < Offset(s, j)
    decreases j
  {
    if i < j {
      CharStands(s, j - 1);
      OffsetGrows(s, i, j - 1);
    }
  }

  // ---- the server's scan, and where the two part -----------------------------------------------

  /** first_mention: the first place of a token in the bytes, if there is one. */
  method FirstMention(bytes: seq<Byte>) returns (first: Option<nat>)
    ensures first.Some? ==> MentionAtByte(bytes, first.value) && forall p | 0 <= p < first.value :: !MentionAtByte(bytes, p)
    ensures first.None? ==> forall p: nat :: !MentionAtByte(bytes, p)
  {
    var index := 0;
    while index < |bytes|
      invariant index <= |bytes| && forall p | 0 <= p < index :: !MentionAtByte(bytes, p)
    {
      var start := index;
      while start < |bytes| && bytes[start] != 0x40
        invariant index <= start <= |bytes| && forall p | 0 <= p < start :: !MentionAtByte(bytes, p)
      {
        start := start + 1;
      }
      if start == |bytes| {
        return None;
      }
      var end := start + 3;
      if end <= |bytes| {
        ByteSpells(bytes, start);
        if Spells(bytes[start], bytes[start + 1], bytes[start + 2])
          && (start == 0 || IsBoundary(bytes[start - 1])) && (end == |bytes| || IsBoundary(bytes[end])) {
          return Some(start);
        }
      }
      index := start + 1;
    }
    return None;
  }

  /** No scalar of another cluster leans on the token from either side. */
  predicate StandsFree(table: Table, s: string, i: nat)
    requires i + 3 <= |s|
  {
    && (i == 0 || table(s[i - 1]).kind != Prepend)
    && (i + 3 == |s| || !LeansBack(table, s[i + 3]))
  }

  lemma HighlightIsFree(table: Table, s: string, i: nat)
    requires Lawful(table) && MentionAt(s, i)
    ensures Highlight(table, s, Range(i, i + 3)) <==> StandsFree(table, s, i)
  {
    RuleSpells(s, i);
    BreakBefore(table, s, i);
    BreakAfter(table, s, i + 3);
  }

  /** EXACTLY WHEN THE HIGHLIGHT IS THE WIRE CONTRACT: every mention the server's rule sees is highlighted, if and only if none has a prepended scalar before it or an extending one after it. */
  lemma ScanAgreesExactly(table: Table, s: string)
    requires Lawful(table)
    ensures (forall i: nat | MentionAt(s, i) :: Highlight(table, s, Range(i, i + 3))) <==>
            (forall i: nat | MentionAt(s, i) :: StandsFree(table, s, i))
  {
    forall i: nat | MentionAt(s, i)
      ensures Highlight(table, s, Range(i, i + 3)) <==> StandsFree(table, s, i)
    {
      HighlightIsFree(table, s, i);
    }
  }

  /** The yes or no of it, client and server: the client says a body asks the assistant exactly if some mention stands free, the server if there is a mention at all. */
  lemma AskedExactly(table: Table, s: string)
    requires Lawful(table)
    ensures (exists r :: Highlight(table, s, r)) <==> (exists i: nat :: MentionAt(s, i) && StandsFree(table, s, i))
    ensures (exists p: nat :: MentionAtByte(Utf8(s), p)) <==> (exists i: nat :: MentionAt(s, i))
  {
    if r :| Highlight(table, s, r) {
      HighlightIsFree(table, s, r.lower);
      assert StandsFree(table, s, r.lower);
    }
    if i :| MentionAt(s, i) && StandsFree(table, s, i) {
      HighlightIsFree(table, s, i);
    }
    if p :| MentionAtByte(Utf8(s), p) {
      var i := MentionOfByte(s, p);
    }
    if i :| MentionAt(s, i) {
      ByteOfMention(s, i);
    }
  }

  /** SUCH BODIES: `@ai` with a combining acute on its last letter, and after an Arabic number sign, are mentions to the server and plain to the client. */
  lemma LeaningScalarsHideIt(table: Table)
    requires Lawful(table) && table('\U{0301}').kind == Extend && table('\U{0600}').kind == Prepend
    ensures MentionAt("@ai\U{0301}", 0) && forall r :: !Highlight(table, "@ai\U{0301}", r)
    ensures MentionAt("\U{0600}@ai", 1) && forall r :: !Highlight(table, "\U{0600}@ai", r)
  {
    HighlightIsFree(table, "@ai\U{0301}", 0);
    HighlightIsFree(table, "\U{0600}@ai", 1);
    assert forall i: nat | i != 0 :: !MentionAt("@ai\U{0301}", i);
    assert forall i: nat | i != 1 :: !MentionAt("\U{0600}@ai", i);
  }
}
