/**
 * A string as Unicode scalars: its UTF-8 bytes, and its extended grapheme clusters by the rules of section 3.1.1 of
 * Unicode Standard Annex #29, which are what the Apple client calls characters. The property tables are a parameter.
 */
module UnicodeText {
  import opened Wrappers

  // ---- bytes -----------------------------------------------------------------------------------

  type Byte = b: int | 0 <= b < 256

  /** UTF-8, as section 3 of RFC 3629 writes it. */
  function Utf8Of(c: char): (s: seq<Byte>)
    ensures |s| > 0
    ensures (c as int < 0x80 ==> s == [c as int]) && (c as int >= 0x80 ==> forall i | 0 <= i < |s| :: s[i] >= 0x80)
  {
    var v := c as int;
    if v < 0x80 then [v]
    else if v < 0x800 then [0xC0 + v / 0x40, 0x80 + v % 0x40]
    else if v < 0x1_0000 then [0xE0 + v / 0x1000, 0x80 + v / 0x40 % 0x40, 0x80 + v % 0x40]
    else [0xF0 + v / 0x4_0000, 0x80 + v / 0x1000 % 0x40, 0x80 + v / 0x40 % 0x40, 0x80 + v % 0x40]
  }

  function Utf8(s: string): seq<Byte> {
    if s == [] then [] else Utf8Of(s[0]) + Utf8(s[1..])
  }

  // ---- clusters --------------------------------------------------------------------------------

  datatype Kind =
    | Other | CR | LF | Control | Extend | Joiner | Regional | Prepend | SpacingMark
    | HangulL | HangulV | HangulT | HangulLV | HangulLVT

  datatype Conjunct = NoConjunct | Consonant | Linker | Extender

  /** What the Unicode database says of one scalar: Grapheme_Cluster_Break, Extended_Pictographic, Indic_Conjunct_Break. */
  datatype Properties = Properties(kind: Kind, pictographic: bool, conjunct: Conjunct)

  type Table = char -> Properties

  /** What every version of the database says of the printable ASCII characters: nothing. */
  ghost predicate Lawful(table: Table) {
    forall c | IsPrintable(c) :: table(c) == Properties(Other, false, NoConjunct)
  }

  predicate IsPrintable(c: char) {
    0x20 <= c as int < 0x7F
  }

  /** A pictograph and extenders stand before a place. */
  predicate PictureBefore(table: Table, s: string, i: nat)
    requires i <= |s|
  {
    i > 0 && (table(s[i - 1]).pictographic || (table(s[i - 1]).kind == Extend && PictureBefore(table, s, i - 1)))
  }

  /** A consonant stands before a place, with only extenders and linkers after it, a linker among them. */
  predicate ConjunctBefore(table: Table, s: string, i: nat, linked: bool)
    requires i <= |s|
  {
    i > 0 &&
    match table(s[i - 1]).conjunct
    case Linker => ConjunctBefore(table, s, i - 1, true)
    case Extender => ConjunctBefore(table, s, i - 1, linked)
    case Consonant => linked
    case NoConjunct => false
  }

  function RegionalsBefore(table: Table, s: string, i: nat): nat
    requires i <= |s|
  {
    if i > 0 && table(s[i - 1]).kind == Regional then 1 + RegionalsBefore(table, s, i - 1) else 0
  }

  predicate IsControl(kind: Kind) {
    kind == CR || kind == LF || kind == Control
  }

  /** The rules that hold two scalars together whatever stands before them: GB6 to GB9b. */
  predicate PairJoins(a: Kind, b: Kind) {
    || (a == HangulL && (b == HangulL || b == HangulV || b == HangulLV || b == HangulLVT))
    || ((a == HangulLV || a == HangulV) && (b == HangulV || b == HangulT))
    || ((a == HangulLVT || a == HangulT) && b == HangulT)
    || b == Extend || b == Joiner || b == SpacingMark || a == Prepend
  }

  /** No cluster ends between these two neighbours. */
  predicate Joins(table: Table, s: string, i: nat)
    requires 0 < i < |s|
  {
    var a, b := table(s[i - 1]), table(s[i]);
    if a.kind == CR && b.kind == LF then true
    else if IsControl(a.kind) || IsControl(b.kind) then false
    else
      || PairJoins(a.kind, b.kind)
      || (b.conjunct == Consonant && ConjunctBefore(table, s, i, false))
      || (b.pictographic && a.kind == Joiner && PictureBefore(table, s, i - 1))
      || (b.kind == Regional && RegionalsBefore(table, s, i) % 2 == 1)
  }

  /** A place where a cluster begins or ends. */
  predicate IsBreak(table: Table, s: string, i: nat)
    requires i <= |s|
  {
    i == 0 || i == |s| || !Joins(table, s, i)
  }

  /** Before a printable ASCII character a cluster ends unless a scalar that joins forward stands there. */
  lemma BreakBefore(table: Table, s: string, i: nat)
    requires Lawful(table) && i < |s| && IsPrintable(s[i])
    ensures IsBreak(table, s, i) <==> i == 0 || table(s[i - 1]).kind != Prepend
  {
    assert table(s[i]) == Properties(Other, false, NoConjunct);
  }

  /** After a printable ASCII character a cluster ends unless a scalar that joins back follows. */
  lemma BreakAfter(table: Table, s: string, i: nat)
    requires Lawful(table) && 0 < i <= |s| && IsPrintable(s[i - 1])
    ensures IsBreak(table, s, i) <==>
      i == |s| || !LeansBack(table, s[i])
  {
    assert table(s[i - 1]) == Properties(Other, false, NoConjunct);
  }

  /** What joins back onto an ASCII character. */
  predicate LeansBack(table: Table, c: char) {
    table(c).kind == Extend || table(c).kind == Joiner || table(c).kind == SpacingMark
  }

  /** Where the cluster that begins at a place ends. */
  function NextBreak(table: Table, s: string, i: nat): (r: nat)
    requires i < |s|
    ensures i < r <= |s| && IsBreak(table, s, r) && forall k | i < k < r :: !IsBreak(table, s, k)
    decreases |s| - i
  {
    if IsBreak(table, s, i + 1) then i + 1 else NextBreak(table, s, i + 1)
  }

  /** How many clusters there are from a place on. */
  function Clusters(table: Table, s: string, i: nat): nat
    requires i <= |s|
    decreases |s| - i
  {
    if i == |s| then 0 else 1 + Clusters(table, s, NextBreak(table, s, i))
  }

  /** Where the n-th cluster from a place ends, or the string does. */
  function ClustersEnd(table: Table, s: string, i: nat, n: nat): (r: nat)
    requires i <= |s|
    ensures i <= r <= |s| && (n > 0 && i < |s| ==> NextBreak(table, s, i) <= r) && (IsBreak(table, s, i) ==> IsBreak(table, s, r))
    decreases n
  {
    if n == 0 || i == |s| then i else ClustersEnd(table, s, NextBreak(table, s, i), n - 1)
  }

  // ---- a string cut where a cluster ends -------------------------------------------------------

  lemma {:induction false} LooksBackAlike(table: Table, s: string, e: nat, i: nat, linked: bool)
    requires i <= e <= |s|
    ensures PictureBefore(table, s[..e], i) == PictureBefore(table, s, i)
    ensures ConjunctBefore(table, s[..e], i, linked) == ConjunctBefore(table, s, i, linked)
    ensures RegionalsBefore(table, s[..e], i) == RegionalsBefore(table, s, i)
    decreases i
  {
    if i > 0 {
      LooksBackAlike(table, s, e, i - 1, linked);
      LooksBackAlike(table, s, e, i - 1, true);
    }
  }

  /** Up to the cut, clusters end where they did. */
  lemma BreaksAlike(table: Table, s: string, e: nat, i: nat)
    requires i < e <= |s|
    ensures IsBreak(table, s[..e], i) <==> IsBreak(table, s, i)
  {
    if i > 0 {
      LooksBackAlike(table, s, e, i, false);
      LooksBackAlike(table, s, e, i - 1, false);
    }
  }

  lemma {:induction false} NextAlike(table: Table, s: string, e: nat, i: nat)
    requires i < e <= |s| && IsBreak(table, s, e)
    ensures NextBreak(table, s[..e], i) == NextBreak(table, s, i)
    decreases e - i
  {
    if i + 1 < e {
      BreaksAlike(table, s, e, i + 1);
      if !IsBreak(table, s, i + 1) {
        NextAlike(table, s, e, i + 1);
      }
    }
  }

  /** The first n clusters, cut off, are at most n. */
  lemma {:induction false} CutHasFew(table: Table, s: string, i: nat, n: nat, e: nat)
    requires i <= |s| && IsBreak(table, s, i) && e == ClustersEnd(table, s, i, n)
    ensures Clusters(table, s[..e], i) <= n
    decreases n
  {
    if n > 0 && i < |s| {
      CutHasFew(table, s, NextBreak(table, s, i), n - 1, e);
      NextAlike(table, s, e, i);
    }
  }

  // ---- printable ASCII -------------------------------------------------------------------------

  predicate AllPrintable(s: string) {
    forall i | 0 <= i < |s| :: IsPrintable(s[i])
  }

  /** Of printable ASCII every character is a cluster and a byte. */
  lemma {:induction false} PrintableIsPlain(table: Table, s: string, i: nat)
    requires Lawful(table) && AllPrintable(s) && i <= |s|
    ensures Clusters(table, s, i) == |s| - i && |Utf8(s[i..])| == |s| - i
    decreases |s| - i
  {
    if i < |s| {
      BreakAfter(table, s, i + 1);
      PrintableIsPlain(table, s, i + 1);
      assert s[i..][1..] == s[i + 1..];
    }
  }
}
