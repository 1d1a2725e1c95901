/**
 * The version the web client loads its rich-block renderer under: a walk of a directory, a sort, one framed
 * byte stream and its FNV-1a hash (web/build.rs).
 */
module TreeHash {
  import opened Wrappers

  type Byte = b: int | 0 <= b < 256
  type Name = seq<Byte>
  type Path = seq<Name>

  // ---- FNV-1a ----------------------------------------------------------------------------------

  const OFFSET: int := 0xcbf2_9ce4_8422_2325
  const PRIME: int := 0x0000_0100_0000_01b3
  const TWO_64: int := 0x1_0000_0000_0000_0000
  /** The inverse of PRIME modulo 2^64. */
  const UNPRIME: int := 0xce96_5057_aff6_957b

  type U64 = h: int | 0 <= h < TWO_64

  function Pow2(k: nat): (p: int)
    ensures p > 0
  {
    if k == 0 then 1 else 2 * Pow2(k - 1)
  }

  /** Bitwise exclusive or. */
  function Xor(a: nat, b: nat): nat
    decreases a + b
  {
    if a + b == 0 then 0 else (a + b) % 2 + 2 * Xor(a / 2, b / 2)
  }

  function Mixed(h: U64, b: Byte): U64 {
    Bits64();
    XorFits(h, b, 64);
    Xor(h, b)
  }

  function Step(h: U64, b: Byte): U64 {
    Mixed(h, b) * PRIME % TWO_64
  }

  /** The state before a byte, from the state after it. */
  function Unstep(h: U64, b: Byte): U64 {
    Mixed(h * UNPRIME % TWO_64, b)
  }

  function Fold(h: U64, bytes: seq<Byte>): U64
    decreases |bytes|
  {
    if bytes == [] then h else Fold(Step(h, bytes[0]), bytes[1..])
  }

  class Fnv {
    var state: U64

    constructor ()
      ensures state == OFFSET
    {
      state := OFFSET;
    }

    method Write(bytes: seq<Byte>)
      modifies this
      ensures state == Fold(old(state), bytes)
    {
      var i := 0;
      while i < |bytes|
        invariant 0 <= i <= |bytes|
        invariant Fold(state, bytes[i..]) == Fold(old(state), bytes)
      {
        state := Mixed(state, bytes[i]);
        state := state * PRIME % TWO_64;
        assert bytes[i..][1..] == bytes[i + 1..];
        i := i + 1;
      }
    }
  }

  lemma {:induction false} Pow2Adds(a: nat, b: nat)
    ensures Pow2(a + b) == Pow2(a) * Pow2(b)
  {
    if a > 0 {
      Pow2Adds(a - 1, b);
    }
  }

  lemma Bits64()
    ensures Pow2(64) == TWO_64
  {
    assert Pow2(2) == 2 * Pow2(1) && Pow2(1) == 2;
    Pow2Adds(2, 2);
    Pow2Adds(4, 4);
    Pow2Adds(8, 8);
    Pow2Adds(16, 16);
    Pow2Adds(32, 32);
  }

  lemma {:induction false} XorFits(a: nat, b: nat, k: nat)
    requires a < Pow2(k) && b < Pow2(k)
    ensures Xor(a, b) < Pow2(k)
    decreases k
  {
    if k > 0 {
      XorFits(a / 2, b / 2, k - 1);
    }
  }

  lemma {:induction false} XorUndone(a: nat, b: nat)
    ensures Xor(Xor(a, b), b) == a
    decreases a + b
  {
    if a + b > 0 {
      XorUndone(a / 2, b / 2);
      Bottom(a, b, Xor(a / 2, b / 2));
    }
  }

  /** Taking the bottom bit off and putting it back. */
  lemma Bottom(a: nat, b: nat, rest: nat)
    ensures var x := (a + b) % 2 + 2 * rest;
      x / 2 == rest && (x + b) % 2 == a % 2 && a == a % 2 + 2 * (a / 2)
  {
  }

  lemma {:induction false} XorCommutes(a: nat, b: nat)
    ensures Xor(a, b) == Xor(b, a)
    decreases a + b
  {
    if a + b > 0 {
      XorCommutes(a / 2, b / 2);
    }
  }

  lemma Remainder(a: int, x: int, k: int, m: int)
    requires 0 <= x < m && a == x + m * k
    ensures a % m == x
  {
    var q, r := a / m, a % m;
    assert m * (q - k) == x - r;
    if q - k >= 1 {
      AtLeastOnce(m, q - k);
      assert false;
    }
    if q - k <= -1 {
      AtLeastOnce(m, k - q);
      assert false;
    }
  }

  lemma AtLeastOnce(m: int, d: int)
    requires m > 0 && d >= 1
    ensures m * d >= m && m * -d <= -m
  {
  }

  /** Multiplying modulo m by a number and then by its inverse comes back, whichever is first. */
  lemma TimesThere(x: int, p: int, i: int, k: int, m: int)
    requires 0 <= x < m && p * i == 1 + k * m
    ensures x * p % m * i % m == x
  {
    var q, r := x * p / m, x * p % m;
    assert r == x * p - q * m;
    assert r * i == x + m * (x * k - q * i) by {
      assert r * i == x * p * i - q * m * i;
      assert x * p * i == x * (p * i) == x * (1 + k * m) == x + m * (x * k);
    }
    Remainder(r * i, x, x * k - q * i, m);
  }

  lemma PrimeInverts()
    ensures PRIME * UNPRIME == 1 + PRIME * UNPRIME / TWO_64 * TWO_64
  {
  }

  /** EACH BYTE STEP IS A BIJECTION of the 64-bit state: Unstep is its inverse on both sides. */
  lemma StepIsABijection(h: U64, b: Byte)
    ensures Unstep(Step(h, b), b) == h && Step(Unstep(h, b), b) == h
  {
    PrimeInverts();
    var k := PRIME * UNPRIME / TWO_64;
    TimesThere(Mixed(h, b), PRIME, UNPRIME, k, TWO_64);
    TimesThere(h, UNPRIME, PRIME, k, TWO_64);
    XorUndone(h, b);
    XorUndone(h * UNPRIME % TWO_64, b);
  }

  /** And it is injective in the byte. */
  lemma StepTellsBytesApart(h: U64, b: Byte, c: Byte)
    requires Step(h, b) == Step(h, c)
    ensures b == c
  {
    PrimeInverts();
    var k := PRIME * UNPRIME / TWO_64;
    TimesThere(Mixed(h, b), PRIME, UNPRIME, k, TWO_64);
    TimesThere(Mixed(h, c), PRIME, UNPRIME, k, TWO_64);
    XorCommutes(h, b);
    XorCommutes(h, c);
    XorUndone(b, h);
    XorUndone(c, h);
  }

  /** Writing in chunks is writing their concatenation. */
  lemma {:induction false} FoldJoins(h: U64, a: seq<Byte>, b: seq<Byte>)
    ensures Fold(h, a + b) == Fold(Fold(h, a), b)
    decreases |a|
  {
    if a == [] {
      assert a + b == b;
    } else {
      assert (a + b)[0] == a[0] && (a + b)[1..] == a[1..] + b;
      FoldJoins(Step(h, a[0]), a[1..], b);
    }
  }

  lemma {:induction false} FoldKeepsApart(g: U64, h: U64, bytes: seq<Byte>)
    requires g != h
    ensures Fold(g, bytes) != Fold(h, bytes)
    decreases |bytes|
  {
    if bytes != [] {
      StepIsABijection(g, bytes[0]);
      StepIsABijection(h, bytes[0]);
      FoldKeepsApart(Step(g, bytes[0]), Step(h, bytes[0]), bytes[1..]);
    }
  }

  /** ONE BYTE: two streams of one length that differ in exactly one byte never share a version. */
  lemma OneByteChangesTheHash(before: seq<Byte>, b: Byte, c: Byte, after: seq<Byte>)
    requires b != c
    ensures Fold(OFFSET, before + [b] + after) != Fold(OFFSET, before + [c] + after)
  {
    var h := Fold(OFFSET, before);
    FoldJoins(OFFSET, before + [b], after);
    FoldJoins(OFFSET, before + [c], after);
    FoldJoins(OFFSET, before, [b]);
    FoldJoins(OFFSET, before, [c]);
    assert Fold(h, [b]) == Step(h, b) && Fold(h, [c]) == Step(h, c);
    if Step(h, b) == Step(h, c) {
      StepTellsBytesApart(h, b, c);
      assert false;
    }
    FoldKeepsApart(Step(h, b), Step(h, c), after);
  }

  // ---- the framed stream -----------------------------------------------------------------------

  datatype FileAt = FileAt(path: Path, bytes: seq<Byte>)

  const SLASH: Byte := 47
  const DOT: Byte := 46

  function Joined(path: Path): Name
    decreases |path|
  {
    if path == [] then []
    else if |path| == 1 then path[0]
    else path[0] + [SLASH] + Joined(path[1..])
  }

  function LittleEndian(n: nat): (s: seq<Byte>)
    ensures |s| == 8
  {
    var q1 := n / 256; var q2 := q1 / 256; var q3 := q2 / 256; var q4 := q3 / 256;
    var q5 := q4 / 256; var q6 := q5 / 256; var q7 := q6 / 256;
    [n % 256, q1 % 256, q2 % 256, q3 % 256, q4 % 256, q5 % 256, q6 % 256, q7 % 256]
  }

  /** The name, a separator no name holds, the length. */
  function Head(path: Path, n: nat): seq<Byte> {
    Joined(path) + [0] + LittleEndian(n)
  }

  function Framed(file: FileAt): seq<Byte> {
    Head(file.path, |file.bytes|) + file.bytes
  }

  function Stream(files: seq<FileAt>): seq<Byte>
    decreases |files|
  {
    if files == [] then [] else Framed(files[0]) + Stream(files[1..])
  }

  /** What a file system promises of a name. */
  predicate GoodName(name: Name) {
    name != [] && 0 !in name && SLASH !in name
  }

  predicate GoodFile(file: FileAt) {
    file.path != [] && (forall i | 0 <= i < |file.path| :: GoodName(file.path[i])) && |file.bytes| < TWO_64
  }

  lemma CutAt(sep: Byte, a: seq<Byte>, x: seq<Byte>, b: seq<Byte>, y: seq<Byte>)
    requires sep !in a && sep !in b && a + [sep] + x == b + [sep] + y
    ensures a == b && x == y
  {
    var s := a + [sep] + x;
    assert s[|a|] == sep && s[|b|] == sep;
    assert forall i | 0 <= i < |a| :: s[i] == a[i] && a[i] in a;
    assert forall i | 0 <= i < |b| :: s[i] == b[i] && b[i] in b;
    assert |a| == |b|;
    assert a == s[..|a|] && b == s[..|b|];
    assert x == s[|a| + 1..] && y == s[|b| + 1..];
  }

  lemma {:induction false} JoinedTellsPathsApart(p: Path, q: Path)
    requires p != [] && q != [] && Joined(p) == Joined(q)
    requires forall i | 0 <= i < |p| :: GoodName(p[i])
    requires forall i | 0 <= i < |q| :: GoodName(q[i])
    ensures p == q
    decreases |p|
  {
    if |p| > 1 {
      SlashInside(p);
    }
    if |q| > 1 {
      SlashInside(q);
    }
    if |p| > 1 && |q| > 1 {
      CutAt(SLASH, p[0], Joined(p[1..]), q[0], Joined(q[1..]));
      JoinedTellsPathsApart(p[1..], q[1..]);
      assert p == [p[0]] + p[1..] && q == [q[0]] + q[1..];
    }
  }

  lemma SlashInside(p: Path)
    requires |p| > 1
    ensures SLASH in Joined(p)
  {
    assert Joined(p)[|p[0]|] == SLASH;
  }

  lemma {:induction false} JoinedHasNoNul(p: Path)
    requires forall i | 0 <= i < |p| :: GoodName(p[i])
    ensures 0 !in Joined(p)
    decreases |p|
  {
    if |p| > 1 {
      JoinedHasNoNul(p[1..]);
    }
  }

  lemma LengthIsReadable(m: nat, n: nat)
    requires m < TWO_64 && n < TWO_64 && LittleEndian(m) == LittleEndian(n)
    ensures m == n
  {
    var a, b := LittleEndian(m), LittleEndian(n);
    LengthFromBytes(m);
    LengthFromBytes(n);
    assert a[0] == b[0] && a[1] == b[1] && a[2] == b[2] && a[3] == b[3];
    assert a[4] == b[4] && a[5] == b[5] && a[6] == b[6] && a[7] == b[7];
  }

  lemma LengthFromBytes(n: nat)
    requires n < TWO_64
    ensures var s: seq<int> := LittleEndian(n);
      n == s[0] + 256 * (s[1] + 256 * (s[2] + 256 * (s[3] + 256 * (s[4] + 256 * (s[5] + 256 * (s[6] + 256 * s[7]))))))
  {
  }

  /** A length and that many bytes can be read off in one way only. */
  lemma FrontBody(f: seq<Byte>, x: seq<Byte>, g: seq<Byte>, y: seq<Byte>)
    requires |f| < TWO_64 && |g| < TWO_64
    requires LittleEndian(|f|) + f + x == LittleEndian(|g|) + g + y
    ensures f == g && x == y
  {
    var lf, lg := LittleEndian(|f|), LittleEndian(|g|);
    assert lf + f + x == lf + (f + x) && lg + g + y == lg + (g + y);
    CutLength(lf, f + x, lg, g + y);
    LengthIsReadable(|f|, |g|);
    CutLength(f, x, g, y);
  }

  lemma CutLength(a: seq<Byte>, x: seq<Byte>, b: seq<Byte>, y: seq<Byte>)
    requires |a| == |b| && a + x == b + y
    ensures a == b && x == y
  {
    assert a == (a + x)[..|a|] && b == (b + y)[..|a|];
    assert x == (a + x)[|a|..] && y == (b + y)[|a|..];
  }

  /** One frame can be read off the front of a stream in one way only. */
  lemma FrontFrame(f: FileAt, x: seq<Byte>, g: FileAt, y: seq<Byte>)
    requires GoodFile(f) && GoodFile(g) && Framed(f) + x == Framed(g) + y
    ensures f == g && x == y
  {
    JoinedHasNoNul(f.path);
    JoinedHasNoNul(g.path);
    FrameIs(f, x);
    FrameIs(g, y);
    CutAt(0, Joined(f.path), LittleEndian(|f.bytes|) + f.bytes + x, Joined(g.path), LittleEndian(|g.bytes|) + g.bytes + y);
    JoinedTellsPathsApart(f.path, g.path);
    FrontBody(f.bytes, x, g.bytes, y);
  }

  lemma FrameIs(f: FileAt, x: seq<Byte>)
    ensures Framed(f) + x == Joined(f.path) + [0] + (LittleEndian(|f.bytes|) + f.bytes + x)
  {
  }

  /** UNAMBIGUOUS: two lists of files that make the same stream are the same list. */
  lemma {:induction false} StreamTellsListsApart(a: seq<FileAt>, b: seq<FileAt>)
    requires forall i | 0 <= i < |a| :: GoodFile(a[i])
    requires forall i | 0 <= i < |b| :: GoodFile(b[i])
    requires Stream(a) == Stream(b)
    ensures a == b
    decreases |a|
  {
    if a == [] {
      assert b == [];
    } else if b != [] {
      FrontFrame(a[0], Stream(a[1..]), b[0], Stream(b[1..]));
      StreamTellsListsApart(a[1..], b[1..]);
      assert a == [a[0]] + a[1..] && b == [b[0]] + b[1..];
    }
  }

  // ---- the order of the list -------------------------------------------------------------------

  predicate LessName(a: Name, b: Name)
    decreases |a|
  {
    if b == [] then false
    else if a == [] then true
    else if a[0] != b[0] then a[0] < b[0]
    else LessName(a[1..], b[1..])
  }

  predicate LessPath(p: Path, q: Path)
    decreases |p|
  {
    if q == [] then false
    else if p == [] then true
    else if p[0] != q[0] then LessName(p[0], q[0])
    else LessPath(p[1..], q[1..])
  }

  lemma {:induction false} NamesCompare(a: Name, b: Name)
    ensures !(LessName(a, b) && LessName(b, a))
    ensures a == b || LessName(a, b) || LessName(b, a)
    decreases |a|
  {
    if a != [] && b != [] && a[0] == b[0] {
      NamesCompare(a[1..], b[1..]);
      assert a == [a[0]] + a[1..] && b == [b[0]] + b[1..];
    }
  }

  lemma {:induction false} NamesChain(a: Name, b: Name, c: Name)
    requires LessName(a, b) && LessName(b, c)
    ensures LessName(a, c)
    decreases |a|
  {
    if a != [] && a[0] == b[0] && b[0] == c[0] {
      NamesChain(a[1..], b[1..], c[1..]);
    }
  }

  lemma {:induction false} PathsCompare(p: Path, q: Path)
    ensures !(LessPath(p, q) && LessPath(q, p))
    ensures p == q || LessPath(p, q) || LessPath(q, p)
    decreases |p|
  {
    if p != [] && q != [] {
      NamesCompare(p[0], q[0]);
      if p[0] == q[0] {
        PathsCompare(p[1..], q[1..]);
        assert p == [p[0]] + p[1..] && q == [q[0]] + q[1..];
      }
    }
  }

  lemma {:induction false} PathsChain(p: Path, q: Path, r: Path)
    requires LessPath(p, q) && LessPath(q, r)
    ensures LessPath(p, r)
    decreases |p|
  {
    if p != [] {
      if p[0] == q[0] && q[0] == r[0] {
        PathsChain(p[1..], q[1..], r[1..]);
      } else if p[0] != q[0] && q[0] != r[0] {
        NamesChain(p[0], q[0], r[0]);
        NamesCompare(p[0], q[0]);
      }
    }
  }

  ghost predicate InOrder(files: seq<FileAt>) {
    forall i, j | 0 <= i < j < |files| :: LessPath(files[i].path, files[j].path)
  }

  ghost predicate DistinctPaths(files: seq<FileAt>) {
    forall i, j | 0 <= i < j < |files| :: files[i].path != files[j].path
  }

  function Inserted(file: FileAt, files: seq<FileAt>): (r: seq<FileAt>)
    ensures forall f :: f in r <==> f == file || f in files
    decreases |files|
  {
    if files == [] || LessPath(file.path, files[0].path) then [file] + files
    else
      var rest := Inserted(file, files[1..]);
      assert files == [files[0]] + files[1..];
      [files[0]] + rest
  }

  function Sorted(files: seq<FileAt>): (r: seq<FileAt>)
    ensures forall f :: f in r <==> f in files
    decreases |files|
  {
    if files == [] then []
    else
      assert files == [files[0]] + files[1..];
      Inserted(files[0], Sorted(files[1..]))
  }

  lemma {:induction false} InsertedInOrder(file: FileAt, files: seq<FileAt>)
    requires InOrder(files) && forall f | f in files :: f.path != file.path
    ensures InOrder(Inserted(file, files))
    decreases |files|
  {
    var r := Inserted(file, files);
    if files == [] {
    } else if LessPath(file.path, files[0].path) {
      forall j | 1 <= j < |r|
        ensures LessPath(file.path, r[j].path)
      {
        if j > 1 {
          PathsChain(file.path, files[0].path, files[j - 1].path);
        }
      }
    } else {
      var rest := files[1..];
      assert forall f | f in rest :: f in files;
      InsertedInOrder(file, rest);
      forall j | 1 <= j < |r|
        ensures LessPath(files[0].path, r[j].path)
      {
        assert r[j] in Inserted(file, rest);
        PathsCompare(file.path, files[0].path);
        assert files[0] in files;
        if r[j] != file {
          var k :| 0 <= k < |rest| && rest[k] == r[j];
          assert files[k + 1] == r[j];
        }
      }
    }
  }

  lemma {:induction false} SortedInOrder(files: seq<FileAt>)
    requires DistinctPaths(files)
    ensures InOrder(Sorted(files))
    decreases |files|
  {
    if files != [] {
      var rest := files[1..];
      SortedInOrder(rest);
      forall f | f in rest
        ensures f.path != files[0].path
      {
        var k :| 0 <= k < |rest| && rest[k] == f;
        assert files[k + 1] == f;
      }
      InsertedInOrder(files[0], Sorted(rest));
    }
  }

  lemma FirstIsLeast(files: seq<FileAt>, f: FileAt)
    requires InOrder(files) && f in files
    ensures f == files[0] || LessPath(files[0].path, f.path)
  {
    var k :| 0 <= k < |files| && files[k] == f;
  }

  lemma InTail(files: seq<FileAt>, f: FileAt)
    requires InOrder(files) && files != []
    ensures f in files[1..] <==> f in files && f != files[0]
  {
    assert files == [files[0]] + files[1..];
    if f in files[1..] {
      var k :| 0 <= k < |files[1..]| && files[1..][k] == f;
      assert LessPath(files[0].path, files[k + 1].path);
      PathsCompare(f.path, f.path);
    }
  }

  lemma FirstOf(files: seq<FileAt>) returns (f: FileAt)
    requires files != []
    ensures f in files
  {
    f := files[0];
  }

  /** A list in order is fixed by what it holds. */
  lemma {:induction false} OrderFixesTheList(a: seq<FileAt>, b: seq<FileAt>)
    requires InOrder(a) && InOrder(b) && forall f :: f in a <==> f in b
    ensures a == b
    decreases |a|
  {
    if a == [] {
      if b != [] {
        var f := FirstOf(b);
        assert false;
      }
    } else {
      assert a[0] in b;
      assert b[0] in a;
      FirstIsLeast(b, a[0]);
      FirstIsLeast(a, b[0]);
      PathsCompare(a[0].path, b[0].path);
      forall f
        ensures f in a[1..] <==> f in b[1..]
      {
        InTail(a, f);
        InTail(b, f);
      }
      OrderFixesTheList(a[1..], b[1..]);
      assert a == [a[0]] + a[1..] && b == [b[0]] + b[1..];
    }
  }

  // ---- the walk --------------------------------------------------------------------------------

  /** A directory as one read of it lists its entries: in whatever order the file system likes. */
  datatype Entry =
    | File(name: Name, bytes: seq<Byte>)
    | Dir(name: Name, entries: seq<Entry>)

  predicate Dotted(name: Name) {
    name != [] && name[0] == DOT
  }

  /** What a file system promises: good names, no two the same in one directory, lengths of 64 bits. */
  predicate GoodTree(entries: seq<Entry>) {
    && (forall i, j | 0 <= i < j < |entries| :: entries[i].name != entries[j].name)
    && forall i | 0 <= i < |entries| ::
         && GoodName(entries[i].name)
         && (entries[i].File? ==> |entries[i].bytes| < TWO_64)
         && (entries[i].Dir? ==> GoodTree(entries[i].entries))
  }

  /** The file at a path with no dotted part, however the directories were listed. */
  predicate Shows(entries: seq<Entry>, file: FileAt)
    decreases |file.path|
  {
    && file.path != [] && !Dotted(file.path[0])
    && exists i | 0 <= i < |entries| ::
         && entries[i].name == file.path[0]
         && if |file.path| == 1 then entries[i] == File(file.path[0], file.bytes)
            else entries[i].Dir? && Shows(entries[i].entries, FileAt(file.path[1..], file.bytes))
  }

  /** What the walk pushes, in the order it meets it. */
  function Walked(dir: Path, entries: seq<Entry>): seq<FileAt>
    decreases entries
  {
    if entries == [] then []
    else WalkedOne(dir, entries[0]) + Walked(dir, entries[1..])
  }

  function WalkedOne(dir: Path, entry: Entry): seq<FileAt>
    decreases entry
  {
    if Dotted(entry.name) then []
    else
      match entry
      case File(name, bytes) => [FileAt(dir + [name], bytes)]
      case Dir(name, entries) => Walked(dir + [name], entries)
  }

  class Walk {
    var into: seq<FileAt>

    constructor ()
      ensures into == []
    {
      into := [];
    }

    method Collect(dir: Path, entries: seq<Entry>)
      modifies this
      ensures into == old(into) + Walked(dir, entries)
      decreases entries
    {
      var i := 0;
      while i < |entries|
        invariant 0 <= i <= |entries|
        invariant into + Walked(dir, entries[i..]) == old(into) + Walked(dir, entries)
      {
        var entry := entries[i];
        ghost var before := into;
        if !Dotted(entry.name) {
          match entry {
            case Dir(name, inner) =>
              Collect(dir + [name], inner);
            case File(name, bytes) =>
              into := into + [FileAt(dir + [name], bytes)];
          }
        }
        assert into == before + WalkedOne(dir, entry);
        assert entries[i..][1..] == entries[i + 1..];
        i := i + 1;
      }
    }
  }

  predicate ShowsOne(entry: Entry, file: FileAt)
    requires file.path != []
  {
    && !Dotted(file.path[0]) && entry.name == file.path[0]
    && if |file.path| == 1 then entry == File(file.path[0], file.bytes)
       else entry.Dir? && Shows(entry.entries, FileAt(file.path[1..], file.bytes))
  }

  lemma ShowsSplits(entries: seq<Entry>, file: FileAt)
    requires entries != [] && file.path != []
    ensures Shows(entries, file) <==> ShowsOne(entries[0], file) || Shows(entries[1..], file)
  {
    var rest := entries[1..];
    if Shows(entries, file) && !ShowsOne(entries[0], file) {
      var i :| 0 <= i < |entries| && ShowsOne(entries[i], file);
      assert ShowsOne(rest[i - 1], file);
    }
    if Shows(rest, file) {
      var i :| 0 <= i < |rest| && ShowsOne(rest[i], file);
      assert ShowsOne(entries[i + 1], file);
    }
  }

  /** THE WALK FINDS exactly the files the tree shows, each under the directory it started from. */
  lemma {:induction false} WalkFinds(dir: Path, entries: seq<Entry>, path: Path, bytes: seq<Byte>)
    ensures FileAt(dir + path, bytes) in Walked(dir, entries) <==> Shows(entries, FileAt(path, bytes))
    decreases entries
  {
    if entries != [] {
      WalkFinds(dir, entries[1..], path, bytes);
      WalkOneFinds(dir, entries[0], path, bytes);
      if path != [] {
        ShowsSplits(entries, FileAt(path, bytes));
      }
    }
  }

  lemma {:induction false} WalkOneFinds(dir: Path, entry: Entry, path: Path, bytes: seq<Byte>)
    ensures FileAt(dir + path, bytes) in WalkedOne(dir, entry) <==> path != [] && ShowsOne(entry, FileAt(path, bytes))
    decreases entry
  {
    if !Dotted(entry.name) {
      var inside := dir + [entry.name];
      match entry
      case File(name, own) =>
        if dir + path == inside {
          assert path == (dir + path)[|dir|..] == [name];
        }
      case Dir(name, inner) =>
        if FileAt(dir + path, bytes) in Walked(inside, inner) {
          WalkStaysInside(inside, inner, FileAt(dir + path, bytes));
          NextPart(dir, name, path);
        }
        if path != [] && path[0] == name {
          WalkFinds(inside, inner, path[1..], bytes);
          assert dir + path == inside + path[1..];
        }
    }
  }

  lemma NextPart(dir: Path, name: Name, path: Path)
    requires dir + [name] <= dir + path
    ensures path != [] && path[0] == name
  {
    assert (dir + path)[|dir|] == (dir + [name])[|dir|] == name;
  }

  lemma {:induction false} WalkStaysInside(dir: Path, entries: seq<Entry>, file: FileAt)
    requires file in Walked(dir, entries)
    ensures dir <= file.path && |dir| < |file.path|
    decreases entries
  {
    if file in WalkedOne(dir, entries[0]) {
      match entries[0]
      case File(name, own) =>
      case Dir(name, inner) =>
        WalkStaysInside(dir + [name], inner, file);
        assert dir <= dir + [name];
    } else {
      WalkStaysInside(dir, entries[1..], file);
    }
  }

  /** No path is walked twice. */
  lemma {:induction false} WalkIsDistinct(dir: Path, entries: seq<Entry>)
    requires GoodTree(entries)
    ensures DistinctPaths(Walked(dir, entries))
    decreases entries
  {
    if entries != [] {
      var first, rest := WalkedOne(dir, entries[0]), Walked(dir, entries[1..]);
      WalkIsDistinct(dir, entries[1..]);
      if entries[0].Dir? {
        WalkIsDistinct(dir + [entries[0].name], entries[0].entries);
      }
      assert DistinctPaths(first);
      forall f, g | f in first && g in rest
        ensures f.path != g.path
      {
        StartsWithName(dir, entries[..1], f);
        StartsWithName(dir, entries[1..], g);
      }
    }
  }

  lemma {:induction false} StartsWithName(dir: Path, entries: seq<Entry>, file: FileAt)
    requires file in Walked(dir, entries)
    ensures |dir| < |file.path| && exists i | 0 <= i < |entries| :: entries[i].name == file.path[|dir|]
  {
    WalkStaysInside(dir, entries, file);
    var path := file.path[|dir|..];
    assert file.path == dir + path;
    WalkFinds(dir, entries, path, file.bytes);
  }

  lemma {:induction false} ShownIsGood(entries: seq<Entry>, file: FileAt)
    requires GoodTree(entries) && Shows(entries, file)
    ensures GoodFile(file)
    decreases |file.path|
  {
    if |file.path| > 1 {
      var inner := FileAt(file.path[1..], file.bytes);
      var i :| 0 <= i < |entries| && entries[i].name == file.path[0] && entries[i].Dir? && Shows(entries[i].entries, inner);
      ShownIsGood(entries[i].entries, inner);
      assert file.path == [file.path[0]] + inner.path;
    }
  }

  // ---- the version -----------------------------------------------------------------------------

  /** The files of a tree as they are hashed. */
  function Listed(entries: seq<Entry>): seq<FileAt> {
    Sorted(Walked([], entries))
  }

  lemma ListedIs(entries: seq<Entry>)
    requires GoodTree(entries)
    ensures InOrder(Listed(entries))
    ensures forall f :: f in Listed(entries) <==> Shows(entries, f)
    ensures forall i | 0 <= i < |Listed(entries)| :: GoodFile(Listed(entries)[i])
  {
    var walked := Walked([], entries);
    WalkIsDistinct([], entries);
    SortedInOrder(walked);
    forall f
      ensures f in walked <==> Shows(entries, f)
    {
      assert [] + f.path == f.path;
      WalkFinds([], entries, f.path, f.bytes);
    }
    forall i | 0 <= i < |Listed(entries)|
      ensures GoodFile(Listed(entries)[i])
    {
      assert Listed(entries)[i] in Listed(entries);
      ShownIsGood(entries, Listed(entries)[i]);
    }
  }

  ghost predicate SameFiles(a: seq<Entry>, b: seq<Entry>) {
    forall f :: Shows(a, f) <==> Shows(b, f)
  }

  /** THE STREAM IS THE TREE: two trees make the same stream exactly when they show the same files — whatever order their directories are listed in, and whatever dotted entries they hold. */
  lemma SameStreamIffSameFiles(a: seq<Entry>, b: seq<Entry>)
    requires GoodTree(a) && GoodTree(b)
    ensures Stream(Listed(a)) == Stream(Listed(b)) <==> SameFiles(a, b)
  {
    ListedIs(a);
    ListedIs(b);
    if Stream(Listed(a)) == Stream(Listed(b)) {
      StreamTellsListsApart(Listed(a), Listed(b));
      forall f
        ensures Shows(a, f) <==> Shows(b, f)
      {
        assert f in Listed(a) <==> f in Listed(b);
      }
    }
    if SameFiles(a, b) {
      OrderFixesTheList(Listed(a), Listed(b));
    }
  }

  /** "fc-rich.js" */
  const RENDERER: Name := [102, 99, 45, 114, 105, 99, 104, 46, 106, 115]

  predicate IsRenderer(file: FileAt) {
    file.path != [] && file.path[|file.path| - 1] == RENDERER
  }

  /** The build's answer: a version, or none where no file of the tree is the renderer. */
  method Version(entries: seq<Entry>) returns (version: Option<U64>)
    requires GoodTree(entries)
    ensures version.Some? <==> exists f :: Shows(entries, f) && IsRenderer(f)
    ensures version.Some? ==> version.value == Fold(OFFSET, Stream(Listed(entries)))
  {
    var walk := new Walk();
    walk.Collect([], entries);
    var files := Sorted(walk.into);
    assert [] + Walked([], entries) == Walked([], entries);
    ListedIs(entries);
    var hash := new Fnv();
    var found := false;
    var i := 0;
    while i < |files|
      invariant 0 <= i <= |files|
      invariant Fold(hash.state, Stream(files[i..])) == Fold(OFFSET, Stream(files))
      invariant found <==> exists k | 0 <= k < i :: IsRenderer(files[k])
    {
      var file := files[i];
      ghost var h := hash.state;
      hash.Write(Joined(file.path));
      hash.Write([0]);
      hash.Write(LittleEndian(|file.bytes|));
      hash.Write(file.bytes);
      FoldsFrame(h, file, Stream(files[i + 1..]));
      assert files[i..][1..] == files[i + 1..];
      found := found || IsRenderer(file);
      i := i + 1;
    }
    assert files[i..] == [];
    version := if found then Some(hash.state) else None;
    assert forall f :: f in files <==> Shows(entries, f);
  }

  lemma FoldsFrame(h: U64, file: FileAt, rest: seq<Byte>)
    ensures var name, size := Joined(file.path), LittleEndian(|file.bytes|);
      Fold(h, Framed(file) + rest) == Fold(Fold(Fold(Fold(Fold(h, name), [0]), size), file.bytes), rest)
  {
    var name, size := Joined(file.path), LittleEndian(|file.bytes|);
    FoldJoins(h, name, [0]);
    FoldJoins(h, name + [0], size);
    FoldJoins(h, name + [0] + size, file.bytes);
    FoldJoins(h, Framed(file), rest);
  }

  /** Two trees that show the same files, but for one of them, and that one but for a single byte. */
  ghost predicate OneByteApart(a: seq<Entry>, b: seq<Entry>, path: Path, left: seq<Byte>, x: Byte, y: Byte, right: seq<Byte>) {
    && x != y
    && Shows(a, FileAt(path, left + [x] + right)) && Shows(b, FileAt(path, left + [y] + right))
    && forall f: FileAt | f.path != path :: Shows(a, f) <==> Shows(b, f)
  }

  /** A CHANGE NOBODY BUMPED FOR: trees one byte apart, however their directories are listed, both stop the build or have different versions. */
  lemma OneByteChangesTheVersion(a: seq<Entry>, b: seq<Entry>, path: Path, left: seq<Byte>, x: Byte, y: Byte, right: seq<Byte>)
    requires GoodTree(a) && GoodTree(b) && OneByteApart(a, b, path, left, x, y, right)
    ensures (exists f :: Shows(a, f) && IsRenderer(f)) <==> (exists f :: Shows(b, f) && IsRenderer(f))
    ensures Fold(OFFSET, Stream(Listed(a))) != Fold(OFFSET, Stream(Listed(b)))
  {
    var f, g := FileAt(path, left + [x] + right), FileAt(path, left + [y] + right);
    SamePaths(a, b, path, f, g);
    ListedIs(a);
    var k :| 0 <= k < |Listed(a)| && Listed(a)[k] == f;
    ListedAlike(a, b, k, g);
    OneFileChangesTheStream(Listed(a), k, path, left, x, y, right);
  }

  lemma OneFileChangesTheStream(files: seq<FileAt>, k: nat, path: Path, left: seq<Byte>, x: Byte, y: Byte, right: seq<Byte>)
    requires x != y && k < |files| && files[k] == FileAt(path, left + [x] + right)
    ensures Fold(OFFSET, Stream(files)) != Fold(OFFSET, Stream(files[k := FileAt(path, left + [y] + right)]))
  {
    var g := FileAt(path, left + [y] + right);
    assert files == files[..k] + [files[k]] + files[k + 1..];
    assert files[k := g] == files[..k] + [g] + files[k + 1..];
    OneByteChangesTheStream(files[..k], path, left, x, y, right, files[k + 1..]);
  }

  lemma SamePaths(a: seq<Entry>, b: seq<Entry>, path: Path, f: FileAt, g: FileAt)
    requires Shows(a, f) && Shows(b, g) && f.path == path == g.path
    requires forall e: FileAt | e.path != path :: Shows(a, e) <==> Shows(b, e)
    ensures (exists e :: Shows(a, e) && IsRenderer(e)) <==> (exists e :: Shows(b, e) && IsRenderer(e))
  {
    if e :| Shows(a, e) && IsRenderer(e) {
      assert if e.path == path then Shows(b, g) && IsRenderer(g) else Shows(b, e);
    }
    if e :| Shows(b, e) && IsRenderer(e) {
      assert if e.path == path then Shows(a, f) && IsRenderer(f) else Shows(a, e);
    }
  }

  /** Two shown files at one path are the same file. */
  lemma OneFileAPath(entries: seq<Entry>, f: FileAt, g: FileAt)
    requires GoodTree(entries) && Shows(entries, f) && Shows(entries, g) && f.path == g.path
    ensures f == g
  {
    ListedIs(entries);
    var files := Listed(entries);
    var i :| 0 <= i < |files| && files[i] == f;
    var j :| 0 <= j < |files| && files[j] == g;
    PathsCompare(f.path, f.path);
  }

  /** The list of the one tree is the list of the other with the one file changed in its place. */
  lemma ListedAlike(a: seq<Entry>, b: seq<Entry>, k: nat, g: FileAt)
    requires GoodTree(a) && GoodTree(b) && k < |Listed(a)| && Listed(a)[k].path == g.path && Shows(b, g)
    requires forall e: FileAt | e.path != g.path :: Shows(a, e) <==> Shows(b, e)
    ensures Listed(b) == Listed(a)[k := g]
  {
    ListedIs(a);
    ListedIs(b);
    var files, changed := Listed(a), Listed(a)[k := g];
    assert InOrder(changed);
    forall e
      ensures e in changed <==> e in Listed(b)
    {
      if e.path == g.path {
        assert changed[k] == g;
        if e in changed {
          var i :| 0 <= i < |changed| && changed[i] == e;
          PathsCompare(g.path, g.path);
          assert i == k;
        }
        if Shows(b, e) {
          OneFileAPath(b, e, g);
        }
      } else {
        InUpdated(files, k, g, e);
        assert e in files <==> Shows(a, e);
      }
    }
    OrderFixesTheList(changed, Listed(b));
  }

  lemma InUpdated(files: seq<FileAt>, k: nat, g: FileAt, e: FileAt)
    requires k < |files| && e != g && e != files[k]
    ensures e in files[k := g] <==> e in files
  {
    if i :| 0 <= i < |files| && files[i] == e {
      assert files[k := g][i] == e;
    }
  }

  lemma OneByteChangesTheStream(before: seq<FileAt>, path: Path, left: seq<Byte>, b: Byte, c: Byte, right: seq<Byte>, after: seq<FileAt>)
    requires b != c
    ensures Fold(OFFSET, Stream(before + [FileAt(path, left + [b] + right)] + after))
         != Fold(OFFSET, Stream(before + [FileAt(path, left + [c] + right)] + after))
  {
    var n := |left| + 1 + |right|;
    StreamWithin(before, path, left + [b] + right, n, after);
    StreamWithin(before, path, left + [c] + right, n, after);
    OneByteWithin(Stream(before), Head(path, n), left, b, c, right, Stream(after));
  }

  lemma StreamWithin(before: seq<FileAt>, path: Path, bytes: seq<Byte>, n: nat, after: seq<FileAt>)
    requires |bytes| == n
    ensures Stream(before + [FileAt(path, bytes)] + after) == Stream(before) + (Head(path, n) + bytes + Stream(after))
  {
    StreamAround(before, FileAt(path, bytes), after);
  }

  lemma OneByteWithin(s: seq<Byte>, t: seq<Byte>, left: seq<Byte>, b: Byte, c: Byte, right: seq<Byte>, x: seq<Byte>)
    requires b != c
    ensures Fold(OFFSET, s + (t + (left + [b] + right) + x)) != Fold(OFFSET, s + (t + (left + [c] + right) + x))
  {
    Regroup(s, t, left, [b], right, x);
    Regroup(s, t, left, [c], right, x);
    OneByteChangesTheHash(s + t + left, b, c, right + x);
  }

  lemma Regroup(s: seq<Byte>, t: seq<Byte>, u: seq<Byte>, v: seq<Byte>, w: seq<Byte>, x: seq<Byte>)
    ensures s + (t + (u + v + w) + x) == s + t + u + v + (w + x)
  {
  }

  lemma {:induction false} StreamAround(before: seq<FileAt>, file: FileAt, after: seq<FileAt>)
    ensures Stream(before + [file] + after) == Stream(before) + (Framed(file) + Stream(after))
    decreases |before|
  {
    var all := before + [file] + after;
    if before == [] {
      assert all[0] == file && all[1..] == after;
    } else {
      StreamAround(before[1..], file, after);
      assert all[0] == before[0] && all[1..] == before[1..] + [file] + after;
      Associates(Framed(before[0]), Stream(before[1..]), Framed(file) + Stream(after));
    }
  }
}
