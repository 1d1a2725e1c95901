/**
 * Each image's delay, read off the bytes of a GIF: a walk of its blocks
 * (ios/FamilyConnect/Core/AnimatedPicture.swift, against sections 15 to 23 of the GIF89a specification).
 */
module GifScan {
  import opened Wrappers
  import opened AnimationTiming

  type Byte = b: int | 0 <= b < 256

  function TableBytes(packed: Byte): nat {
    if packed >= 128 then 3 * Pow2(packed % 8 + 1) else 0
  }

  function Pow2(k: nat): nat {
    if k == 0 then 1 else 2 * Pow2(k - 1)
  }

  // ---- the scanner -----------------------------------------------------------------------------

  const GIF87A: seq<Byte> := [71, 73, 70, 56, 55, 97]
  const GIF89A: seq<Byte> := [71, 73, 70, 56, 57, 97]

  predicate IsGif(bytes: seq<Byte>) {
    GIF87A <= bytes || GIF89A <= bytes
  }

  /** Past a run of sub-blocks; none when the data ends inside it. */
  function PastSubBlocks(bytes: seq<Byte>, at: nat): (past: Option<nat>)
    ensures past.Some? ==> at < past.value <= |bytes|
    decreases |bytes| - at
  {
    if at >= |bytes| then None
    else if bytes[at] == 0 then Some(at + 1)
    else PastSubBlocks(bytes, at + 1 + bytes[at])
  }

  function WhatWasRead(delays: seq<nat>): Option<seq<nat>> {
    if delays == [] then None else Some(delays)
  }

  function StatedDelay(bytes: seq<Byte>, at: nat, tag: Byte, pending: Option<nat>): Option<nat> {
    if tag == 0xF9 && at + 4 < |bytes| && bytes[at] >= 4 then
      var lo: int, hi: int := bytes[at + 2], bytes[at + 3];
      Some(GifDelay(lo + 256 * hi))
    else pending
  }

  /** From one block on, with the delay stated for the next image and those of the images so far. */
  function ScanFrom(bytes: seq<Byte>, at: nat, pending: Option<nat>, delays: seq<nat>): Option<seq<nat>>
    decreases |bytes| - at
  {
    if at >= |bytes| then WhatWasRead(delays)
    else if bytes[at] == 0x21 then
      if at + 1 >= |bytes| then WhatWasRead(delays)
      else
        var past := PastSubBlocks(bytes, at + 2);
        if past.None? then WhatWasRead(delays)
        else ScanFrom(bytes, past.value, StatedDelay(bytes, at + 2, bytes[at + 1], pending), delays)
    else if bytes[at] == 0x2C then
      if at + 10 > |bytes| then WhatWasRead(delays)
      else
        var past := PastSubBlocks(bytes, at + 10 + TableBytes(bytes[at + 9]) + 1);
        if past.None? then Some(delays + [pending.GetOr(0)])
        else ScanFrom(bytes, past.value, None, delays + [pending.GetOr(0)])
    else if bytes[at] == 0x3B then Some(delays)
    else WhatWasRead(delays)
  }

  function Scan(bytes: seq<Byte>): Option<seq<nat>> {
    if |bytes| < 13 || !IsGif(bytes) then None
    else ScanFrom(bytes, 13 + TableBytes(bytes[10]), None, [])
  }

  method SkipSubBlocks(bytes: seq<Byte>, from: nat) returns (at: nat, whole: bool)
    ensures PastSubBlocks(bytes, from) == if whole then Some(at) else None
  {
    at := from;
    while at < |bytes|
      invariant PastSubBlocks(bytes, at) == PastSubBlocks(bytes, from)
      decreases |bytes| - at
    {
      var size := bytes[at];
      at := at + 1;
      if size == 0 {
        return at, true;
      }
      at := at + size;
    }
    return at, false;
  }

  /** On every string of bytes the walk ends, without reading past them, with what Scan says. */
  method DelaysMS(bytes: seq<Byte>) returns (result: Option<seq<nat>>)
    ensures result == Scan(bytes)
  {
    if |bytes| < 13 || !IsGif(bytes) {
      return None;
    }
    var at := 6;
    var screenPacked := bytes[at + 4];
    at := at + 7;
    if screenPacked >= 128 {
      at := at + 3 * Pow2(screenPacked % 8 + 1);
    }
    var delays: seq<nat> := [];
    var pending: Option<nat> := None;
    while at < |bytes|
      invariant ScanFrom(bytes, at, pending, delays) == Scan(bytes)
      decreases |bytes| - at
    {
      var whole;
      if bytes[at] == 0x21 {
        if at + 1 >= |bytes| {
          return WhatWasRead(delays);
        }
        pending := StatedDelay(bytes, at + 2, bytes[at + 1], pending);
        at, whole := SkipSubBlocks(bytes, at + 2);
        if !whole {
          return WhatWasRead(delays);
        }
      } else if bytes[at] == 0x2C {
        if at + 10 > |bytes| {
          return WhatWasRead(delays);
        }
        delays := delays + [pending.GetOr(0)];
        pending := None;
        at, whole := SkipSubBlocks(bytes, at + 10 + TableBytes(bytes[at + 9]) + 1);
        if !whole {
          return Some(delays);
        }
      } else if bytes[at] == 0x3B {
        return Some(delays);
      } else {
        return WhatWasRead(delays);
      }
    }
    return WhatWasRead(delays);
  }

  // ---- a file as the specification writes one --------------------------------------------------

  datatype Block =
    | Control(packed: Byte, centiseconds: nat, transparent: Byte)
    | Extension(tag: Byte, parts: seq<seq<Byte>>)
    | Image(descriptor: seq<Byte>, packed: Byte, table: seq<Byte>, codeSize: Byte, parts: seq<seq<Byte>>)

  const PLAIN_TEXT: Byte := 1

  datatype Gif = Gif(magic: seq<Byte>, size: seq<Byte>, packed: Byte, background: Byte, aspect: Byte, table: seq<Byte>, blocks: seq<Block>)

  ghost predicate GoodParts(parts: seq<seq<Byte>>) {
    forall i | 0 <= i < |parts| :: 0 < |parts[i]| < 256
  }

  ghost predicate GoodBlock(block: Block) {
    match block
    case Control(_, centiseconds, _) => centiseconds < 0x1_0000
    case Extension(tag, parts) => tag != 0xF9 && GoodParts(parts)
    case Image(descriptor, packed, table, _, parts) => |descriptor| == 8 && |table| == TableBytes(packed) && GoodParts(parts)
  }

  ghost predicate GoodBlocks(blocks: seq<Block>) {
    blocks == [] || (GoodBlock(blocks[0]) && GoodBlocks(blocks[1..]))
  }

  ghost predicate GoodGif(gif: Gif) {
    && (gif.magic == GIF87A || gif.magic == GIF89A) && |gif.size| == 4 && |gif.table| == TableBytes(gif.packed)
    && GoodBlocks(gif.blocks)
  }

  ghost function WrittenParts(parts: seq<seq<Byte>>): seq<Byte>
    requires GoodParts(parts)
  {
    if parts == [] then [0]
    else
      var size: Byte := |parts[0]|;
      [size] + parts[0] + WrittenParts(parts[1..])
  }

  ghost function WrittenBlock(block: Block): (s: seq<Byte>)
    requires GoodBlock(block)
    ensures |s| > 0
  {
    match block
    case Control(packed, centiseconds, transparent) =>
      var hi: Byte := centiseconds / 256;
      [0x21, 0xF9, 4, packed, centiseconds % 256, hi, transparent, 0]
    case Extension(tag, parts) => [0x21, tag] + WrittenParts(parts)
    case Image(descriptor, packed, table, codeSize, parts) =>
      [0x2C] + descriptor + [packed] + table + [codeSize] + WrittenParts(parts)
  }

  ghost function WrittenBlocks(blocks: seq<Block>): seq<Byte>
    requires GoodBlocks(blocks)
  {
    if blocks == [] then [] else WrittenBlock(blocks[0]) + WrittenBlocks(blocks[1..])
  }

  ghost function Written(gif: Gif): seq<Byte>
    requires GoodGif(gif)
  {
    Head(gif) + gif.table + WrittenBlocks(gif.blocks) + [0x3B]
  }

  /** One delay per image: that of the control extension last stated for it, 0 for an image with none. */
  function Delays(blocks: seq<Block>, pending: Option<nat>): seq<nat> {
    if blocks == [] then []
    else
      match blocks[0]
      case Control(_, centiseconds, _) => Delays(blocks[1..], Some(GifDelay(centiseconds)))
      case Extension(_, _) => Delays(blocks[1..], pending)
      case Image(_, _, _, _, _) => [pending.GetOr(0)] + Delays(blocks[1..], None)
  }

  function Images(blocks: seq<Block>): nat {
    if blocks == [] then 0 else (if blocks[0].Image? then 1 else 0) + Images(blocks[1..])
  }

  // ---- the scanner reads what was written ------------------------------------------------------

  /** The bytes from a place on begin with these. */
  ghost predicate Has(bytes: seq<Byte>, at: nat, s: seq<Byte>) {
    at + |s| <= |bytes| && bytes[at..at + |s|] == s
  }

  lemma HasParts(bytes: seq<Byte>, at: nat, a: seq<Byte>, b: seq<Byte>)
    requires Has(bytes, at, a + b)
    ensures Has(bytes, at, a) && Has(bytes, at + |a|, b)
  {
    var s := bytes[at..at + |a + b|];
    assert bytes[at..at + |a|] == s[..|a|] == a;
    assert bytes[at + |a|..at + |a| + |b|] == s[|a|..] == b;
  }

  lemma HasThree(bytes: seq<Byte>, at: nat, a: seq<Byte>, b: seq<Byte>, c: seq<Byte>)
    requires Has(bytes, at, a + b + c)
    ensures Has(bytes, at, a) && Has(bytes, at + |a|, b + c)
  {
    Associates(a, b, c);
    HasParts(bytes, at, a, b + c);
  }

  lemma {:induction false} PartsArePassed(bytes: seq<Byte>, at: nat, parts: seq<seq<Byte>>)
    requires GoodParts(parts) && Has(bytes, at, WrittenParts(parts))
    ensures PastSubBlocks(bytes, at) == Some(at + |WrittenParts(parts)|)
    decreases |parts|
  {
    assert bytes[at] == bytes[at..at + |WrittenParts(parts)|][0];
    if parts != [] {
      var size: Byte := |parts[0]|;
      HasParts(bytes, at, [size] + parts[0], WrittenParts(parts[1..]));
      PartsArePassed(bytes, at + 1 + size, parts[1..]);
    }
  }

  lemma ControlIsRead(bytes: seq<Byte>, at: nat, block: Block, pending: Option<nat>, delays: seq<nat>)
    requires block.Control? && GoodBlock(block) && Has(bytes, at, WrittenBlock(block))
    ensures ScanFrom(bytes, at, pending, delays) == ScanFrom(bytes, at + 8, Some(GifDelay(block.centiseconds)), delays)
  {
    var s := bytes[at..at + 8];
    assert s == WrittenBlock(block);
    assert forall k | 0 <= k < 8 :: bytes[at + k] == s[k];
    assert s[0] == 0x21 && s[1] == 0xF9 && s[2] == 4 && s[7] == 0;
    assert bytes[at + 2] == 4 && bytes[at + 7] == 0;
    assert PastSubBlocks(bytes, at + 7) == Some(at + 8);
    assert PastSubBlocks(bytes, at + 2) == PastSubBlocks(bytes, at + 2 + 1 + 4);
    var lo: int, hi: int := s[4], s[5];
    assert lo + 256 * hi == block.centiseconds;
    assert bytes[at + 4] == s[4] && bytes[at + 5] == s[5];
  }

  lemma ExtensionIsPassed(bytes: seq<Byte>, at: nat, block: Block, pending: Option<nat>, delays: seq<nat>)
    requires block.Extension? && GoodBlock(block) && Has(bytes, at, WrittenBlock(block))
    ensures ScanFrom(bytes, at, pending, delays) == ScanFrom(bytes, at + |WrittenBlock(block)|, pending, delays)
  {
    HasParts(bytes, at, [0x21, block.tag], WrittenParts(block.parts));
    var s := bytes[at..at + 2];
    assert bytes[at] == s[0] == 0x21 && bytes[at + 1] == s[1] == block.tag;
    PartsArePassed(bytes, at + 2, block.parts);
  }

  /** Where the pieces of an image stand. */
  lemma ImageStands(bytes: seq<Byte>, at: nat, block: Block)
    requires block.Image? && GoodBlock(block) && Has(bytes, at, WrittenBlock(block))
    ensures |WrittenBlock(block)| == 10 + |block.table| + 1 + |WrittenParts(block.parts)|
    ensures at + 10 <= |bytes| && bytes[at] == 0x2C && bytes[at + 9] == block.packed
    ensures Has(bytes, at + 10 + |block.table| + 1, WrittenParts(block.parts))
  {
    var head: seq<Byte> := [0x2C] + block.descriptor + [block.packed];
    var body: seq<Byte> := block.table + [block.codeSize];
    var parts := WrittenParts(block.parts);
    Associates(head, block.table, [block.codeSize]);
    HasParts(bytes, at, head + body, parts);
    var s := bytes[at..at + |head + body|];
    assert s[0] == 0x2C && s[9] == block.packed;
    assert bytes[at] == s[0] && bytes[at + 9] == s[9];
  }

  lemma ImageIsRead(bytes: seq<Byte>, at: nat, block: Block, pending: Option<nat>, delays: seq<nat>)
    requires block.Image? && GoodBlock(block) && Has(bytes, at, WrittenBlock(block))
    ensures ScanFrom(bytes, at, pending, delays) ==
      ScanFrom(bytes, at + |WrittenBlock(block)|, None, delays + [pending.GetOr(0)])
  {
    ImageStands(bytes, at, block);
    PartsArePassed(bytes, at + 10 + |block.table| + 1, block.parts);
    ImagePassed(bytes, at, pending, delays, at + |WrittenBlock(block)|);
  }

  lemma ImagePassed(bytes: seq<Byte>, at: nat, pending: Option<nat>, delays: seq<nat>, past: nat)
    requires at + 10 <= |bytes| && bytes[at] == 0x2C
    requires PastSubBlocks(bytes, at + 10 + TableBytes(bytes[at + 9]) + 1) == Some(past)
    ensures ScanFrom(bytes, at, pending, delays) == ScanFrom(bytes, past, None, delays + [pending.GetOr(0)])
  {
  }

  /** What one block states for the images after it, and the delay it is given if it is one. */
  function NextPending(block: Block, pending: Option<nat>): Option<nat> {
    match block
    case Control(_, centiseconds, _) => Some(GifDelay(centiseconds))
    case Extension(_, _) => pending
    case Image(_, _, _, _, _) => None
  }

  function NextDelays(block: Block, pending: Option<nat>): seq<nat> {
    if block.Image? then [pending.GetOr(0)] else []
  }

  lemma BlockIsRead(bytes: seq<Byte>, at: nat, block: Block, pending: Option<nat>, delays: seq<nat>)
    requires GoodBlock(block) && Has(bytes, at, WrittenBlock(block))
    ensures ScanFrom(bytes, at, pending, delays) ==
      ScanFrom(bytes, at + |WrittenBlock(block)|, NextPending(block, pending), delays + NextDelays(block, pending))
  {
    assert !block.Image? ==> delays + [] == delays;
    match block {
      case Control(_, _, _) => ControlIsRead(bytes, at, block, pending, delays);
      case Extension(_, _) => ExtensionIsPassed(bytes, at, block, pending, delays);
      case Image(_, _, _, _, _) => ImageIsRead(bytes, at, block, pending, delays);
    }
  }

  lemma BlockThenRest(bytes: seq<Byte>, at: nat, blocks: seq<Block>)
    requires blocks != [] && GoodBlocks(blocks)
    requires Has(bytes, at, WrittenBlocks(blocks) + [0x3B])
    ensures Has(bytes, at, WrittenBlock(blocks[0]))
    ensures Has(bytes, at + |WrittenBlock(blocks[0])|, WrittenBlocks(blocks[1..]) + [0x3B])
  {
    HasThree(bytes, at, WrittenBlock(blocks[0]), WrittenBlocks(blocks[1..]), [0x3B]);
  }

  /** Scanning on past some blocks reads their delays, wherever in the bytes they stand. */
  lemma {:induction false} BlocksAreRead(bytes: seq<Byte>, at: nat, blocks: seq<Block>, pending: Option<nat>, delays: seq<nat>)
    requires GoodBlocks(blocks)
    requires Has(bytes, at, WrittenBlocks(blocks) + [0x3B])
    ensures ScanFrom(bytes, at, pending, delays) == Some(delays + Delays(blocks, pending))
    decreases |blocks|
  {
    if blocks == [] {
      TrailerIsRead(bytes, at, pending, delays);
    } else {
      BlockThenRest(bytes, at, blocks);
      var next := at + |WrittenBlock(blocks[0])|;
      BlocksAreRead(bytes, next, blocks[1..], NextPending(blocks[0], pending), delays + NextDelays(blocks[0], pending));
      ReadOn(bytes, at, blocks, pending, delays);
    }
  }

  lemma TrailerIsRead(bytes: seq<Byte>, at: nat, pending: Option<nat>, delays: seq<nat>)
    requires Has(bytes, at, [] + [0x3B])
    ensures ScanFrom(bytes, at, pending, delays) == Some(delays + [])
  {
    assert bytes[at] == bytes[at..at + 1][0];
    assert delays + [] == delays;
  }

  lemma ReadOn(bytes: seq<Byte>, at: nat, blocks: seq<Block>, pending: Option<nat>, delays: seq<nat>)
    requires blocks != [] && GoodBlock(blocks[0]) && Has(bytes, at, WrittenBlock(blocks[0]))
    requires var one, next := NextDelays(blocks[0], pending), NextPending(blocks[0], pending);
      ScanFrom(bytes, at + |WrittenBlock(blocks[0])|, next, delays + one) == Some(delays + one + Delays(blocks[1..], next))
    ensures ScanFrom(bytes, at, pending, delays) == Some(delays + Delays(blocks, pending))
  {
    BlockIsRead(bytes, at, blocks[0], pending, delays);
    DelaysGoOn(blocks, pending, delays);
  }

  lemma DelaysGoOn(blocks: seq<Block>, pending: Option<nat>, delays: seq<nat>)
    requires blocks != []
    ensures delays + NextDelays(blocks[0], pending) + Delays(blocks[1..], NextPending(blocks[0], pending))
         == delays + Delays(blocks, pending)
  {
  }

  /** ON EVERY FILE written as the specification says, whatever follows its trailer: one delay per image, in order. */
  lemma WrittenGifIsRead(gif: Gif, after: seq<Byte>)
    requires GoodGif(gif)
    ensures Scan(Written(gif) + after) == Some(Delays(gif.blocks, None))
    ensures |Delays(gif.blocks, None)| == Images(gif.blocks)
  {
    var bytes := Written(gif) + after;
    WrittenIs(gif, after);
    HeadIsRead(gif, WrittenBlocks(gif.blocks) + [0x3B], after);
    ScanBegins(gif, bytes);
    BlocksAreRead(bytes, 13 + |gif.table|, gif.blocks, None, []);
    assert [] + Delays(gif.blocks, None) == Delays(gif.blocks, None);
    OneDelayPerImage(gif.blocks, None);
  }

  lemma ScanBegins(gif: Gif, bytes: seq<Byte>)
    requires |bytes| >= 13 && IsGif(bytes) && bytes[10] == gif.packed && |gif.table| == TableBytes(gif.packed)
    ensures Scan(bytes) == ScanFrom(bytes, 13 + |gif.table|, None, [])
  {
  }

  lemma WrittenIs(gif: Gif, after: seq<Byte>)
    requires GoodGif(gif)
    ensures Written(gif) + after == Head(gif) + (gif.table + (WrittenBlocks(gif.blocks) + [0x3B] + after))
  {
  }

  ghost function Head(gif: Gif): seq<Byte> {
    gif.magic + gif.size + [gif.packed, gif.background, gif.aspect]
  }

  lemma HeadIsRead(gif: Gif, body: seq<Byte>, after: seq<Byte>)
    requires GoodGif(gif)
    ensures var bytes := Head(gif) + (gif.table + (body + after));
      |bytes| >= 13 && IsGif(bytes) && bytes[10] == gif.packed && Has(bytes, 13 + |gif.table|, body)
  {
    var head := Head(gif);
    var bytes := head + (gif.table + (body + after));
    assert bytes[..6] == head[..6] == gif.magic;
    assert gif.magic <= bytes;
    assert bytes[10] == head[10];
    assert bytes[13..] == gif.table + (body + after);
    assert bytes[13 + |gif.table|..] == body + after;
    assert bytes[13 + |gif.table|..13 + |gif.table| + |body|] == body;
  }

  lemma {:induction false} OneDelayPerImage(blocks: seq<Block>, pending: Option<nat>)
    ensures |Delays(blocks, pending)| == Images(blocks)
    decreases |blocks|
  {
    if blocks != [] {
      match blocks[0]
      case Control(_, centiseconds, _) => OneDelayPerImage(blocks[1..], Some(GifDelay(centiseconds)));
      case Extension(_, _) => OneDelayPerImage(blocks[1..], pending);
      case Image(_, _, _, _, _) => OneDelayPerImage(blocks[1..], None);
    }
  }

  // ---- a control extension that belonged to text -----------------------------------------------

  /** The delays as the specification assigns them: a control extension belongs to the graphic that follows it, and a Plain Text Extension is one. */
  function OwnDelays(blocks: seq<Block>, pending: Option<nat>): seq<nat> {
    if blocks == [] then []
    else
      match blocks[0]
      case Control(_, centiseconds, _) => OwnDelays(blocks[1..], Some(GifDelay(centiseconds)))
      case Extension(tag, _) => OwnDelays(blocks[1..], if tag == PLAIN_TEXT then None else pending)
      case Image(_, _, _, _, _) => [pending.GetOr(0)] + OwnDelays(blocks[1..], None)
  }

  /** Past extensions only, one of them a Plain Text Extension unless one came before, an image follows. */
  predicate TextThenImage(blocks: seq<Block>, text: bool) {
    blocks != [] &&
    match blocks[0]
    case Control(_, _, _) => false
    case Extension(tag, _) => TextThenImage(blocks[1..], text || tag == PLAIN_TEXT)
    case Image(_, _, _, _, _) => text
  }

  /** Some control extension states a delay for a text, and the next image has no control extension of its own. */
  predicate Lends(blocks: seq<Block>) {
    blocks != [] &&
    ((blocks[0].Control? && blocks[0].centiseconds > 0 && TextThenImage(blocks[1..], false)) || Lends(blocks[1..]))
  }

  /** EXACTLY WHEN the scanner's delays are the specification's: when no text lends its delay to an image. */
  lemma OwnDelaysExactly(blocks: seq<Block>)
    ensures Delays(blocks, None) == OwnDelays(blocks, None) <==> !Lends(blocks)
  {
    DelaysPart(blocks, None, None);
  }

  lemma {:induction false} DelaysPart(blocks: seq<Block>, stated: Option<nat>, own: Option<nat>)
    requires own == stated || own == None
    ensures Delays(blocks, stated) == OwnDelays(blocks, own) <==>
      !Lends(blocks) && !(stated.GetOr(0) > 0 && TextThenImage(blocks, own == None))
    decreases |blocks|
  {
    if blocks != [] {
      match blocks[0]
      case Control(_, centiseconds, _) => DelaysPart(blocks[1..], Some(GifDelay(centiseconds)), Some(GifDelay(centiseconds)));
      case Extension(tag, _) => DelaysPart(blocks[1..], stated, if tag == PLAIN_TEXT then None else own);
      case Image(_, _, _, _, _) =>
        DelaysPart(blocks[1..], None, None);
        var a, b := Delays(blocks, stated), OwnDelays(blocks, own);
        assert a[0] == stated.GetOr(0) && b[0] == own.GetOr(0);
        assert a[1..] == Delays(blocks[1..], None) && b[1..] == OwnDelays(blocks[1..], None);
        assert a == [a[0]] + a[1..] && b == [b[0]] + b[1..];
    }
  }

  /** Such a file: a text shown for 7 hundredths, then an image that states nothing. */
  lemma TextLendsItsDelay(image: Block, text: Block)
    requires image.Image? && text.Extension? && text.tag == PLAIN_TEXT
    ensures var blocks := [Control(0, 7, 0), text, image];
      Delays(blocks, None) == [70] && OwnDelays(blocks, None) == [0] && Lends(blocks)
  {
    var blocks := [Control(0, 7, 0), text, image];
    assert blocks[1..] == [text, image] && [text, image][1..] == [image] && [image][1..] == [];
    assert Delays([image], Some(70)) == [70] && OwnDelays([image], None) == [0];
    assert Delays([text, image], Some(70)) == [70] && OwnDelays([text, image], Some(70)) == [0];
    assert TextThenImage([image], true) && TextThenImage([text, image], false);
  }
}
