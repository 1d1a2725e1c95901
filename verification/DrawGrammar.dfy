/**
 * The picture command: `/draw` in the one place of a body where it counts, and the prompt after it
 * (ios/FamilyConnect/Models/AssistantMention.swift). A body is a sequence of Unicode scalars.
 */
module DrawGrammar {
  import opened Wrappers
  import opened AssistantMention

  // ---- `/draw` ---------------------------------------------------------------------------------

  /** A token standing at a place, in any ASCII case. */
  predicate Stands(s: string, at: nat, token: string) {
    at + |token| <= |s| && forall k | 0 <= k < |token| :: Folded(s[at + k] as int) == token[k] as int
  }

  function SkippingWhitespace(s: string, from: nat): (at: nat)
    requires from <= |s|
    ensures from <= at <= |s| && (forall k | from <= k < at :: IsWhite(s[k])) && (at < |s| ==> !IsWhite(s[at]))
    decreases |s| - from
  {
    if from < |s| && IsWhite(s[from]) then SkippingWhitespace(s, from + 1) else from
  }

  /** Past a mention standing at a place and nowhere else. */
  function LeadingMentionEnd(s: string, at: nat): (end: Option<nat>)
    ensures end.Some? ==> at < end.value <= |s|
  {
    if Stands(s, at, TOKEN) && (at + 3 == |s| || s[at + 3] as int >= 0x80 || IsBoundary(s[at + 3] as int)) then Some(at + 3)
    else None
  }

  /** Where the picture token begins, if it stands in the one place it counts and white space follows it. */
  function DrawTokenScan(s: string): (at: Option<nat>)
    ensures at.Some? ==> Stands(s, at.value, DRAW) && at.value + 5 < |s|
  {
    var lead := SkippingWhitespace(s, 0);
    var at := match LeadingMentionEnd(s, lead) { case None => lead case Some(end) => SkippingWhitespace(s, end) };
    if Stands(s, at, DRAW) && at + 5 < |s| && IsWhite(s[at + 5]) then Some(at) else None
  }

  function BackOver(s: string, lower: nat, upper: nat): (r: nat)
    requires lower <= upper <= |s|
    ensures lower <= r <= upper && (forall k | r <= k < upper :: IsWhite(s[k])) && (r > lower ==> !IsWhite(s[r - 1]))
    decreases upper
  {
    if upper > lower && IsWhite(s[upper - 1]) then BackOver(s, lower, upper - 1) else upper
  }

  function Trimmed(s: string): string {
    var lower := SkippingWhitespace(s, 0);
    s[lower..BackOver(s, lower, |s|)]
  }

  function DrawPrompt(s: string): Option<string> {
    match DrawTokenScan(s)
    case None => None
    case Some(at) => var prompt := Trimmed(s[at + 5..]); if prompt == [] then None else Some(prompt)
  }

  predicate AllWhite(s: string) {
    forall k | 0 <= k < |s| :: IsWhite(s[k])
  }

  /** The grammar: white space, perhaps one mention and white space, the token, white space, the prompt, white space. */
  ghost predicate AsksFor(s: string, lead: string, mention: string, gap: string, draw: string, before: string, prompt: string, after: string) {
    && s == lead + (mention + gap) + (draw + (before + prompt + after))
    && AllWhite(lead) && AllWhite(gap) && AllWhite(before) && AllWhite(after)
    && (mention == [] ==> gap == []) && (mention != [] ==> |mention| == 3 && Stands(mention, 0, TOKEN))
    && |draw| == 5 && Stands(draw, 0, DRAW) && before != []
    && prompt != [] && !IsWhite(prompt[0]) && !IsWhite(prompt[|prompt| - 1])
  }

  lemma TrimmedIs(s: string) returns (before: string, after: string)
    ensures var t := Trimmed(s);
      && AllWhite(before) && AllWhite(after) && s == before + t + after
      && (t != [] ==> !IsWhite(t[0]) && !IsWhite(t[|t| - 1]))
      && (t != [] && IsWhite(s[0]) ==> before != [])
  {
    var lower, upper := TrimmedBounds(s);
    before, after := s[..lower], s[upper..];
    InThree(s, lower, upper);
  }

  lemma TrimmedBounds(s: string) returns (lower: nat, upper: nat)
    ensures lower <= upper <= |s| && Trimmed(s) == s[lower..upper] && AllWhite(s[..lower]) && AllWhite(s[upper..])
    ensures lower < upper ==> !IsWhite(s[lower]) && !IsWhite(s[upper - 1])
    ensures lower < upper && IsWhite(s[0]) ==> lower > 0
  {
    lower := SkippingWhitespace(s, 0);
    upper := BackOver(s, lower, |s|);
  }

  lemma InThree(s: string, lower: nat, upper: nat)
    requires lower <= upper <= |s|
    ensures s == s[..lower] + s[lower..upper] + s[upper..]
    ensures lower < upper ==> s[lower..upper][0] == s[lower] && s[lower..upper][upper - lower - 1] == s[upper - 1]
  {
  }

  lemma TrimmedOf(a: string, t: string, b: string)
    requires AllWhite(a) && AllWhite(b) && t != [] && !IsWhite(t[0]) && !IsWhite(t[|t| - 1])
    ensures Trimmed(a + t + b) == t
  {
    var s := a + t + b;
    assert s[|a|] == t[0];
    var upper := BackOver(s, |a|, |s|);
    var end := |a| + |t|;
    assert s[end - 1] == t[|t| - 1];
    assert upper == end by {
      assert forall k | end <= k < |s| :: s[k] == b[k - end];
    }
    assert s[|a|..end] == t;
  }

  lemma StandsInSlice(s: string, at: nat, token: string)
    requires at + |token| <= |s|
    ensures Stands(s, at, token) <==> Stands(s[at..at + |token|], 0, token)
  {
    var t := s[at..at + |token|];
    if Stands(s, at, token) {
      forall k | 0 <= k < |token|
        ensures Folded(t[0 + k] as int) == token[k] as int
      {
        assert t[k] == s[at + k];
      }
    }
    if Stands(t, 0, token) {
      forall k | 0 <= k < |token|
        ensures Folded(s[at + k] as int) == token[k] as int
      {
        assert t[0 + k] == s[at + k];
      }
    }
  }

  /** Where the pieces of a body of the form stand. */
  lemma FormStands(s: string, head: string, draw: string, rest: string)
    requires s == head + (draw + rest) && |draw| == 5
    ensures var at := |head|; at + 5 <= |s| && s[..at] == head && s[at..at + 5] == draw && s[at + 5..] == rest
  {
  }

  lemma FormScan(s: string, lead: string, mention: string, gap: string, draw: string, rest: string)
    requires s == lead + (mention + gap) + (draw + rest)
    requires AllWhite(lead) && AllWhite(gap) && (mention == [] ==> gap == [])
    requires mention != [] ==> |mention| == 3 && Stands(mention, 0, TOKEN)
    requires |draw| == 5 && Stands(draw, 0, DRAW) && rest != [] && IsWhite(rest[0])
    ensures var at := |lead + (mention + gap)|; DrawTokenScan(s) == Some(at) && s[at + 5..] == rest
  {
    var head := lead + (mention + gap);
    var at := |head|;
    FormStands(s, head, draw, rest);
    StandsInSlice(s, at, DRAW);
    SlashStands(s, at);
    LeadIsSkipped(s, lead, mention, gap, at);
    assert s[at + 5] == s[at + 5..][0];
  }

  lemma PromptIs(s: string, at: nat, prompt: string)
    requires DrawTokenScan(s) == Some(at) && Trimmed(s[at + 5..]) == prompt && prompt != []
    ensures DrawPrompt(s) == Some(prompt)
  {
  }

  lemma FormScansAt(s: string, lead: string, mention: string, gap: string, draw: string, before: string, prompt: string, after: string)
    requires AsksFor(s, lead, mention, gap, draw, before, prompt, after)
    ensures var at := |lead + (mention + gap)|; DrawTokenScan(s) == Some(at) && s[at + 5..] == before + prompt + after
  {
    FirstIsWhite(before, prompt, after);
    FormScan(s, lead, mention, gap, draw, before + prompt + after);
  }

  lemma FormTrims(before: string, prompt: string, after: string, rest: string)
    requires rest == before + prompt + after && AllWhite(before) && AllWhite(after)
    requires prompt != [] && !IsWhite(prompt[0]) && !IsWhite(prompt[|prompt| - 1])
    ensures Trimmed(rest) == prompt
  {
    TrimmedOf(before, prompt, after);
  }

  /** A body of the grammar's form is read as it was put together. */
  lemma FormIsRead(s: string, lead: string, mention: string, gap: string, draw: string, before: string, prompt: string, after: string)
    requires AsksFor(s, lead, mention, gap, draw, before, prompt, after)
    ensures DrawPrompt(s) == Some(prompt)
  {
    FormScansAt(s, lead, mention, gap, draw, before, prompt, after);
    var at := |lead + (mention + gap)|;
    FormTrims(before, prompt, after, s[at + 5..]);
    PromptIs(s, at, prompt);
  }

  lemma FirstIsWhite(before: string, prompt: string, after: string)
    requires AllWhite(before) && before != []
    ensures before + prompt + after != [] && IsWhite((before + prompt + after)[0])
  {
    assert (before + prompt + after)[0] == before[0];
  }

  lemma SlashStands(s: string, at: nat)
    requires Stands(s, at, DRAW)
    ensures Folded(s[at] as int) == 0x2F
  {
    assert Folded(s[at + 0] as int) == DRAW[0] as int;
  }

  lemma LeadIsSkipped(s: string, lead: string, mention: string, gap: string, at: nat)
    requires at == |lead| + |mention| + |gap| && at < |s| && s[..at] == lead + (mention + gap)
    requires AllWhite(lead) && AllWhite(gap) && (mention == [] ==> gap == []) && Folded(s[at] as int) == 0x2F
    requires mention != [] ==> |mention| == 3 && Stands(mention, 0, TOKEN)
    ensures at == match LeadingMentionEnd(s, SkippingWhitespace(s, 0))
      { case None => SkippingWhitespace(s, 0) case Some(end) => SkippingWhitespace(s, end) }
  {
    var l := |lead|;
    HeadStands(s, lead, mention, gap, at);
    if mention == [] {
      SlashIsNoMention(s, l);
    } else {
      StandsInSlice(s, l, TOKEN);
      MentionIsPassed(s, l, at);
    }
  }

  lemma HeadStands(s: string, lead: string, mention: string, gap: string, at: nat)
    requires at == |lead| + |mention| + |gap| && at < |s| && s[..at] == lead + (mention + gap)
    requires AllWhite(lead) && AllWhite(gap)
    ensures var l, m := |lead|, |lead| + |mention|;
      && (forall k | 0 <= k < l :: IsWhite(s[k])) && s[l..m] == mention && forall k | m <= k < at :: IsWhite(s[k])
  {
    var l, m := |lead|, |lead| + |mention|;
    assert forall k | 0 <= k < l :: s[k] == s[..at][k] == lead[k];
    assert forall k | m <= k < at :: s[k] == s[..at][k] == gap[k - m];
    assert s[l..m] == s[..at][l..m] == mention;
  }

  lemma SlashIsNoMention(s: string, at: nat)
    requires at < |s| && Folded(s[at] as int) == 0x2F
    ensures LeadingMentionEnd(s, at).None? && !IsWhite(s[at])
  {
    if Stands(s, at, TOKEN) {
      FirstOfToken(s, at);
      assert false;
    }
  }

  lemma FirstOfToken(s: string, at: nat)
    requires Stands(s, at, TOKEN)
    ensures Folded(s[at] as int) == 0x40
  {
    assert Folded(s[at + 0] as int) == TOKEN[0] as int;
  }

  lemma MentionIsPassed(s: string, l: nat, at: nat)
    requires l + 3 <= at < |s| && Stands(s, l, TOKEN) && Folded(s[at] as int) == 0x2F
    requires (forall k | 0 <= k < l :: IsWhite(s[k])) && forall k | l + 3 <= k < at :: IsWhite(s[k])
    ensures SkippingWhitespace(s, 0) == l && LeadingMentionEnd(s, l) == Some(l + 3) && SkippingWhitespace(s, l + 3) == at
  {
    FirstOfToken(s, l);
    if l + 3 < at {
    }
  }

  lemma SkippedIsWhite(s: string, from: nat)
    requires from <= |s|
    ensures AllWhite(s[from..SkippingWhitespace(s, from)])
  {
  }

  /** What the scan passed on its way to the token. */
  lemma ScanPassed(s: string) returns (l: nat, m: nat, at: nat)
    requires DrawTokenScan(s).Some?
    ensures at == DrawTokenScan(s).value && l <= m <= at && at + 5 < |s| && IsWhite(s[at + 5])
    ensures AllWhite(s[..l]) && AllWhite(s[m..at]) && Stands(s, at, DRAW)
    ensures if m == l then at == l else m == l + 3 && Stands(s, l, TOKEN)
  {
    l, at := SkippingWhitespace(s, 0), DrawTokenScan(s).value;
    SkippedIsWhite(s, 0);
    assert s[0..l] == s[..l];
    m := l;
    if LeadingMentionEnd(s, l).Some? {
      m := l + 3;
      SkippedIsWhite(s, m);
    }
  }

  /** What the scan accepts is of the grammar's form. */
  lemma ReadIsForm(s: string, prompt: string)
    requires DrawPrompt(s) == Some(prompt)
    ensures exists lead, mention, gap, draw, before, after :: AsksFor(s, lead, mention, gap, draw, before, prompt, after)
  {
    var l, m, at := ScanPassed(s);
    PassedIsForm(s, l, m, at, s[at + 5..], prompt);
  }

  lemma PassedIsForm(s: string, l: nat, m: nat, at: nat, rest: string, prompt: string)
    requires l <= m <= at && at + 5 < |s| && rest == s[at + 5..] && IsWhite(rest[0])
    requires AllWhite(s[..l]) && AllWhite(s[m..at]) && Stands(s, at, DRAW)
    requires if m == l then at == l else m == l + 3 && Stands(s, l, TOKEN)
    requires prompt == Trimmed(rest) && prompt != []
    ensures exists lead, mention, gap, draw, before, after :: AsksFor(s, lead, mention, gap, draw, before, prompt, after)
  {
    var before, after := TrimmedIs(rest);
    SlicesAreForm(s, l, m, at, before, prompt, after);
  }

  lemma SlicesAreForm(s: string, l: nat, m: nat, at: nat, before: string, prompt: string, after: string)
    requires l <= m <= at && at + 5 <= |s| && s[at + 5..] == before + prompt + after
    requires AllWhite(s[..l]) && AllWhite(s[m..at]) && AllWhite(before) && AllWhite(after) && before != []
    requires Stands(s, at, DRAW) && (if m == l then at == l else m == l + 3 && Stands(s, l, TOKEN))
    requires prompt != [] && !IsWhite(prompt[0]) && !IsWhite(prompt[|prompt| - 1])
    ensures exists lead, mention, gap, draw, before, after :: AsksFor(s, lead, mention, gap, draw, before, prompt, after)
  {
    CutIntoForm(s, l, m, at, before, prompt, after);
    StandsInSlice(s, at, DRAW);
    if m != l {
      StandsInSlice(s, l, TOKEN);
    }
    assert AsksFor(s, s[..l], s[l..m], s[m..at], s[at..at + 5], before, prompt, after);
  }

  lemma CutIntoForm(s: string, l: nat, m: nat, at: nat, before: string, prompt: string, after: string)
    requires l <= m <= at && at + 5 <= |s| && s[at + 5..] == before + prompt + after
    ensures s == s[..l] + (s[l..m] + s[m..at]) + (s[at..at + 5] + (before + prompt + after))
  {
    assert s[at..at + 5] + s[at + 5..] == s[at..];
    assert s[..l] + (s[l..m] + s[m..at]) == s[..at];
    assert s == s[..at] + s[at..];
  }

  /** THE PICTURE GRAMMAR, both ways: a body asks for a prompt exactly when it is white space, perhaps one mention and white space, the token, white space, and that prompt with white space about it. */
  lemma DrawPromptExactly(s: string, prompt: string)
    ensures DrawPrompt(s) == Some(prompt) <==>
      exists lead, mention, gap, draw, before, after :: AsksFor(s, lead, mention, gap, draw, before, prompt, after)
  {
    if DrawPrompt(s) == Some(prompt) {
      ReadIsForm(s, prompt);
    }
    if exists lead, mention, gap, draw, before, after :: AsksFor(s, lead, mention, gap, draw, before, prompt, after) {
      var lead, mention, gap, draw, before, after :| AsksFor(s, lead, mention, gap, draw, before, prompt, after);
      FormIsRead(s, lead, mention, gap, draw, before, prompt, after);
    }
  }

  // ---- the scans as they are written -----------------------------------------------------------

  method Skip(s: string, from: nat) returns (index: nat)
    requires from <= |s|
    ensures index == SkippingWhitespace(s, from)
  {
    index := from;
    while index < |s| && IsWhite(s[index])
      invariant from <= index <= |s| && SkippingWhitespace(s, index) == SkippingWhitespace(s, from)
    {
      index := index + 1;
    }
  }

  method TokenStands(s: string, at: nat, token: string) returns (stands: bool)
    ensures stands <==> Stands(s, at, token)
  {
    var k := 0;
    while k < |token|
      invariant 0 <= k <= |token| && (k > 0 ==> at + k <= |s|)
      invariant forall j | 0 <= j < k :: Folded(s[at + j] as int) == token[j] as int
    {
      if at + k >= |s| || Folded(s[at + k] as int) != token[k] as int {
        return false;
      }
      k := k + 1;
    }
    return at + |token| <= |s|;
  }

  method Trim(s: string) returns (t: string)
    ensures t == Trimmed(s)
  {
    var lower := Skip(s, 0);
    var upper := |s|;
    while upper > lower && IsWhite(s[upper - 1])
      invariant lower <= upper <= |s| && BackOver(s, lower, upper) == BackOver(s, lower, |s|)
    {
      upper := upper - 1;
    }
    t := s[lower..upper];
  }

  method LeadingMention(s: string, at: nat) returns (end: Option<nat>)
    ensures end == LeadingMentionEnd(s, at)
  {
    var mention := TokenStands(s, at, TOKEN);
    if mention && (at + 3 == |s| || s[at + 3] as int >= 0x80 || IsBoundary(s[at + 3] as int)) {
      return Some(at + 3);
    }
    return None;
  }

  /** The token in the one place it counts, whether or not any words follow. */
  method DrawToken(s: string) returns (token: Option<nat>)
    ensures token == DrawTokenScan(s)
  {
    var index := Skip(s, 0);
    var end := LeadingMention(s, index);
    if end.Some? {
      index := Skip(s, end.value);
    }
    var draw := TokenStands(s, index, DRAW);
    if !draw || index + 5 >= |s| || !IsWhite(s[index + 5]) {
      return None;
    }
    return Some(index);
  }

  /** Where the token is and what it asks for, off one scan. */
  method DrawScan(s: string) returns (token: Option<nat>, prompt: Option<string>)
    ensures prompt == DrawPrompt(s) && token == if prompt.Some? then DrawTokenScan(s) else None
  {
    token := DrawToken(s);
    if token.None? {
      return None, None;
    }
    var words := Trim(s[token.value + 5..]);
    if words == [] {
      return None, None;
    }
    prompt := Some(words);
  }
}
