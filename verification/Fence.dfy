/**
Fenced code blocks: the fence that is wider than every backtick run of its
content, and a reader that follows section 4.5 of the CommonMark Spec.
 */
module Fence {
  import opened Wrappers

  // --------------------------------------------------------------- backtick runs

  predicate AllTicks(s: string) { forall i :: 0 <= i < |s| ==> s[i] == '`' }

  /** Backticks at the end of the text. */
  function TrailingRun(s: string): (n: nat)
    ensures n <= |s|
  {
    if s == "" || s[|s| - 1] != '`' then 0 else 1 + TrailingRun(s[..|s| - 1])
  }

  lemma {:induction false} TrailingRunIs(s: string)
    ensures AllTicks(s[|s| - TrailingRun(s)..])
    ensures TrailingRun(s) < |s| ==> s[|s| - TrailingRun(s) - 1] != '`'
  {
    if s != "" && s[|s| - 1] == '`' {
      var init := s[..|s| - 1];
      TrailingRunIs(init);
      assert s[|s| - TrailingRun(s)..] == init[|init| - TrailingRun(init)..] + [s[|s| - 1]];
    }
  }

  function LongestRun(s: string): nat
  {
    if s == "" then 0 else Max(LongestRun(s[..|s| - 1]), TrailingRun(s))
  }

  lemma {:induction false} TrailingRunCovers(s: string, i: nat)
    requires i <= |s| && AllTicks(s[i..])
    ensures |s| - i <= TrailingRun(s)
  {
    if i < |s| {
      assert s[|s| - 1] == s[i..][|s| - 1 - i];
      assert s[..|s| - 1][i..] == s[i..][..|s| - 1 - i];
      TrailingRunCovers(s[..|s| - 1], i);
    }
  }

  /** No stretch of backticks anywhere is longer than the longest run. */
  lemma {:induction false} RunsAreBounded(s: string, i: nat, j: nat)
    requires i <= j <= |s| && AllTicks(s[i..j])
    ensures j - i <= LongestRun(s)
  {
    if i < j {
      if j < |s| {
        assert s[..|s| - 1][i..j] == s[i..j];
        RunsAreBounded(s[..|s| - 1], i, j);
      } else {
        assert s[i..] == s[i..j];
        TrailingRunCovers(s, i);
      }
    }
  }

  /** Some stretch is that long. */
  lemma {:induction false} LongestRunExists(s: string) returns (i: nat, j: nat)
    ensures i <= j <= |s| && AllTicks(s[i..j]) && j - i == LongestRun(s)
  {
    if s == "" {
      i, j := 0, 0;
    } else if LongestRun(s) == TrailingRun(s) {
      TrailingRunIs(s);
      i, j := |s| - TrailingRun(s), |s|;
    } else {
      i, j := LongestRunExists(s[..|s| - 1]);
      assert s[..|s| - 1][i..j] == s[i..j];
    }
  }

  function Repeat(c: char, n: nat): (s: string)
    ensures |s| == n && forall i :: 0 <= i < n ==> s[i] == c
  {
    seq(n, _ => c)
  }

  function FenceOf(body: string): string { Repeat('`', Max(LongestRun(body) + 1, 3)) }

  lemma NextRun(body: string, k: nat)
    requires k < |body|
    ensures TrailingRun(body[..k + 1]) == if body[k] == '`' then TrailingRun(body[..k]) + 1 else 0
    ensures LongestRun(body[..k + 1]) == Max(LongestRun(body[..k]), TrailingRun(body[..k + 1]))
  {
    assert body[..k + 1][..k] == body[..k];
  }

  /** Counts the current run and keeps the longest. */
  method FenceFor(body: string) returns (fence: string)
    ensures fence == FenceOf(body)
  {
    var maxRun, current := 0, 0;
    for k := 0 to |body|
      invariant maxRun == LongestRun(body[..k]) && current == TrailingRun(body[..k])
    {
      NextRun(body, k);
      if body[k] == '`' {
        current := current + 1;
        maxRun := Max(maxRun, current);
      } else {
        current := 0;
      }
    }
    assert body[..|body|] == body;
    fence := Repeat('`', Max(maxRun + 1, 3));
  }

  // ------------------------------------------------------------------ the reader

  predicate IsBreak(c: char) { c == '\n' || c == '\r' }

  /** A line begins here; the middle of a two-character line ending counts as an empty line. */
  predicate IsLineStart(text: string, i: nat)
  {
    i <= |text| && (i == 0 || IsBreak(text[i - 1]))
  }

  /** First position from `i` on whose character is not `c`. */
  function SkipChar(text: string, i: nat, c: char): (j: nat)
    requires i <= |text|
    ensures i <= j <= |text| && (forall k :: i <= k < j ==> text[k] == c) && (j < |text| ==> text[j] != c)
    decreases |text| - i
  {
    if i < |text| && text[i] == c then SkipChar(text, i + 1, c) else i
  }

  function SkipBlanks(text: string, i: nat): (j: nat)
    requires i <= |text|
    ensures i <= j <= |text|
    decreases |text| - i
  {
    if i < |text| && (text[i] == ' ' || text[i] == '\t') then SkipBlanks(text, i + 1) else i
  }

  function LineEnd(text: string, i: nat): (j: nat)
    requires i <= |text|
    ensures i <= j <= |text| && (forall k :: i <= k < j ==> !IsBreak(text[k])) && (j < |text| ==> IsBreak(text[j]))
    decreases |text| - i
  {
    if i < |text| && !IsBreak(text[i]) then LineEnd(text, i + 1) else i
  }

  /** The start of the line after the one that contains `i`. */
  function NextLine(text: string, i: nat): (j: nat)
    requires i <= |text|
    ensures i <= j <= |text|
  {
    var e := LineEnd(text, i);
    if e == |text| then e
    else if text[e] == '\r' && e + 1 < |text| && text[e + 1] == '\n' then e + 2 else e + 1
  }

  /** Characters of the fence that starts here after any spaces. */
  function FenceWidth(text: string, i: nat, c: char): nat
    requires i <= |text|
  {
    var from := SkipChar(text, i, ' ');
    SkipChar(text, from, c) - from
  }

  function AfterFence(text: string, i: nat, c: char): (j: nat)
    requires i <= |text|
    ensures i <= j <= |text|
  {
    SkipChar(text, SkipChar(text, i, ' '), c)
  }

  /** At most three spaces, then at least `n` fence characters. */
  predicate FenceAt(text: string, i: nat, c: char, n: nat)
    requires i <= |text|
  {
    SkipChar(text, i, ' ') - i <= 3 && FenceWidth(text, i, c) >= n
  }

  /** An opening fence: three or more characters; the info string after backticks has no backtick. */
  predicate OpensWith(text: string, i: nat, c: char)
    requires i <= |text|
  {
    && IsLineStart(text, i) && FenceAt(text, i, c, 3)
    && (c == '`' ==>
          forall k :: AfterFence(text, i, c) <= k < LineEnd(text, AfterFence(text, i, c)) ==> text[k] != '`')
  }

  predicate OpensAt(text: string, i: nat)
    requires i <= |text|
  {
    OpensWith(text, i, '`') || OpensWith(text, i, '~')
  }

  /** A closing fence has the opening one's character and at least its width, and only blanks follow it. */
  predicate ClosesAt(text: string, i: nat, c: char, n: nat)
    requires i <= |text|
  {
    && IsLineStart(text, i) && FenceAt(text, i, c, n)
    && var rest := SkipBlanks(text, AfterFence(text, i, c)); rest == |text| || IsBreak(text[rest])
  }

  function FindOpen(text: string, i: nat): (j: nat)
    requires i <= |text|
    ensures i <= j <= |text|
    decreases |text| - i
  {
    if i == |text| || OpensAt(text, i) then i else FindOpen(text, i + 1)
  }

  function FindClose(text: string, i: nat, c: char, n: nat): (j: nat)
    requires i <= |text|
    ensures i <= j <= |text|
    decreases |text| - i
  {
    if i == |text| || ClosesAt(text, i, c, n) then i else FindClose(text, i + 1, c, n)
  }

  /** Where the content before a line start ends: its line ending is not part of it. */
  function ContentEnd(text: string, from: nat, close: nat): (j: nat)
    requires from <= close <= |text|
    ensures from <= j <= close
  {
    if close == from then from
    else if close - from >= 2 && text[close - 2] == '\r' && text[close - 1] == '\n' then close - 2
    else close - 1
  }

  /**
  The content of the first fenced block, as raw text; an unclosed block runs
  to the end. A fence without indentation strips nothing from its content.
   */
  function ReadBlock(text: string): Option<string>
  {
    var open := FindOpen(text, 0);
    if open == |text| then None
    else
      var c := if OpensWith(text, open, '`') then '`' else '~';
      var from := NextLine(text, open);
      var close := FindClose(text, from, c, FenceWidth(text, open, c));
      Some(text[from..if close == |text| then close else ContentEnd(text, from, close)])
  }

  // -------------------------------------------------------------- the round trip

  /** Neither indentation nor a fence can start with this character. */
  predicate IsPlain(c: char) { c != ' ' && c != '`' && c != '~' }

  /** No line of the text starts with a space, a backtick or a tilde. */
  ghost predicate StartsSafely(text: string)
  {
    forall i :: 0 <= i < |text| && IsLineStart(text, i) ==> IsPlain(text[i])
  }

  ghost predicate Unbroken(text: string) { forall i :: 0 <= i < |text| ==> !IsBreak(text[i]) }

  ghost predicate IsFence(fence: string, content: string)
  {
    AllTicks(fence) && |fence| >= 3 && |fence| > LongestRun(content)
  }

  /** What is read back: a last carriage return merges with the line feed that follows the content. */
  function WithoutLastReturn(s: string): string
  {
    if s != "" && s[|s| - 1] == '\r' then s[..|s| - 1] else s
  }

  lemma {:induction false} SkipExact(text: string, i: nat, c: char, j: nat)
    requires i <= j <= |text| && (forall k :: i <= k < j ==> text[k] == c) && (j < |text| ==> text[j] != c)
    ensures SkipChar(text, i, c) == j
    decreases j - i
  {
    if i < j { SkipExact(text, i + 1, c, j); }
  }

  lemma {:induction false} FindOpenSkips(text: string, i: nat, o: nat)
    requires i <= o < |text| && OpensAt(text, o)
    requires forall k :: i <= k < o ==> !OpensAt(text, k)
    ensures FindOpen(text, i) == o
    decreases o - i
  {
    if i < o { FindOpenSkips(text, i + 1, o); }
  }

  lemma {:induction false} SkipStops(text: string, i: nat, c: char, end: nat)
    requires i <= end < |text| && text[end] != c
    ensures SkipChar(text, i, c) <= end
    decreases end - i
  {
    if text[i] == c { SkipStops(text, i + 1, c, end); }
  }

  /** The content sits in the text from `from` on. */
  ghost predicate Sits(text: string, from: nat, content: string)
  {
    from + |content| <= |text| && forall m :: 0 <= m < |content| ==> text[from + m] == content[m]
  }

  ghost predicate TicksFrom(text: string, i: nat, n: nat)
  {
    i + n <= |text| && forall k :: i <= k < i + n ==> text[k] == '`'
  }

  /** No `n` backticks in a row lie between the two positions. */
  ghost predicate HasNoRun(text: string, from: nat, end: nat, n: nat)
  {
    forall i: nat :: from <= i && i + n <= end ==> !TicksFrom(text, i, n)
  }

  lemma ContentHasNoRun(text: string, from: nat, content: string, n: nat)
    requires Sits(text, from, content) && n > LongestRun(content)
    ensures HasNoRun(text, from, from + |content|, n)
  {
    forall i: nat | from <= i && i + n <= from + |content| ensures !TicksFrom(text, i, n) {
      if TicksFrom(text, i, n) { RunsInContent(text, from, content, i, n); }
    }
  }

  lemma RunsInContent(text: string, from: nat, content: string, i: nat, n: nat)
    requires Sits(text, from, content) && from <= i && i + n <= from + |content| && TicksFrom(text, i, n)
    ensures n <= LongestRun(content)
  {
    var run := content[i - from..i - from + n];
    forall m | 0 <= m < |run| ensures run[m] == '`' {
      assert run[m] == content[i - from + m] == text[i + m];
    }
    RunsAreBounded(content, i - from, i - from + n);
  }

  /** Where no run is long enough, no line closes the block. */
  lemma NoRunNoFence(text: string, from: nat, end: nat, n: nat, k: nat)
    requires from <= k <= end < |text| && HasNoRun(text, from, end, n) && text[end] == '\n'
    ensures !FenceAt(text, k, '`', n)
  {
    SkipStops(text, k, ' ', end);
    var ticks := SkipChar(text, k, ' ');
    SkipStops(text, ticks, '`', end);
    if SkipChar(text, ticks, '`') - ticks >= n { assert TicksFrom(text, ticks, n); }
  }

  /** A bare fence line opens a block exactly as wide as the fence. */
  lemma FenceOpens(text: string, o: nat, n: nat)
    requires o + n < |text| && n >= 3 && IsLineStart(text, o)
    requires (forall k :: o <= k < o + n ==> text[k] == '`') && text[o + n] == '\n'
    ensures OpensWith(text, o, '`') && FenceWidth(text, o, '`') == n && NextLine(text, o) == o + n + 1
  {
    SkipExact(text, o, ' ', o);
    SkipExact(text, o, '`', o + n);
    LineEndExact(text, o, o + n);
    LineEndExact(text, o + n, o + n);
  }

  lemma {:induction false} LineEndExact(text: string, i: nat, j: nat)
    requires i <= j < |text| && (forall k :: i <= k < j ==> !IsBreak(text[k])) && IsBreak(text[j])
    ensures LineEnd(text, i) == j
    decreases j - i
  {
    if i < j { LineEndExact(text, i + 1, j); }
  }

  lemma FenceCloses(text: string, c: nat, n: nat)
    requires c + n <= |text| && IsLineStart(text, c)
    requires (forall k :: c <= k < c + n ==> text[k] == '`') && (c + n < |text| ==> IsBreak(text[c + n])) && n > 0
    ensures ClosesAt(text, c, '`', n)
  {
    SkipExact(text, c, ' ', c);
    SkipExact(text, c, '`', c + n);
  }

  /** Nothing opens before `o`, and a bare fence line `n` wide stands there. */
  ghost predicate HeadIsLaidOut(text: string, o: nat, n: nat)
  {
    && o + n < |text| && n >= 3 && IsLineStart(text, o) && TicksFrom(text, o, n) && text[o + n] == '\n'
    && forall k :: 0 <= k < o && IsLineStart(text, k) ==> IsPlain(text[k])
  }

  /** After `end` a bare fence line `n` wide follows, and nothing that wide comes before it. */
  ghost predicate TailIsLaidOut(text: string, from: nat, end: nat, n: nat)
  {
    && from <= end && end + 1 + n <= |text| && n > 0 && text[end] == '\n' && HasNoRun(text, from, end, n)
    && TicksFrom(text, end + 1, n) && (end + 1 + n < |text| ==> IsBreak(text[end + 1 + n]))
  }

  lemma SafeOpensNothing(text: string, k: nat)
    requires k < |text| && (IsLineStart(text, k) ==> IsPlain(text[k]))
    ensures !OpensAt(text, k)
  {
    if IsLineStart(text, k) {
      SkipExact(text, k, ' ', k);
      SkipExact(text, k, '`', k);
      SkipExact(text, k, '~', k);
    }
  }

  lemma {:induction false} SafeFindsNothing(text: string, i: nat)
    requires StartsSafely(text) && i <= |text|
    ensures FindOpen(text, i) == |text|
    decreases |text| - i
  {
    if i < |text| {
      SafeOpensNothing(text, i);
      SafeFindsNothing(text, i + 1);
    }
  }

  lemma LaidOutOpens(text: string, o: nat, n: nat)
    requires HeadIsLaidOut(text, o, n)
    ensures FindOpen(text, 0) == o && OpensWith(text, o, '`') && FenceWidth(text, o, '`') == n
    ensures NextLine(text, o) == o + n + 1
  {
    FenceOpens(text, o, n);
    forall k | 0 <= k < o ensures !OpensAt(text, k) { SafeOpensNothing(text, k); }
    FindOpenSkips(text, 0, o);
  }

  /** From anywhere in a stretch without long runs, the next closing line is the one after it. */
  lemma {:induction false} FindCloseAfter(text: string, from: nat, end: nat, n: nat, i: nat)
    requires from <= i <= end + 1 < |text| && HasNoRun(text, from, end, n) && text[end] == '\n'
    requires ClosesAt(text, end + 1, '`', n)
    ensures FindClose(text, i, '`', n) == end + 1
    decreases end + 1 - i
  {
    if i <= end {
      NoRunNoFence(text, from, end, n, i);
      FindCloseAfter(text, from, end, n, i + 1);
    }
  }

  lemma LaidOutCloses(text: string, from: nat, end: nat, n: nat)
    requires TailIsLaidOut(text, from, end, n)
    ensures FindClose(text, from, '`', n) == end + 1
  {
    FenceCloses(text, end + 1, n);
    FindCloseAfter(text, from, end, n, from);
  }

  lemma ReadIs(text: string, o: nat, n: nat, from: nat, close: nat)
    requires o < |text| && from <= close < |text|
    requires FindOpen(text, 0) == o && OpensWith(text, o, '`') && FenceWidth(text, o, '`') == n
    requires NextLine(text, o) == from && FindClose(text, from, '`', n) == close
    ensures ReadBlock(text) == Some(text[from..ContentEnd(text, from, close)])
  {
  }

  lemma LaidOutReads(text: string, o: nat, n: nat, content: string)
    requires HeadIsLaidOut(text, o, n) && TailIsLaidOut(text, o + n + 1, o + n + 1 + |content|, n)
    requires Sits(text, o + n + 1, content)
    ensures ReadBlock(text) == Some(WithoutLastReturn(content))
  {
    var from, close := o + n + 1, o + n + |content| + 2;
    LaidOutOpens(text, o, n);
    LaidOutCloses(text, from, from + |content|, n);
    ReadIs(text, o, n, from, close);
    ContentIsCut(text, from, content, close);
  }

  lemma ContentIsCut(text: string, from: nat, content: string, c: nat)
    requires from <= c <= |text| && c == from + |content| + 1 && Sits(text, from, content) && text[c - 1] == '\n'
    ensures text[from..ContentEnd(text, from, c)] == WithoutLastReturn(content)
  {
    assert text[from..c - 1] == content;
    if content != "" {
      assert text[c - 2] == content[|content| - 1];
      assert text[from..c - 2] == content[..|content| - 1];
    }
  }

  /** A whole block between what comes before and after it. */
  function Block(pre: string, fence: string, content: string, post: string): string
  {
    pre + (fence + ("\n" + (content + ("\n" + (fence + post)))))
  }

  lemma BlockAt(pre: string, fence: string, content: string, post: string, k: nat)
    requires k < |Block(pre, fence, content, post)|
    ensures var o, n := |pre|, |fence|;
            var from := o + n + 1;
            var c := from + |content| + 1;
            Block(pre, fence, content, post)[k] ==
              if k < o then pre[k] else if k < o + n then fence[k - o] else if k < from then '\n'
              else if k < c - 1 then content[k - from] else if k < c then '\n'
              else if k < c + n then fence[k - c] else post[k - c - n]
  {
  }

  lemma BlockHead(pre: string, fence: string, content: string, post: string)
    requires StartsSafely(pre) && pre != "" && IsBreak(pre[|pre| - 1]) && IsFence(fence, content)
    ensures HeadIsLaidOut(Block(pre, fence, content, post), |pre|, |fence|)
  {
    var text := Block(pre, fence, content, post);
    forall k: nat | k < |text| { BlockAt(pre, fence, content, post, k); }
    forall k: nat | k < |pre| && IsLineStart(text, k) ensures IsPlain(text[k]) {
      assert IsLineStart(pre, k);
    }
  }

  lemma BlockTail(pre: string, fence: string, content: string, post: string)
    requires IsFence(fence, content) && (post != "" ==> IsBreak(post[0]))
    ensures var text, from := Block(pre, fence, content, post), |pre| + |fence| + 1;
            Sits(text, from, content) && TailIsLaidOut(text, from, from + |content|, |fence|)
  {
    var text, from := Block(pre, fence, content, post), |pre| + |fence| + 1;
    forall k: nat | k < |text| { BlockAt(pre, fence, content, post, k); }
    assert Sits(text, from, content);
    ContentHasNoRun(text, from, content, |fence|);
  }

  /**
  Reading back a block whose fence is wider than every run of its content
  returns the content, except that a final carriage return is taken as part of
  the line ending; what follows the block does not matter.
   */
  lemma BlockRoundTrip(pre: string, fence: string, content: string, post: string)
    requires StartsSafely(pre) && pre != "" && IsBreak(pre[|pre| - 1]) && IsFence(fence, content)
    requires post != "" ==> IsBreak(post[0])
    ensures ReadBlock(Block(pre, fence, content, post)) == Some(WithoutLastReturn(content))
  {
    BlockHead(pre, fence, content, post);
    BlockTail(pre, fence, content, post);
    LaidOutReads(Block(pre, fence, content, post), |pre|, |fence|, content);
  }

  // ------------------------------------------------------- putting safe text together

  lemma SafeAppendLine(a: string, b: string)
    requires StartsSafely(a) && StartsSafely(b)
    ensures StartsSafely(a + b)
  {
    forall i | 0 <= i < |a + b| && IsLineStart(a + b, i) ensures IsPlain((a + b)[i]) {
      if i < |a| { assert IsLineStart(a, i); } else { assert IsLineStart(b, i - |a|); }
    }
  }
}
