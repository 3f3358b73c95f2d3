/**
The worker's task description: framing lines that provider text cannot
imitate, and the issue body inlined verbatim in a fenced block.
 */
module TaskDescription {
  import opened Wrappers
  import opened TaskId
  import opened Fence

  const MAX_INLINE_BODY_CHARS: nat := 8 * 1024

  datatype SelectedTask = SelectedTask(number: u64, repo: string, title: string, url: string)

  /** Control characters (general category Cc). */
  predicate IsControl(c: char) { c as int < 0x20 || 0x7f <= c as int <= 0x9f }

  /** The Unicode `White_Space` property. */
  predicate IsWhitespace(c: char)
  {
    var n := c as int;
    || 0x09 <= n <= 0x0d || n == 0x20 || n == 0x85 || n == 0xa0 || n == 0x1680 || 0x2000 <= n <= 0x200a
    || n == 0x2028 || n == 0x2029 || n == 0x202f || n == 0x205f || n == 0x3000
  }

  predicate IsBlank(body: string) { forall i :: 0 <= i < |body| ==> IsWhitespace(body[i]) }

  /** Control characters, and the line and paragraph separators, which are none. */
  predicate BreaksFraming(c: char) { IsControl(c) || c == '\U{2028}' || c == '\U{2029}' }

  /** Neither a control character nor a line or paragraph separator. */
  predicate Prints(n: int) { 0x20 <= n && !(0x7f <= n <= 0x9f) && n != 0x2028 && n != 0x2029 }

  function SafeChar(c: char): char
  {
    if BreaksFraming(c) then ' ' else c
  }

  /** Provider text on one line: same length, every breaking or control character a space. */
  function FramingSafe(title: string): (r: string)
    ensures |r| == |title| && Unbroken(r)
    ensures forall i :: 0 <= i < |r| ==> r[i] == title[i] || (r[i] == ' ' && BreaksFraming(title[i]))
    ensures forall i :: 0 <= i < |r| ==> Prints(r[i] as int)
  {
    seq(|title|, i requires 0 <= i < |title| => SafeChar(title[i]))
  }

  /** The fixed sentences of the description; their wording does not matter, only that each is one line. */
  datatype Wording = Wording(
    contract: string, emptyBody: string, untrusted: string, truncated: string, fetchFailed: string)

  /** A sentence that starts like one and has no line break. */
  ghost predicate IsSentence(s: string) { s != "" && IsPlain(s[0]) && Unbroken(s) }

  ghost predicate ValidWording(w: Wording)
  {
    IsSentence(w.contract) && IsSentence(w.emptyBody) && IsSentence(w.untrusted) && IsSentence(w.truncated)
    && IsSentence(w.fetchFailed)
  }

  // ------------------------------------------------------------------ assembly

  function FirstLine(task: SelectedTask): string
  {
    "Issue #" + Numeral(task.number) + " (" + FramingSafe(task.repo) + "): " + FramingSafe(task.title)
  }

  function Framing(w: Wording, task: SelectedTask): string
  {
    FirstLine(task) + "\n\nURL: " + FramingSafe(task.url) + "\n\n" + w.contract
  }

  function Inline(body: string): string { body[..Min(|body|, MAX_INLINE_BODY_CHARS)] }

  function Notice(w: Wording, task: SelectedTask, body: string): string
  {
    if |body| > MAX_INLINE_BODY_CHARS then "\n\n" + w.truncated + FramingSafe(task.url) + "." else ""
  }

  /** Everything up to the opening fence. */
  function Preamble(w: Wording, task: SelectedTask): string
  {
    Framing(w, task) + "\n\n" + w.untrusted + "\n\n"
  }

  function Description(w: Wording, task: SelectedTask, fetched: Option<string>): string
  {
    match fetched
    case None => Framing(w, task) + "\n\n" + w.fetchFailed
    case Some(body) =>
      if IsBlank(body) then Framing(w, task) + "\n\n" + w.emptyBody
      else Block(Preamble(w, task), FenceOf(Inline(body)), Inline(body), Notice(w, task, body))
  }

  predicate EndsWith(text: string, end: string) { |end| <= |text| && text[|text| - |end|..] == end }

  /** What a reader finds at the end: why there is no body, that it was cut, or the closing fence. */
  function LastWords(w: Wording, task: SelectedTask, fetched: Option<string>): string
  {
    if fetched.None? then "\n\n" + w.fetchFailed
    else if IsBlank(fetched.value) then "\n\n" + w.emptyBody
    else if |fetched.value| > MAX_INLINE_BODY_CHARS then "\n\n" + w.truncated + FramingSafe(task.url) + "."
    else "\n" + FenceOf(fetched.value)
  }

  lemma BeginsAndEnds(w: Wording, task: SelectedTask, fetched: Option<string>)
    ensures EndsWith(Description(w, task, fetched), LastWords(w, task, fetched))
    ensures Framing(w, task) <= Description(w, task, fetched)
  {
    if fetched.None? {
      AppendEnds(Framing(w, task), "\n\n", w.fetchFailed);
    } else if IsBlank(fetched.value) {
      AppendEnds(Framing(w, task), "\n\n", w.emptyBody);
    } else {
      BodyBeginsAndEnds(w, task, fetched.value);
    }
  }

  lemma AppendEnds(a: string, b: string, c: string)
    ensures EndsWith(a + b + c, b + c) && a <= a + b + c
  {
    assert a + b + c == a + (b + c);
  }

  lemma BodyBeginsAndEnds(w: Wording, task: SelectedTask, body: string)
    requires !IsBlank(body)
    ensures EndsWith(Description(w, task, Some(body)), LastWords(w, task, Some(body)))
    ensures Framing(w, task) <= Description(w, task, Some(body))
  {
    BlockEnds(Preamble(w, task), FenceOf(Inline(body)), Inline(body), Notice(w, task, body));
    if |body| <= MAX_INLINE_BODY_CHARS { assert Inline(body) == body; }
  }

  lemma BlockEnds(pre: string, fence: string, inline: string, notice: string)
    ensures pre <= Block(pre, fence, inline, notice)
    ensures EndsWith(Block(pre, fence, inline, notice), if notice == "" then "\n" + fence else notice)
  {
  }

  /** Appends to one buffer, in the order the description is read. */
  method Describe(w: Wording, task: SelectedTask, fetched: Option<string>) returns (description: string)
    ensures description == Description(w, task, fetched)
    ensures EndsWith(description, LastWords(w, task, fetched))
    ensures Framing(w, task) <= description
    ensures ValidWording(w) ==>
              ReadBlock(description) == if fetched.None? || IsBlank(fetched.value) then None
                                        else Some(WithoutLastReturn(Inline(fetched.value)))
  {
    BeginsAndEnds(w, task, fetched);
    if ValidWording(w) {
      if fetched.None? || IsBlank(fetched.value) { NoBodyNoBlock(w, task, fetched); }
      else { BodyRoundTrip(w, task, fetched.value); }
    }
    var repo, title, url := FramingSafe(task.repo), FramingSafe(task.title), FramingSafe(task.url);
    description := "Issue #" + Numeral(task.number) + " (" + repo + "): " + title
                   + "\n\nURL: " + url + "\n\n" + w.contract;
    if fetched.None? {
      description := description + "\n\n" + w.fetchFailed;
    } else if IsBlank(fetched.value) {
      description := description + "\n\n" + w.emptyBody;
    } else {
      var body := fetched.value;
      var truncated := |body| > MAX_INLINE_BODY_CHARS;
      var inline := if truncated then body[..MAX_INLINE_BODY_CHARS] else body;
      assert inline == Inline(body);
      var fence := FenceFor(inline);
      description := description + "\n\n" + w.untrusted + "\n\n";
      assert description == Preamble(w, task);
      var block := fence + ("\n" + (inline + ("\n" + fence)));
      if truncated {
        var notice := "\n\n" + w.truncated + url + ".";
        NoticeFollows(description, fence, inline, notice);
        description := description + block + notice;
      } else {
        NoticeFollows(description, fence, inline, "");
        description := description + block;
      }
    }
  }

  lemma NoticeFollows(pre: string, fence: string, inline: string, notice: string)
    ensures pre + (fence + ("\n" + (inline + ("\n" + fence)))) + notice == Block(pre, fence, inline, notice)
  {
  }

  // --------------------------------------------------------------- containment

  lemma {:induction false} NumeralIsUnbroken(n: nat)
    ensures Unbroken(Numeral(n))
  {
    if n >= 10 { NumeralIsUnbroken(n / 10); }
  }

  lemma UnbrokenConcat(a: string, b: string)
    requires Unbroken(a) && Unbroken(b)
    ensures Unbroken(a + b)
  {
  }

  /** A line that begins with a sentence start and has no break is safe. */
  lemma SentenceIsSafe(s: string)
    requires IsSentence(s)
    ensures StartsSafely(s)
  {
  }

  lemma BreakIsSafe()
    ensures StartsSafely("\n\n")
  {
  }

  /** The first framing line is one unbroken line, whatever the provider sent. */
  lemma FirstLineIsSentence(task: SelectedTask)
    ensures IsSentence(FirstLine(task))
  {
    NumeralIsUnbroken(task.number);
    var a := "Issue #" + Numeral(task.number);
    UnbrokenConcat("Issue #", Numeral(task.number));
    UnbrokenConcat(a, " (");
    UnbrokenConcat(a + " (", FramingSafe(task.repo));
    UnbrokenConcat(a + " (" + FramingSafe(task.repo), "): ");
    UnbrokenConcat(a + " (" + FramingSafe(task.repo) + "): ", FramingSafe(task.title));
    assert FirstLine(task)[0] == "Issue #"[0];
  }

  lemma UrlLineIsSentence(task: SelectedTask)
    ensures IsSentence("URL: " + FramingSafe(task.url))
  {
    UnbrokenConcat("URL: ", FramingSafe(task.url));
  }

  lemma Reassociate(a: string, br: string, u: string, url: string, c: string, d: string)
    ensures (((((a + (br + u)) + url) + br) + c) + br) + d == a + (br + ((u + url) + (br + (c + (br + d)))))
  {
  }

  /** The line of the text that starts at this position. */
  ghost predicate IsLine(text: string, from: nat, line: string)
  {
    from + |line| <= |text| && LineEnd(text, from) == from + |line| && text[from..from + |line|] == line
  }

  /**
  No provider text can forge the framing: the first line always is the issue's
  number, repository and title, and the third one its address.
   */
  lemma FramingCannotBeForged(w: Wording, task: SelectedTask, fetched: Option<string>)
    returns (first: string, url: string)
    ensures first == "Issue #" + Numeral(task.number) + " (" + FramingSafe(task.repo) + "): " + FramingSafe(task.title)
    ensures url == "URL: " + FramingSafe(task.url)
    ensures IsLine(Description(w, task, fetched), 0, first)
    ensures IsLine(Description(w, task, fetched), |first| + 2, url)
  {
    first, url := FirstLine(task), "URL: " + FramingSafe(task.url);
    BeginsAndEnds(w, task, fetched);
    FirstLineIsSentence(task);
    UrlLineIsSentence(task);
    FramingIs(w, task);
    LinesAre(Description(w, task, fetched), first, "\n\n", url, w.contract);
  }

  lemma FramingIs(w: Wording, task: SelectedTask)
    ensures Framing(w, task) == FirstLine(task) + "\n\n" + ("URL: " + FramingSafe(task.url)) + "\n\n" + w.contract
  {
    assert "\n\nURL: " == "\n\n" + "URL: ";
  }

  /** A stretch of the beginning of a text is where the lengths before it say. */
  lemma StretchAt(text: string, a: string, b: string, c: string)
    requires a + b + c <= text
    ensures |a| + |b| <= |text| && text[|a|..|a| + |b|] == b
  {
    assert (a + b + c)[|a|..|a| + |b|] == b;
  }

  lemma LineAt(text: string, from: nat, line: string)
    requires from + |line| < |text| && text[from..from + |line|] == line && Unbroken(line)
    requires IsBreak(text[from + |line|])
    ensures IsLine(text, from, line)
  {
    forall k | from <= k < from + |line| ensures !IsBreak(text[k]) {
      assert text[k] == line[k - from];
    }
    LineEndExact(text, from, from + |line|);
  }

  lemma LinesAre(text: string, first: string, br: string, url: string, rest: string)
    requires first + br + url + br + rest <= text && |br| == 2 && IsBreak(br[0]) && Unbroken(first) && Unbroken(url)
    ensures IsLine(text, 0, first) && IsLine(text, |first| + 2, url)
  {
    StretchAt(text, first + br + url, br, rest);
    assert first + br + url <= text;
    StretchAt(text, first + br, url, "");
    assert first + br <= text;
    StretchAt(text, first, br, "");
    assert text[|first|] == br[0];
    assert text[|first| + 2 + |url|] == br[0];
    LineAt(text, 0, first);
    LineAt(text, |first| + 2, url);
  }

  /** Three sentences separated by blank lines: what follows the framing decides. */
  lemma FramingIsSafe(w: Wording, task: SelectedTask, rest: string)
    requires ValidWording(w) && StartsSafely(rest)
    ensures StartsSafely(Framing(w, task) + "\n\n" + rest)
  {
    var br, url := "\n\n", "URL: " + FramingSafe(task.url);
    FirstLineIsSentence(task);
    UrlLineIsSentence(task);
    SentenceIsSafe(FirstLine(task));
    SentenceIsSafe(url);
    SentenceIsSafe(w.contract);
    BreakIsSafe();
    SafeAppendLine(br, rest);
    SafeAppendLine(w.contract, br + rest);
    SafeAppendLine(br, w.contract + (br + rest));
    SafeAppendLine(url, br + (w.contract + (br + rest)));
    SafeAppendLine(br, url + (br + (w.contract + (br + rest))));
    SafeAppendLine(FirstLine(task), br + (url + (br + (w.contract + (br + rest)))));
    assert "\n\nURL: " == "\n\n" + "URL: ";
    Reassociate(FirstLine(task), br, "URL: ", FramingSafe(task.url), w.contract, rest);
  }

  lemma PreambleIsSafe(w: Wording, task: SelectedTask)
    requires ValidWording(w)
    ensures var pre := Preamble(w, task); StartsSafely(pre) && pre != "" && IsBreak(pre[|pre| - 1])
  {
    SentenceIsSafe(w.untrusted);
    BreakIsSafe();
    SafeAppendLine(w.untrusted, "\n\n");
    FramingIsSafe(w, task, w.untrusted + "\n\n");
    assert Preamble(w, task) == Framing(w, task) + "\n\n" + (w.untrusted + "\n\n");
  }

  /**
  For every non-blank body, reading the description's first fenced block gives
  the inlined text back, up to a final carriage return; the inlined text is the
  body's longest prefix within the cap, and the notice is there exactly when
  text was cut.
   */
  lemma BodyRoundTrip(w: Wording, task: SelectedTask, body: string)
    requires ValidWording(w) && !IsBlank(body)
    ensures ReadBlock(Description(w, task, Some(body))) == Some(WithoutLastReturn(Inline(body)))
    ensures Inline(body) <= body && |Inline(body)| <= 8192
    ensures |Inline(body)| < |body| ==> |Inline(body)| == 8192
    ensures Notice(w, task, body) != "" <==> Inline(body) != body
  {
    PreambleIsSafe(w, task);
    BlockRoundTrip(Preamble(w, task), FenceOf(Inline(body)), Inline(body), Notice(w, task, body));
  }

  /** The text comes back exactly if and only if it does not end in a carriage return. */
  lemma BodyRoundTripExact(w: Wording, task: SelectedTask, body: string)
    requires ValidWording(w) && !IsBlank(body)
    ensures ReadBlock(Description(w, task, Some(body))) == Some(Inline(body))
       <==> Inline(body)[|Inline(body)| - 1] != '\r'
  {
    BodyRoundTrip(w, task, body);
  }

  /** A body that ends in a carriage return is the case that fails. */
  lemma TrailingReturnIsLost(w: Wording, task: SelectedTask)
    requires ValidWording(w)
    ensures ReadBlock(Description(w, task, Some("a\r"))) == Some("a")
  {
    assert !IsWhitespace("a\r"[0]);
    BodyRoundTrip(w, task, "a\r");
    assert Inline("a\r") == "a\r" && "a\r"[..1] == "a";
  }

  /** Without a body to show, whatever the title says, the description has no fenced block at all. */
  lemma NoBodyNoBlock(w: Wording, task: SelectedTask, fetched: Option<string>)
    requires ValidWording(w) && (fetched.Some? ==> IsBlank(fetched.value))
    ensures ReadBlock(Description(w, task, fetched)) == None
  {
    var last := if fetched.None? then w.fetchFailed else w.emptyBody;
    SentenceIsSafe(last);
    FramingIsSafe(w, task, last);
    SafeFindsNothing(Description(w, task, fetched), 0);
  }
}
