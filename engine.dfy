/** The inference engine's own logic: the chunk extractor (page clamping,
    ASCII cleaning, whitespace collapse, the 3000-character cap), the chat
    prompt template and the per-token callback adapter. A PDF is given as the
    text of each page (None for a page without a text layer); the language
    model is given as the tokens it produces for a prompt. */
module Engine {
  import opened Wrappers
  import opened Whitespace

  /** Characters a chunk may hold. */
  const CHUNK_CAP: nat := 3000
  /** Pages per chunk unless the caller says otherwise. */
  const DEFAULT_CHUNK_SIZE: nat := 3

  predicate IsAscii(c: char) {
    c as int < 128
  }

  predicate AllAscii(s: string) {
    forall i :: 0 <= i < |s| ==> IsAscii(s[i])
  }

  function Min(a: nat, b: nat): nat {
    if a <= b then a else b
  }

  lemma AppendAssoc(a: string, b: string, c: string)
    ensures (a + b) + c == a + (b + c)
  {
  }

  // ---------------------------------------------------------------------------
  // Cleaning non-ASCII characters: re.sub(r'[^\x00-\x7F]+', ' ', content)

  /** The text with its leading run of non-ASCII characters removed. */
  function SkipNonAscii(s: string): (r: string)
    ensures |r| <= |s|
  {
    if s != [] && !IsAscii(s[0]) then SkipNonAscii(s[1..]) else s
  }

  /** What the skip removes is a run of non-ASCII characters at the front, and
      what it leaves starts with an ASCII character or is empty. */
  lemma {:induction false} SkipNonAsciiShape(s: string)
    ensures var r := SkipNonAscii(s);
      && r == s[|s| - |r|..]
      && (r == [] || IsAscii(r[0]))
      && forall i :: 0 <= i < |s| - |r| ==> !IsAscii(s[i])
  {
    if s != [] && !IsAscii(s[0]) {
      SkipNonAsciiShape(s[1..]);
      var r := SkipNonAscii(s[1..]);
      assert forall i :: 1 <= i < |s| - |r| ==> s[i] == s[1..][i - 1];
    }
  }

  /** Every maximal run of non-ASCII characters becomes one space. */
  function ReplaceNonAscii(s: string): (r: string)
    ensures |r| <= |s|
    decreases |s|
  {
    if s == [] then []
    else if IsAscii(s[0]) then [s[0]] + ReplaceNonAscii(s[1..])
    else [' '] + ReplaceNonAscii(SkipNonAscii(s[1..]))
  }

  /** The cleaner's output is ASCII. */
  lemma {:induction false} ReplaceIsAscii(s: string)
    ensures AllAscii(ReplaceNonAscii(s))
    decreases |s|
  {
    if s != [] {
      if IsAscii(s[0]) {
        ReplaceIsAscii(s[1..]);
      } else {
        ReplaceIsAscii(SkipNonAscii(s[1..]));
      }
    }
  }

  /** ASCII text passes through the cleaner unchanged. */
  lemma {:induction false} ReplaceKeepsAscii(a: string, b: string)
    requires AllAscii(a)
    ensures ReplaceNonAscii(a + b) == a + ReplaceNonAscii(b)
  {
    if a != [] {
      var s := a + b;
      assert s != [] && s[0] == a[0] && IsAscii(s[0]);
      calc {
        ReplaceNonAscii(s);
        [a[0]] + ReplaceNonAscii(s[1..]);
        { assert s[1..] == a[1..] + b; }
        [a[0]] + ReplaceNonAscii(a[1..] + b);
        { ReplaceKeepsAscii(a[1..], b); }
        [a[0]] + (a[1..] + ReplaceNonAscii(b));
        { assert a == [a[0]] + a[1..]; }
        a + ReplaceNonAscii(b);
      }
    } else {
      assert a + b == b;
    }
  }

  /** A whole run of non-ASCII characters becomes exactly one space. */
  lemma ReplaceRun(run: string, b: string)
    requires |run| > 0 && forall i :: 0 <= i < |run| ==> !IsAscii(run[i])
    requires b == [] || IsAscii(b[0])
    ensures ReplaceNonAscii(run + b) == " " + ReplaceNonAscii(b)
  {
    var s := run + b;
    assert s != [] && s[0] == run[0] && !IsAscii(s[0]);
    calc {
      ReplaceNonAscii(s);
      [' '] + ReplaceNonAscii(SkipNonAscii(s[1..]));
      { assert s[1..] == run[1..] + b; SkipRun(run[1..], b); }
      [' '] + ReplaceNonAscii(b);
    }
  }

  lemma {:induction false} SkipRun(run: string, b: string)
    requires forall i :: 0 <= i < |run| ==> !IsAscii(run[i])
    requires b == [] || IsAscii(b[0])
    ensures SkipNonAscii(run + b) == b
  {
    if run != [] {
      var s := run + b;
      assert s != [] && s[0] == run[0] && !IsAscii(s[0]);
      calc {
        SkipNonAscii(s);
        SkipNonAscii(s[1..]);
        { assert s[1..] == run[1..] + b; }
        SkipNonAscii(run[1..] + b);
        { SkipRun(run[1..], b); }
        b;
      }
    } else {
      assert run + b == b;
    }
  }

  /** The cleaner leaves a text alone exactly when the text is ASCII. */
  lemma ReplaceFixedIff(s: string)
    ensures ReplaceNonAscii(s) == s <==> AllAscii(s)
  {
    ReplaceIsAscii(s);
    if AllAscii(s) {
      ReplaceKeepsAscii(s, []);
      assert s + [] == s;
    }
  }

  /** A character that survives both the cleaner and the normaliser: ASCII
      and not a separator. */
  predicate IsKeptChar(c: char) {
    IsAscii(c) && IsWordChar(c)
  }

  /** The cleaner loses no ASCII text: with separators dropped, its output is
      the input's ASCII non-separator characters, in order. */
  lemma {:induction false} ReplaceKeepsText(s: string)
    ensures Keep(ReplaceNonAscii(s), IsWordChar) == Keep(s, IsKeptChar)
    decreases |s|
  {
    if s != [] {
      var rest := s[1..];
      if IsAscii(s[0]) {
        ReplaceKeepsText(rest);
        KeepAppend([s[0]], ReplaceNonAscii(rest), IsWordChar);
        assert [s[0]][1..] == [];
      } else {
        var r := SkipNonAscii(rest);
        ReplaceKeepsText(r);
        KeepAppend(" ", ReplaceNonAscii(r), IsWordChar);
        assert Keep(rest, IsKeptChar) == Keep(r, IsKeptChar) by {
          SkipNonAsciiShape(rest);
          var run := rest[..|rest| - |r|];
          assert rest == run + r;
          KeepAppend(run, r, IsKeptChar);
          assert forall i :: 0 <= i < |run| ==> run[i] == rest[i];
          KeepNone(run, IsKeptChar);
        }
      }
    }
  }

  // ---------------------------------------------------------------------------
  // The chunk extractor

  /** What one page adds to the accumulator: nothing for a page whose text is
      None or empty, otherwise its cleaned text followed by a space. */
  function PageText(page: Option<string>): string {
    if page.Some? && |page.value| > 0 then ReplaceNonAscii(page.value) + " " else ""
  }

  /** The text a page contributes: its ASCII non-separator characters, in
      order (none for a page whose text is None). */
  function PageKept(page: Option<string>): string {
    if page.Some? then Keep(page.value, IsKeptChar) else ""
  }

  /** With separators dropped, what a page adds is its kept text. */
  lemma PageTextKept(page: Option<string>)
    ensures Keep(PageText(page), IsWordChar) == PageKept(page)
  {
    if page.Some? && |page.value| > 0 {
      ReplaceKeepsText(page.value);
      KeepAppend(ReplaceNonAscii(page.value), " ", IsWordChar);
    }
  }

  /** One past the last page read: the requested range clamped to the page count. */
  function EndPage(startPage: nat, chunkSize: nat, pageCount: nat): nat {
    Min(startPage + chunkSize, pageCount)
  }

  /** An accumulator that reads pages lo to hi - 1 in order, appending what
      `pageText` makes of each. */
  function GatherWith(pageText: Option<string> -> string, pages: seq<Option<string>>, lo: nat, hi: nat): string
    requires hi <= |pages|
    decreases hi
  {
    if hi <= lo then "" else GatherWith(pageText, pages, lo, hi - 1) + pageText(pages[hi - 1])
  }

  /** The extractor's accumulator after reading pages lo to hi - 1 in order. */
  function Gathered(pages: seq<Option<string>>, lo: nat, hi: nat): string
    requires hi <= |pages|
  {
    GatherWith(PageText, pages, lo, hi)
  }

  /** `s[:3000]`. */
  function Truncate(s: string): (r: string)
    ensures |r| == Min(|s|, CHUNK_CAP)
    ensures r == s[..|r|]
  {
    if |s| <= CHUNK_CAP then s else s[..CHUNK_CAP]
  }

  /** The chunk `extract_text_chunk(pdf, startPage, chunkSize)` returns. */
  function Chunk(pages: seq<Option<string>>, startPage: nat, chunkSize: nat): (c: string)
    ensures |c| <= CHUNK_CAP
  {
    Truncate(Collapse(Gathered(pages, startPage, EndPage(startPage, chunkSize, |pages|))))
  }

  /** Reads the pages of the range one by one, appending each page's cleaned
      text and a space, then collapses whitespace and caps the length. */
  method ExtractTextChunk(pages: seq<Option<string>>, startPage: nat, chunkSize: nat := DEFAULT_CHUNK_SIZE)
    returns (chunk: string)
    ensures chunk == Chunk(pages, startPage, chunkSize)
    ensures |chunk| <= CHUNK_CAP
    ensures startPage >= |pages| ==> chunk == ""
  {
    var text := "";
    var endPage := Min(startPage + chunkSize, |pages|);
    var i := startPage;
    while i < endPage
      invariant startPage <= i
      invariant i <= endPage || i == startPage
      invariant text == Gathered(pages, startPage, if i <= endPage then i else endPage)
    {
      var content := pages[i];
      ReadPage(pages, startPage, i, text);
      if content.Some? && |content.value| > 0 {
        var cleaned := ReplaceNonAscii(content.value);
        text := text + cleaned + " ";
      }
      i := i + 1;
    }
    assert text == Gathered(pages, startPage, EndPage(startPage, chunkSize, |pages|));
    chunk := Truncate(Collapse(text));
    if startPage >= |pages| {
      ChunkPastEnd(pages, startPage, chunkSize);
    }
  }

  /** Reading page i: a page with text appends its cleaned text and a space,
      any other page leaves the accumulator as it is. */
  lemma ReadPage(pages: seq<Option<string>>, lo: nat, i: nat, text: string)
    requires lo <= i < |pages| && text == Gathered(pages, lo, i)
    ensures var page := pages[i];
      Gathered(pages, lo, i + 1)
        == if page.Some? && |page.value| > 0 then text + ReplaceNonAscii(page.value) + " " else text
  {
    GatherStep(PageText, pages, lo, i + 1);
    var page := pages[i];
    if page.Some? && |page.value| > 0 {
      AppendAssoc(text, ReplaceNonAscii(page.value), " ");
    } else {
      assert text + PageText(page) == text;
    }
  }

  /** With separators dropped, the accumulator is the kept text of its pages
      in page order. */
  lemma {:induction false} GatheredKept(pages: seq<Option<string>>, lo: nat, hi: nat)
    requires hi <= |pages|
    ensures Keep(Gathered(pages, lo, hi), IsWordChar) == GatherWith(PageKept, pages, lo, hi)
    decreases hi
  {
    if lo < hi {
      var before, page := Gathered(pages, lo, hi - 1), pages[hi - 1];
      assert Gathered(pages, lo, hi) == before + PageText(page);
      GatheredKept(pages, lo, hi - 1);
      KeepAppend(before, PageText(page), IsWordChar);
      PageTextKept(page);
    }
  }

  /** A start at or past the last page reads nothing. */
  lemma ChunkPastEnd(pages: seq<Option<string>>, startPage: nat, chunkSize: nat)
    requires startPage >= |pages|
    ensures Chunk(pages, startPage, chunkSize) == ""
  {
    assert Gathered(pages, startPage, EndPage(startPage, chunkSize, |pages|)) == "";
    assert Words("") == [];
  }

  /** Every character the accumulator holds is ASCII. */
  lemma GatheredAscii(pages: seq<Option<string>>, lo: nat, hi: nat)
    requires hi <= |pages|
    ensures AllAscii(Gathered(pages, lo, hi))
  {
    forall j | lo <= j < hi ensures AllAscii(PageText(pages[j])) {
      PageTextAscii(pages[j]);
    }
    GatherAscii(PageText, pages, lo, hi);
  }

  lemma {:induction false} GatherAscii(pageText: Option<string> -> string, pages: seq<Option<string>>, lo: nat, hi: nat)
    requires hi <= |pages|
    requires forall j :: lo <= j < hi ==> AllAscii(pageText(pages[j]))
    ensures AllAscii(GatherWith(pageText, pages, lo, hi))
    decreases hi
  {
    if lo < hi {
      GatherAscii(pageText, pages, lo, hi - 1);
      AsciiAppend(GatherWith(pageText, pages, lo, hi - 1), pageText(pages[hi - 1]));
    }
  }

  lemma PageTextAscii(page: Option<string>)
    ensures AllAscii(PageText(page))
  {
    if page.Some? && |page.value| > 0 {
      ReplaceIsAscii(page.value);
      AsciiAppend(ReplaceNonAscii(page.value), " ");
    }
  }

  lemma AsciiAppend(a: string, b: string)
    requires AllAscii(a) && AllAscii(b)
    ensures AllAscii(a + b)
  {
    forall i | 0 <= i < |a + b| ensures IsAscii((a + b)[i]) {
      if i >= |a| { assert (a + b)[i] == b[i - |a|]; }
    }
  }

  /** A chunk is at most 3000 characters of ASCII; it never starts with a
      separator, holds no separator but the plain space and no two spaces in a
      row; it ends in a space only when the cap cut the text; it is the whole
      normalised text of its pages when that fits the cap, and its prefix
      otherwise; a start at or past the last page gives the empty chunk; and the
      normalised text loses nothing: with separators dropped, it is every ASCII
      non-separator character of the range's pages, in page order. */
  lemma ChunkShape(pages: seq<Option<string>>, startPage: nat, chunkSize: nat)
    ensures var c, full := Chunk(pages, startPage, chunkSize),
                           Collapse(Gathered(pages, startPage, EndPage(startPage, chunkSize, |pages|)));
      && |c| <= CHUNK_CAP
      && AllAscii(c)
      && NormalizedPrefix(c)
      && (|c| > 0 && c[|c| - 1] == ' ' ==> |full| > CHUNK_CAP)
      && (|full| <= CHUNK_CAP ==> c == full)
      && (|full| > CHUNK_CAP ==> c == full[..CHUNK_CAP])
      && (startPage >= |pages| ==> c == "")
      && Keep(full, IsWordChar) == GatherWith(PageKept, pages, startPage, EndPage(startPage, chunkSize, |pages|))
  {
    var text := Gathered(pages, startPage, EndPage(startPage, chunkSize, |pages|));
    var full := Collapse(text);
    assert AllAscii(full) by {
      GatheredAscii(pages, startPage, EndPage(startPage, chunkSize, |pages|));
      assert AllHold(text, IsAscii);
      CollapseKeeps(text, IsAscii);
    }
    assert Normalized(full) by {
      CollapseKeepsWords(text);
    }
    PrefixOfNormalized(full, |Truncate(full)|);
    assert Keep(full, IsWordChar) == GatherWith(PageKept, pages, startPage, EndPage(startPage, chunkSize, |pages|)) by {
      CollapseKeepsText(text);
      GatheredKept(pages, startPage, EndPage(startPage, chunkSize, |pages|));
    }
    if startPage >= |pages| {
      assert text == "";
      assert Words("") == [];
    }
  }

  /** Reading one more page appends what is made of it. */
  lemma GatherStep(pageText: Option<string> -> string, pages: seq<Option<string>>, lo: nat, hi: nat)
    requires lo < hi <= |pages|
    ensures GatherWith(pageText, pages, lo, hi) == GatherWith(pageText, pages, lo, hi - 1) + pageText(pages[hi - 1])
  {
  }

  /** The accumulator over lo..hi is the one over lo..mid followed by the one
      over mid..hi. */
  lemma {:induction false} GatherSplit(pageText: Option<string> -> string, pages: seq<Option<string>>, lo: nat, mid: nat, hi: nat)
    requires lo <= mid <= hi <= |pages|
    ensures GatherWith(pageText, pages, lo, hi) == GatherWith(pageText, pages, lo, mid) + GatherWith(pageText, pages, mid, hi)
    decreases hi
  {
    if mid < hi {
      GatherSplit(pageText, pages, lo, mid, hi - 1);
      AppendAssoc(GatherWith(pageText, pages, lo, mid), GatherWith(pageText, pages, mid, hi - 1), pageText(pages[hi - 1]));
    } else {
      assert GatherWith(pageText, pages, lo, hi) + "" == GatherWith(pageText, pages, lo, hi);
    }
  }

  /** A page whose text is None or empty contributes nothing: the result is
      what the pages before it and the pages after it give. */
  lemma EmptyPageSkipped(pages: seq<Option<string>>, lo: nat, j: nat, hi: nat)
    requires lo <= j < hi <= |pages|
    requires pages[j] == None || pages[j] == Some("")
    ensures Gathered(pages, lo, hi) == Gathered(pages, lo, j) + Gathered(pages, j + 1, hi)
  {
    GatherSplit(PageText, pages, lo, j, hi);
    GatherSplit(PageText, pages, j, j + 1, hi);
    var page := GatherWith(PageText, pages, j, j + 1);
    assert page == PageText(pages[j]) == "";
    assert page + Gathered(pages, j + 1, hi) == Gathered(pages, j + 1, hi);
  }

  /** Only the pages of the clamped range are read: two documents with the same
      page count that agree on those pages give the same chunk. */
  lemma ChunkReadsOnlyRange(pages: seq<Option<string>>, other: seq<Option<string>>, startPage: nat, chunkSize: nat)
    requires |other| == |pages|
    requires forall i :: startPage <= i < EndPage(startPage, chunkSize, |pages|) ==> other[i] == pages[i]
    ensures Chunk(other, startPage, chunkSize) == Chunk(pages, startPage, chunkSize)
  {
    GatherFrame(PageText, pages, other, startPage, EndPage(startPage, chunkSize, |pages|));
  }

  lemma {:induction false} GatherFrame(pageText: Option<string> -> string, pages: seq<Option<string>>, other: seq<Option<string>>, lo: nat, hi: nat)
    requires hi <= |pages| && hi <= |other|
    requires forall i :: lo <= i < hi ==> other[i] == pages[i]
    ensures GatherWith(pageText, other, lo, hi) == GatherWith(pageText, pages, lo, hi)
    decreases hi
  {
    if lo < hi {
      GatherFrame(pageText, pages, other, lo, hi - 1);
    }
  }

  // ---------------------------------------------------------------------------
  // The prompt template

  predicate StartsWith(s: string, prefix: string) {
    |prefix| <= |s| && s[..|prefix|] == prefix
  }

  predicate EndsWith(s: string, suffix: string) {
    |suffix| <= |s| && s[|s| - |suffix|..] == suffix
  }

  const USER_TAG := "<|user|>\n"
  const END_TAG := "<|end|>\n<|assistant|>\n"
  const DEFAULT_INSTRUCTION := "Summarize this section concisely:"

  /** The caller's instruction when it is given and non-empty (Python
      truthiness), the default summarising instruction otherwise. */
  function Instruction(customPrompt: Option<string>): string {
    if customPrompt.Some? && |customPrompt.value| > 0 then customPrompt.value else DEFAULT_INSTRUCTION
  }

  /** Recovers the text from a prompt built with the given instruction, if the
      prompt has the template's shape. */
  function PromptText(prompt: string, customPrompt: Option<string>): Option<string> {
    var head := USER_TAG + Instruction(customPrompt) + "\n";
    if |head| + |END_TAG| <= |prompt| && StartsWith(prompt, head) && EndsWith(prompt, END_TAG)
    then Some(prompt[|head|..|prompt| - |END_TAG|])
    else None
  }

  /** The chat prompt `get_summary` sends to the model. */
  function BuildPrompt(text: string, customPrompt: Option<string>): (prompt: string)
    ensures customPrompt.Some? && |customPrompt.value| > 0 ==>
      StartsWith(prompt, USER_TAG + customPrompt.value + "\n")
    ensures !(customPrompt.Some? && |customPrompt.value| > 0) ==>
      StartsWith(prompt, USER_TAG + DEFAULT_INSTRUCTION + "\n")
    ensures EndsWith(prompt, END_TAG)
    ensures PromptText(prompt, customPrompt) == Some(text)
  {
    var head := USER_TAG + Instruction(customPrompt) + "\n";
    var prompt := head + text + END_TAG;
    assert prompt[..|head|] == head;
    assert prompt[|prompt| - |END_TAG|..] == END_TAG;
    assert prompt[|head|..|prompt| - |END_TAG|] == text;
    prompt
  }

  // ---------------------------------------------------------------------------
  // The per-token callback and the model's streaming contract

  /** The streamer `get_summary` hands to the model: the caller's callback when
      there is one, otherwise a callback that never asks to stop. */
  function InternalCallback(streamCallback: Option<string -> bool>, token: string): (stop: bool)
    ensures streamCallback.None? ==> !stop
  {
    match streamCallback
    case None => false
    case Some(callback) => callback(token)
  }

  /** The tokens the model passes to the streamer: all of them up to and
      including the first one on which the streamer asks to stop. */
  function Streamed(tokens: seq<string>, streamCallback: Option<string -> bool>): (r: seq<string>)
    ensures r <= tokens
    ensures forall k :: 0 <= k < |r| - 1 ==> !InternalCallback(streamCallback, r[k])
    ensures |r| < |tokens| ==> |r| > 0 && InternalCallback(streamCallback, r[|r| - 1])
  {
    if tokens == [] then []
    else if InternalCallback(streamCallback, tokens[0]) then [tokens[0]]
    else [tokens[0]] + Streamed(tokens[1..], streamCallback)
  }

  /** Without a caller callback generation is never stopped. */
  lemma {:induction false} NoCallbackNeverStops(tokens: seq<string>)
    ensures Streamed(tokens, None) == tokens
  {
    if tokens != [] {
      NoCallbackNeverStops(tokens[1..]);
    }
  }

  /** The caller's callback decides alone: a callback that always answers
      "continue" lets every token through. */
  lemma {:induction false} ContinueCallbackNeverStops(tokens: seq<string>, callback: string -> bool)
    requires forall t :: !callback(t)
    ensures Streamed(tokens, Some(callback)) == tokens
  {
    if tokens != [] {
      ContinueCallbackNeverStops(tokens[1..], callback);
    }
  }

  /** The text of a token sequence. */
  function Concat(tokens: seq<string>): string {
    if tokens == [] then "" else Concat(tokens[..|tokens| - 1]) + tokens[|tokens| - 1]
  }

  /** The model stands for a function from prompt to the tokens it generates. */
  type Generator = string -> seq<string>

  /** What `get_summary` returns: the text of the tokens generated before the
      streamer stopped the model. */
  function GetSummary(gen: Generator, text: string, streamCallback: Option<string -> bool>, customPrompt: Option<string>): (r: string)
    ensures streamCallback.None? ==> r == Concat(gen(BuildPrompt(text, customPrompt)))
  {
    NoCallbackNeverStops(gen(BuildPrompt(text, customPrompt)));
    Concat(Streamed(gen(BuildPrompt(text, customPrompt)), streamCallback))
  }
}
