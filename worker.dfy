/** The background analysis worker: for the chosen input mode and depth it
    puts status, progress, clear-UI, content, error and completion messages on
    the queue, walking a PDF in ranges of three pages in a deep scan.

    The external calls the worker makes (opening the PDF, extracting a chunk,
    calling the model) are numbered in the order it makes them; a `Failure`
    names the call that raises and the text of the exception. The model is a
    `Generator`: the tokens it produces for a prompt. */
module Worker {
  import opened Wrappers
  import opened Decimal
  import opened Engine
  import opened Protocol

  datatype InputMode = PdfDocument | PasteText | ImageScreenshot

  /** The depth radio button; only a PDF is scanned differently in depth. */
  datatype Depth = QuickSummary | DeepScan

  /** One run's inputs: mode and depth, the PDF's page texts, the pasted text,
      and the OCR text held in the session for an image. */
  datatype Request = Request(mode: InputMode, depth: Depth, pages: seq<Option<string>>, pasted: string, ocrText: string)

  /** The op-th external call raises `message`; when that call is the streamed
      model call, it first hands `after` tokens (or all it has, if fewer) to the
      streamer. */
  datatype Failure = Failure(op: nat, after: nat, message: string)

  const SYNTHESIS_INSTRUCTION := "Synthesize these into a master report:"
  const QUICK_STATUS := "Performing Quick Scan..."
  const PASTE_STATUS := "Processing pasted text..."
  const IMAGE_STATUS := "Analyzing image context..."

  predicate IsDeepPdf(req: Request) {
    req.mode == PdfDocument && req.depth == DeepScan
  }

  // ---------------------------------------------------------------------------
  // Deep-scan page ranges: [3k, min(3k + 3, total)) for k = 0, 1, ...

  function NumRanges(total: nat): nat {
    (total + 2) / 3
  }

  function RangeEnd(k: nat, total: nat): nat {
    Min(3 * k + 3, total)
  }

  /** The ranges start at 0, each ends where the next starts, none is empty,
      the last ends at the page count, and there are ceil(total / 3) of them. */
  lemma RangesTile(total: nat)
    ensures forall k :: 0 <= k < NumRanges(total) ==> 3 * k < RangeEnd(k, total)
    ensures forall k :: 0 < k < NumRanges(total) ==> RangeEnd(k - 1, total) == 3 * k
    ensures NumRanges(total) > 0 ==> RangeEnd(NumRanges(total) - 1, total) == total
    ensures 3 * NumRanges(total) >= total && 3 * NumRanges(total) < total + 3
  {
  }

  /** Every page of the document lies in exactly one range: page p lies in
      range k exactly when k is p / 3. */
  lemma PageInOneRange(total: nat, p: nat, k: nat)
    requires k < NumRanges(total)
    ensures 3 * k <= p < RangeEnd(k, total) <==> p < total && k == p / 3
  {
  }

  /** The status message announcing the pages first to last, numbered from one. */
  function PagesStatus(first: nat, last: nat): (r: string)
    ensures forall i :: 0 <= i < |r| ==> r[i] != '_'
  {
    var a, b := NatToString(first), NatToString(last);
    var r := "Analyzing PDF pages " + a + " to " + b + "...";
    assert forall i :: 0 <= i < |r| ==> r[i] != '_' by {
      assert '_' !in a && '_' !in b by {
        assert forall i :: 0 <= i < |a| ==> a[i] != '_';
        assert forall i :: 0 <= i < |b| ==> b[i] != '_';
      }
      assert forall i :: 0 <= i < |r| ==> r[i] in r;
    }
    r
  }

  /** The status message announcing range k. */
  function RangeStatus(k: nat, total: nat): string {
    PagesStatus(3 * k + 1, RangeEnd(k, total))
  }

  /** The messages of the first k ranges: each range's status, then its progress. */
  function RangeSteps(total: nat, k: nat): (ms: seq<Msg>)
    ensures |ms| == 2 * k
  {
    if k == 0 then []
    else RangeSteps(total, k - 1) + [Status(RangeStatus(k - 1, total)), Progress(RangeEnd(k - 1, total), total)]
  }

  /** The chunk of each range, in order. */
  function RangeChunks(pages: seq<Option<string>>): (cs: seq<string>)
    ensures |cs| == NumRanges(|pages|)
  {
    seq(NumRanges(|pages|), k requires 0 <= k < NumRanges(|pages|) => Chunk(pages, 3 * k, DEFAULT_CHUNK_SIZE))
  }

  /** The summary of each chunk, each from a model call without a streamer. */
  function Summaries(gen: Generator, chunks: seq<string>): (ss: seq<string>)
    ensures |ss| == |chunks|
  {
    seq(|chunks|, k requires 0 <= k < |chunks| => GetSummary(gen, chunks[k], None, None))
  }

  /** The chunks one after the other, each followed by a space. */
  function SpaceJoined(chunks: seq<string>): string {
    if chunks == [] then "" else SpaceJoined(chunks[..|chunks| - 1]) + chunks[|chunks| - 1] + " "
  }

  /** `"\n".join(ss)`. */
  function JoinLines(ss: seq<string>): string {
    if |ss| == 0 then "" else if |ss| == 1 then ss[0] else ss[0] + "\n" + JoinLines(ss[1..])
  }

  // ---------------------------------------------------------------------------
  // What a run emits

  /** The prompt of the one streamed model call of a run. */
  function StreamPrompt(req: Request, gen: Generator): string {
    match req.mode
    case PdfDocument =>
      if req.depth == DeepScan
      then BuildPrompt(JoinLines(Summaries(gen, RangeChunks(req.pages))), Some(SYNTHESIS_INSTRUCTION))
      else BuildPrompt(Chunk(req.pages, 0, DEFAULT_CHUNK_SIZE), None)
    case PasteText => BuildPrompt(req.pasted, None)
    case ImageScreenshot => BuildPrompt(req.ocrText, None)
  }

  function StreamTokens(req: Request, gen: Generator): seq<string> {
    gen(StreamPrompt(req, gen))
  }

  /** The messages before the clear-UI signal. */
  function Lead(req: Request): seq<Msg> {
    match req.mode
    case PdfDocument =>
      if req.depth == DeepScan then RangeSteps(|req.pages|, NumRanges(|req.pages|)) else [Status(QUICK_STATUS)]
    case PasteText => [Status(PASTE_STATUS)]
    case ImageScreenshot => [Status(IMAGE_STATUS)]
  }

  function Contents(tokens: seq<string>): (ms: seq<Msg>)
    ensures |ms| == |tokens|
  {
    seq(|tokens|, i requires 0 <= i < |tokens| => Content(tokens[i]))
  }

  /** Everything a run that raises nothing emits, the streamed call yielding
      `tokens`. */
  function SuccessTrace(req: Request, tokens: seq<string>): seq<Msg> {
    Lead(req) + [ClearUi] + Contents(tokens) + [Complete]
  }

  /** How many external calls a run makes: opening the PDF, then per range an
      extraction and a model call, then the synthesis (deep); opening, one
      extraction and one model call (quick); a single model call otherwise. */
  function OpCount(req: Request): nat {
    match req.mode
    case PdfDocument => if req.depth == DeepScan then 2 * NumRanges(|req.pages|) + 2 else 3
    case _ => 1
  }

  predicate Fails(req: Request, failure: Option<Failure>) {
    failure.Some? && failure.value.op < OpCount(req)
  }

  /** How many messages a run emits before the failing call raises. Opening
      the PDF comes first; calls 2k + 1 and 2k + 2 (extraction and summary of
      range k, or of the quick chunk for k = 0) follow that range's status; the
      last call is the streamed one. */
  function Cut(req: Request, tokens: seq<string>, f: Failure): nat
    requires f.op < OpCount(req)
  {
    if f.op == OpCount(req) - 1 then |Lead(req)| + 1 + Min(f.after, |tokens|)
    else if f.op == 0 then 0
    else 2 * ((f.op - 1) / 2) + 1
  }

  /** Everything a run emits: the successful run's messages, or the part of
      them sent before the failing call, then the error and the completion. */
  function Trace(req: Request, tokens: seq<string>, failure: Option<Failure>): (t: seq<Msg>)
    ensures |t| > 0 && t[|t| - 1] == Complete
    ensures Fails(req, failure) ==> |t| > 1 && t[|t| - 2] == Error(failure.value.message)
  {
    var full := SuccessTrace(req, tokens);
    if Fails(req, failure) then
      var n := Cut(req, tokens, failure.value);
      (if n <= |full| then full[..n] else full) + [Error(failure.value.message), Complete]
    else full
  }

  /** The text the run stores for question answering when it succeeds. */
  function Collected(req: Request): string {
    match req.mode
    case PdfDocument =>
      if req.depth == DeepScan then SpaceJoined(RangeChunks(req.pages))
      else Chunk(req.pages, 0, DEFAULT_CHUNK_SIZE)
    case PasteText => req.pasted
    case ImageScreenshot => req.ocrText
  }

  // ---------------------------------------------------------------------------
  // The worker

  function Raises(failure: Option<Failure>, op: nat): bool {
    failure.Some? && failure.value.op == op
  }

  /** The callback the worker streams with: it queues the token (done by the
      caller of the model) and never asks to stop. */
  function QueueCallback(token: string): bool {
    false
  }

  /** `engine.get_summary(text, q_cb, customPrompt)`: each token the model
      streams is put on the queue as it arrives; when this is the failing call,
      it raises after its first `after` tokens. */
  method StreamSummary(queue0: seq<string>, gen: Generator, text: string, customPrompt: Option<string>,
                       failure: Option<Failure>, op: nat)
    returns (queue: seq<string>, raised: Option<string>)
    ensures var tokens := gen(BuildPrompt(text, customPrompt));
      if Raises(failure, op)
      then raised == Some(failure.value.message)
           && queue == queue0 + WireAll(Contents(tokens[..Min(failure.value.after, |tokens|)]))
      else raised == None && queue == queue0 + WireAll(Contents(tokens))
  {
    var generated := gen(BuildPrompt(text, customPrompt));
    var tokens := Streamed(generated, Some(QueueCallback));
    ContinueCallbackNeverStops(generated, QueueCallback);
    var limit := if Raises(failure, op) then Min(failure.value.after, |tokens|) else |tokens|;
    queue := queue0;
    var j := 0;
    while j < limit
      invariant j <= limit
      invariant queue == queue0 + WireAll(Contents(tokens[..j]))
    {
      ContentsStep(tokens, j);
      queue := queue + [Wire(Content(tokens[j]))];
      j := j + 1;
    }
    assert tokens[..|tokens|] == tokens;
    raised := if Raises(failure, op) then Some(failure.value.message) else None;
  }

  /** One more streamed token puts one more content message on the queue. */
  lemma ContentsStep(tokens: seq<string>, j: nat)
    requires j < |tokens|
    ensures WireAll(Contents(tokens[..j + 1])) == WireAll(Contents(tokens[..j])) + [Wire(Content(tokens[j]))]
  {
    assert Contents(tokens[..j + 1]) == Contents(tokens[..j]) + [Content(tokens[j])];
    WireAllSnoc(Contents(tokens[..j]), Content(tokens[j]));
  }

  lemma PrefixStep<T>(s: seq<T>, j: nat)
    requires j < |s|
    ensures s[..j + 1] == s[..j] + [s[j]]
  {
  }

  /** The first k ranges' messages are a prefix of the first m ranges'. */
  lemma {:induction false} RangeStepsPrefix(total: nat, k: nat, m: nat)
    requires k <= m
    ensures RangeSteps(total, m)[..2 * k] == RangeSteps(total, k)
    decreases m
  {
    if k < m {
      RangeStepsPrefix(total, k, m - 1);
      assert RangeSteps(total, m)[..2 * (m - 1)] == RangeSteps(total, m - 1);
    }
  }

  /** The messages of range k sit at positions 2k and 2k + 1. */
  lemma RangeStepsAt(total: nat, k: nat, m: nat)
    requires k < m
    ensures RangeSteps(total, m)[2 * k] == Status(RangeStatus(k, total))
    ensures RangeSteps(total, m)[2 * k + 1] == Progress(RangeEnd(k, total), total)
  {
    RangeStepsPrefix(total, k + 1, m);
    assert RangeSteps(total, m)[2 * k] == RangeSteps(total, m)[..2 * (k + 1)][2 * k];
    assert RangeSteps(total, m)[2 * k + 1] == RangeSteps(total, m)[..2 * (k + 1)][2 * k + 1];
  }

  /** The messages of a deep scan that fails in range k: the first k ranges'
      and the status of range k. */
  lemma DeepCut(req: Request, tokens: seq<string>, f: Failure, k: nat, sent: seq<Msg>, queue: seq<string>)
    requires IsDeepPdf(req)
    requires k < NumRanges(|req.pages|)
    requires f.op == 2 * k + 1 || f.op == 2 * k + 2
    requires sent == RangeSteps(|req.pages|, k)
    requires queue == WireAll(sent + [Status(RangeStatus(k, |req.pages|))])
    ensures Fails(req, Some(f))
    ensures Cut(req, tokens, f) <= |SuccessTrace(req, tokens)|
    ensures queue == WireAll(SuccessTrace(req, tokens)[..Cut(req, tokens, f)])
  {
    DeepCutAt(req, tokens, f, k);
    SuccessPrefix(req, tokens, 2 * k + 1);
    RangeStepsUpTo(|req.pages|, k, NumRanges(|req.pages|));
  }

  /** Where a failure in range k's extraction or summary cuts the run: right
      after that range's status. */
  lemma DeepCutAt(req: Request, tokens: seq<string>, f: Failure, k: nat)
    requires IsDeepPdf(req)
    requires k < NumRanges(|req.pages|)
    requires f.op == 2 * k + 1 || f.op == 2 * k + 2
    ensures Fails(req, Some(f)) && f.op < OpCount(req) - 1
    ensures Cut(req, tokens, f) == 2 * k + 1 <= |Lead(req)|
    ensures Lead(req) == RangeSteps(|req.pages|, NumRanges(|req.pages|))
  {
    assert OpCount(req) == 2 * NumRanges(|req.pages|) + 2;
    assert (f.op - 1) / 2 == k;
  }

  /** Up to the end of the lead, a successful run's messages are the lead's. */
  lemma SuccessPrefix(req: Request, tokens: seq<string>, n: nat)
    requires n <= |Lead(req)|
    ensures n <= |SuccessTrace(req, tokens)| && SuccessTrace(req, tokens)[..n] == Lead(req)[..n]
  {
    assert SuccessTrace(req, tokens) == Lead(req) + ([ClearUi] + Contents(tokens) + [Complete]);
  }

  /** The lead of a deep scan up to range k's status: the first k ranges'
      messages, then that status. */
  lemma RangeStepsUpTo(total: nat, k: nat, m: nat)
    requires k < m
    ensures RangeSteps(total, m)[..2 * k + 1] == RangeSteps(total, k) + [Status(RangeStatus(k, total))]
  {
    RangeStepsPrefix(total, k, m);
    RangeStepsAt(total, k, m);
    PrefixStep(RangeSteps(total, m), 2 * k);
  }

  /** The messages of a run that has sent its lead and clear-UI signal and
      then made the streamed model call, the last call of the run. */
  lemma StreamedTail(req: Request, tokens: seq<string>, failure: Option<Failure>, text: string,
                     queue0: seq<string>, queue: seq<string>, collected: string, raised: Option<string>)
    requires collected == text
    requires failure.Some? ==> failure.value.op >= OpCount(req) - 1
    requires queue0 == WireAll(Lead(req) + [ClearUi])
    requires if Raises(failure, OpCount(req) - 1)
      then raised == Some(failure.value.message)
           && queue == queue0 + WireAll(Contents(tokens[..Min(failure.value.after, |tokens|)]))
      else raised == None && queue == queue0 + WireAll(Contents(tokens))
    ensures ScanOutcome(req, failure, tokens, text, queue, collected, raised)
  {
    var before := Lead(req) + [ClearUi];
    if raised.Some? {
      var a := Min(failure.value.after, |tokens|);
      assert Cut(req, tokens, failure.value) == |before| + a;
      assert SuccessTrace(req, tokens)[..|before| + a] == before + Contents(tokens[..a]) by {
        assert Contents(tokens)[..a] == Contents(tokens[..a]);
        assert SuccessTrace(req, tokens) == (before + Contents(tokens)) + [Complete];
      }
      WireAllAppend(before, Contents(tokens[..a]));
    } else {
      WireAllAppend(before, Contents(tokens));
    }
  }

  /** A range that starts inside the document is one of the ranges. */
  lemma RangeInside(k: nat, total: nat)
    requires 3 * k < total
    ensures k < NumRanges(total)
  {
  }

  /** The range loop stops after the last range. */
  lemma RangesDone(k: nat, total: nat)
    requires total <= 3 * k < total + 3
    ensures k == NumRanges(total)
  {
  }

  lemma RangeStepsNext(total: nat, k: nat)
    ensures RangeSteps(total, k + 1) == RangeSteps(total, k) + [Status(RangeStatus(k, total)), Progress(RangeEnd(k, total), total)]
  {
  }

  lemma SummariesSnoc(gen: Generator, chunks: seq<string>, chunk: string)
    ensures Summaries(gen, chunks + [chunk]) == Summaries(gen, chunks) + [GetSummary(gen, chunk, None, None)]
  {
  }

  lemma SpaceJoinedSnoc(chunks: seq<string>, chunk: string)
    ensures SpaceJoined(chunks + [chunk]) == SpaceJoined(chunks) + chunk + " "
  {
    assert (chunks + [chunk])[..|chunks|] == chunks;
  }

  /** The chunks of the first k ranges. */
  predicate ChunksSoFar(pages: seq<Option<string>>, k: nat, chunks: seq<string>) {
    |chunks| == k && forall j :: 0 <= j < k ==> chunks[j] == Chunk(pages, 3 * j, DEFAULT_CHUNK_SIZE)
  }

  lemma ChunksNext(pages: seq<Option<string>>, k: nat, chunks: seq<string>, chunk: string)
    requires ChunksSoFar(pages, k, chunks)
    requires chunk == Chunk(pages, 3 * k, DEFAULT_CHUNK_SIZE)
    ensures ChunksSoFar(pages, k + 1, chunks + [chunk])
  {
  }

  lemma ChunksAll(pages: seq<Option<string>>, k: nat, chunks: seq<string>)
    requires ChunksSoFar(pages, k, chunks) && k == NumRanges(|pages|)
    ensures chunks == RangeChunks(pages)
  {
  }

  /** The range loop of a deep scan: per range, announce it, extract its
      chunk, summarise it without streaming, and report progress. `tokens`
      stands for what the later streamed call yields; the messages sent so far
      do not depend on it. */
  method ScanRanges(req: Request, gen: Generator, failure: Option<Failure>, ghost tokens: seq<string>)
    returns (queue: seq<string>, collected: string, allSummaries: seq<string>, raised: Option<string>)
    requires IsDeepPdf(req)
    requires !Raises(failure, 0)
    ensures raised.Some? ==>
              Fails(req, failure)
              && raised == Some(failure.value.message)
              && Cut(req, tokens, failure.value) <= |SuccessTrace(req, tokens)|
              && queue == WireAll(SuccessTrace(req, tokens)[..Cut(req, tokens, failure.value)])
    ensures raised.None? ==>
              (failure.Some? ==> failure.value.op >= OpCount(req) - 1)
              && queue == WireAll(Lead(req))
              && collected == SpaceJoined(RangeChunks(req.pages))
              && allSummaries == Summaries(gen, RangeChunks(req.pages))
  {
    var total := |req.pages|;
    queue, collected, raised := [], "", None;
    allSummaries := [];
    var i, op := 0, 1;
    ghost var k, sent, chunks := 0, [], [];
    while i < total
      invariant i == 3 * k && op == 2 * k + 1 && i < total + 3
      invariant sent == RangeSteps(total, k) && queue == WireAll(sent)
      invariant ChunksSoFar(req.pages, k, chunks)
      invariant collected == SpaceJoined(chunks)
      invariant allSummaries == Summaries(gen, chunks)
      invariant failure.Some? ==> failure.value.op >= op
    {
      var endP := Min(i + 3, total);
      RangeInside(k, total);
      var status := PagesStatus(i + 1, endP);
      assert status == RangeStatus(k, total);
      queue := queue + [Wire(Status(status))];
      if Raises(failure, op) {
        raised := Some(failure.value.message);
        assert queue == WireAll(sent + [Status(status)]) by { WireAllSnoc(sent, Status(status)); }
        DeepCut(req, tokens, failure.value, k, sent, queue);
        return;
      }
      var chunk := ExtractTextChunk(req.pages, i);
      collected := collected + chunk + " ";
      if Raises(failure, op + 1) {
        raised := Some(failure.value.message);
        assert queue == WireAll(sent + [Status(status)]) by { WireAllSnoc(sent, Status(status)); }
        DeepCut(req, tokens, failure.value, k, sent, queue);
        return;
      }
      var summary := GetSummary(gen, chunk, None, None);
      allSummaries := allSummaries + [summary];
      queue := queue + [Wire(Progress(endP, total))];
      ghost var sent' := sent + [Status(status), Progress(endP, total)];
      assert sent' == RangeSteps(total, k + 1) && queue == WireAll(sent') by {
        WireAllSnoc2(sent, Status(status), Progress(endP, total));
        RangeStepsNext(total, k);
      }
      assert allSummaries == Summaries(gen, chunks + [chunk]) by { SummariesSnoc(gen, chunks, chunk); }
      assert collected == SpaceJoined(chunks + [chunk]) by { SpaceJoinedSnoc(chunks, chunk); }
      assert ChunksSoFar(req.pages, k + 1, chunks + [chunk]) by { ChunksNext(req.pages, k, chunks, chunk); }
      sent, chunks := sent', chunks + [chunk];
      i, op, k := i + 3, op + 2, k + 1;
    }
    RangesDone(k, total);
    ChunksAll(req.pages, k, chunks);
  }

  /** What a scan promises, once its streamed call yields `tokens` and it has
      collected `text` when it succeeds. */
  predicate ScanOutcome(req: Request, failure: Option<Failure>, tokens: seq<string>, text: string,
                        queue: seq<string>, collected: string, raised: Option<string>)
  {
    && (raised.Some? <==> Fails(req, failure))
    && (raised.Some? ==>
          raised == Some(failure.value.message)
          && Cut(req, tokens, failure.value) <= |SuccessTrace(req, tokens)|
          && queue == WireAll(SuccessTrace(req, tokens)[..Cut(req, tokens, failure.value)]))
    && (raised.None? ==> queue == WireAll(Lead(req) + [ClearUi] + Contents(tokens)) && collected == text)
  }

  /** A deep scan: the range loop, then clear the loading display and stream
      the synthesis of all range summaries. */
  method ScanDeep(req: Request, gen: Generator, failure: Option<Failure>)
    returns (queue: seq<string>, collected: string, raised: Option<string>)
    requires IsDeepPdf(req)
    requires !Raises(failure, 0)
    ensures var ranges := NumRanges(|req.pages|);
      var synthesisInput := JoinLines(Summaries(gen, RangeChunks(req.pages)));
      ScanOutcome(req, failure, gen(BuildPrompt(synthesisInput, Some(SYNTHESIS_INSTRUCTION))),
                  SpaceJoined(RangeChunks(req.pages)), queue, collected, raised)
  {
    ghost var tokens := gen(BuildPrompt(JoinLines(Summaries(gen, RangeChunks(req.pages))), Some(SYNTHESIS_INSTRUCTION)));
    var allSummaries;
    queue, collected, allSummaries, raised := ScanRanges(req, gen, failure, tokens);
    if raised.Some? {
      assert ScanOutcome(req, failure, tokens, SpaceJoined(RangeChunks(req.pages)), queue, collected, raised);
      return;
    }
    queue := queue + [Wire(ClearUi)];
    ghost var queue0 := queue;
    assert queue0 == WireAll(Lead(req) + [ClearUi]) by {
      WireAllAppend(Lead(req), [ClearUi]);
    }
    var synthesisInput := JoinLines(allSummaries);
    queue, raised := StreamSummary(queue, gen, synthesisInput, Some(SYNTHESIS_INSTRUCTION), failure, OpCount(req) - 1);
    StreamedTail(req, tokens, failure, SpaceJoined(RangeChunks(req.pages)), queue0, queue, collected, raised);
  }

  /** A quick scan: announce it, extract the first chunk, clear the loading
      display and stream its summary. */
  method ScanQuick(req: Request, gen: Generator, failure: Option<Failure>)
    returns (queue: seq<string>, collected: string, raised: Option<string>)
    requires req.mode == PdfDocument && req.depth == QuickSummary
    requires !Raises(failure, 0)
    ensures var chunk := Chunk(req.pages, 0, DEFAULT_CHUNK_SIZE);
      ScanOutcome(req, failure, gen(BuildPrompt(chunk, None)), chunk, queue, collected, raised)
  {
    ghost var tokens := gen(BuildPrompt(Chunk(req.pages, 0, DEFAULT_CHUNK_SIZE), None));
    queue, collected, raised := [Wire(Status(QUICK_STATUS))], "", None;
    if Raises(failure, 1) {
      raised := Some(failure.value.message);
      assert SuccessTrace(req, tokens)[..1] == [Status(QUICK_STATUS)];
      return;
    }
    var chunk := ExtractTextChunk(req.pages, 0);
    collected := chunk;
    queue := queue + [Wire(ClearUi)];
    ghost var queue0 := queue;
    assert Lead(req) + [ClearUi] == [Status(QUICK_STATUS), ClearUi];
    WireAllPair(Status(QUICK_STATUS), ClearUi);
    assert OpCount(req) - 1 == 2;
    assert tokens == gen(BuildPrompt(chunk, None));
    queue, raised := StreamSummary(queue, gen, chunk, None, failure, 2);
    StreamedTail(req, tokens, failure, Chunk(req.pages, 0, DEFAULT_CHUNK_SIZE), queue0, queue, collected, raised);
  }

  /** The text a pasted-text or image run summarises and stores. */
  function InputText(req: Request): string {
    if req.mode == PasteText then req.pasted else req.ocrText
  }

  /** Pasted text or OCR text: announce it, clear the loading display and
      stream the summary of the whole text. */
  method ScanText(req: Request, gen: Generator, failure: Option<Failure>)
    returns (queue: seq<string>, collected: string, raised: Option<string>)
    requires req.mode != PdfDocument
    ensures ScanOutcome(req, failure, gen(BuildPrompt(InputText(req), None)), InputText(req), queue, collected, raised)
  {
    ghost var tokens := gen(BuildPrompt(InputText(req), None));
    var status := if req.mode == PasteText then PASTE_STATUS else IMAGE_STATUS;
    collected := if req.mode == PasteText then req.pasted else req.ocrText;
    queue := [Wire(Status(status)), Wire(ClearUi)];
    ghost var queue0 := queue;
    assert Lead(req) + [ClearUi] == [Status(status), ClearUi];
    WireAllPair(Status(status), ClearUi);
    queue, raised := StreamSummary(queue, gen, collected, None, failure, 0);
    StreamedTail(req, tokens, failure, InputText(req), queue0, queue, collected, raised);
  }

  /** After the scan, an error message if it raised, then the completion
      message: the whole run's messages. */
  lemma FinishTrace(req: Request, failure: Option<Failure>, tokens: seq<string>, text: string,
                    queue: seq<string>, collected: string, raised: Option<string>)
    requires ScanOutcome(req, failure, tokens, text, queue, collected, raised)
    ensures WireAll(Trace(req, tokens, failure))
            == (if raised.Some? then queue + [Wire(Error(raised.value))] else queue) + [Wire(Complete)]
  {
    var full := SuccessTrace(req, tokens);
    if raised.Some? {
      var n := Cut(req, tokens, failure.value);
      WireAllAppend(full[..n], [Error(failure.value.message), Complete]);
      WireAllPair(Error(failure.value.message), Complete);
    } else {
      WireAllSnoc(Lead(req) + [ClearUi] + Contents(tokens), Complete);
    }
  }

  /** `analysis_worker`: runs the scan for the mode and depth; an exception puts
      one error message on the queue; the completion message always comes last.
      On success the collected text is stored for question answering. */
  method AnalysisWorker(req: Request, gen: Generator, failure: Option<Failure>)
    returns (queue: seq<string>, stored: Option<string>)
    ensures queue == WireAll(Trace(req, StreamTokens(req, gen), failure))
    ensures stored == if Fails(req, failure) then None else Some(Collected(req))
  {
    ghost var tokens := StreamTokens(req, gen);
    var collected: string;
    var raised: Option<string>;
    if req.mode == PdfDocument {
      if Raises(failure, 0) {
        queue, collected, raised := [], "", Some(failure.value.message);
      } else if req.depth == DeepScan {
        queue, collected, raised := ScanDeep(req, gen, failure);
      } else {
        queue, collected, raised := ScanQuick(req, gen, failure);
      }
    } else {
      queue, collected, raised := ScanText(req, gen, failure);
    }
    assert ScanOutcome(req, failure, tokens, Collected(req), queue, collected, raised);
    ghost var scanned := queue;
    if raised.Some? {
      queue := queue + [Wire(Error(raised.value))];
      stored := None;
    } else {
      stored := Some(collected);
    }
    queue := queue + [Wire(Complete)];
    FinishTrace(req, failure, tokens, Collected(req), scanned, collected, raised);
  }
}
