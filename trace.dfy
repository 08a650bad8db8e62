/** What every run of the analysis worker puts on the queue, whatever its
    mode, depth, model output and failure: the order of the kinds of message,
    the single completion, the single error, the clear-UI signal ahead of all
    content, and the deep scan's progress reports. */
module WorkerTrace {
  import opened Wrappers
  import opened Decimal
  import opened Engine
  import opened Protocol
  import opened Worker

  /** The messages before the clear-UI signal are status and progress
      messages: the range messages in a deep scan, one status otherwise. */
  lemma LeadAt(req: Request, i: nat)
    requires i < |Lead(req)|
    ensures Lead(req)[i].Status? || Lead(req)[i].Progress?
    ensures !IsDeepPdf(req) ==> |Lead(req)| == 1 && Lead(req)[i].Status?
    ensures IsDeepPdf(req) ==>
              |Lead(req)| == 2 * NumRanges(|req.pages|)
              && (i % 2 == 0 ==> Lead(req)[i] == Status(RangeStatus(i / 2, |req.pages|)))
              && (i % 2 == 1 ==> Lead(req)[i] == Progress(RangeEnd(i / 2, |req.pages|), |req.pages|))
  {
    if IsDeepPdf(req) {
      var total := |req.pages|;
      RangeStepsAt(total, i / 2, NumRanges(total));
      assert i == 2 * (i / 2) || i == 2 * (i / 2) + 1;
    }
  }

  /** A successful run's messages, position by position: the lead, the
      clear-UI signal, one content message per token in order, the completion. */
  lemma SuccessAt(req: Request, tokens: seq<string>, i: nat)
    requires i < |SuccessTrace(req, tokens)|
    ensures var full, n := SuccessTrace(req, tokens), |Lead(req)|;
      && |full| == n + |tokens| + 2
      && (i < n ==> full[i] == Lead(req)[i])
      && (i == n ==> full[i] == ClearUi)
      && (n < i < |full| - 1 ==> full[i] == Content(tokens[i - n - 1]))
      && (i == |full| - 1 ==> full[i] == Complete)
  {
    var n := |Lead(req)|;
    var full := SuccessTrace(req, tokens);
    assert full == Lead(req) + ([ClearUi] + (Contents(tokens) + [Complete]));
    if n < i < |full| - 1 {
      assert full[i] == Contents(tokens)[i - n - 1];
    }
  }

  /** The failing call comes before the completion message: the part of the
      successful run sent before it ends ahead of that message, and it ends
      within the lead unless the failing call is the streamed one. */
  lemma CutInside(req: Request, tokens: seq<string>, f: Failure)
    requires f.op < OpCount(req)
    ensures Cut(req, tokens, f) < |SuccessTrace(req, tokens)|
    ensures f.op < OpCount(req) - 1 ==> Cut(req, tokens, f) <= |Lead(req)|
  {
    assert |SuccessTrace(req, tokens)| == |Lead(req)| + |tokens| + 2;
    if f.op < OpCount(req) - 1 && f.op > 0 {
      if IsDeepPdf(req) {
        assert (f.op - 1) / 2 < NumRanges(|req.pages|);
      }
    }
  }

  /** A run's messages: the successful run's, or the part of them sent before
      the failing call followed by the error and the completion. */
  lemma TraceShape(req: Request, tokens: seq<string>, failure: Option<Failure>)
    ensures var t, full := Trace(req, tokens, failure), SuccessTrace(req, tokens);
      if Fails(req, failure) then
        Cut(req, tokens, failure.value) < |full|
        && t == full[..Cut(req, tokens, failure.value)] + [Error(failure.value.message), Complete]
      else t == full
  {
    if Fails(req, failure) {
      CutInside(req, tokens, failure.value);
    }
  }

  /** Position by position, a run's messages: those of the successful run up
      to the cut, then the error, then the completion. */
  lemma TraceAt(req: Request, tokens: seq<string>, failure: Option<Failure>, i: nat)
    requires i < |Trace(req, tokens, failure)|
    ensures var t, full := Trace(req, tokens, failure), SuccessTrace(req, tokens);
      var stop := if Fails(req, failure) then Cut(req, tokens, failure.value) else |full| - 1;
      && stop < |full| && |t| == stop + (if Fails(req, failure) then 2 else 1)
      && (i < stop ==> t[i] == full[i])
      && (Fails(req, failure) && i == stop ==> t[i] == Error(failure.value.message))
      && (i == |t| - 1 ==> t[i] == Complete)
  {
    TraceShape(req, tokens, failure);
  }

  /** The completion message is sent exactly once, as the last message,
      whether the run succeeds or fails. */
  lemma CompleteOnceLast(req: Request, tokens: seq<string>, failure: Option<Failure>)
    ensures var t := Trace(req, tokens, failure);
      |t| > 0 && t[|t| - 1] == Complete
      && forall i :: 0 <= i < |t| - 1 ==> t[i] != Complete
  {
    var t := Trace(req, tokens, failure);
    TraceAt(req, tokens, failure, 0);
    forall i | 0 <= i < |t| - 1 ensures t[i] != Complete {
      TraceAt(req, tokens, failure, i);
      NotCompleteBefore(req, tokens, failure, i);
    }
  }

  lemma NotCompleteBefore(req: Request, tokens: seq<string>, failure: Option<Failure>, i: nat)
    requires i < |Trace(req, tokens, failure)| - 1
    ensures Trace(req, tokens, failure)[i] != Complete
  {
    TraceAt(req, tokens, failure, i);
    var full := SuccessTrace(req, tokens);
    var stop := if Fails(req, failure) then Cut(req, tokens, failure.value) else |full| - 1;
    if i < stop {
      SuccessAt(req, tokens, i);
      if i < |Lead(req)| {
        LeadAt(req, i);
      }
    }
  }

  /** An error message is sent exactly when the run fails, then only once, as
      the last message but one, carrying the exception's text. */
  lemma ErrorIffFails(req: Request, tokens: seq<string>, failure: Option<Failure>)
    ensures var t := Trace(req, tokens, failure);
      && (forall i :: 0 <= i < |t| ==> (t[i].Error? <==> Fails(req, failure) && i == |t| - 2))
      && (Fails(req, failure) ==> |t| >= 2 && t[|t| - 2] == Error(failure.value.message))
  {
    var t := Trace(req, tokens, failure);
    TraceAt(req, tokens, failure, 0);
    forall i | 0 <= i < |t| ensures t[i].Error? <==> Fails(req, failure) && i == |t| - 2 {
      TraceAt(req, tokens, failure, i);
      var full := SuccessTrace(req, tokens);
      var stop := if Fails(req, failure) then Cut(req, tokens, failure.value) else |full| - 1;
      if i < stop {
        SuccessAt(req, tokens, i);
        if i < |Lead(req)| {
          LeadAt(req, i);
        }
      }
    }
    if Fails(req, failure) {
      TraceAt(req, tokens, failure, |t| - 2);
    }
  }

  /** The clear-UI signal is sent at most once, right after the lead, and
      every content message comes after it, carrying the tokens in order. */
  lemma ClearUiBeforeContent(req: Request, tokens: seq<string>, failure: Option<Failure>)
    ensures var t, n := Trace(req, tokens, failure), |Lead(req)|;
      && (forall i :: 0 <= i < |t| && t[i] == ClearUi ==> i == n)
      && (forall j :: 0 <= j < |t| && t[j].Content? ==>
            n < j && t[n] == ClearUi && j - n - 1 < |tokens| && t[j] == Content(tokens[j - n - 1]))
  {
    var t, n := Trace(req, tokens, failure), |Lead(req)|;
    forall i | 0 <= i < |t|
      ensures t[i] == ClearUi ==> i == n
      ensures t[i].Content? ==> n < i && t[n] == ClearUi && i - n - 1 < |tokens| && t[i] == Content(tokens[i - n - 1])
    {
      TraceAt(req, tokens, failure, i);
      var full := SuccessTrace(req, tokens);
      var stop := if Fails(req, failure) then Cut(req, tokens, failure.value) else |full| - 1;
      if i < stop {
        SuccessAt(req, tokens, i);
        if i < n {
          LeadAt(req, i);
        } else if n < i {
          TraceAt(req, tokens, failure, n);
          SuccessAt(req, tokens, n);
        }
      }
    }
  }

  /** Only a deep scan reports progress. */
  lemma NoProgressUnlessDeep(req: Request, tokens: seq<string>, failure: Option<Failure>)
    requires !IsDeepPdf(req)
    ensures var t := Trace(req, tokens, failure);
      forall i :: 0 <= i < |t| ==> !t[i].Progress?
  {
    var t := Trace(req, tokens, failure);
    forall i | 0 <= i < |t| ensures !t[i].Progress? {
      TraceAt(req, tokens, failure, i);
      var full := SuccessTrace(req, tokens);
      var stop := if Fails(req, failure) then Cut(req, tokens, failure.value) else |full| - 1;
      if i < stop {
        SuccessAt(req, tokens, i);
        if i < |Lead(req)| {
          LeadAt(req, i);
        }
      }
    }
  }

  /** A quick scan announces itself and extracts only the chunk of the first
      pages, which it summarises with the default instruction. */
  lemma QuickScanShape(req: Request, gen: Generator)
    requires req.mode == PdfDocument && req.depth == QuickSummary
    ensures Lead(req) == [Status(QUICK_STATUS)]
    ensures StreamPrompt(req, gen) == BuildPrompt(Chunk(req.pages, 0, DEFAULT_CHUNK_SIZE), None)
    ensures Collected(req) == Chunk(req.pages, 0, DEFAULT_CHUNK_SIZE)
    ensures OpCount(req) == 3
  {
  }

  /** Range k's progress value, done / total, is Python's
      `min((i + 3) / total, 1.0)` for the range's first page i = 3k, taken as
      an exact fraction. */
  lemma ProgressFraction(k: nat, total: nat)
    requires 0 < total
    ensures RangeEnd(k, total) as real / total as real
            == if (3 * k + 3) as real / total as real <= 1.0 then (3 * k + 3) as real / total as real else 1.0
  {
    var t := total as real;
    if 3 * k + 3 <= total {
      assert RangeEnd(k, total) == 3 * k + 3;
      assert (3 * k + 3) as real <= t;
      assert (3 * k + 3) as real / t <= t / t;
    } else {
      assert RangeEnd(k, total) == total;
      assert (3 * k + 3) as real > t;
      assert (3 * k + 3) as real / t > t / t;
    }
  }

  /** In a deep scan each progress message follows the status of its range,
      reports the range's end page over the page count, lies in (0, 1], and
      never falls; a scan that gets through all its ranges reports 1 last,
      whether or not the synthesis call after them raises. */
  lemma DeepProgress(req: Request, tokens: seq<string>, failure: Option<Failure>)
    requires IsDeepPdf(req)
    ensures var t, total := Trace(req, tokens, failure), |req.pages|;
      && (forall i :: 0 <= i < |t| && t[i].Progress? ==>
            && i % 2 == 1 && t[i - 1] == Status(RangeStatus(i / 2, total))
            && t[i] == Progress(RangeEnd(i / 2, total), total)
            && 0 < t[i].done <= t[i].total == total)
      && (forall i, j :: 0 <= i < j < |t| && t[i].Progress? && t[j].Progress? ==> t[i].done <= t[j].done)
      && ((!Fails(req, failure) || failure.value.op == OpCount(req) - 1) && total > 0 ==>
            t[|Lead(req)| - 1] == Progress(total, total))
  {
    var t, total := Trace(req, tokens, failure), |req.pages|;
    forall i | 0 <= i < |t| && t[i].Progress?
      ensures i % 2 == 1 && t[i - 1] == Status(RangeStatus(i / 2, total))
      ensures t[i] == Progress(RangeEnd(i / 2, total), total)
      ensures 0 < t[i].done <= t[i].total == total
    {
      ProgressAt(req, tokens, failure, i);
    }
    forall i, j | 0 <= i < j < |t| && t[i].Progress? && t[j].Progress?
      ensures t[i].done <= t[j].done
    {
      ProgressAt(req, tokens, failure, i);
      ProgressAt(req, tokens, failure, j);
    }
    if (!Fails(req, failure) || failure.value.op == OpCount(req) - 1) && total > 0 {
      RangesReported(req, tokens, failure);
    }
  }

  /** A deep scan that gets past its last range, including one whose
      synthesis call then raises, has reported the whole document. */
  lemma RangesReported(req: Request, tokens: seq<string>, failure: Option<Failure>)
    requires IsDeepPdf(req) && |req.pages| > 0
    requires !Fails(req, failure) || failure.value.op == OpCount(req) - 1
    ensures |Lead(req)| - 1 < |Trace(req, tokens, failure)|
    ensures Trace(req, tokens, failure)[|Lead(req)| - 1] == Progress(|req.pages|, |req.pages|)
  {
    var n := |Lead(req)|;
    LeadAt(req, n - 1);
    TraceAt(req, tokens, failure, n - 1);
    SuccessAt(req, tokens, n - 1);
    assert (n - 1) / 2 == NumRanges(|req.pages|) - 1;
  }

  /** A progress message of a deep scan, with the status just before it. */
  lemma ProgressAt(req: Request, tokens: seq<string>, failure: Option<Failure>, i: nat)
    requires IsDeepPdf(req)
    requires i < |Trace(req, tokens, failure)| && Trace(req, tokens, failure)[i].Progress?
    ensures var t, total := Trace(req, tokens, failure), |req.pages|;
      && i % 2 == 1 && i / 2 < NumRanges(total)
      && t[i - 1] == Status(RangeStatus(i / 2, total))
      && t[i] == Progress(RangeEnd(i / 2, total), total)
      && 3 * (i / 2) < RangeEnd(i / 2, total) <= total
  {
    var t, total := Trace(req, tokens, failure), |req.pages|;
    var full := SuccessTrace(req, tokens);
    TraceAt(req, tokens, failure, i);
    var stop := if Fails(req, failure) then Cut(req, tokens, failure.value) else |full| - 1;
    if i < stop {
      SuccessAt(req, tokens, i);
      if i < |Lead(req)| {
        LeadAt(req, i);
        if i % 2 == 1 {
          TraceAt(req, tokens, failure, i - 1);
          SuccessAt(req, tokens, i - 1);
          LeadAt(req, i - 1);
          assert (i - 1) / 2 == i / 2;
        }
      }
    }
  }

  /** When no token the model yields looks like a tag, every message of the
      run is one the relay reads back as the kind it was sent as. */
  lemma TraceReadable(req: Request, tokens: seq<string>, failure: Option<Failure>)
    requires forall j :: 0 <= j < |tokens| ==> IsPlainContent(tokens[j])
    ensures var t := Trace(req, tokens, failure);
      forall i :: 0 <= i < |t| ==> Readable(t[i])
  {
    var t := Trace(req, tokens, failure);
    forall i | 0 <= i < |t| ensures Readable(t[i]) {
      ReadableAt(req, tokens, failure, i);
    }
  }

  lemma ReadableAt(req: Request, tokens: seq<string>, failure: Option<Failure>, i: nat)
    requires forall j :: 0 <= j < |tokens| ==> IsPlainContent(tokens[j])
    requires i < |Trace(req, tokens, failure)|
    ensures Readable(Trace(req, tokens, failure)[i])
  {
    TraceAt(req, tokens, failure, i);
    var full := SuccessTrace(req, tokens);
    var stop := if Fails(req, failure) then Cut(req, tokens, failure.value) else |full| - 1;
    if i < stop {
      SuccessAt(req, tokens, i);
      if i < |Lead(req)| {
        LeadAt(req, i);
        if IsDeepPdf(req) {
          if i % 2 == 0 {
            assert Lead(req)[i].text == PagesStatus(3 * (i / 2) + 1, RangeEnd(i / 2, |req.pages|));
          }
        } else {
          FixedStatusPlain(req);
        }
      }
    }
  }

  /** The fixed status texts hold no '_'. */
  lemma FixedStatusPlain(req: Request)
    requires !IsDeepPdf(req)
    ensures Lead(req)[0].Status? && '_' !in Lead(req)[0].text
  {
    var s := Lead(req)[0].text;
    assert forall i :: 0 <= i < |s| ==> s[i] != '_';
  }
}
