/** The worker and the relay together: what the relay makes of the messages a
    run of the worker sends, when the model's tokens match no tag. */
module Pipeline {
  import opened Wrappers
  import opened Engine
  import opened Protocol
  import opened Worker
  import opened WorkerTrace
  import opened Relay

  /** A message of the kind sent before the clear-UI signal, as the worker
      sends it: a status without '_' or a progress value in (0, 1]. */
  predicate LeadMsg(m: Msg) {
    || (m.Status? && '_' !in m.text)
    || (m.Progress? && 0 < m.done <= m.total)
  }

  /** The tokens a run streams to the queue: all of them when it succeeds,
      those handed over before the exception when the streamed call raises,
      none when an earlier call raises. */
  function Delivered(req: Request, tokens: seq<string>, failure: Option<Failure>): seq<string> {
    if !Fails(req, failure) then tokens
    else if failure.value.op == OpCount(req) - 1 then tokens[..Min(failure.value.after, |tokens|)]
    else []
  }

  /** Whether a run reaches its streamed call, and so sends the clear-UI signal. */
  predicate Reached(req: Request, failure: Option<Failure>) {
    !Fails(req, failure) || failure.value.op == OpCount(req) - 1
  }

  /** The status and progress messages a run sends. */
  function LeadSent(req: Request, tokens: seq<string>, failure: Option<Failure>): (lead: seq<Msg>)
    ensures lead <= Lead(req)
  {
    if Reached(req, failure) then Lead(req)
    else
      CutInside(req, tokens, failure.value);
      Lead(req)[..Cut(req, tokens, failure.value)]
  }

  /** The error message a run sends, if any. */
  function ErrSent(req: Request, failure: Option<Failure>): Option<string> {
    if Fails(req, failure) then Some(failure.value.message) else None
  }

  /** A run's messages, by part: the lead (or the part of it sent), the
      clear-UI signal if it was sent, the content, the error if any, and the
      completion. */
  function Pieces(lead: seq<Msg>, clear: bool, toks: seq<string>, err: Option<string>): seq<Msg> {
    lead + (Clears(clear) + (Contents(toks) + Ends(err)))
  }

  function Clears(clear: bool): seq<Msg> {
    if clear then [ClearUi] else []
  }

  /** The end of a run's messages: the error if any, then the completion. */
  function Ends(err: Option<string>): seq<Msg> {
    (if err.Some? then [Error(err.value)] else []) + [Complete]
  }

  lemma LeadMsgAt(req: Request, i: nat)
    requires i < |Lead(req)|
    ensures LeadMsg(Lead(req)[i])
  {
    LeadAt(req, i);
    if IsDeepPdf(req) {
      if i % 2 == 0 {
        assert RangeStatus(i / 2, |req.pages|) == PagesStatus(3 * (i / 2) + 1, RangeEnd(i / 2, |req.pages|));
      }
    } else {
      FixedStatusPlain(req);
    }
  }

  lemma AllLeadMsgs(req: Request, lead: seq<Msg>)
    requires lead <= Lead(req)
    ensures forall i :: 0 <= i < |lead| ==> LeadMsg(lead[i])
  {
    forall i | 0 <= i < |lead| ensures LeadMsg(lead[i]) {
      LeadMsgAt(req, i);
    }
  }

  /** The progress text of a value in (0, 1] is read back and accepted by the bar. */
  lemma ProgressAccepted(done: nat, total: nat)
    requires 0 < done <= total
    ensures var v := ParseProgress(ProgressPayload(done, total));
      v.Some? && 0.0 <= v.value <= 1.0
  {
    ParseProgressPayload(done, total);
    RatioInUnit(done as real, total as real);
  }

  lemma RatioInUnit(d: real, t: real)
    requires 0.0 <= d <= t && t > 0.0
    ensures 0.0 <= d / t <= 1.0
  {
    assert d / t * t == d;
  }

  /** Status and progress messages move the status line and the bar only. */
  lemma {:induction false} RunLead(s: State, ms: seq<Msg>)
    requires Running(s)
    requires forall i :: 0 <= i < |ms| ==> LeadMsg(ms[i])
    ensures var t := Run(s, WireAll(ms));
      && Running(t) && t.view.res == s.view.res && t.view.errors == s.view.errors
      && t.view.cleared == s.view.cleared && t.processing == s.processing && t.finalSummary == s.finalSummary
    decreases |ms|
  {
    if |ms| > 0 {
      var front, m := ms[..|ms| - 1], ms[|ms| - 1];
      assert ms == front + [m];
      RunLead(s, front);
      WireAllSnoc(front, m);
      RunSnoc(s, WireAll(front), Wire(m));
      ClassifyWire(m);
      if m.Progress? {
        ProgressAccepted(m.done, m.total);
      }
    }
  }

  /** Streamed text is appended token by token. */
  lemma {:induction false} RunContents(s: State, toks: seq<string>)
    requires Running(s)
    requires forall j :: 0 <= j < |toks| ==> IsPlainContent(toks[j])
    ensures Run(s, WireAll(Contents(toks))) == s.(view := s.view.(res := s.view.res + Concat(toks)))
    decreases |toks|
  {
    if |toks| == 0 {
      assert s.view.res + Concat(toks) == s.view.res;
      assert s.view.(res := s.view.res) == s.view;
    } else {
      var front, tok := toks[..|toks| - 1], toks[|toks| - 1];
      var q := WireAll(Contents(front));
      assert WireAll(Contents(toks)) == q + [tok] by {
        assert Contents(toks) == Contents(front) + [Content(tok)];
        WireAllSnoc(Contents(front), Content(tok));
      }
      RunContents(s, front);
      var mid := s.(view := s.view.(res := s.view.res + Concat(front)));
      RunSnoc(s, q, tok);
      ContentAppends(mid, tok);
      assert s.view.res + Concat(front) + tok == s.view.res + Concat(toks);
    }
  }

  /** The clear-UI signal, if sent, hides the loading display and nothing else. */
  lemma RunClears(s: State, clear: bool)
    requires Running(s)
    ensures Run(s, WireAll(Clears(clear))) == s.(view := s.view.(cleared := s.view.cleared || clear))
  {
    if clear {
      ClassifyWire(ClearUi);
      assert WireAll(Clears(clear)) == [CLEAR_UI_TAG];
    } else {
      assert s.view.(cleared := s.view.cleared) == s.view;
    }
  }

  /** The end of a run: the error, if any, is shown, and the completion
      commits the streamed text and ends the loop. */
  lemma RunEnds(s: State, err: Option<string>)
    requires Running(s)
    ensures var t := Run(s, WireAll(Ends(err)));
      && t.done && !t.crashed && !t.processing
      && t.finalSummary == s.view.res && t.view.cleared == s.view.cleared
      && t.view.errors == s.view.errors + (if err.Some? then [RemoveAll(ERROR_TAG + err.value, ERROR_TAG)] else [])
  {
    if err.Some? {
      var m := ERROR_TAG + err.value;
      assert WireAll(Ends(err)) == [m] + [COMPLETE_TAG];
      ErrorDoesNotStop(s, err.value);
      RunSnoc(s, [], m);
      assert [] + [m] == [m];
      RunSnoc(s, [m], COMPLETE_TAG);
      CompleteCommits(Step(s, m));
    } else {
      assert WireAll(Ends(err)) == [COMPLETE_TAG];
      CompleteCommits(s);
    }
  }

  /** What the relay makes of a run's messages, part by part. */
  lemma RunPieces(s: State, lead: seq<Msg>, clear: bool, toks: seq<string>, err: Option<string>)
    requires Running(s)
    requires forall i :: 0 <= i < |lead| ==> LeadMsg(lead[i])
    requires forall j :: 0 <= j < |toks| ==> IsPlainContent(toks[j])
    ensures var t := Run(s, WireAll(Pieces(lead, clear, toks, err)));
      && t.done && !t.crashed && !t.processing
      && t.finalSummary == s.view.res + Concat(toks)
      && t.view.errors == s.view.errors + (if err.Some? then [RemoveAll(ERROR_TAG + err.value, ERROR_TAG)] else [])
      && t.view.cleared == (s.view.cleared || clear)
  {
    var rest2 := Contents(toks) + Ends(err);
    var rest1 := Clears(clear) + rest2;
    WireAllAppend(lead, rest1);
    RunAppend(s, WireAll(lead), WireAll(rest1));
    RunLead(s, lead);
    var s1 := Run(s, WireAll(lead));
    WireAllAppend(Clears(clear), rest2);
    RunAppend(s1, WireAll(Clears(clear)), WireAll(rest2));
    RunClears(s1, clear);
    var s2 := Run(s1, WireAll(Clears(clear)));
    WireAllAppend(Contents(toks), Ends(err));
    RunAppend(s2, WireAll(Contents(toks)), WireAll(Ends(err)));
    RunContents(s2, toks);
    RunEnds(Run(s2, WireAll(Contents(toks))), err);
  }

  /** A run's messages split into their parts: the cut of a failing run falls
      in the lead, or inside the streamed content when the streamed call
      raises. */
  lemma TraceAsPieces(req: Request, tokens: seq<string>, failure: Option<Failure>)
    ensures Trace(req, tokens, failure) ==
      Pieces(LeadSent(req, tokens, failure), Reached(req, failure), Delivered(req, tokens, failure), ErrSent(req, failure))
  {
    var lead := Lead(req);
    var full := SuccessTrace(req, tokens);
    TraceShape(req, tokens, failure);
    if Fails(req, failure) {
      var f := failure.value;
      var n := Cut(req, tokens, f);
      CutInside(req, tokens, f);
      if f.op == OpCount(req) - 1 {
        var a := Min(f.after, |tokens|);
        assert full[..n] == lead + [ClearUi] + Contents(tokens[..a]) by {
          assert Contents(tokens)[..a] == Contents(tokens[..a]);
          assert full == (lead + [ClearUi] + Contents(tokens)) + [Complete];
        }
      } else {
        assert full[..n] == lead[..n];
        assert Contents([]) == [];
      }
    }
  }

  lemma DeliveredPlain(req: Request, tokens: seq<string>, failure: Option<Failure>)
    requires forall j :: 0 <= j < |tokens| ==> IsPlainContent(tokens[j])
    ensures var d := Delivered(req, tokens, failure);
      forall j :: 0 <= j < |d| ==> IsPlainContent(d[j])
  {
    var d := Delivered(req, tokens, failure);
    forall j | 0 <= j < |d| ensures IsPlainContent(d[j]) {
      assert d[j] == tokens[j];
    }
  }

  /** The relay reads a whole run: it stops at the run's completion message
      without an exception, the final summary is the text of the tokens the
      run streamed (all of them when it succeeds, the part sent before the
      exception when the streamed call raises, nothing when an earlier call
      raises), exactly one error is shown when the run fails and none
      otherwise, and the loading display is cleared exactly when the run
      reached its streamed call. */
  lemma RelayReadsRun(req: Request, tokens: seq<string>, failure: Option<Failure>)
    requires forall j :: 0 <= j < |tokens| ==> IsPlainContent(tokens[j])
    ensures var s := Run(Start(true, ""), WireAll(Trace(req, tokens, failure)));
      && s.done && !s.crashed && !s.processing
      && s.finalSummary == Concat(Delivered(req, tokens, failure))
      && (!Fails(req, failure) ==> s.finalSummary == Concat(tokens) && s.view.errors == [])
      && (Fails(req, failure) ==> s.view.errors == [RemoveAll(ERROR_TAG + failure.value.message, ERROR_TAG)])
      && (s.view.cleared <==> Reached(req, failure))
  {
    TraceAsPieces(req, tokens, failure);
    AllLeadMsgs(req, LeadSent(req, tokens, failure));
    DeliveredPlain(req, tokens, failure);
    RunPieces(Start(true, ""), LeadSent(req, tokens, failure), Reached(req, failure),
              Delivered(req, tokens, failure), ErrSent(req, failure));
    assert "" + Concat(Delivered(req, tokens, failure)) == Concat(Delivered(req, tokens, failure));
  }
}
