/** The app's session state and the steps that change it: starting a run,
    relaying the worker's messages, taking a follow-up question and answering
    it from the stored document text. */
module App {
  import opened Wrappers
  import opened Engine
  import opened Protocol
  import opened Worker
  import opened Relay
  import opened Pipeline

  datatype Role = User | Assistant

  /** One chat entry: who wrote it and what. */
  datatype ChatEntry = ChatEntry(role: Role, content: string)

  // ---------------------------------------------------------------------------
  // Question answering

  /** The instruction a follow-up question is asked with. */
  function QuestionPrompt(context: string, question: string): string {
    "Context: " + context + "\n\nQuestion: " + question
  }

  /** The answer to a question: the model is called with an empty text, no
      callback, and the question instruction over the first 3000 characters
      of the stored document text. */
  function Answer(gen: Generator, docText: string, question: string): (r: string)
    ensures r == Concat(gen(BuildPrompt("", Some(QuestionPrompt(Truncate(docText), question)))))
  {
    GetSummary(gen, "", None, Some(QuestionPrompt(Truncate(docText), question)))
  }

  /** A question waits for an answer when the last chat entry is the user's. */
  predicate Pending(history: seq<ChatEntry>) {
    |history| > 0 && history[|history| - 1].role == User
  }

  /** The history after the answering step: one answer to the last question
      when one is pending, otherwise unchanged. */
  function Answered(gen: Generator, docText: string, history: seq<ChatEntry>): (r: seq<ChatEntry>)
    ensures history <= r && !Pending(r)
    ensures |r| == |history| + (if Pending(history) then 1 else 0)
    ensures Pending(history) ==> r[|history|] == ChatEntry(Assistant, Answer(gen, docText, history[|history| - 1].content))
  {
    if Pending(history) then
      history + [ChatEntry(Assistant, Answer(gen, docText, history[|history| - 1].content))]
    else history
  }

  /** Answering twice answers once. */
  lemma AnsweredIdempotent(gen: Generator, docText: string, history: seq<ChatEntry>)
    ensures Answered(gen, docText, Answered(gen, docText, history)) == Answered(gen, docText, history)
  {
  }

  /** A question asked is answered right after it, and nothing before it changes. */
  lemma AskThenAnswer(gen: Generator, docText: string, history: seq<ChatEntry>, question: string)
    ensures Answered(gen, docText, history + [ChatEntry(User, question)])
      == history + [ChatEntry(User, question), ChatEntry(Assistant, Answer(gen, docText, question))]
  {
  }

  /** The prompt of a question: the template around the question instruction,
      whose context is the document text cut to 3000 characters. */
  lemma QuestionPromptShape(docText: string, question: string)
    ensures BuildPrompt("", Some(QuestionPrompt(Truncate(docText), question)))
      == USER_TAG + "Context: " + docText[..Min(|docText|, CHUNK_CAP)] + "\n\nQuestion: " + question + "\n" + END_TAG
  {
    var instr := QuestionPrompt(Truncate(docText), question);
    assert |instr| > 0;
    assert Instruction(Some(instr)) == instr;
  }

  /** Only the first 3000 characters of the document text reach the model. */
  lemma AnswerSeesOnlyContext(gen: Generator, doc1: string, doc2: string, question: string)
    requires doc1[..Min(|doc1|, CHUNK_CAP)] == doc2[..Min(|doc2|, CHUNK_CAP)]
    ensures Answer(gen, doc1, question) == Answer(gen, doc2, question)
  {
  }

  // ---------------------------------------------------------------------------
  // The session

  /** The session state a script run keeps across reruns. */
  class Session {
    var finalSummary: string
    var fullDocumentText: string
    var chatHistory: seq<ChatEntry>
    var isProcessing: bool

    /** A fresh session: every key at its initial value. */
    constructor()
      ensures finalSummary == "" && fullDocumentText == "" && chatHistory == [] && !isProcessing
    {
      finalSummary := "";
      fullDocumentText := "";
      chatHistory := [];
      isProcessing := false;
    }

    /** Pressing the run button: processing, no summary, no chat. */
    method StartRun()
      modifies this
      ensures isProcessing && finalSummary == "" && chatHistory == []
      ensures fullDocumentText == old(fullDocumentText)
    {
      isProcessing := true;
      finalSummary := "";
      chatHistory := [];
    }

    /** The relay loop: takes the messages in order and applies the tag tests
        until the completion message, the end of the queue, or an exception
        from the progress bar. */
    method Relay(queue: seq<string>) returns (view: View, crashed: bool)
      modifies this
      ensures var t := Run(Start(old(isProcessing), old(finalSummary)), queue);
        && view == t.view && crashed == t.crashed
        && isProcessing == t.processing && finalSummary == t.finalSummary
      ensures fullDocumentText == old(fullDocumentText) && chatHistory == old(chatHistory)
    {
      ghost var s0 := Start(isProcessing, finalSummary);
      var processing, summary := isProcessing, finalSummary;
      var res, status, progress, cleared, errors := "", None, 0.0, false, [];
      var done := false;
      crashed := false;
      var i := 0;
      while i < |queue| && !done && !crashed
        invariant i <= |queue|
        invariant unchanged(this)
        invariant Run(s0, queue)
          == Run(State(View(res, status, progress, cleared, errors), processing, summary, done, crashed), queue[i..])
        decreases |queue| - i
      {
        ghost var s := State(View(res, status, progress, cleared, errors), processing, summary, done, crashed);
        var msg := queue[i];
        StepOn(s, msg);
        if StartsWith(msg, STATUS_TAG) {
          status := Some(RemoveAll(msg, STATUS_TAG));
        } else if StartsWith(msg, PROGRESS_TAG) {
          var v := ParseProgress(RemoveAll(msg, PROGRESS_TAG));
          if v.Some? && 0.0 <= v.value <= 1.0 {
            progress := v.value;
          } else {
            crashed := true;
          }
        } else if msg == CLEAR_UI_TAG {
          cleared := true;
        } else if msg == COMPLETE_TAG {
          summary := res;
          processing := false;
          done := true;
        } else if StartsWith(msg, ERROR_TAG) {
          errors := errors + [RemoveAll(msg, ERROR_TAG)];
          processing := false;
        } else {
          res := res + msg;
        }
        RunFrom(s, queue, i);
        i := i + 1;
      }
      view := View(res, status, progress, cleared, errors);
      isProcessing, finalSummary := processing, summary;
    }

    /** A run: the button starts it (it is disabled while processing), the
        worker runs on the chosen input with the stored text as the image's
        text, stores what it read when it succeeds, and the relay reads its
        messages. When the model's tokens match no tag, the relay ends without
        an exception, the processing flag is cleared, and the final summary is
        the text streamed before the run ended. */
    method RunAnalysis(mode: InputMode, depth: Depth, pages: seq<Option<string>>, pasted: string,
                       gen: Generator, failure: Option<Failure>)
      returns (view: View, crashed: bool)
      modifies this
      ensures old(isProcessing) ==>
        && view == Start(false, "").view && !crashed
        && isProcessing && finalSummary == old(finalSummary)
        && fullDocumentText == old(fullDocumentText) && chatHistory == old(chatHistory)
      ensures !old(isProcessing) ==>
        var req := Request(mode, depth, pages, pasted, old(fullDocumentText));
        var t := Run(Start(true, ""), WireAll(Trace(req, StreamTokens(req, gen), failure)));
        && view == t.view && crashed == t.crashed
        && isProcessing == t.processing && finalSummary == t.finalSummary && chatHistory == []
        && fullDocumentText == (if Fails(req, failure) then old(fullDocumentText) else Collected(req))
      ensures !old(isProcessing) ==>
        var req := Request(mode, depth, pages, pasted, old(fullDocumentText));
        var tokens := StreamTokens(req, gen);
        (forall j :: 0 <= j < |tokens| ==> IsPlainContent(tokens[j])) ==>
          && !crashed && !isProcessing
          && finalSummary == Concat(Delivered(req, tokens, failure))
          && (view.errors == [] <==> !Fails(req, failure)) && |view.errors| <= 1
    {
      if isProcessing {
        view, crashed := Start(false, "").view, false;
        return;
      }
      StartRun();
      var req := Request(mode, depth, pages, pasted, fullDocumentText);
      var queue, stored := AnalysisWorker(req, gen, failure);
      if stored.Some? {
        fullDocumentText := stored.value;
      }
      view, crashed := Relay(queue);
      ghost var tokens := StreamTokens(req, gen);
      if forall j :: 0 <= j < |tokens| ==> IsPlainContent(tokens[j]) {
        RelayReadsRun(req, tokens, failure);
      }
    }

    /** A follow-up question: taken only while a summary is shown, no response
        is pending and the question is not empty; it is appended as the user's
        entry and marks the session as processing. */
    method Ask(question: string)
      modifies this
      ensures var taken := |old(finalSummary)| > 0 && !old(isProcessing) && |question| > 0;
        && chatHistory == (if taken then old(chatHistory) + [ChatEntry(User, question)] else old(chatHistory))
        && isProcessing == (taken || old(isProcessing))
      ensures finalSummary == old(finalSummary) && fullDocumentText == old(fullDocumentText)
    {
      if |finalSummary| > 0 && !isProcessing && |question| > 0 {
        isProcessing := true;
        chatHistory := chatHistory + [ChatEntry(User, question)];
      }
    }

    /** The answering step: when the last entry is the user's, the model
        answers it from the stored text, the answer is appended and processing
        ends. When the model call raises (`raises`), the script stops before
        the append: the question stays pending and the session stays
        processing, so the question is asked again on the next rerun. */
    method AnswerPending(gen: Generator, raises: bool)
      modifies this
      ensures chatHistory == (if raises then old(chatHistory) else Answered(gen, old(fullDocumentText), old(chatHistory)))
      ensures isProcessing == (if Pending(old(chatHistory)) && !raises then false else old(isProcessing))
      ensures finalSummary == old(finalSummary) && fullDocumentText == old(fullDocumentText)
    {
      if |chatHistory| > 0 && chatHistory[|chatHistory| - 1].role == User {
        var context := Truncate(fullDocumentText);
        var question := chatHistory[|chatHistory| - 1].content;
        if raises {
          return;
        }
        var ans := GetSummary(gen, "", None, Some(QuestionPrompt(context, question)));
        chatHistory := chatHistory + [ChatEntry(Assistant, ans)];
        isProcessing := false;
      }
    }
  }
}
