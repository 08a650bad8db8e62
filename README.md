# PrivateDocAI-Analyzer: the analysis pipeline, modelled in Dafny

PrivateDocAI-Analyzer is a local document assistant. The user gives it one of
three inputs:

- a PDF;
- pasted text;
- the OCR text of a screenshot.

A background worker thread then summarises the input with a local language
model. It talks to the page through a queue of tagged strings: `__STATUS__…`,
`__PROGRESS__…`, `__CLEAR_UI__`, the model's tokens, `__ERROR__…` and
`__COMPLETE__`. The page script takes those strings off the queue in a relay
loop. The loop updates the status line, the progress bar, the loading display,
the error list and the streamed text. The completion message commits the
streamed text as the session's final summary. Afterwards follow-up questions
are answered from the first 3000 characters of the text the run read.

This project models that core and proves properties of it:

- **Engine** (`engine.dfy`, with `whitespace.dfy`) models the inference
  engine's chunk extractor:
  - it clamps the page range;
  - it replaces each run of non-ASCII characters with one space;
  - it normalises whitespace as Python's `" ".join(s.split())` does;
  - it caps the chunk at 3000 characters.

  The extractor is a method with its loop. It is proved equal to a
  specification function, and the chunk's shape is proved as lemmas. Among
  them: cleaning and normalising lose no text. With separators dropped, the
  normalised text is every ASCII non-separator character of the range's
  pages, in page order. The
  module also models the chat prompt template and the per-token streaming
  callback.
- **Worker** (`worker.dfy`, `trace.dfy`) models `analysis_worker` as a method
  that builds the queue step by step, including the deep scan's range loop. Its
  contract ties the queue to a specification of every message a run emits. A
  run can fail at any of its external calls, and the streamed call can fail
  part way through. `WorkerTrace` proves what every run sends:
  - exactly one completion, and it is last;
  - an error exactly when the run fails, and only once;
  - the clear-UI signal ahead of all content;
  - progress values in (0, 1] that never fall.
- **Protocol** (`protocol.dfy`, `decimal.dfy`) models the tags and the relay's
  tag tests, in the relay's own order. It proves that every message a run
  sends is read back as the kind it was sent as, provided the model's tokens
  match no tag.
- **Relay** (`relay.dfy`) models the relay loop as a state machine (`Step`,
  `Run`).
- **Pipeline** (`pipeline.dfy`) proves what the relay makes of a whole run.
  It stops at the completion message without an exception and clears the
  processing flag. The final summary is exactly the text of the tokens the
  run streamed, and one error is shown exactly when the run fails.
- **App** (`session.dfy`) models the session state as a class:
  - `final_summary`, `full_document_text`, `chat_history` and `is_processing`
    are its fields;
  - the run button, the relay loop, asking a question and answering it are
    methods that update those fields.
- **Report** (`report.dfy`) models the Latin-1 cleaning of the summary before
  the PDF report is written.

The model's tokens share one channel with the tags. `Relay.TokensCanPassForTags`
shows what follows: a token `__COMPLETE__` ends the relay early, and a token
starting with `__STATUS__` is shown as a status instead of being streamed.
Every whole-run property above is therefore stated for runs whose tokens match
no tag.

## Model

| member | source | states |
|---|---|---|
| Engine.ReplaceIsAscii | engine.py:21 | the cleaned page text holds only ASCII characters |
| Engine.ReplaceKeepsAscii | engine.py:21 | an ASCII prefix passes through the cleaner unchanged |
| Engine.ReplaceRun | engine.py:21 | a maximal run of non-ASCII characters, however long, becomes exactly one space |
| Engine.SkipNonAsciiShape | engine.py:21 | the run the pattern `[^\x00-\x7F]+` matches is maximal: everything skipped is non-ASCII and what is left starts with ASCII |
| Engine.ReplaceFixedIff | engine.py:21 | the cleaner leaves a text unchanged if and only if the text is all ASCII |
| Engine.ReplaceNonAscii | engine.py:21 | `re.sub(r'[^\x00-\x7F]+', ' ', content)`: each maximal run of non-ASCII characters becomes one space, so the text never grows |
| Engine.ReplaceKeepsText | engine.py:21 | with separators dropped, the cleaned text is exactly the input's ASCII non-separator characters, in order |
| Engine.ExtractTextChunk | engine.py:12-23 | the page loop returns the chunk of the clamped page range; the chunk is at most 3000 characters, and empty when the start page is at or past the last page |
| Engine.ReadPage | engine.py:18-22 | reading a page appends its cleaned text and a space when the page's text is non-empty, and nothing otherwise |
| Engine.Chunk | engine.py:15-23 | the chunk of the clamped page range, cleaned, normalised and cut, is at most 3000 characters |
| Engine.ChunkPastEnd | engine.py:15-23 | a start page at or past the last page gives the empty chunk |
| Engine.ChunkShape | engine.py:15-23 | a chunk is ASCII and at most 3000 characters; it never starts with a separator and has no two separators in a row; it ends in a space only when the cap cut it; it is the whole normalised text when that fits, and its first 3000 characters otherwise; with separators dropped, the normalised text is every ASCII non-separator character of the range's pages, in page order |
| Engine.GatheredAscii | engine.py:17-22 | the accumulated page text is ASCII |
| Engine.GatheredKept | engine.py:17-22 | with separators dropped, the accumulated text is the pages' ASCII non-separator characters, in page order |
| Engine.EmptyPageSkipped | engine.py:18-22 | a page whose text is None or empty adds nothing to the accumulator |
| Engine.ChunkReadsOnlyRange | engine.py:15-18 | only the pages of the clamped range affect the chunk |
| Engine.BuildPrompt | engine.py:25-29 | the prompt starts with the user tag and the instruction (the default one when the custom prompt is missing or empty), ends with the end and assistant tags, and gives the text back exactly |
| Engine.Streamed | engine.py:31-37 | the model hands the streamer a prefix of its tokens and stops right after the first token on which the streamer asks to stop |
| Engine.NoCallbackNeverStops | engine.py:31-34 | without a caller callback every generated token is kept |
| Engine.ContinueCallbackNeverStops | engine.py:31-33 | a callback that always answers "continue" lets every token through |
| Engine.InternalCallback | engine.py:31-34 | only the caller's callback can stop the model: without one the streamer never asks to stop |
| Engine.GetSummary | engine.py:25-37 | without a callback, the summary is the text of every token the model generates for the built prompt |
| Whitespace.TrimLeftShape | engine.py:23 | trimming removes exactly the leading separators |
| Whitespace.WordLenShape | engine.py:23 | a word run is made of non-separators and ends at a separator or at the end of the text |
| Whitespace.WordsAreWords | engine.py:23 | every piece `split()` yields is non-empty and holds no separator |
| Whitespace.WordsOfJoin | engine.py:23 | splitting words joined with spaces gives the same words back |
| Whitespace.JoinNormalized | engine.py:23 | joining words with single spaces gives a normalised text |
| Whitespace.CollapseOfNormalized | engine.py:23 | a normalised text is left unchanged |
| Whitespace.CollapseFixedIff | engine.py:23 | the normaliser's fixed points are exactly the normalised texts |
| Whitespace.CollapseKeepsWords | engine.py:23 | normalising keeps the words, gives a normalised text and is idempotent |
| Whitespace.CollapseKeeps | engine.py:23 | normalising keeps every character property the space has, for example being ASCII |
| Whitespace.Words | engine.py:23 | `text.split()` yields at most as many pieces as the text has characters |
| Whitespace.Collapse | engine.py:23 | `" ".join(text.split())` is normalised: single plain spaces, each between two non-separators |
| Whitespace.CollapseKeepsText | engine.py:23 | normalising loses no text: with separators dropped, the result and the input are the same characters in the same order |
| Decimal.NatToString | app.py:150 | a page number is written as a non-empty string of digits without a leading zero |
| Decimal.ParseNat | app.py:198 | the number reader accepts a text if and only if it is a non-empty string of digits |
| Decimal.ParseNatToString | app.py:150 | reading back a written number gives the number |
| Protocol.RemoveAllAbsent | app.py:196 | `replace` leaves a text alone when the text lacks the tag's first character |
| Protocol.RemoveTag | app.py:196 | stripping the tag from a tagged text whose body has no '_' gives the body |
| Protocol.FindChar | app.py:198 | the position found is that of the first '/', or the length when there is none |
| Protocol.ParseProgressPayload | app.py:198 | the relay reads back the exact fraction the worker wrote |
| Protocol.ClassifyWire | app.py:195-209 | the relay's tag tests, in their order, classify every readable message as the kind it was sent as |
| Protocol.Wire | app.py:150-182 | a content token is queued as it is, and every other message carries a tag, so the relay never streams it as text |
| Protocol.RemoveAll | app.py:196 | `replace(tag, "")` never lengthens the text |
| Protocol.Classify | app.py:195-209 | the relay streams a string as text if and only if it matches none of the tag tests, and then streams it unchanged |
| Worker.RangesTile | app.py:148-149 | the deep scan's ranges start at 0, are non-empty and adjacent, end at the page count, and number ceil(total / 3) |
| Worker.PageInOneRange | app.py:148-149 | each page lies in exactly one range, namely range page / 3 |
| Worker.StreamSummary | app.py:138-140 | each streamed token is queued as it arrives; a failing call queues the tokens it produced before raising |
| Worker.DeepCut | app.py:148-153 | a deep scan that fails in range k has sent the first k ranges' messages and range k's status |
| Worker.ScanRanges | app.py:147-154 | the range loop queues each range's status and progress, collects each chunk followed by a space and keeps one summary per range; a failure stops it at the failing call |
| Worker.ScanDeep | app.py:146-158 | a deep scan queues the range messages, the clear-UI signal and the streamed synthesis of the joined range summaries |
| Worker.ScanQuick | app.py:159-164 | a quick scan queues its status, the clear-UI signal and the streamed summary of the first chunk |
| Worker.ScanText | app.py:166-176 | pasted or OCR text is announced, followed by the clear-UI signal, and summarised as a whole |
| Worker.FinishTrace | app.py:179-182 | after the scan come the error if one was raised, then the completion |
| Worker.AnalysisWorker | app.py:136-182 | the queue is exactly the run's message sequence; the collected text is stored only when no call raised |
| Worker.Trace | app.py:136-182 | every run's messages end with the completion, with the error just before it when a call raised |
| WorkerTrace.LeadAt | app.py:146-160 | before the clear-UI signal come a deep scan's status and progress pairs, or a single status otherwise |
| WorkerTrace.SuccessAt | app.py:142-182 | a successful run sends the lead, the clear-UI signal, one content message per token in order, and the completion |
| WorkerTrace.CutInside | app.py:142-180 | a failing call ends the sent messages before the completion, and inside the lead unless the streamed call failed |
| WorkerTrace.TraceShape | app.py:142-182 | a failed run sends the successful run's messages up to the failing call, then the error, then the completion |
| WorkerTrace.TraceAt | app.py:142-182 | the same, position by position |
| WorkerTrace.CompleteOnceLast | app.py:181-182 | the completion is sent exactly once, as the last message |
| WorkerTrace.NotCompleteBefore | app.py:181-182 | no message before the last is the completion |
| WorkerTrace.ErrorIffFails | app.py:179-180 | an error is sent if and only if the run fails, exactly once, just before the completion, carrying the exception's text |
| WorkerTrace.ClearUiBeforeContent | app.py:156-176 | the clear-UI signal is sent at most once, right after the lead; every content message comes after it and carries the tokens in order |
| WorkerTrace.NoProgressUnlessDeep | app.py:154 | only a deep scan sends progress |
| WorkerTrace.QuickScanShape | app.py:159-164 | a quick scan has one status, summarises the first three pages' chunk with the default instruction, and stores that chunk |
| WorkerTrace.ProgressFraction | app.py:154 | the progress fraction is `min((i + 3) / total, 1.0)` for the range's first page i |
| WorkerTrace.DeepProgress | app.py:148-154 | each progress follows its range's status, lies in (0, 1] and never falls; a scan that gets through all its ranges reports 1 last, even when the synthesis call then raises |
| WorkerTrace.RangesReported | app.py:148-157 | a deep scan that gets past its last range has reported progress 1, whether or not the synthesis call raises |
| WorkerTrace.ProgressAt | app.py:148-154 | a progress message sits at an odd position, right after its range's status, and reports the range's end page |
| Worker.PagesStatus | app.py:150 | the range status `Analyzing PDF pages {i+1} to {min(i+3, total)}...` holds no '_', so no tag can hide in it |
| WorkerTrace.FixedStatusPlain | app.py:160-173 | the three fixed status texts of the quick scan, the pasted text and the image (lines 160, 167 and 173) hold no '_' |
| WorkerTrace.ReadableAt | app.py:150-180 | when no token looks like a tag, each sent message is readable |
| WorkerTrace.TraceReadable | app.py:150-180 | when no token looks like a tag, every message of a run is readable |
| Relay.Step | app.py:195-209 | an ended loop takes no more messages; the streamed text and the error list only grow; the completion commits exactly the streamed text and clears the processing flag |
| Relay.StepOn | app.py:195-209 | a running loop applies the tag tests to the raw string in the source's order |
| Relay.Run | app.py:191-211 | over the whole queue the streamed text and the error list only grow, and a loop ended by the completion has committed exactly the streamed text and cleared the processing flag |
| Relay.StepStreams | app.py:195-209 | one message ends the loop if and only if the tag tests read it as the completion, and a message that leaves the loop running adds exactly its content token, or nothing when it is a tag |
| Relay.RunCommitsContent | app.py:191-211 | for any queue, a loop ended by the completion message commits the text streamed before it began followed by the tokens of exactly the messages the tag tests read as content before the first `__COMPLETE__`, in order; status, progress, clear-UI and error messages add nothing |
| Relay.RunAppend | app.py:191-211 | reading two parts of the queue in turn is reading the whole queue |
| Relay.RunSnoc | app.py:191-211 | the last message is one more step |
| Relay.RunFrom | app.py:191-211 | reading from position i is one step on message i, then the rest |
| Relay.NothingAfterComplete | app.py:201-204 | messages after the completion are never processed |
| Relay.CompleteCommits | app.py:201-204 | the completion commits the streamed text, possibly partial, clears the processing flag and ends the loop |
| Relay.ErrorDoesNotStop | app.py:205-207 | an error is shown and clears the processing flag, but ends neither the loop nor the streaming |
| Relay.ContentAppends | app.py:208-209 | a string that matches no tag is appended to the streamed text |
| Relay.TokensCanPassForTags | app.py:195-209 | a token equal to the completion tag ends the loop early, and a token starting with the status tag never reaches the summary |
| Pipeline.LeadSent | app.py:142-160 | the status and progress messages sent are a prefix of the run's lead |
| Pipeline.AllLeadMsgs | app.py:150-160 | every status sent has no '_' and every progress is in (0, 1] |
| Pipeline.ProgressAccepted | app.py:154-198 | a progress text the worker writes is read and accepted by the bar |
| Pipeline.RunLead | app.py:195-198 | status and progress messages move only the status line and the bar |
| Pipeline.RunContents | app.py:208-209 | streamed tokens are appended in order |
| Pipeline.RunClears | app.py:199-200 | the clear-UI signal hides the loading display and changes nothing else |
| Pipeline.RunEnds | app.py:201-207 | the error, if any, is shown; the completion then commits the streamed text and ends the loop |
| Pipeline.RunPieces | app.py:190-211 | the relay over a run's messages, part by part |
| Pipeline.TraceAsPieces | app.py:142-182 | a run's messages split into the lead sent, the clear-UI signal, the tokens delivered, the error and the completion |
| Pipeline.DeliveredPlain | app.py:157-176 | when no model token looks like a tag, neither does any token delivered |
| Pipeline.RelayReadsRun | app.py:136-211 | the relay reads a whole run without an exception and clears the processing flag. The final summary is the text of the tokens the run streamed: all of them on success, those before the exception when the streamed call raised, none otherwise. One error is shown if and only if the run failed. The loading display is cleared if and only if the run reached its streamed call |
| App.Answered | app.py:248-256 | answering extends the history by one assistant entry when the last entry is the user's, and leaves no question pending |
| App.Answer | app.py:252-254 | the answer is the text of every token the model generates for the question prompt over the first 3000 characters of the stored text |
| App.AnsweredIdempotent | app.py:248 | answering twice is answering once |
| App.AskThenAnswer | app.py:242-256 | a question asked is answered right after it, and no earlier entry changes |
| App.QuestionPromptShape | app.py:252-254 | the question prompt holds the document text cut to 3000 characters and the question, in the template |
| App.AnswerSeesOnlyContext | app.py:252 | only the first 3000 characters of the stored text affect the answer |
| App.Session.constructor | app.py:55-62 | a fresh session has an empty summary, document text and history, and is not processing |
| App.Session.StartRun | app.py:123-125 | the run button sets processing and clears the summary and the chat, keeping the document text |
| App.Session.Relay | app.py:190-211 | the loop's view, exception, processing flag and final summary are those of the relay state machine over the queue; the document text and the chat are untouched |
| App.Session.RunAnalysis | app.py:122-213 | a run resets the session, runs the worker and the relay, and stores the text read only on success; when no token looks like a tag, it ends without an exception and the final summary is the delivered text |
| App.Session.Ask | app.py:242-244 | a non-empty question is appended as the user's and sets processing, only while a summary is shown and nothing is pending |
| App.Session.AnswerPending | app.py:248-257 | the history becomes the answered history, and processing ends exactly when an answer was added; when the model call raises, the history and the processing flag are left as they were, so the question stays pending |
| Report.Latin1Replace | app.py:44 | the cleaned summary has the same length and only Latin-1 characters |
| Report.Latin1ReplaceAt | app.py:44 | each Latin-1 character is kept and every other becomes '?' |
| Report.Latin1ReplaceFixedIff | app.py:44 | cleaning changes a summary if and only if it holds a character Latin-1 cannot encode |
| Report.Latin1ReplaceIdempotent | app.py:44 | cleaning twice is cleaning once |

## Left out

- The page rendering is left out: the Streamlit widgets, markdown output, the streaming cursor, reruns, the sidebar and the PDF download button. The model keeps only the session-state fields the core reads and writes.
- The "Clear All Data" button (app.py:72-75) is left out, because it deletes the whole session and rebuilds it through the page script.
- The input handlers (app.py:78-120) and the `can_analyze` gate are left out: a run takes any `Request`, and the image's OCR text is whatever the session holds.
- Opening a PDF and extracting page text (pypdf) are foreign calls. A PDF is given as the text of each page, with None for a page that has no text.
- Tesseract OCR is not modelled.
- The OpenVINO model is a parameter: a function from a prompt to the tokens it generates. The `max_new_tokens=400` bound belongs to that foreign call and is not modelled.
- Concurrency is left out. The worker thread and the relay loop run at the same time in the source. The model runs the worker to completion and then relays its queue, so the result is the same message sequence. The 0.1-second polling and `queue.Empty` branch do not change which messages are read, or in what order.
- The worker's exceptions are modelled as a `Failure` parameter: the call that raises and the exception's text. The Q&A step's one model call is given a `raises` flag instead; the text it would show is not modelled. No other call in the model raises. The `isinstance(msg, str)` test always holds for what the worker queues.
- Protocol.ParseProgress: the worker writes the float `min((i + 3) / total, 1.0)` and the relay reads it with `float()`. The model writes the exact fraction "done/total" in decimal and reads it back exactly; `WorkerTrace.ProgressFraction` proves it equals that minimum. Python's float formatting and rounding are not modelled. Any text the model cannot read, or a value outside [0, 1], is an exception that ends the script, as `float()` and the progress bar raise one.
- `str.replace(tag, "")` is modelled as removal of every occurrence, scanning from the left (`Protocol.RemoveAll`).
- App.Session.RunAnalysis: a press while processing is modelled as doing nothing, because the button is disabled then.
- Pipeline.RelayReadsRun: stated only for runs whose model tokens match no tag. `Relay.TokensCanPassForTags` shows how other tokens break it.
- The PDF report's layout (fonts, cells, timestamp) is left out. Only the Latin-1 cleaning of its text (app.py:44) is modelled.
