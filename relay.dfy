/** The relay loop of a run: it takes the worker's messages off the queue in
    order and, by the tag tests of `Classify`, updates the status line, the
    progress bar, the loading display, the error list and the streamed text;
    the completion message commits the streamed text as the final summary and
    ends the loop. */
module Relay {
  import opened Wrappers
  import opened Engine
  import opened Protocol

  /** What the relay shows while it runs: the text streamed so far (`res`),
      the last status line, the progress bar's value, whether the loading
      display has been cleared, and the errors shown, in order. */
  datatype View = View(res: string, status: Option<string>, progress: real, cleared: bool, errors: seq<string>)

  /** The relay's state: its view, the session's processing flag and final
      summary, whether the completion message has ended the loop, and whether
      an exception (a progress text `float` cannot read, or a value the
      progress bar refuses) has ended the script. */
  datatype State = State(view: View, processing: bool, finalSummary: string, done: bool, crashed: bool)

  /** The state the loop starts in: nothing streamed, an empty status area, the
      bar at 0 and the loading display shown. */
  function Start(processing: bool, finalSummary: string): (s: State)
    ensures Running(s) && s.view.res == "" && s.view.errors == []
  {
    State(View("", None, 0.0, false, []), processing, finalSummary, false, false)
  }

  predicate Running(s: State) {
    !s.done && !s.crashed
  }

  /** One message: a status replaces the status line; a progress value in
      [0, 1] moves the bar and any other progress text raises; the clear-UI
      signal hides the loading display; the completion commits the streamed
      text, clears the processing flag and ends the loop; an error is shown and
      clears the processing flag; anything else is streamed text. A loop that
      has ended takes no more messages. */
  function Step(s: State, msg: string): (r: State)
    ensures !Running(s) ==> r == s
    ensures s.view.res <= r.view.res && s.view.errors <= r.view.errors
    ensures Running(s) && r.done ==> r.finalSummary == r.view.res == s.view.res && !r.processing
  {
    if !Running(s) then s
    else
      match Classify(msg)
      case ReadStatus(text) => s.(view := s.view.(status := Some(text)))
      case ReadProgress(payload) =>
        var v := ParseProgress(payload);
        if v.Some? && 0.0 <= v.value <= 1.0 then s.(view := s.view.(progress := v.value))
        else s.(crashed := true)
      case ReadClearUi => s.(view := s.view.(cleared := true))
      case ReadComplete => s.(finalSummary := s.view.res, processing := false, done := true)
      case ReadError(text) => s.(view := s.view.(errors := s.view.errors + [text]), processing := false)
      case ReadContent(token) => s.(view := s.view.(res := s.view.res + token))
  }

  /** One message as the relay loop tests it: the tag tests in order on the
      raw string. */
  lemma StepOn(s: State, msg: string)
    requires Running(s)
    ensures Step(s, msg) ==
      if StartsWith(msg, STATUS_TAG) then s.(view := s.view.(status := Some(RemoveAll(msg, STATUS_TAG))))
      else if StartsWith(msg, PROGRESS_TAG) then
        var v := ParseProgress(RemoveAll(msg, PROGRESS_TAG));
        if v.Some? && 0.0 <= v.value <= 1.0 then s.(view := s.view.(progress := v.value)) else s.(crashed := true)
      else if msg == CLEAR_UI_TAG then s.(view := s.view.(cleared := true))
      else if msg == COMPLETE_TAG then s.(finalSummary := s.view.res, processing := false, done := true)
      else if StartsWith(msg, ERROR_TAG) then
        s.(view := s.view.(errors := s.view.errors + [RemoveAll(msg, ERROR_TAG)]), processing := false)
      else s.(view := s.view.(res := s.view.res + msg))
  {
  }

  /** The loop over the whole queue. */
  function Run(s: State, msgs: seq<string>): (r: State)
    ensures !Running(s) ==> r == s
    ensures s.view.res <= r.view.res && s.view.errors <= r.view.errors
    ensures Running(s) && r.done ==> r.finalSummary == r.view.res && !r.processing
    decreases |msgs|
  {
    if |msgs| == 0 || !Running(s) then s else Run(Step(s, msgs[0]), msgs[1..])
  }

  /** The text one message adds to the stream: its token when the tag tests
      read it as content, nothing otherwise. */
  function ContentOf(msg: string): string {
    if Classify(msg).ReadContent? then Classify(msg).token else ""
  }

  /** The streamed text a queue carries: the tokens of the messages the tag
      tests read as content, in order, up to the first completion message. */
  function ContentBefore(q: seq<string>): string
    decreases |q|
  {
    if |q| == 0 || Classify(q[0]).ReadComplete? then ""
    else ContentOf(q[0]) + ContentBefore(q[1..])
  }

  /** One step ends the loop exactly on the completion message, and a step
      that leaves the loop running adds the message's content to the stream. */
  lemma StepStreams(s: State, msg: string)
    requires Running(s)
    ensures Step(s, msg).done <==> Classify(msg).ReadComplete?
    ensures Running(Step(s, msg)) ==> Step(s, msg).view.res == s.view.res + ContentOf(msg)
  {
  }

  /** A loop that the completion message ends commits, as the final summary,
      the text streamed before the loop began followed by exactly the content
      messages read before that completion, in order. */
  lemma {:induction false} RunCommitsContent(s: State, q: seq<string>)
    requires Running(s)
    ensures Run(s, q).done ==> Run(s, q).finalSummary == s.view.res + ContentBefore(q)
    decreases |q|
  {
    if |q| > 0 {
      var t := Step(s, q[0]);
      StepStreams(s, q[0]);
      assert Run(s, q) == Run(t, q[1..]);
      if Running(t) {
        RunCommitsContent(t, q[1..]);
        var c, rest := ContentOf(q[0]), ContentBefore(q[1..]);
        assert ContentBefore(q) == c + rest;
        assert s.view.res + c + rest == s.view.res + (c + rest);
      } else {
        assert Run(s, q) == t;
      }
    }
  }

  /** Running two parts of the queue one after the other is running all of it. */
  lemma {:induction false} RunAppend(s: State, a: seq<string>, b: seq<string>)
    ensures Run(s, a + b) == Run(Run(s, a), b)
    decreases |a|
  {
    if |a| > 0 && Running(s) {
      assert (a + b)[0] == a[0] && (a + b)[1..] == a[1..] + b;
      RunAppend(Step(s, a[0]), a[1..], b);
    } else if |a| == 0 {
      assert a + b == b;
    }
  }

  /** The last message of a queue is one more step. */
  lemma RunSnoc(s: State, a: seq<string>, msg: string)
    ensures Run(s, a + [msg]) == Step(Run(s, a), msg)
  {
    RunAppend(s, a, [msg]);
    assert [msg][1..] == [];
  }

  /** Reading the rest of a queue from position i is one step on message i,
      then the rest from i + 1. */
  lemma RunFrom(s: State, queue: seq<string>, i: nat)
    requires Running(s) && i < |queue|
    ensures Run(s, queue[i..]) == Run(Step(s, queue[i]), queue[i + 1..])
  {
    assert queue[i..][0] == queue[i] && queue[i..][1..] == queue[i + 1..];
  }

  /** Messages after the completion message are never processed. */
  lemma NothingAfterComplete(s: State, a: seq<string>, b: seq<string>)
    requires Run(s, a).done
    ensures Run(s, a + b) == Run(s, a)
  {
    RunAppend(s, a, b);
  }

  /** The completion message commits the text streamed so far, possibly
      partial, as the final summary, clears the processing flag and ends the
      loop; nothing else changes. */
  lemma CompleteCommits(s: State)
    requires Running(s)
    ensures Step(s, COMPLETE_TAG) == s.(finalSummary := s.view.res, processing := false, done := true)
  {
    assert !StartsWith(COMPLETE_TAG, STATUS_TAG) by { assert COMPLETE_TAG[2] != STATUS_TAG[2]; }
    assert !StartsWith(COMPLETE_TAG, PROGRESS_TAG) by { assert COMPLETE_TAG[2] != PROGRESS_TAG[2]; }
  }

  /** An error clears the processing flag and is shown, but neither ends the
      loop nor touches the streamed text or the final summary. */
  lemma ErrorDoesNotStop(s: State, text: string)
    requires Running(s)
    ensures var t := Step(s, ERROR_TAG + text);
      && Running(t) && !t.processing
      && t.view.res == s.view.res && t.finalSummary == s.finalSummary
      && t.view.errors == s.view.errors + [RemoveAll(ERROR_TAG + text, ERROR_TAG)]
  {
    var m := ERROR_TAG + text;
    assert m[..|ERROR_TAG|] == ERROR_TAG;
    assert m[2] == 'E';
  }

  /** Text that matches no tag is appended to the streamed text. */
  lemma ContentAppends(s: State, token: string)
    requires Running(s) && IsPlainContent(token)
    ensures Step(s, token) == s.(view := s.view.(res := s.view.res + token))
  {
  }

  /** The tags share one channel with the model's text: a token that is
      exactly the completion tag ends the loop as if the worker had finished,
      and a token that starts with the status tag is shown as a status, so in
      both cases the token is missing from the final summary. */
  lemma TokensCanPassForTags(s: State, rest: string)
    requires Running(s)
    ensures var t := Run(s, [COMPLETE_TAG, rest]);
      t.done && t.finalSummary == s.view.res
    ensures Step(s, STATUS_TAG + rest).view.res == s.view.res
  {
    CompleteCommits(s);
    var m := STATUS_TAG + rest;
    assert m[..|STATUS_TAG|] == STATUS_TAG;
  }
}
