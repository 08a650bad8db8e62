/** The worker-to-UI message protocol: the string tags the worker puts on the
    queue, the typed view of its messages, and the order in which the relay
    tests an incoming string against the tags. */
module Protocol {
  import opened Wrappers
  import opened Decimal
  import opened Engine

  const STATUS_TAG := "__STATUS__"
  const PROGRESS_TAG := "__PROGRESS__"
  const CLEAR_UI_TAG := "__CLEAR_UI__"
  const COMPLETE_TAG := "__COMPLETE__"
  const ERROR_TAG := "__ERROR__"

  /** The messages the worker sends, by kind. A progress message carries the
      fraction done / total. */
  datatype Msg =
    | Status(text: string)
    | Progress(done: nat, total: nat)
    | ClearUi
    | Content(token: string)
    | Error(text: string)
    | Complete

  /** The text of a progress fraction: numerator and denominator in decimal. */
  function ProgressPayload(done: nat, total: nat): string {
    NatToString(done) + "/" + NatToString(total)
  }

  /** The string the worker puts on the queue for a message. */
  function Wire(m: Msg): (r: string)
    ensures m.Content? ==> r == m.token
    ensures !m.Content? ==> !IsPlainContent(r)
  {
    match m
    case Status(text) => STATUS_TAG + text
    case Progress(done, total) => PROGRESS_TAG + ProgressPayload(done, total)
    case ClearUi => CLEAR_UI_TAG
    case Content(token) => token
    case Error(text) => ERROR_TAG + text
    case Complete => COMPLETE_TAG
  }

  function WireAll(ms: seq<Msg>): (r: seq<string>)
    ensures |r| == |ms|
  {
    seq(|ms|, i requires 0 <= i < |ms| => Wire(ms[i]))
  }

  lemma WireAllAppend(a: seq<Msg>, b: seq<Msg>)
    ensures WireAll(a + b) == WireAll(a) + WireAll(b)
  {
  }

  lemma WireAllSnoc(ms: seq<Msg>, m: Msg)
    ensures WireAll(ms + [m]) == WireAll(ms) + [Wire(m)]
  {
    WireAllAppend(ms, [m]);
  }

  lemma WireAllPair(a: Msg, b: Msg)
    ensures WireAll([a, b]) == [Wire(a), Wire(b)]
  {
  }

  lemma WireAllSnoc2(ms: seq<Msg>, a: Msg, b: Msg)
    ensures WireAll(ms + [a, b]) == WireAll(ms) + [Wire(a)] + [Wire(b)]
  {
    WireAllAppend(ms, [a, b]);
  }

  /** `s.replace(pat, "")`: every non-overlapping occurrence of pat, scanning
      from the left, is removed. */
  function RemoveAll(s: string, pat: string): (r: string)
    requires |pat| > 0
    ensures |r| <= |s|
    decreases |s|
  {
    if |s| < |pat| then s
    else if s[..|pat|] == pat then RemoveAll(s[|pat|..], pat)
    else [s[0]] + RemoveAll(s[1..], pat)
  }

  /** Text without the character that starts a pattern holds no occurrence of it. */
  lemma {:induction false} RemoveAllAbsent(s: string, pat: string)
    requires |pat| > 0 && pat[0] !in s
    ensures RemoveAll(s, pat) == s
    decreases |s|
  {
    if |s| >= |pat| {
      assert s[..|pat|][0] == s[0];
      assert s[0] in s;
      assert s[1..] == s[1..] && pat[0] !in s[1..] by {
        forall c | c in s[1..] ensures c in s { }
      }
      RemoveAllAbsent(s[1..], pat);
    }
  }

  /** Removing a tag from a tagged text whose body has no '_' gives the body. */
  lemma RemoveTag(tag: string, body: string)
    requires |tag| > 0 && tag[0] == '_' && '_' !in body
    ensures RemoveAll(tag + body, tag) == body
  {
    var s := tag + body;
    assert s[..|tag|] == tag && s[|tag|..] == body;
    RemoveAllAbsent(body, tag);
  }

  /** Position of the first c in s, or |s| when there is none. */
  function FindChar(s: string, c: char): (k: nat)
    ensures k <= |s|
    ensures k < |s| ==> s[k] == c
    ensures forall i :: 0 <= i < k ==> s[i] != c
  {
    if s == [] then 0 else if s[0] == c then 0 else 1 + FindChar(s[1..], c)
  }

  /** Reads a progress fraction "done/total"; None when the text is not of that
      shape or the denominator is zero. */
  function ParseProgress(payload: string): Option<real> {
    var k := FindChar(payload, '/');
    if k == |payload| then None
    else
      var done, total := ParseNat(payload[..k]), ParseNat(payload[k + 1..]);
      if done.Some? && total.Some? && total.value > 0
      then Some(done.value as real / total.value as real)
      else None
  }

  /** The relay reads back the exact fraction the worker wrote. */
  lemma ParseProgressPayload(done: nat, total: nat)
    requires total > 0
    ensures ParseProgress(ProgressPayload(done, total)) == Some(done as real / total as real)
  {
    var a, b := NatToString(done), NatToString(total);
    var p := ProgressPayload(done, total);
    assert p == a + "/" + b;
    assert FindChar(p, '/') == |a| by {
      assert p[|a|] == '/';
      forall i | 0 <= i < |a| ensures p[i] != '/' {
        assert p[i] == a[i] && IsDigit(a[i]);
      }
    }
    assert p[..|a|] == a && p[|a| + 1..] == b;
    ParseNatToString(done);
    ParseNatToString(total);
  }

  /** What the relay makes of a string taken off the queue. */
  datatype Reading =
    | ReadStatus(text: string)
    | ReadProgress(payload: string)
    | ReadClearUi
    | ReadComplete
    | ReadError(text: string)
    | ReadContent(token: string)

  /** The relay's tests, in its order: prefix __STATUS__, prefix __PROGRESS__,
      exactly __CLEAR_UI__, exactly __COMPLETE__, prefix __ERROR__, and
      otherwise content. A tag is stripped from the text wherever it occurs. */
  function Classify(s: string): (r: Reading)
    ensures r.ReadContent? <==> IsPlainContent(s)
    ensures r.ReadContent? ==> r.token == s
  {
    if StartsWith(s, STATUS_TAG) then ReadStatus(RemoveAll(s, STATUS_TAG))
    else if StartsWith(s, PROGRESS_TAG) then ReadProgress(RemoveAll(s, PROGRESS_TAG))
    else if s == CLEAR_UI_TAG then ReadClearUi
    else if s == COMPLETE_TAG then ReadComplete
    else if StartsWith(s, ERROR_TAG) then ReadError(RemoveAll(s, ERROR_TAG))
    else ReadContent(s)
  }

  /** A token the relay takes for content: it matches none of the tags. */
  predicate IsPlainContent(token: string) {
    !StartsWith(token, STATUS_TAG) && !StartsWith(token, PROGRESS_TAG) &&
    token != CLEAR_UI_TAG && token != COMPLETE_TAG && !StartsWith(token, ERROR_TAG)
  }

  /** A message the relay reads back as what was sent: status texts hold no
      '_' (so no tag hides in them) and content tokens match no tag. */
  predicate Readable(m: Msg) {
    match m
    case Status(text) => '_' !in text
    case Content(token) => IsPlainContent(token)
    case _ => true
  }

  /** The relay's reading of a message agrees with its kind. */
  predicate Agrees(m: Msg, r: Reading) {
    match m
    case Status(text) => r == ReadStatus(text)
    case Progress(done, total) => r == ReadProgress(ProgressPayload(done, total))
    case ClearUi => r == ReadClearUi
    case Content(token) => r == ReadContent(token)
    case Error(_) => r.ReadError?
    case Complete => r == ReadComplete
  }

  /** Every readable message is classified as the kind it was sent as. */
  lemma ClassifyWire(m: Msg)
    requires Readable(m)
    ensures Agrees(m, Classify(Wire(m)))
  {
    var s := Wire(m);
    match m {
      case Status(text) =>
        RemoveTag(STATUS_TAG, text);
      case Progress(done, total) =>
        assert s[2] == 'P';
        var payload := ProgressPayload(done, total);
        assert '_' !in payload by {
          var a, b := NatToString(done), NatToString(total);
          forall i | 0 <= i < |payload| ensures payload[i] != '_' {
            if i < |a| { assert payload[i] == a[i]; }
            else if i > |a| { assert payload[i] == b[i - |a| - 1]; }
          }
        }
        RemoveTag(PROGRESS_TAG, payload);
      case ClearUi =>
        assert s[2] == 'C' && s[3] == 'L';
      case Content(token) =>
      case Error(text) =>
        assert s[2] == 'E';
      case Complete =>
        assert s[2] == 'C' && s[3] == 'O';
    }
  }
}
