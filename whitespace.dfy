/** Python's argument-less `str.split()` followed by `" ".join(...)`, on the
    ASCII text the chunk extractor feeds it, and what that normal form looks like. */
module Whitespace {

  /** The ASCII characters `str.split()` treats as separators: the space,
      `\t \n \x0b \x0c \r` (codes 9 to 13) and `\x1c` to `\x1f` (codes 28 to 31). */
  predicate IsSpace(c: char) {
    c == ' ' || 9 <= c as int <= 13 || 28 <= c as int <= 31
  }

  /** A word as `str.split()` yields it: non-empty and without separators. */
  predicate IsWord(w: string) {
    |w| > 0 && forall i :: 0 <= i < |w| ==> !IsSpace(w[i])
  }

  /** The text with its leading separators removed. */
  function TrimLeft(s: string): (r: string)
    ensures |r| <= |s|
  {
    if s != [] && IsSpace(s[0]) then TrimLeft(s[1..]) else s
  }

  /** What trimming leaves: a suffix of the text that does not start with a
      separator, everything before it being separators. */
  lemma {:induction false} TrimLeftShape(s: string)
    ensures var r := TrimLeft(s);
      && r == s[|s| - |r|..]
      && (r == [] || !IsSpace(r[0]))
      && forall i :: 0 <= i < |s| - |r| ==> IsSpace(s[i])
    decreases |s|
  {
    if s != [] && IsSpace(s[0]) {
      var r := TrimLeft(s);
      TrimLeftShape(s[1..]);
      assert r == TrimLeft(s[1..]);
      assert s[1..][|s| - 1 - |r|..] == s[|s| - |r|..];
      forall i | 0 <= i < |s| - |r| ensures IsSpace(s[i]) {
        if i > 0 {
          assert s[i] == s[1..][i - 1];
        }
      }
    }
  }

  /** Length of the run of non-separators at the front of the text. */
  function WordLen(s: string): (n: nat)
    ensures n <= |s|
  {
    if s == [] || IsSpace(s[0]) then 0 else 1 + WordLen(s[1..])
  }

  /** The run at the front is made of non-separators and is followed by a
      separator or by the end of the text. */
  lemma {:induction false} WordLenShape(s: string)
    ensures var n := WordLen(s);
      && (forall i :: 0 <= i < n ==> !IsSpace(s[i]))
      && (n < |s| ==> IsSpace(s[n]))
    decreases |s|
  {
    if s != [] && !IsSpace(s[0]) {
      var n := WordLen(s);
      WordLenShape(s[1..]);
      forall i | 0 <= i < n ensures !IsSpace(s[i]) {
        if i > 0 {
          assert s[i] == s[1..][i - 1];
        }
      }
      if n < |s| {
        assert s[n] == s[1..][n - 1];
      }
    }
  }

  /** `s.split()`: the maximal runs of non-separators, in order. */
  function Words(s: string): (r: seq<string>)
    ensures |r| <= |s|
    decreases |s|
  {
    var t := TrimLeft(s);
    if t == [] then []
    else
      var n := WordLen(t);
      [t[..n]] + Words(t[n..])
  }

  /** Every piece `split()` yields is a word. */
  lemma {:induction false} WordsAreWords(s: string)
    ensures forall k :: 0 <= k < |Words(s)| ==> IsWord(Words(s)[k])
    decreases |s|
  {
    var t := TrimLeft(s);
    if t != [] {
      var n := WordLen(t);
      var w := t[..n];
      TrimLeftShape(s);
      WordLenShape(t);
      assert IsWord(w) by {
        assert n > 0;
        forall i | 0 <= i < |w| ensures !IsSpace(w[i]) {
          assert w[i] == t[i];
        }
      }
      WordsAreWords(t[n..]);
      var rest := Words(t[n..]);
      assert Words(s) == [w] + rest;
      forall k | 0 <= k < |Words(s)| ensures IsWord(Words(s)[k]) {
        if k > 0 {
          assert Words(s)[k] == rest[k - 1];
        }
      }
    }
  }

  /** `" ".join(ws)`. */
  function JoinSpace(ws: seq<string>): string {
    if |ws| == 0 then ""
    else if |ws| == 1 then ws[0]
    else ws[0] + " " + JoinSpace(ws[1..])
  }

  /** `" ".join(s.split())`. */
  function Collapse(s: string): (r: string)
    ensures Normalized(r)
  {
    WordsAreWords(s);
    JoinNormalized(Words(s));
    JoinSpace(Words(s))
  }

  /** The normal form: every separator is a plain space standing between two
      non-separators, so there is no separator at either end and no two in a row. */
  predicate Normalized(s: string) {
    forall i :: 0 <= i < |s| && IsSpace(s[i]) ==>
      s[i] == ' ' && 0 < i < |s| - 1 && !IsSpace(s[i + 1])
  }

  /** What a prefix of a normalised text looks like: the same, except that it
      may end in a space. */
  predicate NormalizedPrefix(s: string) {
    forall i :: 0 <= i < |s| && IsSpace(s[i]) ==>
      s[i] == ' ' && 0 < i && (i + 1 < |s| ==> !IsSpace(s[i + 1]))
  }

  /** Joining words gives a normalised text that starts with the first word's
      first character. */
  lemma {:induction false} JoinNormalized(ws: seq<string>)
    requires forall k :: 0 <= k < |ws| ==> IsWord(ws[k])
    ensures Normalized(JoinSpace(ws))
    ensures |ws| > 0 ==> IsWord(ws[0]) && |JoinSpace(ws)| > 0 && JoinSpace(ws)[0] == ws[0][0]
  {
    if |ws| == 1 {
      assert JoinSpace(ws) == ws[0];
    } else if |ws| > 1 {
      var w, rest := ws[0], JoinSpace(ws[1..]);
      JoinNormalized(ws[1..]);
      var s := JoinSpace(ws);
      assert s == w + " " + rest;
      forall i | 0 <= i < |s| && IsSpace(s[i])
        ensures s[i] == ' ' && 0 < i < |s| - 1 && !IsSpace(s[i + 1])
      {
        if i == |w| {
          assert s[i + 1] == rest[0];
        } else if i > |w| {
          assert s[i] == rest[i - |w| - 1];
          if i + 1 < |s| {
            assert s[i + 1] == rest[i - |w|];
          }
        }
      }
    }
  }

  /** A prefix of a normalised text is a normalised prefix. */
  lemma PrefixOfNormalized(s: string, n: nat)
    requires Normalized(s) && n <= |s|
    ensures NormalizedPrefix(s[..n])
  {
  }

  /** The word run at the front of a word followed by a separator (or nothing)
      is exactly that word. */
  lemma {:induction false} WordLenOfWord(w: string, rest: string)
    requires IsWord(w)
    requires rest == [] || IsSpace(rest[0])
    ensures WordLen(w + rest) == |w|
  {
    if |w| > 1 {
      assert (w + rest)[1..] == w[1..] + rest;
      WordLenOfWord(w[1..], rest);
    } else {
      assert (w + rest)[1..] == rest;
    }
  }

  /** A leading separator does not change the words. */
  lemma SkipSpace(c: char, s: string)
    requires IsSpace(c)
    ensures Words([c] + s) == Words(s)
  {
    assert ([c] + s)[1..] == s;
  }

  /** A word followed by a separator (or by nothing) splits off as the first word. */
  lemma WordsOfWordThen(w: string, rest: string)
    requires IsWord(w)
    requires rest == [] || IsSpace(rest[0])
    ensures Words(w + rest) == [w] + Words(rest)
  {
    var s := w + rest;
    assert TrimLeft(s) == s;
    WordLenOfWord(w, rest);
    assert s[..|w|] == w && s[|w|..] == rest;
  }

  /** A single word splits into itself. */
  lemma WordsOfWord(w: string)
    requires IsWord(w)
    ensures Words(w) == [w]
  {
    assert TrimLeft(w) == w;
    WordLenOfWhole(w);
    var e := w[|w|..];
    assert w[..|w|] == w && e == [];
    assert TrimLeft(e) == [];
    assert Words(e) == [];
    assert Words(w) == [w] + Words(e);
  }

  /** The word run at the front of a word is all of it. */
  lemma {:induction false} WordLenOfWhole(w: string)
    requires IsWord(w)
    ensures WordLen(w) == |w|
  {
    if |w| > 1 {
      assert IsWord(w[1..]) by {
        forall i | 0 <= i < |w| - 1 ensures !IsSpace(w[1..][i]) {
          assert w[1..][i] == w[i + 1];
        }
      }
      WordLenOfWhole(w[1..]);
    } else {
      assert w[1..] == [];
    }
  }

  /** Splitting a joined list of words gives the words back. */
  lemma {:induction false} WordsOfJoin(ws: seq<string>)
    requires forall k :: 0 <= k < |ws| ==> IsWord(ws[k])
    ensures Words(JoinSpace(ws)) == ws
  {
    if |ws| == 0 {
      assert JoinSpace(ws) == [];
      assert TrimLeft([]) == [];
    } else if |ws| == 1 {
      assert JoinSpace(ws) == ws[0];
      WordsOfWord(ws[0]);
    } else {
      var w, rest := ws[0], JoinSpace(ws[1..]);
      var spaced: string := [' '] + rest;
      assert JoinSpace(ws) == w + spaced by {
        assert JoinSpace(ws) == w + " " + rest;
      }
      calc {
        Words(JoinSpace(ws));
        Words(w + spaced);
        { WordsOfWordThen(w, spaced); }
        [w] + Words(spaced);
        { SkipSpace(' ', rest); }
        [w] + Words(rest);
        { WordsOfJoin(ws[1..]); }
        [w] + ws[1..];
        { assert [w] + ws[1..] == ws; }
        ws;
      }
    }
  }

  /** The part of a normalised text after a separator is normalised. */
  lemma NormalizedTail(s: string, n: nat)
    requires Normalized(s) && n < |s| && IsSpace(s[n])
    ensures Normalized(s[n + 1..]) && |s[n + 1..]| > 0 && !IsSpace(s[n + 1])
  {
    var tail := s[n + 1..];
    forall i | 0 <= i < |tail| && IsSpace(tail[i])
      ensures tail[i] == ' ' && 0 < i < |tail| - 1 && !IsSpace(tail[i + 1])
    {
      assert tail[i] == s[n + 1 + i];
      if i + 1 < |tail| { assert tail[i + 1] == s[n + 2 + i]; }
    }
  }

  /** A word, one space, then a text that starts with a non-separator: the
      normaliser keeps the word and the space and normalises the rest. */
  lemma CollapseWordThen(w: string, tail: string)
    requires IsWord(w) && |tail| > 0 && !IsSpace(tail[0])
    ensures Collapse(w + [' '] + tail) == w + " " + Collapse(tail)
  {
    var spaced: string := [' '] + tail;
    assert w + [' '] + tail == w + spaced;
    var ws := Words(tail);
    assert Words(w + spaced) == [w] + ws by {
      WordsOfWordThen(w, spaced);
      SkipSpace(' ', tail);
    }
    assert |ws| > 0 by { assert TrimLeft(tail) == tail; }
    assert ([w] + ws)[1..] == ws;
  }

  /** A normalised text is left as it is. */
  lemma {:induction false} CollapseOfNormalized(s: string)
    requires Normalized(s)
    ensures Collapse(s) == s
    decreases |s|
  {
    if s != [] {
      var n := WordLen(s);
      var w := s[..n];
      WordLenShape(s);
      assert IsWord(w);
      if n < |s| {
        var tail := s[n + 1..];
        NormalizedTail(s, n);
        assert s == w + [' '] + tail;
        CollapseWordThen(w, tail);
        CollapseOfNormalized(tail);
      } else {
        assert s == w + [];
        WordsOfWordThen(w, []);
        assert Words([]) == [];
      }
    }
  }

  /** The normaliser's fixed points are exactly the normalised texts. */
  lemma CollapseFixedIff(s: string)
    ensures Collapse(s) == s <==> Normalized(s)
  {
    WordsAreWords(s);
    JoinNormalized(Words(s));
    if Normalized(s) {
      CollapseOfNormalized(s);
    }
  }

  /** Normalising keeps the words and yields a normalised text, and normalising
      twice is the same as normalising once. */
  lemma CollapseKeepsWords(s: string)
    ensures Normalized(Collapse(s))
    ensures Words(Collapse(s)) == Words(s)
    ensures Collapse(Collapse(s)) == Collapse(s)
  {
    WordsAreWords(s);
    JoinNormalized(Words(s));
    WordsOfJoin(Words(s));
  }

  /** Every character of the text has the property. */
  predicate AllHold(s: string, p: char -> bool) {
    forall i :: 0 <= i < |s| ==> p(s[i])
  }

  /** A character property that holds of the text holds of every word of the
      text. */
  lemma {:induction false} WordsKeep(s: string, p: char -> bool)
    requires AllHold(s, p)
    ensures forall k :: 0 <= k < |Words(s)| ==> AllHold(Words(s)[k], p)
    decreases |s|
  {
    var t := TrimLeft(s);
    if t == [] {
      assert Words(s) == [];
    } else {
      var n := WordLen(t);
      assert AllHold(t, p) by {
        TrimLeftShape(s);
        forall i | 0 <= i < |t| ensures p(t[i]) {
          assert t[i] == s[|s| - |t| + i];
        }
      }
      var tail := t[n..];
      assert AllHold(tail, p) by {
        forall i | 0 <= i < |tail| ensures p(tail[i]) {
          assert tail[i] == t[n + i];
        }
      }
      assert AllHold(t[..n], p) by {
        forall i | 0 <= i < n ensures p(t[..n][i]) {
          assert t[..n][i] == t[i];
        }
      }
      WordsKeep(tail, p);
      var rest := Words(tail);
      var ws := [t[..n]] + rest;
      assert Words(s) == ws;
      forall k | 0 <= k < |ws| ensures AllHold(ws[k], p) {
        if k > 0 {
          assert ws[k] == rest[k - 1];
        }
      }
    }
  }

  /** ... and of every character of the joined words, when the space has it. */
  lemma {:induction false} JoinKeeps(ws: seq<string>, p: char -> bool)
    requires p(' ')
    requires forall k :: 0 <= k < |ws| ==> AllHold(ws[k], p)
    ensures AllHold(JoinSpace(ws), p)
  {
    if |ws| == 1 {
      assert JoinSpace(ws) == ws[0];
    } else if |ws| > 1 {
      var rest := JoinSpace(ws[1..]);
      JoinKeeps(ws[1..], p);
      var s := JoinSpace(ws);
      assert s == ws[0] + " " + rest;
      assert AllHold(ws[0], p);
      forall i | 0 <= i < |s| ensures p(s[i]) {
        if i < |ws[0]| {
          assert s[i] == ws[0][i];
        } else if i > |ws[0]| {
          assert s[i] == rest[i - |ws[0]| - 1];
        }
      }
    }
  }

  /** Normalising keeps any character property that the space has: it only
      drops and rewrites separators. */
  lemma CollapseKeeps(s: string, p: char -> bool)
    requires p(' ') && AllHold(s, p)
    ensures AllHold(Collapse(s), p)
  {
    WordsKeep(s, p);
    JoinKeeps(Words(s), p);
  }

  /** A character `split()` keeps inside some word. */
  predicate IsWordChar(c: char) {
    !IsSpace(c)
  }

  /** The characters of the text that have the property, in order. */
  function Keep(s: string, p: char -> bool): (r: string)
    ensures |r| <= |s|
  {
    if s == [] then [] else (if p(s[0]) then [s[0]] else []) + Keep(s[1..], p)
  }

  /** Filtering a concatenation filters each part. */
  lemma {:induction false} KeepAppend(a: string, b: string, p: char -> bool)
    ensures Keep(a + b, p) == Keep(a, p) + Keep(b, p)
  {
    if a == [] {
      assert a + b == b;
    } else {
      var head := if p(a[0]) then [a[0]] else [];
      var ab := a + b;
      assert ab[0] == a[0] && ab[1..] == a[1..] + b;
      assert Keep(ab, p) == head + Keep(a[1..] + b, p);
      KeepAppend(a[1..], b, p);
      assert Keep(a, p) == head + Keep(a[1..], p);
      assert head + (Keep(a[1..], p) + Keep(b, p)) == (head + Keep(a[1..], p)) + Keep(b, p);
    }
  }

  /** A text whose every character has the property is kept whole. */
  lemma {:induction false} KeepAll(s: string, p: char -> bool)
    requires AllHold(s, p)
    ensures Keep(s, p) == s
  {
    if s != [] {
      assert AllHold(s[1..], p) by {
        forall i | 0 <= i < |s| - 1 ensures p(s[1..][i]) {
          assert s[1..][i] == s[i + 1];
        }
      }
      KeepAll(s[1..], p);
    }
  }

  /** A text none of whose characters has the property is dropped whole. */
  lemma {:induction false} KeepNone(s: string, p: char -> bool)
    requires forall i :: 0 <= i < |s| ==> !p(s[i])
    ensures Keep(s, p) == []
  {
    if s != [] {
      assert forall i :: 0 <= i < |s| - 1 ==> s[1..][i] == s[i + 1];
      KeepNone(s[1..], p);
    }
  }

  /** Normalising loses no text: with separators dropped, the normalised text
      and the original are the same characters in the same order. Together
      with `CollapseKeepsWords`, the normaliser only drops, merges and
      rewrites separators. */
  lemma {:induction false} CollapseKeepsText(s: string)
    ensures Keep(Collapse(s), IsWordChar) == Keep(s, IsWordChar)
    decreases |s|
  {
    var t := TrimLeft(s);
    KeepTrim(s);
    if t != [] {
      var n := WordLen(t);
      var w, tail := t[..n], t[n..];
      KeepFrontWord(s);
      CollapseKeepsText(tail);
      CollapseFront(s);
      if Words(tail) == [] {
        assert Keep(tail, IsWordChar) == "";
        assert w + "" == w;
      } else {
        KeepAppend(w + " ", Collapse(tail), IsWordChar);
        KeepAppend(w, " ", IsWordChar);
      }
    }
  }

  /** Leading separators hold no text. */
  lemma KeepTrim(s: string)
    ensures Keep(s, IsWordChar) == Keep(TrimLeft(s), IsWordChar)
  {
    var t := TrimLeft(s);
    TrimLeftShape(s);
    var lead := s[..|s| - |t|];
    assert s == lead + t;
    KeepAppend(lead, t, IsWordChar);
    assert forall i :: 0 <= i < |lead| ==> lead[i] == s[i];
    KeepNone(lead, IsWordChar);
  }

  /** After the leading separators comes the first word, kept whole. */
  lemma KeepFrontWord(s: string)
    requires TrimLeft(s) != []
    ensures var t := TrimLeft(s); var n := WordLen(t);
      && 0 < n && IsWord(t[..n]) && Keep(t[..n], IsWordChar) == t[..n]
      && Keep(t, IsWordChar) == t[..n] + Keep(t[n..], IsWordChar)
  {
    var t := TrimLeft(s);
    var n := WordLen(t);
    var w, tail := t[..n], t[n..];
    FrontWord(s);
    KeepAll(w, IsWordChar);
    assert t == w + tail;
    KeepAppend(w, tail, IsWordChar);
  }

  /** After the leading separators comes a word. */
  lemma FrontWord(s: string)
    requires TrimLeft(s) != []
    ensures var t := TrimLeft(s); var n := WordLen(t);
      0 < n && IsWord(t[..n]) && AllHold(t[..n], IsWordChar)
  {
    var t := TrimLeft(s);
    var n := WordLen(t);
    var w := t[..n];
    TrimLeftShape(s);
    WordLenShape(t);
    assert forall i :: 0 <= i < n ==> w[i] == t[i];
  }

  /** The normal form of a text with a first word: that word, then a space and
      the normal form of the rest when the rest has words. */
  lemma CollapseFront(s: string)
    requires TrimLeft(s) != []
    ensures var t := TrimLeft(s); var n := WordLen(t);
      Collapse(s) == if Words(t[n..]) == [] then t[..n] else t[..n] + " " + Collapse(t[n..])
  {
    var t := TrimLeft(s);
    var n := WordLen(t);
    var ws := Words(t[n..]);
    assert Words(s) == [t[..n]] + ws;
    if ws != [] {
      assert ([t[..n]] + ws)[1..] == ws;
    }
  }
}
