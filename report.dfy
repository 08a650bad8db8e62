/** The text cleaning the PDF report applies before writing the summary: the
    summary is encoded to Latin-1 with replacement and decoded back, so every
    character Latin-1 cannot encode becomes '?'. */
module Report {
  /** A character Latin-1 encodes: code point below 256. */
  predicate IsLatin1(c: char) {
    c as int < 256
  }

  predicate AllLatin1(s: string) {
    forall i :: 0 <= i < |s| ==> IsLatin1(s[i])
  }

  /** The summary after the Latin-1 round trip with replacement. */
  function Latin1Replace(text: string): (clean: string)
    ensures |clean| == |text| && AllLatin1(clean)
  {
    seq(|text|, i requires 0 <= i < |text| => if IsLatin1(text[i]) then text[i] else '?')
  }

  /** Position by position: a Latin-1 character is kept, any other is '?'. */
  lemma Latin1ReplaceAt(text: string, i: nat)
    requires i < |text|
    ensures IsLatin1(text[i]) ==> Latin1Replace(text)[i] == text[i]
    ensures !IsLatin1(text[i]) ==> Latin1Replace(text)[i] == '?'
  {
  }

  /** The cleaning changes a text exactly when it holds a character Latin-1
      cannot encode. */
  lemma Latin1ReplaceFixedIff(text: string)
    ensures Latin1Replace(text) == text <==> AllLatin1(text)
  {
    if Latin1Replace(text) == text {
      forall i | 0 <= i < |text| ensures IsLatin1(text[i]) {
        assert Latin1Replace(text)[i] == text[i];
      }
    }
  }

  /** Cleaning a cleaned text changes nothing. */
  lemma Latin1ReplaceIdempotent(text: string)
    ensures Latin1Replace(Latin1Replace(text)) == Latin1Replace(text)
  {
    Latin1ReplaceFixedIff(Latin1Replace(text));
  }
}
