/**
 * Self-harm keyword detection: text that mentions one of a fixed list of
 * phrases, in any letter case, is held back and crisis resources are shown.
 */
module CrisisResources {
  import opened Text

  const SelfHarmKeywords: seq<string> := [
    "suicide",
    "kill myself",
    "end it all",
    "not worth living",
    "hurt myself",
    "end my life",
    "want to die",
    "better off dead"
  ]

  /** `keywords.some(kw => lower.includes(kw))`. */
  function SomeIncluded(lower: string, keywords: seq<string>): (r: bool)
    ensures r <==> exists i :: 0 <= i < |keywords| && Includes(lower, keywords[i])
  {
    if keywords == [] then false
    else if Includes(lower, keywords[0]) then true
    else
      var r := SomeIncluded(lower, keywords[1..]);
      assert r ==> exists i :: 0 <= i < |keywords| && Includes(lower, keywords[i]) by {
        if r {
          var i :| 0 <= i < |keywords[1..]| && Includes(lower, keywords[1..][i]);
          assert Includes(lower, keywords[i + 1]);
        }
      }
      r
  }

  /** `containsCrisisKeyword`: some keyword occurs in the lower-cased text. */
  predicate ContainsCrisisKeyword(text: string) {
    exists kw, i :: kw in SelfHarmKeywords && 0 <= i <= |text| && OccursAt(kw, ToLower(text), i)
  }

  /** The search `SelfHarmKeywords.some(kw => lower.includes(kw))` answers exactly that question. */
  lemma KeywordSearchAgrees(text: string)
    ensures SomeIncluded(ToLower(text), SelfHarmKeywords) == ContainsCrisisKeyword(text)
  {
    var lower := ToLower(text);
    if SomeIncluded(lower, SelfHarmKeywords) {
      var j :| 0 <= j < |SelfHarmKeywords| && Includes(lower, SelfHarmKeywords[j]);
      var i :| OccursAt(SelfHarmKeywords[j], lower, i);
      assert SelfHarmKeywords[j] in SelfHarmKeywords;
    }
    if ContainsCrisisKeyword(text) {
      var kw, i :| kw in SelfHarmKeywords && OccursAt(kw, lower, i);
      var j :| 0 <= j < |SelfHarmKeywords| && SelfHarmKeywords[j] == kw;
      assert Includes(lower, SelfHarmKeywords[j]);
    }
  }

  /** Every keyword is a non-empty lower-case phrase. */
  lemma KeywordsLowerCase()
    ensures forall kw :: kw in SelfHarmKeywords ==> |kw| > 0 && IsLowerCase(kw)
  {
  }

  /** The verdict depends only on the lower-cased text. */
  lemma CaseInsensitive(a: string, b: string)
    requires ToLower(a) == ToLower(b)
    ensures ContainsCrisisKeyword(a) == ContainsCrisisKeyword(b)
  {
  }

  /** In particular, upper-casing the text does not hide a keyword. */
  lemma UpperCaseStillMatches(text: string)
    ensures ContainsCrisisKeyword(ToUpper(text)) == ContainsCrisisKeyword(text)
  {
    assert ToLower(ToUpper(text)) == ToLower(text) by {
      forall i | 0 <= i < |text|
        ensures ToLower(ToUpper(text))[i] == ToLower(text)[i]
      {
        assert LowerChar(UpperChar(text[i])) == LowerChar(text[i]);
      }
    }
    CaseInsensitive(ToUpper(text), text);
  }

  /** The empty text never matches. */
  lemma EmptyNeverMatches()
    ensures !ContainsCrisisKeyword("")
  {
    KeywordsLowerCase();
  }

  /** A keyword anywhere inside a longer text, surrounded by anything, is found. */
  lemma EmbeddedKeywordMatches(pre: string, kw: string, post: string)
    requires kw in SelfHarmKeywords
    ensures ContainsCrisisKeyword(pre + kw + post)
  {
    KeywordsLowerCase();
    ToLowerConcat(pre + kw, post);
    ToLowerConcat(pre, kw);
    ToLowerOfLowerCase(kw);
    IncludesEmbedded(ToLower(pre), kw, ToLower(post));
  }

  /** A text whose lower case contains no keyword is let through. */
  lemma NoKeywordNoMatch(text: string)
    requires forall kw :: kw in SelfHarmKeywords ==> !Includes(ToLower(text), kw)
    ensures !ContainsCrisisKeyword(text)
  {
  }

  /** A keyword in a piece of a text is a keyword in the whole text. */
  lemma KeywordInPiece(piece: string, s: string, k: int)
    requires OccursAt(piece, s, k) && ContainsCrisisKeyword(piece)
    ensures ContainsCrisisKeyword(s)
  {
    var kw, i :| kw in SelfHarmKeywords && 0 <= i <= |piece| && OccursAt(kw, ToLower(piece), i);
    var lp, ls := ToLower(piece), ToLower(s);
    assert i + |kw| <= |lp| == |piece| && k + |piece| <= |s| == |ls|;
    forall j | 0 <= j < |kw|
      ensures ls[k + i + j] == kw[j]
    {
      assert lp[i..i + |kw|][j] == kw[j];
      assert s[k..k + |piece|][i + j] == piece[i + j];
    }
    assert ls[k + i..k + i + |kw|] == kw;
    assert OccursAt(kw, ls, k + i) && 0 <= k + i <= |s|;
  }
}
