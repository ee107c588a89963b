/**
 * What pressing "submit" does with the text of a comment box or of the
 * prayer composer: blank text is ignored; text that mentions a self-harm
 * keyword is held back and crisis resources are shown; anything else is
 * sent trimmed.
 */
module Submission {
  import opened Text
  import opened CrisisResources

  datatype Outcome = Ignored | HeldForCrisis | Sent(text: string)

  /** `if (!value.trim()) return; if (containsCrisisKeyword(value)) …; onSubmit(value.trim())`. */
  function SubmitOutcome(value: string): (o: Outcome)
    ensures o.Ignored? <==> IsBlank(value)
    ensures o.HeldForCrisis? <==> !IsBlank(value) && ContainsCrisisKeyword(value)
    ensures o.Sent? ==> o.text == Trim(value)
  {
    if Trim(value) == "" then Ignored
    else if ContainsCrisisKeyword(value) then HeldForCrisis
    else Sent(Trim(value))
  }

  /** What is sent is never empty, has no whitespace at either end and mentions no keyword. */
  lemma SentTextIsClean(value: string)
    requires SubmitOutcome(value).Sent?
    ensures var t := SubmitOutcome(value).text;
      t != [] && !IsJsWhitespace(t[0]) && !IsJsWhitespace(t[|t| - 1]) && !ContainsCrisisKeyword(t)
  {
    TrimOccursIn(value);
    if ContainsCrisisKeyword(Trim(value)) {
      KeywordInPiece(Trim(value), value, |value| - |TrimStart(value)|);
    }
  }

  /** Submitting the text that was sent would send it again unchanged. */
  lemma SentTextResends(value: string)
    requires SubmitOutcome(value).Sent?
    ensures SubmitOutcome(SubmitOutcome(value).text) == SubmitOutcome(value)
  {
    SentTextIsClean(value);
    TrimIdempotent(value);
  }

  /** Blank text is ignored even when it is all whitespace. */
  lemma WhitespaceIgnored(n: nat)
    ensures SubmitOutcome(seq(n, _ => ' ')).Ignored?
  {
  }
}
