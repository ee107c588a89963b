/**
 * The prayer composer that opens at the top of the wall: a text area of up
 * to 1000 characters, an "anonymous" check box, a counter that appears at
 * 500 characters and turns red at 1000, and Submit and Cancel buttons.
 */
module InlineComposer {
  import opened Wrappers
  import opened Text
  import opened CrisisResources
  import opened Submission

  const MaxPrayerLength: nat := 1000
  const CounterThreshold: nat := 500

  class Composer {
    var content: string
    var isAnonymous: bool
    var crisisDetected: bool

    constructor()
      ensures content == "" && !isAnonymous && !crisisDetected
    {
      content := "";
      isAnonymous := false;
      crisisDetected := false;
    }

    /** `handleChange`: any text is taken; the length limit is the text area's `maxLength`. */
    method Change(newContent: string)
      modifies this
      ensures content == newContent
      ensures isAnonymous == old(isAnonymous) && crisisDetected == old(crisisDetected)
    {
      content := newContent;
    }

    /** The "Post anonymously" check box. */
    method SetAnonymous(checked: bool)
      modifies this
      ensures isAnonymous == checked
      ensures content == old(content) && crisisDetected == old(crisisDetected)
    {
      isAnonymous := checked;
    }

    /**
     * `handleSubmit`: returns what is handed to `onSubmit(content, isAnonymous)`,
     * if anything; a prayer that is sent resets the form.
     */
    method Submit() returns (sent: Option<(string, bool)>)
      modifies this
      ensures old(SubmitOutcome(content)).Ignored? ==>
        sent == None && content == old(content) && isAnonymous == old(isAnonymous) && crisisDetected == old(crisisDetected)
      ensures old(SubmitOutcome(content)).HeldForCrisis? ==>
        sent == None && content == old(content) && isAnonymous == old(isAnonymous) && crisisDetected
      ensures old(SubmitOutcome(content)).Sent? ==>
        sent == Some((old(SubmitOutcome(content)).text, old(isAnonymous)))
        && content == "" && !isAnonymous && !crisisDetected
    {
      var outcome := SubmitOutcome(content);
      match outcome
      case Ignored =>
        sent := None;
      case HeldForCrisis =>
        crisisDetected := true;
        sent := None;
      case Sent(text) =>
        sent := Some((text, isAnonymous));
        content := "";
        isAnonymous := false;
        crisisDetected := false;
    }

    /** `handleCancel`: clears the text and the check box, but not the crisis notice; the page then closes the composer. */
    method Cancel()
      modifies this
      ensures content == "" && !isAnonymous && crisisDetected == old(crisisDetected)
    {
      content := "";
      isAnonymous := false;
    }

    /** The Submit button is disabled for blank text and for text over 1000 characters. */
    function SubmitDisabled(): (d: bool)
      reads this
      ensures d <==> SubmitOutcome(content).Ignored? || |content| > MaxPrayerLength
    {
      Trim(content) == "" || |content| > MaxPrayerLength
    }

    /** The "n/1,000" counter is shown from 500 characters on. */
    function CounterShown(): (b: bool)
      reads this
      ensures !b ==> (SubmitDisabled() <==> Trim(content) == "")
    {
      |content| >= CounterThreshold
    }

    /** The counter is drawn in the danger colour from 1000 characters on. */
    function CounterDanger(): (b: bool)
      reads this
      ensures b ==> CounterShown()
    {
      |content| >= MaxPrayerLength
    }
  }

  /** When the button is enabled, pressing it either sends the prayer or holds it for crisis resources. */
  lemma EnabledSubmitIsNeverIgnored(content: string)
    requires !(Trim(content) == "" || |content| > MaxPrayerLength)
    ensures !SubmitOutcome(content).Ignored?
    ensures SubmitOutcome(content).Sent? ==> |SubmitOutcome(content).text| <= MaxPrayerLength
  {
  }
}
