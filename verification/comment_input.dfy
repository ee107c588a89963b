/**
 * The one-line comment box under a prayer. Signed-out visitors get a
 * "Log in to comment" button or link instead. Edits longer than 500
 * characters are refused, Enter submits, Shift+Enter does not.
 */
module CommentInput {
  import opened Wrappers
  import opened Text
  import opened RovingFocus
  import opened CrisisResources
  import opened Submission

  const MaxCommentLength: nat := 500

  /** What takes the comment box's place. */
  datatype CommentBoxView = TextBox | LoginButton | LoginLink(to: string)

  /** Signed in: the text box; signed out: a button when a login handler is given, else a link to "/login". */
  function CommentBoxFor(isLoggedIn: bool, hasLoginHandler: bool): (v: CommentBoxView)
    ensures v.TextBox? <==> isLoggedIn
    ensures v.LoginButton? <==> !isLoggedIn && hasLoginHandler
    ensures v.LoginLink? ==> v.to == "/login"
  {
    if isLoggedIn then TextBox
    else if hasLoginHandler then LoginButton
    else LoginLink("/login")
  }

  class CommentBox {
    /** The prayer the comment is for; passed along with the text on submit. */
    const prayerId: string
    var value: string
    var crisisDetected: bool

    /** `useState(initialValue)`. */
    constructor(prayerId: string, initialValue: string)
      ensures this.prayerId == prayerId && value == initialValue && !crisisDetected
    {
      this.prayerId := prayerId;
      value := initialValue;
      crisisDetected := false;
    }

    /**
     * The effect on `initialValue`: a new non-empty value (a reply prefix)
     * replaces the text; an empty one does nothing. The environment calls this
     * only when `initialValue` changes while the input is mounted, as React
     * runs the effect only then.
     */
    method ApplyInitialValue(initialValue: string)
      modifies this
      ensures value == (if initialValue != "" then initialValue else old(value))
      ensures crisisDetected == old(crisisDetected)
    {
      if initialValue != "" {
        value := initialValue;
      }
    }

    /** `onChange`: an edit of at most 500 characters is taken and clears the crisis notice; a longer one is refused. */
    method Change(newValue: string)
      modifies this
      ensures |newValue| <= MaxCommentLength ==> value == newValue && !crisisDetected
      ensures |newValue| > MaxCommentLength ==> value == old(value) && crisisDetected == old(crisisDetected)
    {
      if |newValue| <= MaxCommentLength {
        value := newValue;
        crisisDetected := false;
      }
    }

    /** `handleSubmit`: returns the trimmed text handed to `onSubmit(prayerId, …)`, if any. */
    method Submit() returns (sent: Option<string>)
      modifies this
      ensures old(SubmitOutcome(value)).Ignored? ==>
        sent == None && value == old(value) && crisisDetected == old(crisisDetected)
      ensures old(SubmitOutcome(value)).HeldForCrisis? ==>
        sent == None && value == old(value) && crisisDetected
      ensures old(SubmitOutcome(value)).Sent? ==>
        sent == Some(old(SubmitOutcome(value)).text) && value == "" && !crisisDetected
    {
      var outcome := SubmitOutcome(value);
      match outcome
      case Ignored =>
        sent := None;
      case HeldForCrisis =>
        crisisDetected := true;
        sent := None;
      case Sent(text) =>
        sent := Some(text);
        value := "";
        crisisDetected := false;
    }

    /** `handleKeyDown`: Enter without Shift submits; every other key leaves the box alone. */
    method KeyDown(key: Key, shiftKey: bool) returns (sent: Option<string>)
      modifies this
      ensures !(key == Enter && !shiftKey) ==>
        sent == None && value == old(value) && crisisDetected == old(crisisDetected)
      ensures key == Enter && !shiftKey && old(SubmitOutcome(value)).Ignored? ==>
        sent == None && value == old(value) && crisisDetected == old(crisisDetected)
      ensures key == Enter && !shiftKey && old(SubmitOutcome(value)).HeldForCrisis? ==>
        sent == None && value == old(value) && crisisDetected
      ensures key == Enter && !shiftKey && old(SubmitOutcome(value)).Sent? ==>
        sent == Some(old(SubmitOutcome(value)).text) && value == "" && !crisisDetected
    {
      sent := None;
      if key == Enter && !shiftKey {
        sent := Submit();
      }
    }

    /** The send button is disabled exactly when submitting would be ignored. */
    function SubmitDisabled(): (d: bool)
      reads this
      ensures d <==> SubmitOutcome(value).Ignored?
    {
      Trim(value) == ""
    }
  }

  /** A comment typed into an empty box and sent empties the box again. */
  method TypeAndSend(box: CommentBox, text: string) returns (sent: Option<string>)
    requires |text| <= MaxCommentLength && SubmitOutcome(text).Sent?
    modifies box
    ensures sent == Some(Trim(text)) && box.value == "" && !box.crisisDetected
  {
    box.Change(text);
    sent := box.Submit();
  }
}
