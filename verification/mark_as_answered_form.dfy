/**
 * The "Mark as Answered" control on one's own prayer: a button that opens a
 * form for an optional testimony, with Confirm and Cancel.
 */
module MarkAsAnsweredForm {
  import opened Text

  class AnsweredForm {
    var isExpanded: bool
    var praiseText: string

    constructor()
      ensures !isExpanded && praiseText == ""
    {
      isExpanded := false;
      praiseText := "";
    }

    /** The "Mark as Answered" button, shown while the form is closed, opens it. */
    method Expand()
      requires !isExpanded
      modifies this
      ensures isExpanded && praiseText == old(praiseText)
    {
      isExpanded := true;
    }

    /** Typing into the testimony box. */
    method Edit(text: string)
      requires isExpanded
      modifies this
      ensures isExpanded && praiseText == text
    {
      praiseText := text;
    }

    /** `handleConfirm`: hands the trimmed testimony (possibly empty) to `onConfirm`, then closes and clears the form. */
    method Confirm() returns (praise: string)
      requires isExpanded
      modifies this
      ensures praise == Trim(old(praiseText))
      ensures !isExpanded && praiseText == ""
    {
      praise := Trim(praiseText);
      isExpanded := false;
      praiseText := "";
    }

    /** Cancel closes and clears the form without confirming. */
    method Cancel()
      requires isExpanded
      modifies this
      ensures !isExpanded && praiseText == ""
    {
      isExpanded := false;
      praiseText := "";
    }
  }

  /** Confirming an untouched form passes the empty testimony; a blank one is trimmed to empty too. */
  method ConfirmBlank(text: string) returns (praise: string)
    requires IsBlank(text)
    ensures praise == ""
  {
    var form := new AnsweredForm();
    form.Expand();
    form.Edit(text);
    praise := form.Confirm();
  }
}
