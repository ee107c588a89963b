/**
 * The sign-in dialog, with three views: log in, create an account, and reset
 * a password. Nothing is sent anywhere: submitting shows a "coming soon"
 * notice. Closing the dialog puts it back on the log-in view.
 */
module AuthModal {
  import opened Text

  datatype AuthView = Login | Register | ForgotPassword

  /** `VIEW_TITLES`. */
  function Title(view: AuthView): (t: string)
    ensures t != ""
  {
    match view
    case Login => "Log In"
    case Register => "Create Account"
    case ForgotPassword => "Reset Password"
  }

  /** Each view has its own title. */
  lemma TitlesDistinct(a: AuthView, b: AuthView)
    requires a != b
    ensures Title(a) != Title(b)
  {
  }

  /**
   * The links between views: "Sign up" from log-in, "Log in" from
   * registration, "Forgot password?" from log-in, and "Back to log in" from
   * the reset view.
   */
  predicate Link(from: AuthView, to: AuthView) {
    || (from == Login && to == Register)
    || (from == Register && to == Login)
    || (from == Login && to == ForgotPassword)
    || (from == ForgotPassword && to == Login)
  }

  /** The reset view is reached only from the log-in view. */
  lemma ForgotOnlyFromLogin(from: AuthView)
    requires Link(from, ForgotPassword)
    ensures from == Login
  {
  }

  /** Every link can be followed back. */
  lemma LinksGoBothWays(from: AuthView, to: AuthView)
    requires Link(from, to)
    ensures Link(to, from)
  {
  }

  const AuthToast: string := "Authentication coming soon"
  const ResetToast: string := "Password reset coming soon"

  class Dialog {
    /** Owned by the provider that opens the dialog. */
    var isOpen: bool
    var view: AuthView
    var resetEmail: string

    ghost predicate Valid()
      reads this
    {
      !isOpen ==> view == Login && resetEmail == ""
    }

    constructor()
      ensures Valid() && !isOpen && view == Login && resetEmail == ""
    {
      isOpen := false;
      view := Login;
      resetEmail := "";
    }

    /** The provider opens the dialog on the view it was left on, which is always log-in. */
    method Open()
      requires Valid() && !isOpen
      modifies this
      ensures Valid() && isOpen && view == Login && resetEmail == ""
    {
      isOpen := true;
    }

    /** Closing (the close button, the backdrop, Escape, or after a submit) resets the view and the e-mail. */
    method Close()
      modifies this
      ensures Valid() && !isOpen && view == Login && resetEmail == ""
    {
      isOpen := false;
      view := Login;
      resetEmail := "";
    }

    /** Following one of the links shown in the current view. */
    method Navigate(to: AuthView)
      requires Valid() && isOpen && Link(view, to)
      modifies this
      ensures Valid() && isOpen && view == to && resetEmail == old(resetEmail)
    {
      view := to;
    }

    /** Typing into the reset view's e-mail box. */
    method EditResetEmail(email: string)
      requires Valid() && isOpen && view == ForgotPassword
      modifies this
      ensures Valid() && isOpen && view == ForgotPassword && resetEmail == email
    {
      resetEmail := email;
    }

    /** `handleSubmit` on the log-in or registration form: a notice, then the dialog closes. */
    method Submit() returns (toast: string)
      requires Valid() && isOpen && view != ForgotPassword
      modifies this
      ensures toast == AuthToast
      ensures Valid() && !isOpen
    {
      toast := AuthToast;
      Close();
    }

    /** "Send reset link" is disabled while the e-mail is blank. */
    function SendDisabled(): (d: bool)
      reads this
      ensures d <==> IsBlank(resetEmail)
    {
      Trim(resetEmail) == ""
    }

    /** `handleForgotSubmit`: a notice, the e-mail cleared, back to log-in; the dialog stays open. */
    method ForgotSubmit() returns (toast: string)
      requires Valid() && isOpen && view == ForgotPassword && !SendDisabled()
      modifies this
      ensures toast == ResetToast
      ensures Valid() && isOpen && view == Login && resetEmail == ""
    {
      toast := ResetToast;
      resetEmail := "";
      view := Login;
    }

    /** The dialog's heading, or nothing at all while closed. */
    function Heading(): (h: string)
      reads this
      ensures h == "" <==> !isOpen
    {
      if isOpen then Title(view) else ""
    }
  }

  /** Leaving the dialog on the reset view and reopening it shows the log-in view with an empty e-mail. */
  method ReopenAfterReset(d: Dialog)
    requires d.Valid() && d.isOpen && d.view == Login
    modifies d
    ensures d.isOpen && d.view == Login && d.resetEmail == "" && d.Heading() == "Log In"
  {
    d.Navigate(ForgotPassword);
    d.EditResetEmail("someone@example.com");
    d.Close();
    d.Open();
  }
}
