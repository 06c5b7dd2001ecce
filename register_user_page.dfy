/**
 * The stand-alone user sign-up screen, shown only to an authenticated session: it registers
 * a user without a company once the two passwords agree.
 */
module RegisterUserPage {
  import opened Outcomes
  import opened Services
  import opened UserForm
  import AuthContext

  const SignedUpText: string := "Usuário cadastrado com sucesso!"
  const ErrorFallback: string := "Erro ao cadastrar usuário"

  /** What the screen renders: nothing (after a redirect when a window exists), or the form. */
  datatype View = Hidden(redirect: Option<string>) | FormView(form: UserFormData, isLoading: bool)

  function ViewOf(isAuthenticated: bool, hasWindow: bool, form: UserFormData, isLoading: bool): (v: View)
    ensures v.Hidden? <==> !isAuthenticated
    ensures v.Hidden? ==> (v.redirect.Some? <==> hasWindow) && (v.redirect.Some? ==> v.redirect.value == "/login")
    ensures v.FormView? ==> v.form == form && v.isLoading == isLoading
  {
    if !isAuthenticated then Hidden(if hasWindow then Some("/login") else None)
    else FormView(form, isLoading)
  }

  /**
   * The screen follows the session: after `logout` it hides the form (redirecting to the
   * login page when a window exists), and after `login` with a non-empty token it shows the
   * current form.
   */
  lemma ViewFollowsSession(s: AuthContext.Session, t: string, hasDocument: bool, hasWindow: bool,
                           form: UserFormData, isLoading: bool)
    ensures ViewOf(AuthContext.Authenticated(AuthContext.LoggedOut(s, hasDocument).token), hasWindow, form, isLoading)
            == Hidden(if hasWindow then Some("/login") else None)
    ensures t != "" ==>
              ViewOf(AuthContext.Authenticated(AuthContext.LoggedIn(s, t, hasDocument).token), hasWindow, form, isLoading)
              == FormView(form, isLoading)
  {
  }

  datatype ScreenState = ScreenState(isLoading: bool, formData: UserFormData)

  class RegisterUserScreen {
    var isLoading: bool
    var formData: UserFormData

    function State(): ScreenState
      reads this
    {
      ScreenState(isLoading, formData)
    }

    function Render(isAuthenticated: bool, hasWindow: bool): View
      reads this
    {
      ViewOf(isAuthenticated, hasWindow, formData, isLoading)
    }

    constructor ()
      ensures State() == ScreenState(false, EmptyUserForm)
    {
      isLoading, formData := false, EmptyUserForm;
    }

    method HandleChange(field: UserField, value: string)
      modifies this
      ensures State() == old(State()).(formData := WithField(old(formData), field, value))
    {
      formData := WithField(formData, field, value);
    }

    /**
     * `handleSubmit`. Different passwords are refused; equal ones, empty included, are sent
     * with name and e-mail and no company. Success clears the form, a failure shows the
     * error's message; `isLoading` is false afterwards.
     */
    method HandleSubmit(result: Outcome<()>)
      returns (calls: seq<ServiceCall>, loadingDuringCall: bool, notice: Notice)
      modifies this
      ensures old(formData).password != old(formData).confirmPassword ==>
                calls == [] && !loadingDuringCall && notice == ErrorNotice(MismatchText) && State() == old(State())
      ensures old(formData).password == old(formData).confirmPassword ==>
                && calls == [UserRegister(old(formData).name, old(formData).email, old(formData).password, None)]
                && loadingDuringCall
                && notice == (if result.Resolved? then SuccessNotice(SignedUpText)
                              else ErrorNotice(MessageOr(result.error, ErrorFallback)))
                && State() == (if result.Resolved? then ScreenState(false, EmptyUserForm)
                               else old(State()).(isLoading := false))
    {
      calls, loadingDuringCall := [], false;
      if formData.password != formData.confirmPassword {
        notice := ErrorNotice(MismatchText);
        return;
      }
      isLoading := true;
      loadingDuringCall := isLoading;
      calls := [UserRegister(formData.name, formData.email, formData.password, None)];
      if result.Resolved? {
        notice := SuccessNotice(SignedUpText);
        formData := EmptyUserForm;
      } else {
        notice := ErrorNotice(MessageOr(result.error, ErrorFallback));
      }
      isLoading := false;
    }
  }
}
