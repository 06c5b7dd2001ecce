/**
 * The company sign-up screen. Creating the company is followed, when the owner's e-mail and
 * password were typed, by a login as the owner, a look-up of the owner's companies and a
 * session login; otherwise the visitor is sent to the login page.
 */
module RegisterCompanyPage {
  import opened Outcomes
  import opened Entities
  import opened Services
  import AuthContext

  const LoggedInText: string := "Empresa cadastrada com sucesso!"
  const LoginLaterText: string := "Empresa cadastrada! Faça login para continuar."
  const ErrorFallback: string := "Erro ao cadastrar empresa"

  const EmptyForm: CompanyForm := CompanyForm("", "", "", "", "", "")

  datatype CompanyField = NameField | AddressField | PhoneField | EmailField | OwnerNameField | OwnerPasswordField

  function FieldValue(f: CompanyForm, field: CompanyField): string
  {
    match field
    case NameField => f.name
    case AddressField => f.address
    case PhoneField => f.phone
    case EmailField => f.email
    case OwnerNameField => f.ownerName
    case OwnerPasswordField => f.ownerPassword
  }

  /** `setFormData(prev => ({ ...prev, [name]: value }))`. */
  function WithField(f: CompanyForm, field: CompanyField, value: string): (r: CompanyForm)
    ensures FieldValue(r, field) == value
    ensures forall g :: g != field ==> FieldValue(r, g) == FieldValue(f, g)
  {
    match field
    case NameField => f.(name := value)
    case AddressField => f.(address := value)
    case PhoneField => f.(phone := value)
    case EmailField => f.(email := value)
    case OwnerNameField => f.(ownerName := value)
    case OwnerPasswordField => f.(ownerPassword := value)
  }

  /** `companies.length > 0 ? companies[0].company : null`. */
  function FirstCompany(companies: seq<UserCompany>): (c: Option<Company>)
    ensures c.Some? <==> companies != []
    ensures c.Some? ==> c.value == companies[0].company
  {
    if |companies| > 0 then Some(companies[0].company) else None
  }

  /**
   * What one submission does: the calls in order, the token handed to the session's `login`
   * (if any), the company offered alongside it, the notice and the navigation.
   */
  datatype Flow = Flow(
    calls: seq<ServiceCall>,
    token: Option<string>,
    offeredCompany: Option<Company>,
    notice: Notice,
    navigation: Option<string>)

  function Failed(calls: seq<ServiceCall>, e: Thrown): Flow
  {
    Flow(calls, None, None, ErrorNotice(MessageOr(e, ErrorFallback)), None)
  }

  function LoginLater(calls: seq<ServiceCall>): Flow
  {
    Flow(calls, None, None, SuccessNotice(LoginLaterText), Some("/login"))
  }

  /**
   * `handleSubmit` over the outcomes of its awaited steps: `created` for `createCompany`,
   * `loginResult` for `loginUser` (the `access_token` it returned), `decoded` for `jwtDecode`
   * (the token's `sub`), `companiesResult` for `getUserCompanies`. Outcomes of steps that are
   * not reached are ignored.
   */
  function SubmitFlow(form: CompanyForm, created: Outcome<()>, loginResult: Outcome<Option<string>>,
                      decoded: Outcome<Option<string>>, companiesResult: Outcome<seq<UserCompany>>): Flow
  {
    var createCalls := [CompanyCreate(form)];
    if created.Rejected? then Failed(createCalls, created.error)
    else if form.email == "" || form.ownerPassword == "" then LoginLater(createCalls)
    else
      var loginCalls := createCalls + [UserLogin(form.email, form.ownerPassword)];
      if loginResult.Rejected? then Failed(loginCalls, loginResult.error)
      else if loginResult.value.None? || loginResult.value.value == "" then LoginLater(loginCalls)
      else if decoded.Rejected? then Failed(loginCalls, decoded.error)
      else
        var lookupCalls := loginCalls + [UserCompaniesOf(decoded.value)];
        if companiesResult.Rejected? then Failed(lookupCalls, companiesResult.error)
        else Flow(lookupCalls, loginResult.value, FirstCompany(companiesResult.value),
                  SuccessNotice(LoggedInText), Some("/products"))
  }

  /** The company is always created first, and exactly once. */
  lemma CompanyCreatedFirst(form: CompanyForm, created: Outcome<()>, loginResult: Outcome<Option<string>>,
                            decoded: Outcome<Option<string>>, companiesResult: Outcome<seq<UserCompany>>)
    ensures var f := SubmitFlow(form, created, loginResult, decoded, companiesResult);
            && 1 <= |f.calls| <= 3 && f.calls[0] == CompanyCreate(form)
            && forall i :: 1 <= i < |f.calls| ==> !f.calls[i].CompanyCreate?
  {
  }

  /**
   * The session is logged in exactly when every step succeeded with both credentials typed
   * and a non-empty token, and then with that token, which authenticates the session.
   */
  lemma SessionLoginIff(form: CompanyForm, created: Outcome<()>, loginResult: Outcome<Option<string>>,
                        decoded: Outcome<Option<string>>, companiesResult: Outcome<seq<UserCompany>>)
    ensures var f := SubmitFlow(form, created, loginResult, decoded, companiesResult);
            f.token.Some? <==>
              && created.Resolved? && form.email != "" && form.ownerPassword != ""
              && loginResult.Resolved? && loginResult.value.Some? && loginResult.value.value != ""
              && decoded.Resolved? && companiesResult.Resolved?
    ensures var f := SubmitFlow(form, created, loginResult, decoded, companiesResult);
            f.token.Some? ==> f.token == loginResult.value && AuthContext.Authenticated(f.token)
  {
  }

  /**
   * The owner is taken to the products page exactly when the session is logged in, to the
   * login page when the company exists but no login happened, and nowhere after a failure;
   * a success notice goes with every navigation and an error notice with none.
   */
  lemma NavigationFollowsOutcome(form: CompanyForm, created: Outcome<()>, loginResult: Outcome<Option<string>>,
                                 decoded: Outcome<Option<string>>, companiesResult: Outcome<seq<UserCompany>>)
    ensures var f := SubmitFlow(form, created, loginResult, decoded, companiesResult);
            && (f.navigation == Some("/products") <==> f.token.Some?)
            && (f.navigation.Some? <==> f.notice.SuccessNotice?)
            && (f.navigation == Some("/login") ==> created.Resolved? && f.notice == SuccessNotice(LoginLaterText))
            && (f.notice.ErrorNotice? ==> f.notice.text != "")
  {
  }

  /** Without both owner credentials only the company is created and the owner must log in. */
  lemma NoCredentialsNoLogin(form: CompanyForm, loginResult: Outcome<Option<string>>,
                             decoded: Outcome<Option<string>>, companiesResult: Outcome<seq<UserCompany>>)
    requires form.email == "" || form.ownerPassword == ""
    ensures SubmitFlow(form, Resolved(()), loginResult, decoded, companiesResult)
            == Flow([CompanyCreate(form)], None, None, SuccessNotice(LoginLaterText), Some("/login"))
  {
  }

  datatype ScreenState = ScreenState(isLoading: bool, formData: CompanyForm)

  class RegisterCompanyScreen {
    var isLoading: bool
    var formData: CompanyForm

    function State(): ScreenState
      reads this
    {
      ScreenState(isLoading, formData)
    }

    constructor ()
      ensures State() == ScreenState(false, EmptyForm)
    {
      isLoading, formData := false, EmptyForm;
    }

    method HandleChange(field: CompanyField, value: string)
      modifies this
      ensures State() == old(State()).(formData := WithField(old(formData), field, value))
    {
      formData := WithField(formData, field, value);
    }

    /**
     * `handleSubmit` against the session provider: it performs `SubmitFlow` step by step,
     * logs the session in with the flow's token when there is one and leaves it alone
     * otherwise; `isLoading` is true during the calls and false afterwards.
     */
    method HandleSubmit(session: AuthContext.AuthProvider, created: Outcome<()>,
                        loginResult: Outcome<Option<string>>, decoded: Outcome<Option<string>>,
                        companiesResult: Outcome<seq<UserCompany>>)
      returns (calls: seq<ServiceCall>, loadingDuringCall: bool, notice: Notice, navigation: Option<string>)
      modifies this, session
      ensures var f := SubmitFlow(old(formData), created, loginResult, decoded, companiesResult);
              && calls == f.calls && notice == f.notice && navigation == f.navigation
              && session.State() == (if f.token.Some?
                                     then AuthContext.LoggedIn(old(session.State()), f.token.value, session.hasDocument)
                                     else old(session.State()))
      ensures navigation == Some("/products") ==> session.IsAuthenticated()
      ensures loadingDuringCall && State() == old(State()).(isLoading := false)
    {
      isLoading := true;
      loadingDuringCall := isLoading;
      navigation := None;
      calls := [CompanyCreate(formData)];
      if created.Rejected? {
        notice := ErrorNotice(MessageOr(created.error, ErrorFallback));
        isLoading := false;
        return;
      }
      if formData.email != "" && formData.ownerPassword != "" {
        calls := calls + [UserLogin(formData.email, formData.ownerPassword)];
        if loginResult.Rejected? {
          notice := ErrorNotice(MessageOr(loginResult.error, ErrorFallback));
          isLoading := false;
          return;
        }
        var accessToken := loginResult.value;
        if accessToken.Some? && accessToken.value != "" {
          var token := accessToken.value;
          if decoded.Rejected? {
            notice := ErrorNotice(MessageOr(decoded.error, ErrorFallback));
            isLoading := false;
            return;
          }
          calls := calls + [UserCompaniesOf(decoded.value)];
          if companiesResult.Rejected? {
            notice := ErrorNotice(MessageOr(companiesResult.error, ErrorFallback));
            isLoading := false;
            return;
          }
          // The company is offered to `login`, whose only parameter is the token.
          var userCompany := FirstCompany(companiesResult.value);
          session.Login(token);
          notice := SuccessNotice(LoggedInText);
          navigation := Some("/products");
          isLoading := false;
          return;
        }
      }
      notice := SuccessNotice(LoginLaterText);
      navigation := Some("/login");
      isLoading := false;
    }
  }
}
