/**
 * The reusable user editor: it registers a user in the session's company, or updates the
 * user it was opened with, after checking the passwords and the company.
 */
module UserForm {
  import opened Outcomes
  import opened Entities
  import opened Services

  const PasswordRequiredText: string := "Senha é obrigatória para novos usuários."
  const MismatchText: string := "As senhas não coincidem."
  const NoCompanyText: string := "Empresa não identificada."
  const UpdatedText: string := "Usuário atualizado com sucesso"
  const CreatedText: string := "Usuário cadastrado com sucesso"
  const UpdateFallback: string := "Erro ao atualizar usuário"
  const CreateFallback: string := "Erro ao cadastrar usuário"

  datatype UserFormData = UserFormData(name: string, email: string, password: string, confirmPassword: string)

  const EmptyUserForm: UserFormData := UserFormData("", "", "", "")

  datatype UserField = NameField | EmailField | PasswordField | ConfirmPasswordField

  function FieldValue(f: UserFormData, field: UserField): string
  {
    match field
    case NameField => f.name
    case EmailField => f.email
    case PasswordField => f.password
    case ConfirmPasswordField => f.confirmPassword
  }

  /** `setFormData(prev => ({ ...prev, [name]: value }))`. */
  function WithField(f: UserFormData, field: UserField, value: string): (r: UserFormData)
    ensures FieldValue(r, field) == value
    ensures forall g :: g != field ==> FieldValue(r, g) == FieldValue(f, g)
  {
    match field
    case NameField => f.(name := value)
    case EmailField => f.(email := value)
    case PasswordField => f.(password := value)
    case ConfirmPasswordField => f.(confirmPassword := value)
  }

  /** The user the form was opened with; its fields are untyped in the component. */
  datatype UserInit = UserInit(id: Option<string>, name: Option<string>, email: Option<string>)

  function OrEmpty(s: Option<string>): string
  {
    if s.Some? then s.value else ""
  }

  /** The prefill effect: the user's name and e-mail (or empty) and both passwords empty. */
  function PrefilledForm(u: UserInit): (f: UserFormData)
    ensures f.password == "" && f.confirmPassword == ""
    ensures u.name.Some? ==> f.name == u.name.value
    ensures u.name.None? ==> f.name == ""
    ensures u.email.Some? ==> f.email == u.email.value
    ensures u.email.None? ==> f.email == ""
  {
    UserFormData(OrEmpty(u.name), OrEmpty(u.email), "", "")
  }

  /** `initialData?.id` read as a condition. */
  function EditedUserId(initialData: Option<UserInit>): Option<string>
  {
    if initialData.Some? then Truthy(initialData.value.id) else None
  }

  /** The three checks of `handleSubmit`, in order; the first that fails gives its message. */
  function FirstValidationError(hasInitial: bool, f: UserFormData, company: Option<Company>): Option<string>
  {
    if !hasInitial && (f.password == "" || f.confirmPassword == "") then Some(PasswordRequiredText)
    else if f.password != "" && f.password != f.confirmPassword then Some(MismatchText)
    else if CompanyId(company).None? && !hasInitial then Some(NoCompanyText)
    else None
  }

  /**
   * A new user passes exactly when both passwords are typed and equal and the session has a
   * company with an id; an edited user passes exactly when the password is left empty or
   * confirmed.
   */
  lemma ValidationIff(hasInitial: bool, f: UserFormData, company: Option<Company>)
    ensures !hasInitial ==>
              (FirstValidationError(hasInitial, f, company).None? <==>
                 f.password != "" && f.password == f.confirmPassword && CompanyId(company).Some?)
    ensures hasInitial ==>
              (FirstValidationError(hasInitial, f, company).None? <==>
                 f.password == "" || f.password == f.confirmPassword)
  {
  }

  /** The checks are made in order: a missing password is reported before a mismatch or a missing company. */
  lemma MissingPasswordReportedFirst(f: UserFormData, company: Option<Company>)
    requires f.password == "" || f.confirmPassword == ""
    ensures FirstValidationError(false, f, company) == Some(PasswordRequiredText)
  {
  }

  /** The company the new user is registered with: `company?.id`, not read as a condition. */
  function RegisteredCompanyId(company: Option<Company>): (id: Option<string>)
    ensures company.None? ==> id.None?
    ensures company.Some? ==> id == company.value.id
  {
    if company.Some? then company.value.id else None
  }

  /**
   * A user opened for editing and submitted without touching the passwords passes the
   * checks, and the update it sends keeps the stored password.
   */
  lemma PrefilledEditKeepsPassword(u: UserInit, company: Option<Company>)
    ensures FirstValidationError(true, PrefilledForm(u), company).None?
    ensures u.id.Some? ==> UpdateCall(u.id.value, PrefilledForm(u)).newPassword.None?
  {
  }

  /**
   * Once the checks pass for a new user, the company id it is registered with is the one
   * the company check accepted, never absent nor empty.
   */
  lemma RegisteredIdIsCheckedId(f: UserFormData, company: Option<Company>)
    requires FirstValidationError(false, f, company).None?
    ensures RegisteredCompanyId(company) == CompanyId(company)
    ensures RegisteredCompanyId(company).Some? && RegisteredCompanyId(company).value != ""
  {
  }

  /** The association the creation branch requests: the new user's id and the company's, both non-empty. */
  function Association(newUserId: Option<string>, company: Option<Company>): (a: Option<ServiceCall>)
    ensures a.Some? <==> newUserId.Some? && newUserId.value != "" && CompanyId(company).Some?
    ensures a.Some? ==> a.value == UserAssociate(newUserId.value, CompanyId(company).value)
  {
    if newUserId.Some? && newUserId.value != "" && CompanyId(company).Some?
    then Some(UserAssociate(newUserId.value, CompanyId(company).value))
    else None
  }

  /** The update request: name and e-mail, and the password only when one was typed. */
  function UpdateCall(id: string, f: UserFormData): (c: ServiceCall)
    ensures c.UserUpdate? && c.userId == id && c.userName == f.name && c.email == f.email
    ensures c.newPassword.Some? <==> f.password != ""
    ensures c.newPassword.Some? ==> c.newPassword.value == f.password
  {
    UserUpdate(id, f.name, f.email, if f.password != "" then Some(f.password) else None)
  }

  /**
   * The user is associated with the very company it was registered with, and the update of
   * an edited user never sends an empty password; once the checks pass, a password it sends
   * is the confirmed one.
   */
  lemma AssociationMatchesRegistration(newUserId: Option<string>, company: Option<Company>)
    ensures Association(newUserId, company).Some? ==>
              RegisteredCompanyId(company) == Some(Association(newUserId, company).value.companyId)
  {
  }

  lemma UpdateSendsConfirmedPassword(id: string, f: UserFormData, company: Option<Company>)
    ensures UpdateCall(id, f).newPassword != Some("")
    ensures FirstValidationError(true, f, company).None? && UpdateCall(id, f).newPassword.Some? ==>
              UpdateCall(id, f).newPassword.value == f.confirmPassword
  {
  }

  /**
   * An edited user without an id skips the password and company checks but is then
   * registered as a new user, with whatever password is typed, empty included.
   */
  lemma IdlessInitialDataRegisters(u: UserInit, f: UserFormData, company: Option<Company>)
    requires u.id.None? && f.password == ""
    ensures FirstValidationError(true, f, company).None?
    ensures EditedUserId(Some(u)).None?
  {
  }

  datatype FormState = FormState(isLoading: bool, formData: UserFormData)

  class UserFormComponent {
    const initialData: Option<UserInit>
    var isLoading: bool
    var formData: UserFormData

    function State(): FormState
      reads this
    {
      FormState(isLoading, formData)
    }

    constructor (initialData: Option<UserInit>)
      ensures this.initialData == initialData
      ensures State() == FormState(false, EmptyUserForm)
    {
      this.initialData := initialData;
      isLoading, formData := false, EmptyUserForm;
    }

    /** The effect on `initialData`: prefill from the user when there is one. */
    method Prefill()
      modifies this
      ensures State() == (if initialData.Some? then old(State()).(formData := PrefilledForm(initialData.value))
                          else old(State()))
    {
      if initialData.Some? {
        formData := PrefilledForm(initialData.value);
      }
    }

    method HandleChange(field: UserField, value: string)
      modifies this
      ensures State() == old(State()).(formData := WithField(old(formData), field, value))
    {
      formData := WithField(formData, field, value);
    }

    /**
     * `handleSubmit`. A failed check shows its message and sends nothing. The edit branch
     * updates the user; the creation branch registers the user, then associates the returned
     * id with the company when both are known, and clears the form on success. Failures show
     * the error's message; `isLoading` is false afterwards.
     */
    method HandleSubmit(company: Option<Company>, updateResult: Outcome<()>,
                        registerResult: Outcome<Option<string>>, associateResult: Outcome<()>)
      returns (calls: seq<ServiceCall>, notice: Notice, succeeded: bool)
      modifies this
      ensures var err := FirstValidationError(initialData.Some?, old(formData), company);
              err.Some? ==> calls == [] && notice == ErrorNotice(err.value) && !succeeded && State() == old(State())
      ensures var err := FirstValidationError(initialData.Some?, old(formData), company);
              var fallback := if initialData.Some? then UpdateFallback else CreateFallback;
              err.None? && EditedUserId(initialData).Some? ==>
                && calls == [UpdateCall(EditedUserId(initialData).value, old(formData))]
                && succeeded == updateResult.Resolved?
                && notice == (if updateResult.Resolved? then SuccessNotice(UpdatedText)
                              else ErrorNotice(InstanceMessage(updateResult.error, fallback)))
                && State() == old(State()).(isLoading := false)
      ensures var err := FirstValidationError(initialData.Some?, old(formData), company);
              var fallback := if initialData.Some? then UpdateFallback else CreateFallback;
              var f := old(formData);
              var register := UserRegister(f.name, f.email, f.password, RegisteredCompanyId(company));
              err.None? && EditedUserId(initialData).None? ==>
                if registerResult.Rejected? then
                  && calls == [register] && !succeeded
                  && notice == ErrorNotice(InstanceMessage(registerResult.error, fallback))
                  && State() == old(State()).(isLoading := false)
                else
                  var association := Association(registerResult.value, company);
                  && calls == [register] + (if association.Some? then [association.value] else [])
                  && succeeded == (association.None? || associateResult.Resolved?)
                  && notice == (if succeeded then SuccessNotice(CreatedText)
                                else ErrorNotice(InstanceMessage(associateResult.error, fallback)))
                  && State() == (if succeeded then FormState(false, EmptyUserForm)
                                 else old(State()).(isLoading := false))
    {
      calls, succeeded := [], false;
      var err := FirstValidationError(initialData.Some?, formData, company);
      if err.Some? {
        notice := ErrorNotice(err.value);
        return;
      }
      isLoading := true;
      var fallback := if initialData.Some? then UpdateFallback else CreateFallback;
      var editedId := EditedUserId(initialData);
      if editedId.Some? {
        calls := [UpdateCall(editedId.value, formData)];
        if updateResult.Resolved? {
          notice := SuccessNotice(UpdatedText);
          succeeded := true;
        } else {
          notice := ErrorNotice(InstanceMessage(updateResult.error, fallback));
        }
      } else {
        calls := [UserRegister(formData.name, formData.email, formData.password, RegisteredCompanyId(company))];
        if registerResult.Rejected? {
          notice := ErrorNotice(InstanceMessage(registerResult.error, fallback));
        } else {
          var association := Association(registerResult.value, company);
          if association.Some? {
            calls := calls + [association.value];
          }
          if association.Some? && associateResult.Rejected? {
            notice := ErrorNotice(InstanceMessage(associateResult.error, fallback));
          } else {
            notice := SuccessNotice(CreatedText);
            succeeded := true;
            formData := EmptyUserForm;
          }
        }
      }
      isLoading := false;
    }
  }
}
