/** The sign-in page (src/pages/Signin/SignInPage.jsx): the two-tab switch,
    the e-mail and password record with its visibility flag, and the
    password input's type. */
module SignIn {

  datatype Tab = SignInTab | RegisterTab

  /** The `formData` record. */
  datatype SignInForm = SignInForm(email: string, password: string, showPassword: bool)

  datatype Field = Email | Password

  const InitialForm := SignInForm("", "", false)

  /** `handleInputChange(field, value)`. */
  function InputChanged(f: SignInForm, field: Field, value: string): (r: SignInForm)
    ensures field == Email ==> r.email == value && r.password == f.password
    ensures field == Password ==> r.password == value && r.email == f.email
    ensures r.showPassword == f.showPassword
  {
    match field
    case Email => f.(email := value)
    case Password => f.(password := value)
  }

  /** `togglePasswordVisibility`. */
  function VisibilityToggled(f: SignInForm): (r: SignInForm)
    ensures r.showPassword == !f.showPassword
    ensures r.email == f.email && r.password == f.password
  {
    f.(showPassword := !f.showPassword)
  }

  /** `type={formData.showPassword ? 'text' : 'password'}`. */
  function PasswordInputType(f: SignInForm): (r: string)
    ensures r == "text" <==> f.showPassword
    ensures r != "text" ==> r == "password"
  {
    if f.showPassword then "text" else "password"
  }

  /** The password starts masked, and two toggles mask it again without
      touching what was typed. */
  lemma VisibilityRoundTrip(f: SignInForm)
    ensures VisibilityToggled(VisibilityToggled(f)) == f
    ensures PasswordInputType(InitialForm) == "password"
    ensures PasswordInputType(VisibilityToggled(f)) != PasswordInputType(f)
  {
  }

  /** Typing in one input never changes the other or the visibility. */
  lemma InputsIndependent(f: SignInForm, e: string, p: string)
    ensures InputChanged(InputChanged(f, Email, e), Password, p)
         == InputChanged(InputChanged(f, Password, p), Email, e)
    ensures InputChanged(InputChanged(f, Email, e), Password, p) == SignInForm(e, p, f.showPassword)
  {
  }

  /** The sign-in panel renders iff its tab is active, and likewise the register panel. */
  predicate SignInPanelShown(tab: Tab) { tab == SignInTab }
  predicate RegisterPanelShown(tab: Tab) { tab == RegisterTab }

  lemma ExactlyOnePanel(tab: Tab)
    ensures SignInPanelShown(tab) != RegisterPanelShown(tab)
  {
  }

  /** The page's state and handlers. */
  class SignInPage {
    var formData: SignInForm
    var activeTab: Tab

    constructor ()
      ensures formData == InitialForm && activeTab == SignInTab
    {
      formData := InitialForm;
      activeTab := SignInTab;
    }

    method HandleInputChange(field: Field, value: string)
      modifies this`formData
      ensures formData == InputChanged(old(formData), field, value)
    {
      match field
      case Email => formData := formData.(email := value);
      case Password => formData := formData.(password := value);
    }

    method TogglePasswordVisibility()
      modifies this`formData
      ensures formData == VisibilityToggled(old(formData))
    {
      formData := formData.(showPassword := !formData.showPassword);
    }

    method SetActiveTab(tab: Tab)
      modifies this`activeTab
      ensures activeTab == tab
    {
      activeTab := tab;
    }
  }
}
