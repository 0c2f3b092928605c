/** The login screen (src/components/Login.js): a two-field form, a
    show-password toggle and a submit handler that calls onLogin (App's
    handleLogin) only when both fields are filled in. */
module Login {

  import opened Pages
  import App

  /** The two inputs; `e.target.name` is always one of them. */
  datatype Field = Email | Password

  datatype FormData = FormData(email: string, password: string)

  const EmptyForm := FormData("", "")

  function Get(form: FormData, field: Field): string
  {
    match field
    case Email => form.email
    case Password => form.password
  }

  /** `{...formData, [name]: value}`: the named field takes the value, the
      other field keeps its own. */
  function WithField(form: FormData, field: Field, value: string): (out: FormData)
    ensures Get(out, field) == value
    ensures forall other :: other != field ==> Get(out, other) == Get(form, other)
  {
    match field
    case Email => form.(email := value)
    case Password => form.(password := value)
  }

  /** JavaScript truthiness of a string: only the empty string is falsy. */
  predicate Truthy(s: string)
  {
    s != ""
  }

  /** The guard of handleSubmit: `formData.email && formData.password`. */
  predicate CanSubmit(form: FormData): (ok: bool)
    ensures ok <==> |form.email| > 0 && |form.password| > 0
    ensures ok ==> form != EmptyForm
  {
    Truthy(form.email) && Truthy(form.password)
  }

  /** The guard holds exactly when neither field is empty; nothing is
      trimmed, so blanks count as content. */
  lemma CanSubmitIff(form: FormData)
    ensures CanSubmit(form) <==> |form.email| > 0 && |form.password| > 0
    ensures CanSubmit(FormData(" ", " "))
    ensures !CanSubmit(EmptyForm)
  {
    assert " " != "";
  }

  /** Filling both fields, in either order, from the empty form enables submit
      exactly when both values are non-empty. */
  lemma FillBoth(e: string, p: string)
    ensures CanSubmit(WithField(WithField(EmptyForm, Email, e), Password, p)) <==> e != "" && p != ""
    ensures WithField(WithField(EmptyForm, Email, e), Password, p) ==
            WithField(WithField(EmptyForm, Password, p), Email, e)
  {
  }

  /** The `type` attribute of the password input. */
  function PasswordInputType(showPassword: bool): (t: string)
    ensures t == "text" <==> showPassword
    ensures t == "password" <==> !showPassword
  {
    if showPassword then "text" else "password"
  }

  class LoginForm {
    var formData: FormData
    var showPassword: bool

    /** The form starts empty with the password hidden. */
    constructor ()
      ensures formData == EmptyForm && !showPassword
      ensures PasswordInputType(showPassword) == "password"
    {
      formData := EmptyForm;
      showPassword := false;
    }

    /** handleInputChange: store the typed value under the input's name. */
    method HandleInputChange(field: Field, value: string)
      modifies this
      ensures formData == WithField(old(formData), field, value)
      ensures showPassword == old(showPassword)
    {
      match field
      case Email => formData := FormData(value, formData.password);
      case Password => formData := FormData(formData.email, value);
    }

    /** The eye button: flip whether the password is shown. */
    method ToggleShowPassword()
      modifies this
      ensures showPassword == !old(showPassword)
      ensures formData == old(formData)
    {
      showPassword := !showPassword;
    }

    /** handleSubmit: call onLogin when both fields are filled, else do
        nothing at all. */
    method HandleSubmit(app: App.AppState) returns (loggedIn: bool)
      modifies app
      ensures loggedIn <==> CanSubmit(formData)
      ensures loggedIn ==> app.Nav() == Apply(old(app.Nav()), SignIn) && app.Data() == old(app.Data())
      ensures !loggedIn ==> unchanged(app)
      ensures old(app.Valid()) ==> app.Valid()
    {
      if formData.email != "" && formData.password != "" {
        app.HandleLogin();
        loggedIn := true;
      } else {
        loggedIn := false;
      }
    }

    /** The "Sign up here" button. */
    method GoToSignup(app: App.AppState)
      modifies app
      ensures app.Nav() == Apply(old(app.Nav()), GoTo(SIGNUP))
      ensures app.Data() == old(app.Data())
      ensures old(app.Valid()) ==> app.Valid()
    {
      app.NavigateToPage(SIGNUP);
    }
  }
}
