/**
 * The login page: the redirect of a signed-in user and the submit handler, which checks the
 * two fields, calls the context's `login` and shows its failure.
 */
module Login {
  import opened Wrappers
  import opened Types

  const FieldsRequired := "E-posta ve şifre gereklidir"
  const LoginFailed := "Giriş yapılamadı. Bilgilerinizi kontrol edin."

  /** What the page renders: a redirect to the dashboard, or the form. */
  datatype View = RedirectTo(path: string) | LoginForm

  /** A signed-in user is sent to '/' instead of seeing the form. */
  function ViewFor(user: Option<AdminUser>): (v: View)
    ensures v == LoginForm <==> user.None?
    ensures v.RedirectTo? ==> v.path == "/"
  {
    if user.Some? then RedirectTo("/") else LoginForm
  }

  class LoginPage {
    var email: string
    var password: string
    var showPassword: bool
    var error: string
    var isLoading: bool
    /** The `login(email, password)` calls made, in order. */
    var attempts: seq<(string, string)>

    constructor ()
      ensures email == "" && password == "" && !showPassword && error == "" && !isLoading && attempts == []
    {
      email := "";
      password := "";
      showPassword := false;
      error := "";
      isLoading := false;
      attempts := [];
    }

    /** The error banner is shown only for a non-empty error. */
    predicate ShowsError()
      reads this
    {
      error != ""
    }

    method SetEmail(e: string)
      modifies this`email
      ensures email == e
    {
      email := e;
    }

    method SetPassword(p: string)
      modifies this`password
      ensures password == p
    {
      password := p;
    }

    method TogglePassword()
      modifies this`showPassword
      ensures showPassword == !old(showPassword)
    {
      showPassword := !showPassword;
    }

    /**
     * `handleSubmit`: the error is cleared first. With an empty field the required-fields error
     * is set and `login` is not called. Otherwise `login` is called with the two fields, and a
     * failure shows its message or the fallback. Loading is off after every login call.
     */
    method HandleSubmit(outcome: Outcome<()>)
      modifies this`error, this`isLoading, this`attempts
      ensures email == "" || password == "" ==>
        attempts == old(attempts) && error == FieldsRequired && isLoading == old(isLoading)
      ensures email != "" && password != "" ==>
        && attempts == old(attempts) + [(email, password)]
        && error == (if outcome.Err? then TruthyMessageOr(outcome.fault, LoginFailed) else "")
        && !isLoading
      ensures outcome.Err? || email == "" || password == "" ==> ShowsError()
    {
      error := "";
      if email == "" || password == "" {
        error := FieldsRequired;
        return;
      }
      isLoading := true;
      attempts := attempts + [(email, password)];
      if outcome.Err? {
        error := TruthyMessageOr(outcome.fault, LoginFailed);
      }
      isLoading := false;
    }
  }
}
