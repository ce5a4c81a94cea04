/** The registration page (frontend/src/app/register/page.tsx): the role picker, the two
    client-side checks and the hand-off to `AuthProvider.register`. */
module RegisterPage {
  import opened Options
  import Text
  import AuthContext

  const Mismatch := "Les mots de passe ne correspondent pas."
  const TooShort := "Le mot de passe doit contenir au moins 6 caractères."
  const RegistrationFailed := "Échec de l'inscription. Cet email est peut-être déjà utilisé."
  const MinLength := 6

  /** The role buttons only ever set one of these two values. */
  predicate IsOfferedRole(role: string) {
    role == "student" || role == "admin"
  }

  /** The checks of `handleSubmit`, in the code's order: match first, then length. */
  function ValidationError(password: string, confirmPassword: string): (e: Option<string>)
    ensures e == None <==> password == confirmPassword && Text.Utf16Length(password) >= MinLength
    ensures password != confirmPassword ==> e == Some(Mismatch)
    ensures e == Some(TooShort) <==> password == confirmPassword && Text.Utf16Length(password) < MinLength
  {
    if password != confirmPassword then Some(Mismatch)
    else if Text.Utf16Length(password) < MinLength then Some(TooShort)
    else None
  }

  class RegisterForm {
    var fullName: string
    var email: string
    var password: string
    var confirmPassword: string
    var error: string
    var role: string
    var isSubmitting: bool

    ghost predicate Valid()
      reads this
    {
      IsOfferedRole(role)
    }

    constructor ()
      ensures Valid() && role == "student"
      ensures fullName == "" && email == "" && password == "" && confirmPassword == ""
      ensures error == "" && !isSubmitting
    {
      fullName := "";
      email := "";
      password := "";
      confirmPassword := "";
      error := "";
      role := "student";
      isSubmitting := false;
    }

    /** The two role buttons. */
    method SelectRole(admin: bool)
      requires Valid()
      modifies this
      ensures Valid()
      ensures role == if admin then "admin" else "student"
      ensures fullName == old(fullName) && email == old(email) && password == old(password)
      ensures confirmPassword == old(confirmPassword) && error == old(error) && isSubmitting == old(isSubmitting)
    {
      role := if admin then "admin" else "student";
    }

    method SetFields(fullName: string, email: string, password: string, confirmPassword: string)
      requires Valid()
      modifies this
      ensures Valid()
      ensures this.fullName == fullName && this.email == email
      ensures this.password == password && this.confirmPassword == confirmPassword
      ensures role == old(role) && error == old(error) && isSubmitting == old(isSubmitting)
    {
      this.fullName := fullName;
      this.email := email;
      this.password := password;
      this.confirmPassword := confirmPassword;
    }

    /** `handleSubmit`. `registered` and `loginResponse` are what the backend answers to the
        register call and to the automatic login that follows it. On success the page stays
        in its submitting state while the provider navigates away. */
    method HandleSubmit(auth: AuthContext.AuthProvider, registered: bool, loginResponse: Option<AuthContext.LoginResponse>)
      requires Valid()
      modifies this, auth
      ensures Valid() && role == old(role)
      ensures var v := ValidationError(password, confirmPassword);
        v.Some? ==> (error == v.value && isSubmitting == old(isSubmitting)
          && auth.calls == old(auth.calls) && auth.user == old(auth.user) && auth.navigations == old(auth.navigations))
      ensures var data := AuthContext.RegisterData(fullName, email, password, role);
        ValidationError(password, confirmPassword) == None ==>
        auth.calls == old(auth.calls) + [AuthContext.RegisterCall(data)]
          + (if registered then [AuthContext.LoginCall(AuthContext.Credentials(email, password))] else [])
      ensures ValidationError(password, confirmPassword) == None && registered && loginResponse.Some? ==>
        (error == "" && isSubmitting && auth.user == Some(loginResponse.value.user)
         && auth.navigations == old(auth.navigations) + [AuthContext.LoginTarget(None, loginResponse.value.user.role)])
      ensures ValidationError(password, confirmPassword) == None && !(registered && loginResponse.Some?) ==>
        (error == RegistrationFailed && !isSubmitting
         && auth.user == old(auth.user) && auth.navigations == old(auth.navigations))
      ensures fullName == old(fullName) && email == old(email)
      ensures password == old(password) && confirmPassword == old(confirmPassword)
    {
      error := "";
      var v := ValidationError(password, confirmPassword);
      if v.Some? {
        error := v.value;
        return;
      }
      isSubmitting := true;
      var ok := auth.Register(AuthContext.RegisterData(fullName, email, password, role), registered, loginResponse);
      if !ok {
        error := RegistrationFailed;
        isSubmitting := false;
      }
    }
  }
}
