/** The reset-password page (frontend/src/app/reset-password/page.tsx): the `token` query
    parameter, the form's checks, the submit button's guard and the strength meter. Lengths
    are JavaScript's `.length`, in UTF-16 code units. */
module ResetPasswordPage {
  import opened Options
  import Text

  const MountTokenMissing := "Token de réinitialisation manquant. Veuillez utiliser le lien reçu par email."
  const TokenMissing := "Token de réinitialisation manquant."
  const TooShort := "Le mot de passe doit contenir au moins 8 caractères."
  const Mismatch := "Les mots de passe ne correspondent pas."
  const FallbackError := "Une erreur est survenue. Le token est peut-être expiré."
  const MinLength := 8
  const LoginPath := "/login"
  /** The delay before the page moves to the login screen after a reset, in milliseconds. */
  const RedirectDelay := 3000

  /** The first check of `handleSubmit` that fails, in the code's order: token, length, match. */
  function ValidationError(token: Option<string>, newPassword: string, confirmPassword: string): (e: Option<string>)
    ensures e == None <==>
      Truthy(token) && Text.Utf16Length(newPassword) >= MinLength && newPassword == confirmPassword
    ensures !Truthy(token) ==> e == Some(TokenMissing)
    ensures Truthy(token) && Text.Utf16Length(newPassword) < MinLength ==> e == Some(TooShort)
    ensures e == Some(Mismatch) <==>
      Truthy(token) && Text.Utf16Length(newPassword) >= MinLength && newPassword != confirmPassword
  {
    if !Truthy(token) then Some(TokenMissing)
    else if Text.Utf16Length(newPassword) < MinLength then Some(TooShort)
    else if newPassword != confirmPassword then Some(Mismatch)
    else None
  }

  /** The submit button's `disabled`. */
  predicate SubmitDisabled(isSubmitting: bool, token: Option<string>, newPassword: string, confirmPassword: string) {
    isSubmitting || !Truthy(token) || Text.Utf16Length(newPassword) < MinLength || newPassword != confirmPassword
  }

  /** An enabled button submits a form that passes every check of `handleSubmit`. */
  lemma SubmitEnabledPassesChecks(isSubmitting: bool, token: Option<string>, newPassword: string, confirmPassword: string)
    ensures !SubmitDisabled(isSubmitting, token, newPassword, confirmPassword) <==>
      !isSubmitting && ValidationError(token, newPassword, confirmPassword) == None
  {
  }

  /** The hint under the confirmation field. */
  predicate ShowsMismatchHint(newPassword: string, confirmPassword: string) {
    confirmPassword != "" && newPassword != confirmPassword
  }

  /** Whenever the hint is shown the button is disabled and submitting would fail; once the
      token and the length pass, the failure is the mismatch message itself. An empty
      confirmation hides the hint even though the two fields differ. */
  lemma MismatchHintDisablesSubmit(isSubmitting: bool, token: Option<string>, newPassword: string, confirmPassword: string)
    ensures ShowsMismatchHint(newPassword, confirmPassword) ==>
      SubmitDisabled(isSubmitting, token, newPassword, confirmPassword)
      && ValidationError(token, newPassword, confirmPassword) != None
    ensures (ShowsMismatchHint(newPassword, confirmPassword) && Truthy(token)
      && Text.Utf16Length(newPassword) >= MinLength) ==> ValidationError(token, newPassword, confirmPassword) == Some(Mismatch)
    ensures confirmPassword == "" ==> !ShowsMismatchHint(newPassword, confirmPassword)
    ensures confirmPassword != "" ==> (ShowsMismatchHint(newPassword, confirmPassword) <==> newPassword != confirmPassword)
  {
  }

  datatype Strength = Strength(level: nat, caption: string, color: string)

  /** `getPasswordStrength`. */
  function PasswordStrength(password: string): (s: Strength)
    ensures s.level <= 3
    ensures s.level == 0 <==> password == ""
    ensures s.level == 1 <==> 0 < Text.Utf16Length(password) < 8
    ensures s.level == 3 <==> (Text.Utf16Length(password) >= 12
      && Text.Any(password, Text.IsUpper) && Text.Any(password, Text.IsLower) && Text.Any(password, Text.IsDigit))
    ensures s == Strength(0, "", "") || s == Strength(1, "Faible", "bg-red-500")
      || s == Strength(2, "Moyen", "bg-yellow-500") || s == Strength(3, "Fort", "bg-green-500")
  {
    var n := Text.Utf16Length(password);
    if n == 0 then Strength(0, "", "")
    else if n < 8 then Strength(1, "Faible", "bg-red-500")
    else if n < 12 then Strength(2, "Moyen", "bg-yellow-500")
    else if Text.Any(password, Text.IsUpper) && Text.Any(password, Text.IsLower) && Text.Any(password, Text.IsDigit)
    then Strength(3, "Fort", "bg-green-500")
    else Strength(2, "Moyen", "bg-yellow-500")
  }

  /** A password the meter calls anything but weak is long enough for the form. */
  lemma StrengthAboveWeakIsLongEnough(password: string)
    ensures PasswordStrength(password).level >= 2 <==> Text.Utf16Length(password) >= MinLength
  {
  }

  /** How the backend answered `authAPI.resetPassword`: accepted, or rejected with the
      response's `detail`, if it has one. */
  datatype ResetOutcome = Accepted | Rejected(detail: Option<string>)

  class ResetPasswordForm {
    const token: Option<string>
    var newPassword: string
    var confirmPassword: string
    var error: string
    var success: bool
    var isSubmitting: bool
    /** Navigations scheduled with `setTimeout`, as (delay, path). */
    var scheduled: seq<(nat, string)>
    /** Requests sent to the backend, as (token, new, confirm). */
    var requests: seq<(string, string, string)>

    /** Mounting the page: the effect reports a missing or empty token. */
    constructor (token: Option<string>)
      ensures this.token == token
      ensures error == if Truthy(token) then "" else MountTokenMissing
      ensures newPassword == "" && confirmPassword == "" && !success && !isSubmitting
      ensures scheduled == [] && requests == []
    {
      this.token := token;
      newPassword := "";
      confirmPassword := "";
      error := if Truthy(token) then "" else MountTokenMissing;
      success := false;
      isSubmitting := false;
      scheduled := [];
      requests := [];
    }

    method SetPasswords(newPassword: string, confirmPassword: string)
      modifies this
      ensures this.newPassword == newPassword && this.confirmPassword == confirmPassword
      ensures error == old(error) && success == old(success) && isSubmitting == old(isSubmitting)
      ensures scheduled == old(scheduled) && requests == old(requests)
    {
      this.newPassword := newPassword;
      this.confirmPassword := confirmPassword;
    }

    /** `handleSubmit`; `outcome` is how the backend answers, used only when the checks pass. */
    method HandleSubmit(outcome: ResetOutcome)
      modifies this
      ensures var v := ValidationError(token, newPassword, confirmPassword);
        v.Some? ==> error == v.value && !success && requests == old(requests) && scheduled == old(scheduled)
      ensures ValidationError(token, newPassword, confirmPassword) == None ==>
        requests == old(requests) + [(token.value, newPassword, confirmPassword)]
        && (outcome.Accepted? ==> success && error == "" && scheduled == old(scheduled) + [(RedirectDelay, LoginPath)])
        && (outcome.Rejected? ==> !success && error == OrElse(outcome.detail, FallbackError) && scheduled == old(scheduled))
      ensures error != ""  <==> !success
      ensures isSubmitting == (old(isSubmitting) && ValidationError(token, newPassword, confirmPassword).Some?)
      ensures newPassword == old(newPassword) && confirmPassword == old(confirmPassword)
    {
      error := "";
      success := false;
      var v := ValidationError(token, newPassword, confirmPassword);
      if v.Some? {
        error := v.value;
        return;
      }
      isSubmitting := true;
      requests := requests + [(token.value, newPassword, confirmPassword)];
      match outcome {
        case Accepted =>
          success := true;
          scheduled := scheduled + [(RedirectDelay, LoginPath)];
        case Rejected(detail) =>
          error := OrElse(detail, FallbackError);
      }
      isSubmitting := false;
    }
  }
}
