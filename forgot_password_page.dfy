/** The forgot-password page (frontend/src/app/forgot-password/page.tsx): the blank-email
    check and the cascade that turns a failed request into a message. */
module ForgotPasswordPage {
  import opened Options
  import Text

  const EmailMissing := "Veuillez entrer votre adresse email."
  const GenericError := "Une erreur est survenue. Veuillez réessayer."
  const Unreachable := "Impossible de contacter le serveur. Vérifiez votre connexion."

  /** `err.response.data`, with the two fields the page looks at. */
  datatype ErrorBody = ErrorBody(detail: Option<string>, message: Option<string>)

  /** The rejected value of `authAPI.forgotPassword`: a server answer (`response`), a request
      that got no answer (`request`), or some other error with its `message`. */
  datatype ClientError = ClientError(response: Option<Option<ErrorBody>>, request: bool, message: Option<string>)

  /** The message the catch block shows. */
  function ErrorText(err: ClientError): (text: string)
    ensures text != ""
    ensures err.response.Some? && err.response.value.Some? && Truthy(err.response.value.value.detail) ==>
      text == err.response.value.value.detail.value
    ensures (err.response.Some? && err.response.value.Some? && !Truthy(err.response.value.value.detail)
      && Truthy(err.response.value.value.message)) ==> text == err.response.value.value.message.value
    ensures (err.response.Some? && (err.response.value.None?
      || (!Truthy(err.response.value.value.detail) && !Truthy(err.response.value.value.message)))) ==> text == GenericError
    ensures err.response.None? && err.request ==> text == Unreachable
    ensures err.response.None? && !err.request ==> text == OrElse(err.message, GenericError)
    ensures text == Unreachable ==> err.response.Some? || err.request || err.message == Some(Unreachable)
  {
    match err.response
    case Some(data) =>
      var detail := if data.Some? then data.value.detail else None;
      var message := if data.Some? then data.value.message else None;
      OrElse(detail, OrElse(message, GenericError))
    case None =>
      if err.request then Unreachable else OrElse(err.message, GenericError)
  }

  /** How the request ended: resolved with a value of the given truthiness, or rejected. */
  datatype RequestOutcome = Resolved(truthy: bool) | Rejected(error: ClientError)

  class ForgotPasswordForm {
    var email: string
    var error: string
    var success: bool
    var isSubmitting: bool
    /** Every address sent to the backend, oldest first. */
    var requests: seq<string>

    constructor ()
      ensures email == "" && error == "" && !success && !isSubmitting && requests == []
    {
      email := "";
      error := "";
      success := false;
      isSubmitting := false;
      requests := [];
    }

    method SetEmail(value: string)
      modifies this
      ensures email == value
      ensures error == old(error) && success == old(success) && isSubmitting == old(isSubmitting)
      ensures requests == old(requests)
    {
      email := value;
    }

    /** `handleSubmit`: the untrimmed address is sent when it is not blank. */
    method HandleSubmit(outcome: RequestOutcome)
      modifies this
      ensures Text.Trim(email) == [] ==>
        (error == EmailMissing && !success && requests == old(requests) && isSubmitting == old(isSubmitting))
      ensures Text.Trim(email) != [] ==> (requests == old(requests) + [email] && !isSubmitting)
      ensures Text.Trim(email) != [] && outcome == Resolved(true) ==> success && error == ""
      ensures Text.Trim(email) != [] && outcome == Resolved(false) ==> !success && error == GenericError
      ensures Text.Trim(email) != [] && outcome.Rejected? ==> !success && error == ErrorText(outcome.error)
      ensures success <==> error == ""
      ensures email == old(email)
    {
      error := "";
      success := false;
      if Text.Trim(email) == [] {
        error := EmailMissing;
        return;
      }
      isSubmitting := true;
      requests := requests + [email];
      match outcome {
        case Resolved(truthy) =>
          if truthy {
            success := true;
          } else {
            error := GenericError;
          }
        case Rejected(err) =>
          error := ErrorText(err);
      }
      isSubmitting := false;
    }
  }

  /** A blank address is refused without contacting the backend exactly when it holds only
      whitespace. */
  lemma BlankEmailIff(email: string)
    ensures Text.Trim(email) == [] <==> forall i :: 0 <= i < |email| ==> Text.IsJsSpace(email[i])
  {
    Text.TrimEmptyIff(email);
  }
}
