/** Cross-checks between the two sides of the password reset: the reset-password page
    measures the new password in UTF-16 code units, the endpoint in code points. */
module Consistency {
  import opened Options
  import Text
  import ResetPasswordPage
  import AuthApi

  /** For passwords within the Basic Multilingual Plane, the page lets through exactly the
      password pairs the endpoint's own checks accept. */
  lemma ResetChecksAgreeOnBmp(token: string, newPassword: string, confirmPassword: string)
    requires token != ""
    requires forall i :: 0 <= i < |newPassword| ==> newPassword[i] as int < 0x1_0000
    ensures ResetPasswordPage.ValidationError(Some(token), newPassword, confirmPassword) == None
        <==> AuthApi.ResetValidation(newPassword, confirmPassword) == None
  {
    Text.Utf16LengthBmp(newPassword);
  }

  /** Whatever the endpoint's checks accept, the page accepts too. */
  lemma EndpointAcceptedImpliesPageAccepted(token: string, newPassword: string, confirmPassword: string)
    requires token != ""
    requires AuthApi.ResetValidation(newPassword, confirmPassword) == None
    ensures ResetPasswordPage.ValidationError(Some(token), newPassword, confirmPassword) == None
  {
  }

  /** Four characters outside the Basic Multilingual Plane make eight UTF-16 code units: the
      page sends the password and the endpoint answers that it is too short. */
  lemma AstralPasswordPassesPageOnly()
    ensures var p := "\U{1F600}\U{1F600}\U{1F600}\U{1F600}";
      ResetPasswordPage.ValidationError(Some("t"), p, p) == None
      && AuthApi.ResetValidation(p, p) == Some(AuthApi.ResetTooShort)
  {
    var p := "\U{1F600}\U{1F600}\U{1F600}\U{1F600}";
    assert p[1..][1..][1..][1..] == [];
    assert Text.Utf16Length(p) == 8;
  }
}
