/** The password-recovery page: ask for a one-time code by e-mail, confirm it,
    then set a new password. Three flags drive which inputs the page shows. */
module ForgotPassword {
  import opened Common
  import opened HttpErrors
  import opened Storage
  import opened Auth

  datatype NewPassword = NewPassword(password: string, repeatPassword: string)

  const MismatchNotice := "Las contraseñas no coinciden"

  /** The `email` query parameter, or "" when it is missing or empty. */
  function EmailParam(params: map<string, string>): (email: string)
    ensures "email" in params ==> email == params["email"]
    ensures "email" !in params ==> email == ""
  {
    if "email" in params && params["email"] != "" then params["email"] else ""
  }

  /** Every field of the password-recovery page. */
  datatype ForgotState = ForgotState(
    requestOtp: bool,
    resetPassword: bool,
    hidePassword: bool,
    isLoading: bool,
    email: string,
    newPassword: NewPassword)

  class ForgotPasswordComponent {
    var requestOtp: bool
    var resetPassword: bool
    var hidePassword: bool
    var isLoading: bool
    var email: string
    var newPassword: NewPassword
    const authService: AuthService

    function State(): ForgotState
      reads this
    {
      ForgotState(requestOtp, resetPassword, hidePassword, isLoading, email, newPassword)
    }

    constructor (authService: AuthService)
      ensures this.authService == authService
      ensures State() == ForgotState(true, false, true, false, "", NewPassword("", ""))
    {
      this.authService := authService;
      requestOtp, resetPassword, hidePassword, isLoading := true, false, true, false;
      email := "";
      newPassword := NewPassword("", "");
    }

    /** The query-parameter callback of `ngOnInit`. */
    method OnQueryParams(params: map<string, string>)
      modifies this
      ensures State() == old(State()).(email := EmailParam(params))
    {
      email := if "email" in params && params["email"] != "" then params["email"] else "";
    }

    /** `reRequestOtp()`. */
    method ReRequestOtp()
      modifies this
      ensures State() == old(State()).(requestOtp := !old(requestOtp))
    {
      requestOtp := !requestOtp;
    }

    /** `handleRerequestOTP(email)`: a sent code moves the page on to the code
        input; a failure only stops the spinner. */
    method HandleRerequestOtp(outcome: Outcome<string>) returns (reply: Reply<string>)
      modifies this
      ensures reply == Handled(outcome)
      ensures outcome.Success? ==> State() == old(State()).(isLoading := false, requestOtp := false)
      ensures outcome.Failure? ==> State() == old(State()).(isLoading := false)
    {
      isLoading := true;
      reply := authService.Request(outcome);
      if reply.Ok? {
        isLoading := false;
        requestOtp := false;
      } else {
        isLoading := false;
      }
    }

    /** `handleConfirmOtp(otp, email)`: the address is kept before the
        request; only an accepted code opens the new-password inputs. */
    method HandleConfirmOtp(address: string, outcome: Outcome<()>) returns (reply: Reply<()>)
      modifies this
      ensures reply == Handled(outcome)
      ensures outcome.Success? ==> State() == old(State()).(email := address, resetPassword := true)
      ensures outcome.Failure? ==> State() == old(State()).(email := address)
    {
      email := address;
      reply := authService.Request(outcome);
      if reply.Ok? {
        resetPassword := true;
      }
    }

    /** `handleResetPassword(newPassword, repeatNewPassword)`: different
        passwords are refused without a request; equal ones are sent for the
        kept address, and a success signs the user out and clears storage. */
    method HandleResetPassword(password: string, repeat: string, outcome: Outcome<()>)
      returns (sent: Option<(NewPassword, string)>, reply: Option<Reply<()>>, notice: Option<string>)
      modifies this, authService, authService.storage
      ensures password != repeat ==>
                && sent.None? && reply.None? && notice == Some(MismatchNotice)
                && State() == old(State())
                && authService.State() == old(authService.State())
                && authService.storage.items == old(authService.storage.items)
      ensures password == repeat ==>
                && State() == old(State()).(newPassword := NewPassword(password, password))
                && sent == Some((NewPassword(password, password), old(email)))
                && reply == Some(Handled(outcome)) && notice.None?
      ensures password == repeat && outcome.Success? ==>
                && authService.State() == SignedOut(old(authService.State()))
                && authService.storage.items == map[]
      ensures password == repeat && outcome.Failure? ==>
                && authService.State() == old(authService.State())
                && authService.storage.items == old(authService.storage.items)
    {
      if password != repeat {
        sent, reply, notice := None, None, Some(MismatchNotice);
      } else {
        newPassword := NewPassword(password, repeat);
        sent, notice := Some((newPassword, email)), None;
        var r := authService.ResetPassword(outcome);
        reply := Some(r);
        if r.Ok? {
          authService.SetUserLogueado(false);
          authService.storage.Clear();
        }
      }
    }
  }
}
