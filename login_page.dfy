/**
 * The sign-in page: its form, the submit check, and the effect that both
 * the sign-in and the registration page run whenever the store's
 * authentication state changes.
 */
module LoginPage {
  import opened Wrappers
  import opened AuthSlice

  const FillAllFields := "Please fill in all fields"

  /** The two keys of the form state. */
  datatype LoginField = Email | Password

  datatype LoginData = LoginData(email: string, password: string)

  /** What a submit does: an error toast, or the `login` thunk dispatched with its data. */
  datatype LoginSubmission = LoginError(message: string) | DispatchLogin(data: LoginData)

  class LoginForm {
    var email: string
    var password: string

    constructor ()
      ensures email == "" && password == ""
    {
      email := "";
      password := "";
    }

    method HandleChange(field: LoginField, value: string)
      modifies this
      ensures field == Email ==> email == value && password == old(password)
      ensures field == Password ==> password == value && email == old(email)
    {
      if field == Email {
        email := value;
      } else {
        password := value;
      }
    }

    /** An empty field stops the submit; any two non-empty strings are sent, with no other check. */
    method HandleSubmit() returns (r: LoginSubmission)
      ensures r.LoginError? <==> email == "" || password == ""
      ensures r.LoginError? ==> r.message == FillAllFields
      ensures r.DispatchLogin? ==> r.data == LoginData(email, password)
    {
      if email == "" || password == "" {
        return LoginError(FillAllFields);
      }
      r := DispatchLogin(LoginData(email, password));
    }
  }

  /** What one run of the effect does besides dispatching `reset`. */
  datatype EffectResult = EffectResult(errorToast: Option<string>, navigateHome: bool)

  /** The effect: it shows the stored error, goes to '/' once signed in or
      successful, and always dispatches `reset`. */
  method RunAuthEffect(auth: AuthState) returns (r: EffectResult)
    modifies auth
    ensures r.errorToast == if old(auth.isError) then Some(old(auth.message)) else None
    ensures r.navigateHome <==> old(auth.isSuccess) || old(auth.user).Some?
    ensures !auth.isLoading && !auth.isSuccess && !auth.isError && auth.message == ""
    ensures auth.user == old(auth.user)
  {
    var toast: Option<string> := None;
    if auth.isError {
      toast := Some(auth.message);
    }
    var navigate := auth.isSuccess || auth.user.Some?;
    auth.Reset();
    r := EffectResult(toast, navigate);
  }
}
