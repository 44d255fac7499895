/**
 * The registration page: its form and the submit checks, which run in a
 * fixed order and stop at the first that fails.
 */
module RegisterPage {
  const FillAllFields := "Please fill in all fields"
  const PasswordsDiffer := "Passwords do not match"
  const PasswordTooShort := "Password must be at least 6 characters"
  const MinPasswordLength := 6

  datatype RegisterField = Name | Email | Password | ConfirmPassword

  /** The data the `register` thunk is dispatched with; the confirmation is not part of it. */
  datatype RegisterData = RegisterData(name: string, email: string, password: string)

  /** What a submit does: one error toast, or `register` dispatched. */
  datatype RegisterSubmission = RegisterError(message: string) | DispatchRegister(data: RegisterData)

  class RegisterForm {
    var name: string
    var email: string
    var password: string
    var confirmPassword: string

    constructor ()
      ensures name == "" && email == "" && password == "" && confirmPassword == ""
    {
      name := "";
      email := "";
      password := "";
      confirmPassword := "";
    }

    predicate AllFilled()
      reads this
    {
      name != "" && email != "" && password != "" && confirmPassword != ""
    }

    method HandleChange(field: RegisterField, value: string)
      modifies this
      ensures name == (if field == Name then value else old(name))
      ensures email == (if field == Email then value else old(email))
      ensures password == (if field == Password then value else old(password))
      ensures confirmPassword == (if field == ConfirmPassword then value else old(confirmPassword))
    {
      match field
      case Name => name := value;
      case Email => email := value;
      case Password => password := value;
      case ConfirmPassword => confirmPassword := value;
    }

    /** Empty fields first, then the confirmation, then the length; a password of exactly 6 passes. */
    method HandleSubmit() returns (r: RegisterSubmission)
      ensures r == RegisterError(FillAllFields) <==> !AllFilled()
      ensures r == RegisterError(PasswordsDiffer) <==> AllFilled() && password != confirmPassword
      ensures r == RegisterError(PasswordTooShort) <==>
                AllFilled() && password == confirmPassword && |password| < MinPasswordLength
      ensures r.DispatchRegister? <==>
                AllFilled() && password == confirmPassword && |password| >= MinPasswordLength
      ensures r.DispatchRegister? ==> r.data == RegisterData(name, email, password)
    {
      if name == "" || email == "" || password == "" || confirmPassword == "" {
        return RegisterError(FillAllFields);
      }
      if password != confirmPassword {
        return RegisterError(PasswordsDiffer);
      }
      if |password| < MinPasswordLength {
        return RegisterError(PasswordTooShort);
      }
      r := DispatchRegister(RegisterData(name, email, password));
    }
  }
}
