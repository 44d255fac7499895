/**
 * The authentication store of the storefront: the signed-in user, read
 * from the browser's saved copy at start-up, and the four request flags.
 */
module AuthSlice {
  import opened Wrappers

  /** The user record the API returns on sign-in, with its token. */
  datatype User = User(id: string, name: string, email: string, isAdmin: bool, token: string)

  class AuthState {
    var user: Option<User>
    var isError: bool
    var isSuccess: bool
    var isLoading: bool
    var message: string

    /** The initial state: the saved user, or none when nothing is saved; all flags clear. */
    constructor (saved: Option<User>)
      ensures user == saved
      ensures !isError && !isSuccess && !isLoading && message == ""
    {
      user := saved;
      isError := false;
      isSuccess := false;
      isLoading := false;
      message := "";
    }

    /** `reset`: the four status fields are cleared; `user` is never touched. */
    method Reset()
      modifies this
      ensures !isLoading && !isSuccess && !isError && message == ""
      ensures user == old(user)
    {
      isLoading := false;
      isSuccess := false;
      isError := false;
      message := "";
    }

    /** Every `pending` case: only `isLoading` is set. */
    method Pending()
      modifies this
      ensures isLoading
      ensures isError == old(isError) && isSuccess == old(isSuccess) && message == old(message)
      ensures user == old(user)
    {
      isLoading := true;
    }

    /** `register`, `login`, `getUserProfile` and `updateUserProfile` fulfilled: the payload is the user. */
    method UserFulfilled(payload: User)
      modifies this
      ensures !isLoading && isSuccess && user == Some(payload)
      ensures isError == old(isError) && message == old(message)
    {
      isLoading := false;
      isSuccess := true;
      user := Some(payload);
    }

    /** `register` and `login` rejected: the error is recorded and the user is signed out. */
    method CredentialsRejected(payload: string)
      modifies this
      ensures !isLoading && isError && message == payload && user == None
      ensures isSuccess == old(isSuccess)
    {
      isLoading := false;
      isError := true;
      message := payload;
      user := None;
    }

    /** `getUserProfile` and `updateUserProfile` rejected: the error is recorded; the user stays signed in. */
    method ProfileRejected(payload: string)
      modifies this
      ensures !isLoading && isError && message == payload
      ensures isSuccess == old(isSuccess) && user == old(user)
    {
      isLoading := false;
      isError := true;
      message := payload;
    }

    /** `logout.fulfilled`: the user is cleared and no flag changes. */
    method LogoutFulfilled()
      modifies this
      ensures user == None
      ensures isLoading == old(isLoading) && isSuccess == old(isSuccess)
      ensures isError == old(isError) && message == old(message)
    {
      user := None;
    }
  }
}
