/** The login form's Redux slice: email, password, a setter each and a clear. */
module LoginSlice {

  class LoginState {
    var email: string
    var password: string

    /** Both fields are empty. */
    predicate IsInitial()
      reads this
    {
      email == "" && password == ""
    }

    constructor ()
      ensures IsInitial()
    {
      email, password := "", "";
    }

    method SetEmail(payload: string)
      modifies this
      ensures email == payload && password == old(password)
    {
      email := payload;
    }

    method SetPassword(payload: string)
      modifies this
      ensures password == payload && email == old(email)
    {
      password := payload;
    }

    method ClearLogin()
      modifies this
      ensures IsInitial()
    {
      email := "";
      password := "";
    }
  }

  /** Clearing twice leaves the state clearing once leaves: the initial one. */
  method ClearTwiceIsInitial(state: LoginState)
    modifies state
    ensures state.IsInitial()
  {
    state.ClearLogin();
    state.ClearLogin();
  }
}
