/** The registration form's Redux slice: four fields, a setter each and a clear. */
module RegisterSlice {

  class RegisterState {
    var username: string
    var email: string
    var password: string
    var role: string

    /** All four fields are empty. */
    predicate IsInitial()
      reads this
    {
      username == "" && email == "" && password == "" && role == ""
    }

    constructor ()
      ensures IsInitial()
    {
      username, email, password, role := "", "", "", "";
    }

    method SetUsername(payload: string)
      modifies this
      ensures username == payload
      ensures email == old(email) && password == old(password) && role == old(role)
    {
      username := payload;
    }

    method SetEmail(payload: string)
      modifies this
      ensures email == payload
      ensures username == old(username) && password == old(password) && role == old(role)
    {
      email := payload;
    }

    method SetPassword(payload: string)
      modifies this
      ensures password == payload
      ensures username == old(username) && email == old(email) && role == old(role)
    {
      password := payload;
    }

    method SetRole(payload: string)
      modifies this
      ensures role == payload
      ensures username == old(username) && email == old(email) && password == old(password)
    {
      role := payload;
    }

    method ClearRegister()
      modifies this
      ensures IsInitial()
    {
      username := "";
      email := "";
      password := "";
      role := "";
    }
  }

  /** Two sets of the same field keep only the second payload; the other fields stay. */
  method SecondSetWins(state: RegisterState, first: string, second: string)
    modifies state
    ensures state.username == second
    ensures state.email == old(state.email) && state.password == old(state.password) && state.role == old(state.role)
  {
    state.SetUsername(first);
    state.SetUsername(second);
  }

  /** Clearing twice leaves the same state as clearing once: the initial one. */
  method ClearTwiceIsInitial(state: RegisterState)
    modifies state
    ensures state.IsInitial()
  {
    state.ClearRegister();
    state.ClearRegister();
  }

  /** A cleared slice reads like a fresh one whatever was typed before. */
  method ClearedEqualsFresh(username: string, email: string, password: string, role: string)
    returns (same: bool)
    ensures same
  {
    var pristine := new RegisterState();
    var used := new RegisterState();
    used.SetUsername(username);
    used.SetEmail(email);
    used.SetPassword(password);
    used.SetRole(role);
    used.ClearRegister();
    same := used.username == pristine.username && used.email == pristine.email
      && used.password == pristine.password && used.role == pristine.role;
  }
}
