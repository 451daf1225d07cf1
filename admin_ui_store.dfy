/** The shared admin UI store (frontend/src/store/useAdminStore.js): two
    fields and the two transitions that set them. */
module AdminUiStore {

  datatype UiState = UiState(isLoggedIn: bool, adminName: string)

  const Initial := UiState(false, "")

  /** `login(name)`: both fields set, whatever they were. */
  function LoginState(s: UiState, name: string): UiState {
    UiState(true, name)
  }

  /** `logout()`: both fields reset. */
  function LogoutState(s: UiState): UiState {
    UiState(false, "")
  }

  /** Logout returns exactly to the initial state; both transitions are
      idempotent; the last login decides the name. */
  lemma Transitions(s: UiState, name: string, other: string)
    ensures LogoutState(s) == Initial
    ensures LoginState(LoginState(s, name), name) == LoginState(s, name)
    ensures LogoutState(LogoutState(s)) == LogoutState(s)
    ensures LoginState(LoginState(s, other), name) == LoginState(s, name)
    ensures LoginState(s, name).isLoggedIn && LoginState(s, name).adminName == name
  {
  }

  class AdminUi {
    var isLoggedIn: bool
    var adminName: string

    function State(): UiState
      reads this
    {
      UiState(isLoggedIn, adminName)
    }

    constructor ()
      ensures State() == Initial
    {
      isLoggedIn := false;
      adminName := "";
    }

    method Login(name: string)
      modifies this
      ensures State() == LoginState(old(State()), name)
    {
      isLoggedIn := true;
      adminName := name;
    }

    method Logout()
      modifies this
      ensures State() == LogoutState(old(State())) && State() == Initial
    {
      isLoggedIn := false;
      adminName := "";
    }
  }
}
