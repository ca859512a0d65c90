/**
 * The browser's session storage: two independent entries, the access token
 * and the role. JNull stands for an entry that is not set.
 */
module Session {
  import opened Json

  datatype Session = Session(token: JsonValue, role: JsonValue)

  const Cleared: Session := Session(JNull, JNull)

  class SessionStore {
    var token: JsonValue
    var role: JsonValue

    function State(): Session
      reads this
    {
      Session(token, role)
    }

    constructor (initial: Session)
      ensures State() == initial
    {
      token, role := initial.token, initial.role;
    }

    /** `setAuthToken`: writes the token entry and leaves the role entry alone. */
    method SetToken(t: JsonValue)
      modifies this
      ensures State() == old(State()).(token := t)
    {
      token := t;
    }

    /** `setAuthRole`: writes the role entry and leaves the token entry alone. */
    method SetRole(r: JsonValue)
      modifies this
      ensures State() == old(State()).(role := r)
    {
      role := r;
    }

    /** `clearAuthToken`, the one place the session is cleared: both entries go. */
    method Clear()
      modifies this
      ensures State() == Cleared
    {
      token, role := JNull, JNull;
    }
  }
}
