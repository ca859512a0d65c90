/**
 * The login page's submit handler: the only writer of the session. The token
 * and the role are written independently, each only when the answer carries
 * a truthy value for it.
 */
module LoginPage {
  import opened Json
  import opened Session
  import opened PageState
  import AppShell

  /** What `loginUser` settles with: the decoded reply object, or a thrown error's message. */
  datatype LoginOutcome = Answered(data: Body) | Failed(message: string)

  /**
   * The text under the form. `LoggedIn` carries the reply's `user_id` and
   * `role` as the message template shows them (JNull for a missing key).
   */
  datatype Notice = NoNotice | ErrorNotice(text: string) | LoggedIn(userId: JsonValue, role: JsonValue)

  /** The session after a successful answer: each entry written only when the answer carries it, truthy. */
  function AfterLogin(s: Session, data: Body): (r: Session)
    ensures Truthy(Get(data, "token")) ==> r.token == data["token"]
    ensures !Truthy(Get(data, "token")) ==> r.token == s.token
    ensures Truthy(Get(data, "role")) ==> r.role == data["role"]
    ensures !Truthy(Get(data, "role")) ==> r.role == s.role
  {
    var token := Get(data, "token");
    var role := Get(data, "role");
    Session(if Truthy(token) then token else s.token, if Truthy(role) then role else s.role)
  }

  /**
   * An answer with a role but no token leaves a role stored without a token,
   * and the shell that loads after the redirect still shows only the
   * signed-out entries.
   */
  lemma RoleWithoutTokenStaysSignedOut(role: string)
    requires role != ""
    ensures AfterLogin(Cleared, map["role" := JStr(role)]) == Session(JNull, JStr(role))
    ensures AppShell.Nav(Truthy(AfterLogin(Cleared, map["role" := JStr(role)]).token), JStr(role))
              == [AppShell.Home, AppShell.Login, AppShell.Register]
  {
    AppShell.SignedOutSeesOnlyEntryPages(JStr(role));
  }

  class LoginPage {
    var message: Notice
    /** Set by `window.location.assign("/")`: the page reloads and the shell re-reads the session. */
    var redirected: bool

    constructor ()
      ensures message == NoNotice && !redirected
    {
      message := NoNotice;
      redirected := false;
    }

    /** `handleSubmit`, run to completion once `loginUser` has settled with `outcome`. */
    method HandleSubmit(store: SessionStore, outcome: LoginOutcome)
      modifies this, store
      ensures outcome.Failed? ==>
                && store.State() == old(store.State())
                && redirected == old(redirected)
                && message == ErrorNotice(ErrorText(outcome.message, "Login failed"))
      ensures outcome.Answered? ==>
                && store.State() == AfterLogin(old(store.State()), outcome.data)
                && redirected
                && message == LoggedIn(Get(outcome.data, "user_id"), Get(outcome.data, "role"))
    {
      message := NoNotice;
      match outcome {
        case Failed(err) =>
          message := ErrorNotice(ErrorText(err, "Login failed"));
        case Answered(data) =>
          var token := Get(data, "token");
          if Truthy(token) {
            store.SetToken(token);
          }
          var role := Get(data, "role");
          if Truthy(role) {
            store.SetRole(role);
          }
          message := LoggedIn(Get(data, "user_id"), role);
          redirected := true;
      }
    }
  }
}
