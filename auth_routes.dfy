/** The `/auth` routes: registration, login and logout over the users table. */
module AuthRoutes {
  import opened Json
  import opened Http
  import opened Models
  import opened Store

  /** A registration that passed every guard of `register` that does not look at the table. */
  datatype Registration = Registration(username: JsonValue, email: string, password: string, role: string)

  const Roles: set<string> := {"user", "employer", "admin"}

  /**
   * The guards of `register`, in order. A truthy `email` that is not a string
   * makes `"@" not in email` raise, and a truthy `password` that is not a
   * string makes `len(password)` raise: both are unhandled errors (500).
   */
  function CheckRegistration(data: Option<Body>): (r: Result<Registration, Reply>)
    ensures !HasContent(data) ==> r == Failure(BadRequest("Missing JSON body"))
    ensures HasContent(data) &&
            !(Truthy(Get(data.value, "username")) && Truthy(Get(data.value, "email"))
              && Truthy(Get(data.value, "password")) && Truthy(Get(data.value, "role"))) ==>
              r == Failure(BadRequest("Missing fields"))
    ensures r.Success? ==>
              && HasContent(data)
              && Truthy(r.value.username) && r.value.username == data.value["username"]
              && "email" in data.value && data.value["email"] == JStr(r.value.email) && '@' in r.value.email
              && "password" in data.value && data.value["password"] == JStr(r.value.password) && |r.value.password| >= 8
              && "role" in data.value && data.value["role"] == JStr(r.value.role) && r.value.role in Roles
    ensures r.Failure? ==> r.error.status == 400 || r.error == ServerError
  {
    if !HasContent(data) then Failure(BadRequest("Missing JSON body"))
    else
      var body := data.value;
      var username, email, password, role := Get(body, "username"), Get(body, "email"), Get(body, "password"), Get(body, "role");
      if !Truthy(username) || !Truthy(email) || !Truthy(password) || !Truthy(role) then
        Failure(BadRequest("Missing fields"))
      else if !email.JStr? then Failure(ServerError)
      else if '@' !in email.s then Failure(BadRequest("Invalid email"))
      else if !password.JStr? then Failure(ServerError)
      else if |password.s| < 8 then Failure(BadRequest("Password must be at least 8 characters"))
      else if !(role.JStr? && role.s in Roles) then Failure(BadRequest("Invalid role"))
      else Success(Registration(username, email.s, password.s, role.s))
  }

  /**
   * The string guards of `register` decide in the order email, password, role:
   * the first one that fails names the message.
   */
  lemma RegistrationGuardOrder(username: JsonValue, email: string, password: string, role: JsonValue)
    requires Truthy(username) && email != "" && password != "" && Truthy(role)
    ensures var data := Some(map["username" := username, "email" := JStr(email), "password" := JStr(password), "role" := role]);
            && ('@' !in email ==> CheckRegistration(data) == Failure(BadRequest("Invalid email")))
            && ('@' in email && |password| < 8 ==>
                  CheckRegistration(data) == Failure(BadRequest("Password must be at least 8 characters")))
            && ('@' in email && |password| >= 8 && !(role.JStr? && role.s in Roles) ==>
                  CheckRegistration(data) == Failure(BadRequest("Invalid role")))
            && ('@' in email && |password| >= 8 && role.JStr? && role.s in Roles ==>
                  CheckRegistration(data) == Success(Registration(username, email, password, role.s)))
  {
    var body := map["username" := username, "email" := JStr(email), "password" := JStr(password), "role" := role];
    assert body != map[] by { assert "role" in body; }
  }

  /** The row `register` adds: the hash of the password, never the password itself. */
  function NewUser(reg: Registration): (u: User)
    ensures Truthy(reg.username) ==> UserComplete(u)
    ensures u.username == reg.username && u.email == reg.email && u.role == reg.role
    ensures forall p :: CheckPasswordHash(u.passwordHash, p) <==> p == reg.password
  {
    User(reg.username, reg.email, GeneratePasswordHash(reg.password), reg.role)
  }

  predicate EmailTaken(users: map<int, User>, email: string)
  {
    exists k :: k in users && users[k].email == email
  }

  method Register(db: Database, data: Option<Body>) returns (reply: Reply)
    requires db.Valid()
    modifies db
    ensures db.Valid()
    ensures CheckRegistration(data).Failure? ==>
              reply == CheckRegistration(data).error && db.Snapshot() == old(db.Snapshot())
    ensures CheckRegistration(data).Success? ==>
              var reg, id := CheckRegistration(data).value, old(db.nextUser);
              if EmailTaken(old(db.users), reg.email) then
                reply == BadRequest("Email already exists") && db.Snapshot() == old(db.Snapshot())
              else if UserClashes(old(db.users), id, NewUser(reg)) then
                reply == ServerError && db.Snapshot() == old(db.Snapshot())
              else
                && id !in old(db.users)
                && db.Snapshot() == old(db.Snapshot()).(users := old(db.users)[id := NewUser(reg)])
                && reply == Reply(201, MessageBody("User created"))
  {
    var checked := CheckRegistration(data);
    if checked.Failure? {
      return checked.error;
    }
    var reg := checked.value;
    if EmailTaken(db.users, reg.email) {
      return BadRequest("Email already exists");
    }
    var id, committed := db.InsertUser(NewUser(reg));
    if !committed {
      return ServerError;
    }
    reply := Reply(201, MessageBody("User created"));
  }

  /**
   * The guards of `login` before the lookup: the email to look up and the
   * password as sent. A truthy non-string email makes `"@" not in email` raise.
   */
  function CheckLogin(data: Option<Body>): (r: Result<(string, JsonValue), Reply>)
    ensures !HasContent(data) ==> r == Failure(BadRequest("Missing JSON body"))
    ensures HasContent(data) && !(Truthy(Get(data.value, "email")) && Truthy(Get(data.value, "password"))) ==>
              r == Failure(BadRequest("Missing fields"))
    ensures r.Success? ==>
              && HasContent(data)
              && Get(data.value, "email") == JStr(r.value.0) && '@' in r.value.0
              && Get(data.value, "password") == r.value.1 && Truthy(r.value.1)
    ensures r.Failure? ==> r.error.status == 400 || r.error == ServerError
  {
    if !HasContent(data) then Failure(BadRequest("Missing JSON body"))
    else
      var email, password := Get(data.value, "email"), Get(data.value, "password");
      if !Truthy(email) || !Truthy(password) then Failure(BadRequest("Missing fields"))
      else if !email.JStr? then Failure(ServerError)
      else if '@' !in email.s then Failure(BadRequest("Invalid email"))
      else Success((email.s, password))
  }

  const InvalidCredentials: Reply := Reply(401, ErrorBody("Invalid credentials"))

  /**
   * `login`: an unknown email or a wrong password is 401; the password check
   * of a found user raises on a password that is not a string.
   */
  method Login(db: Database, data: Option<Body>) returns (reply: Reply)
    requires db.Valid()
    ensures CheckLogin(data).Failure? ==> reply == CheckLogin(data).error
    ensures CheckLogin(data).Success? ==>
              var (email, password) := CheckLogin(data).value;
              && (!EmailTaken(db.users, email) ==> reply == InvalidCredentials)
              && forall k :: k in db.users && db.users[k].email == email ==>
                   && (!password.JStr? ==> reply == ServerError)
                   && (password.JStr? && !CheckPasswordHash(db.users[k].passwordHash, password.s) ==>
                         reply == InvalidCredentials)
                   && (password.JStr? && CheckPasswordHash(db.users[k].passwordHash, password.s) ==>
                         reply == Reply(200, LoginBody(AccessToken(k), k, db.users[k].role)))
  {
    var checked := CheckLogin(data);
    if checked.Failure? {
      return checked.error;
    }
    var (email, password) := checked.value;
    if !EmailTaken(db.users, email) {
      return InvalidCredentials;
    }
    var k :| k in db.users && db.users[k].email == email;
    forall k' | k' in db.users && db.users[k'].email == email
      ensures k' == k
    {
      ConstraintsMeanUnique(db.Snapshot(), k, k');
    }
    if !password.JStr? {
      return ServerError;
    }
    if !CheckPasswordHash(db.users[k].passwordHash, password.s) {
      return InvalidCredentials;
    }
    reply := Reply(200, LoginBody(AccessToken(k), k, db.users[k].role));
  }

  /** `logout` revokes nothing and answers the same whatever the state. */
  function Logout(): (r: Reply)
    ensures r.status == 200 && r.body == MessageBody("Logged out")
  {
    Reply(200, MessageBody("Logged out"))
  }
}
