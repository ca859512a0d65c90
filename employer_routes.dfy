/** The `/employers` routes: create, get, partial update and delete of employer rows. */
module EmployerRoutes {
  import opened Json
  import opened Numerals
  import opened Http
  import opened Models
  import opened Store

  datatype EmployerField = UserId | Name | Email | CompanyName | ContactPerson | PasswordHash

  function Key(f: EmployerField): string
  {
    match f
    case UserId => "user_id"
    case Name => "name"
    case Email => "email"
    case CompanyName => "company_name"
    case ContactPerson => "contact_person"
    case PasswordHash => "password_hash"
  }

  /** The keys `create_employer` requires, in the order `update_employer` visits them. */
  const Fields: seq<EmployerField> := [UserId, Name, Email, CompanyName, ContactPerson, PasswordHash]

  function Column(e: Employer, f: EmployerField): JsonValue
  {
    match f
    case UserId => JNum(e.userId as real)
    case Name => e.name
    case Email => e.email
    case CompanyName => e.companyName
    case ContactPerson => e.contactPerson
    case PasswordHash => e.passwordHash
  }

  lemma ColumnsDetermineEmployer(a: Employer, b: Employer)
    requires forall f :: Column(a, f) == Column(b, f)
    ensures a == b
  {
    assert Column(a, UserId) == Column(b, UserId);
    assert Column(a, Name) == Column(b, Name);
    assert Column(a, Email) == Column(b, Email);
    assert Column(a, CompanyName) == Column(b, CompanyName);
    assert Column(a, ContactPerson) == Column(b, ContactPerson);
    assert Column(a, PasswordHash) == Column(b, PasswordHash);
  }

  /** `_employer_to_dict` without `created_at`: every column except the password hash. */
  function EmployerToDict(id: int, e: Employer): (d: Body)
    ensures "password_hash" !in d
    ensures d.Keys == {"id", "user_id", "name", "email", "company_name", "contact_person"}
    ensures d["id"] == JNum(id as real)
    ensures forall f :: f != PasswordHash ==> d[Key(f)] == Column(e, f)
  {
    map["id" := JNum(id as real), "user_id" := JNum(e.userId as real), "name" := e.name, "email" := e.email,
        "company_name" := e.companyName, "contact_person" := e.contactPerson]
  }

  /**
   * The guards of `create_employer` and the row it builds. Every required key
   * must be truthy under `not data.get(k)`; `user_id` then goes through a bare
   * `int()`, so a value that does not convert is an unhandled error (500).
   */
  function NewEmployer(data: Option<Body>): (r: Result<Employer, Reply>)
    ensures !HasContent(data) ==> r == Failure(BadRequest("Missing JSON body"))
    ensures HasContent(data) && (exists f :: !Truthy(Get(data.value, Key(f)))) ==>
              r == Failure(BadRequest("Missing fields"))
    ensures HasContent(data) && (forall f :: Truthy(Get(data.value, Key(f)))) ==>
              (r.Failure? <==> PyInt(data.value["user_id"]).None?)
    ensures r.Failure? ==> r.error.status == 400 || r.error == ServerError
    ensures r.Success? ==>
              && HasContent(data)
              && EmployerComplete(r.value)
              && "user_id" in data.value
              && Some(r.value.userId) == PyInt(data.value["user_id"])
              && forall f :: f != UserId ==> Key(f) in data.value && Column(r.value, f) == data.value[Key(f)]
  {
    if !HasContent(data) then Failure(BadRequest("Missing JSON body"))
    else
      var body := data.value;
      if exists f :: !Truthy(Get(body, Key(f))) then Failure(BadRequest("Missing fields"))
      else
        assert Truthy(Get(body, Key(UserId))) && Truthy(Get(body, Key(Name))) && Truthy(Get(body, Key(Email)));
        assert Truthy(Get(body, Key(CompanyName))) && Truthy(Get(body, Key(ContactPerson)));
        assert Truthy(Get(body, Key(PasswordHash)));
        match PyInt(body["user_id"])
        case None => Failure(ServerError)
        case Some(userId) =>
          Success(Employer(userId, body["name"], body["email"], body["company_name"],
                           body["contact_person"], body["password_hash"]))
  }

  /** `update_employer` applies no emptiness check; only `int()` on `user_id` can raise. */
  predicate Acceptable(f: EmployerField, v: JsonValue)
  {
    f == UserId ==> PyInt(v).Some?
  }

  function Converted(f: EmployerField, v: JsonValue): JsonValue
  {
    if f != UserId then v
    else if PyInt(v).Some? then JNum(PyInt(v).value as real) else JNull
  }

  function Assign(e: Employer, f: EmployerField, v: JsonValue): (r: Employer)
    requires Acceptable(f, v)
    ensures Column(r, f) == Converted(f, v)
    ensures forall g :: g != f ==> Column(r, g) == Column(e, g)
  {
    match f
    case UserId => e.(userId := PyInt(v).value)
    case Name => e.(name := v)
    case Email => e.(email := v)
    case CompanyName => e.(companyName := v)
    case ContactPerson => e.(contactPerson := v)
    case PasswordHash => e.(passwordHash := v)
  }

  predicate Accepts(body: Body, fields: seq<EmployerField>)
  {
    forall f :: f in fields && Key(f) in body ==> Acceptable(f, body[Key(f)])
  }

  /** The loop of `update_employer` over `fields`. */
  function ApplyUpdate(e: Employer, body: Body, fields: seq<EmployerField>): (r: Result<Employer, Reply>)
    ensures r.Success? <==> Accepts(body, fields)
    ensures r.Success? ==> forall f ::
              Column(r.value, f) == if f in fields && Key(f) in body then Converted(f, body[Key(f)]) else Column(e, f)
    ensures r.Failure? ==> r == Failure(ServerError)
    decreases |fields|
  {
    if fields == [] then Success(e)
    else
      var f := fields[0];
      if Key(f) in body then
        if Acceptable(f, body[Key(f)]) then ApplyUpdate(Assign(e, f, body[Key(f)]), body, fields[1..])
        else Failure(ServerError)
      else ApplyUpdate(e, body, fields[1..])
  }

  /** A body that `create_employer` accepts, sent as an update, yields the employer it would create. */
  lemma CreateBodyUpdatesToCreatedEmployer(data: Option<Body>, e: Employer)
    requires NewEmployer(data).Success?
    ensures ApplyUpdate(e, data.value, Fields) == Success(NewEmployer(data).value)
  {
    var body, created := data.value, NewEmployer(data).value;
    assert Acceptable(UserId, body["user_id"]);
    var r := ApplyUpdate(e, body, Fields);
    forall f
      ensures Column(r.value, f) == Column(created, f)
    {
      assert f in Fields;
    }
    ColumnsDetermineEmployer(r.value, created);
  }

  method CreateEmployer(db: Database, data: Option<Body>) returns (reply: Reply)
    requires db.Valid()
    modifies db
    ensures db.Valid()
    ensures NewEmployer(data).Failure? ==> reply == NewEmployer(data).error && db.Snapshot() == old(db.Snapshot())
    ensures NewEmployer(data).Success? ==>
              var id, e := old(db.nextEmployer), NewEmployer(data).value;
              && id !in old(db.employers)
              && (EmployerClashes(old(db.employers), id, e) ==> reply == ServerError && db.Snapshot() == old(db.Snapshot()))
              && (!EmployerClashes(old(db.employers), id, e) ==>
                    && db.Snapshot() == old(db.Snapshot()).(employers := old(db.employers)[id := e])
                    && reply == Reply(201, RecordBody(EmployerToDict(id, e))))
  {
    var checked := NewEmployer(data);
    if checked.Failure? {
      return checked.error;
    }
    var id, committed := db.InsertEmployer(checked.value);
    if !committed {
      return ServerError;
    }
    reply := Reply(201, RecordBody(EmployerToDict(id, checked.value)));
  }

  method GetEmployer(db: Database, id: int) returns (reply: Reply)
    ensures id in db.employers ==> reply == Reply(200, RecordBody(EmployerToDict(id, db.employers[id])))
    ensures id !in db.employers ==> reply == NotFound
  {
    if id !in db.employers {
      return NotFound;
    }
    reply := Reply(200, RecordBody(EmployerToDict(id, db.employers[id])));
  }

  method UpdateEmployer(db: Database, id: int, data: Option<Body>) returns (reply: Reply)
    requires db.Valid()
    modifies db
    ensures db.Valid()
    ensures id !in old(db.employers) ==> reply == NotFound && db.Snapshot() == old(db.Snapshot())
    ensures id in old(db.employers) && !HasContent(data) ==>
              reply == BadRequest("Missing JSON body") && db.Snapshot() == old(db.Snapshot())
    ensures id in old(db.employers) && HasContent(data) ==>
              match ApplyUpdate(old(db.employers[id]), data.value, Fields)
              case Failure(err) => reply == err && db.Snapshot() == old(db.Snapshot())
              case Success(e) =>
                if EmployerComplete(e) && !EmployerClashes(old(db.employers), id, e) then
                  && db.Snapshot() == old(db.Snapshot()).(employers := old(db.employers)[id := e])
                  && reply == Reply(200, RecordBody(EmployerToDict(id, e)))
                else reply == ServerError && db.Snapshot() == old(db.Snapshot())
  {
    if id !in db.employers {
      return NotFound;
    }
    if !HasContent(data) {
      return BadRequest("Missing JSON body");
    }
    var body := data.value;
    var employer := db.employers[id];
    var i := 0;
    while i < |Fields|
      invariant 0 <= i <= |Fields|
      invariant ApplyUpdate(db.employers[id], body, Fields) == ApplyUpdate(employer, body, Fields[i..])
    {
      var f := Fields[i];
      assert Fields[i..][0] == f && Fields[i..][1..] == Fields[i + 1..];
      if Key(f) in body {
        var value := body[Key(f)];
        if f == UserId && PyInt(value).None? {
          return ServerError;
        }
        employer := Assign(employer, f, value);
      }
      i := i + 1;
    }
    var committed := db.UpdateEmployer(id, employer);
    if !committed {
      return ServerError;
    }
    reply := Reply(200, RecordBody(EmployerToDict(id, employer)));
  }

  method DeleteEmployer(db: Database, id: int) returns (reply: Reply)
    requires db.Valid()
    modifies db
    ensures db.Valid()
    ensures id !in old(db.employers) ==> reply == NotFound && db.Snapshot() == old(db.Snapshot())
    ensures id in old(db.employers) ==>
              && reply == Deleted
              && db.Snapshot() == WithoutEmployer(old(db.Snapshot()), id)
              && id !in db.employers
  {
    if id !in db.employers {
      return NotFound;
    }
    db.DeleteEmployer(id);
    reply := Deleted;
  }
}
