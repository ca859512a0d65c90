/** The `/applications` routes: create, get, partial update and delete of application rows. */
module ApplicationRoutes {
  import opened Json
  import opened Numerals
  import opened Http
  import opened Models
  import opened Store

  datatype ApplicationField = UserId | JobId | Status

  function Key(f: ApplicationField): string
  {
    match f
    case UserId => "user_id"
    case JobId => "job_id"
    case Status => "status"
  }

  /** The keys `update_application` visits, in order. */
  const Fields: seq<ApplicationField> := [UserId, JobId, Status]

  /** The keys `create_application` requires. */
  const Required: seq<ApplicationField> := [UserId, JobId]

  function Column(a: Application, f: ApplicationField): JsonValue
  {
    match f
    case UserId => JNum(a.userId as real)
    case JobId => JNum(a.jobId as real)
    case Status => a.status
  }

  lemma ColumnsDetermineApplication(a: Application, b: Application)
    requires forall f :: Column(a, f) == Column(b, f)
    ensures a == b
  {
    assert Column(a, UserId) == Column(b, UserId);
    assert Column(a, JobId) == Column(b, JobId);
    assert Column(a, Status) == Column(b, Status);
  }

  /** `_application_to_dict` without `created_at`. */
  function ApplicationToDict(id: int, a: Application): (d: Body)
    ensures d.Keys == {"id", "user_id", "job_id", "status"}
    ensures d["id"] == JNum(id as real)
    ensures forall f :: d[Key(f)] == Column(a, f)
  {
    map["id" := JNum(id as real), "user_id" := JNum(a.userId as real), "job_id" := JNum(a.jobId as real),
        "status" := a.status]
  }

  /** `data.get("status", "pending")`. */
  function GivenStatus(body: Body): JsonValue
  {
    if "status" in body then body["status"] else JStr("pending")
  }

  /**
   * The guards of `create_application` and the row it stores. The two ids go
   * through a bare `int()`, so a value that does not convert is an unhandled
   * error (500), not a 400.
   */
  function NewApplication(data: Option<Body>): (r: Result<Application, Reply>)
    ensures !HasContent(data) ==> r == Failure(BadRequest("Missing JSON body"))
    ensures HasContent(data) && (MissingOrBlank(data.value, "user_id") || MissingOrBlank(data.value, "job_id")) ==>
              r == Failure(BadRequest("Missing fields"))
    ensures HasContent(data) && !MissingOrBlank(data.value, "user_id") && !MissingOrBlank(data.value, "job_id") ==>
              (r.Failure? <==> PyInt(data.value["user_id"]).None? || PyInt(data.value["job_id"]).None?)
    ensures r.Failure? ==> r.error.status == 400 || r.error == ServerError
    ensures r.Success? ==>
              && HasContent(data)
              && Some(r.value.userId) == PyInt(data.value["user_id"])
              && Some(r.value.jobId) == PyInt(data.value["job_id"])
              && r.value.status != JNull
              && ("status" !in data.value || data.value["status"] == JNull ==> r.value.status == JStr("pending"))
              && ("status" in data.value && data.value["status"] != JNull ==> r.value.status == data.value["status"])
  {
    if !HasContent(data) then Failure(BadRequest("Missing JSON body"))
    else
      var body := data.value;
      if MissingOrBlank(body, "user_id") || MissingOrBlank(body, "job_id") then Failure(BadRequest("Missing fields"))
      else match PyInt(body["user_id"])
        case None => Failure(ServerError)
        case Some(userId) =>
          match PyInt(body["job_id"])
          case None => Failure(ServerError)
          case Some(jobId) => Success(Application(userId, jobId, InsertedStatus(GivenStatus(body))))
  }

  /**
   * How `update_application` treats a present value: None or "" is a 400
   * "Invalid <field>"; an id that `int()` cannot convert raises (500).
   */
  function Rejection(f: ApplicationField, v: JsonValue): (r: Option<Reply>)
    ensures NullOrEmpty(v) ==> r == Some(BadRequest("Invalid " + Key(f)))
    ensures !NullOrEmpty(v) ==> (r.Some? <==> f != Status && PyInt(v).None?)
    ensures r.Some? && !NullOrEmpty(v) ==> r.value == ServerError
  {
    if NullOrEmpty(v) then Some(BadRequest("Invalid " + Key(f)))
    else if f != Status && PyInt(v).None? then Some(ServerError)
    else None
  }

  function Converted(f: ApplicationField, v: JsonValue): JsonValue
  {
    if f == Status then v
    else if PyInt(v).Some? then JNum(PyInt(v).value as real) else JNull
  }

  function Assign(a: Application, f: ApplicationField, v: JsonValue): (r: Application)
    requires Rejection(f, v).None?
    ensures Column(r, f) == Converted(f, v)
    ensures forall g :: g != f ==> Column(r, g) == Column(a, g)
  {
    match f
    case UserId => a.(userId := PyInt(v).value)
    case JobId => a.(jobId := PyInt(v).value)
    case Status => a.(status := v)
  }

  predicate Accepts(body: Body, fields: seq<ApplicationField>)
  {
    forall f :: f in fields && Key(f) in body ==> Rejection(f, body[Key(f)]).None?
  }

  /** The position of the first field of `fields` present in the body with a value the loop rejects, or |fields|. */
  function FirstRejected(body: Body, fields: seq<ApplicationField>): (i: nat)
    ensures i <= |fields|
    ensures Accepts(body, fields[..i])
    ensures i < |fields| ==> Key(fields[i]) in body && Rejection(fields[i], body[Key(fields[i])]).Some?
  {
    if fields == [] then 0
    else if Key(fields[0]) in body && Rejection(fields[0], body[Key(fields[0])]).Some? then 0
    else
      var i := FirstRejected(body, fields[1..]);
      assert fields[..i + 1] == [fields[0]] + fields[1..][..i];
      i + 1
  }

  /** The loop of `update_application` over `fields`. */
  function ApplyUpdate(a: Application, body: Body, fields: seq<ApplicationField>): (r: Result<Application, Reply>)
    ensures r.Success? <==> Accepts(body, fields)
    ensures r.Success? ==> forall f ::
              Column(r.value, f) == if f in fields && Key(f) in body then Converted(f, body[Key(f)]) else Column(a, f)
    ensures r.Failure? ==>
              var i := FirstRejected(body, fields);
              i < |fields| && Some(r.error) == Rejection(fields[i], body[Key(fields[i])])
    decreases |fields|
  {
    if fields == [] then Success(a)
    else
      var f := fields[0];
      if Key(f) in body then
        match Rejection(f, body[Key(f)])
        case Some(reply) => Failure(reply)
        case None => ApplyUpdate(Assign(a, f, body[Key(f)]), body, fields[1..])
      else ApplyUpdate(a, body, fields[1..])
  }

  /** A status set by an update is never null: the loop rejects None before `setattr`. */
  lemma UpdateKeepsStatus(a: Application, body: Body)
    requires a.status != JNull
    requires ApplyUpdate(a, body, Fields).Success?
    ensures ApplyUpdate(a, body, Fields).value.status != JNull
  {
    var r := ApplyUpdate(a, body, Fields).value;
    assert Column(r, Status) == r.status;
    assert Status in Fields;
  }

  /**
   * A body that `create_application` accepts, sent as an update of any
   * application, sets both ids to the created row's. The status follows the
   * update loop: an absent status keeps the old one, a null or empty one is
   * refused, and any other is the created row's.
   */
  lemma {:induction false} CreateBodyUpdatesToCreatedApplication(data: Option<Body>, a: Application)
    requires NewApplication(data).Success?
    ensures "status" in data.value && !NullOrEmpty(data.value["status"]) ==>
              ApplyUpdate(a, data.value, Fields) == Success(NewApplication(data).value)
    ensures "status" !in data.value ==>
              ApplyUpdate(a, data.value, Fields) == Success(NewApplication(data).value.(status := a.status))
    ensures "status" in data.value && NullOrEmpty(data.value["status"]) ==>
              ApplyUpdate(a, data.value, Fields) == Failure(BadRequest("Invalid status"))
  {
    var body, created := data.value, NewApplication(data).value;
    assert Fields[0] == UserId && Fields[1] == JobId && Fields[2] == Status;
    assert Rejection(UserId, body["user_id"]).None?;
    assert Rejection(JobId, body["job_id"]).None?;
    var r := ApplyUpdate(a, body, Fields);
    if "status" in body && NullOrEmpty(body["status"]) {
      assert FirstRejected(body, Fields) == 2;
      assert "Invalid " + "status" == "Invalid status";
    } else {
      var expected := if "status" in body then created else created.(status := a.status);
      forall f
        ensures Column(r.value, f) == Column(expected, f)
      {
        assert f in Fields;
      }
      ColumnsDetermineApplication(r.value, expected);
    }
  }

  method CreateApplication(db: Database, data: Option<Body>) returns (reply: Reply)
    requires db.Valid()
    modifies db
    ensures db.Valid()
    ensures NewApplication(data).Failure? ==> reply == NewApplication(data).error && db.Snapshot() == old(db.Snapshot())
    ensures NewApplication(data).Success? ==>
              var id := old(db.nextApplication);
              && id !in old(db.applications)
              && db.Snapshot() == old(db.Snapshot()).(applications := old(db.applications)[id := NewApplication(data).value])
              && reply == Reply(201, RecordBody(ApplicationToDict(id, NewApplication(data).value)))
  {
    var checked := NewApplication(data);
    if checked.Failure? {
      return checked.error;
    }
    var id := db.InsertApplication(checked.value);
    reply := Reply(201, RecordBody(ApplicationToDict(id, checked.value)));
  }

  method GetApplication(db: Database, id: int) returns (reply: Reply)
    ensures id in db.applications ==> reply == Reply(200, RecordBody(ApplicationToDict(id, db.applications[id])))
    ensures id !in db.applications ==> reply == NotFound
  {
    if id !in db.applications {
      return NotFound;
    }
    reply := Reply(200, RecordBody(ApplicationToDict(id, db.applications[id])));
  }

  method UpdateApplication(db: Database, id: int, data: Option<Body>) returns (reply: Reply)
    requires db.Valid()
    modifies db
    ensures db.Valid()
    ensures id !in old(db.applications) ==> reply == NotFound && db.Snapshot() == old(db.Snapshot())
    ensures id in old(db.applications) && !HasContent(data) ==>
              reply == BadRequest("Missing JSON body") && db.Snapshot() == old(db.Snapshot())
    ensures id in old(db.applications) && HasContent(data) ==>
              match ApplyUpdate(old(db.applications[id]), data.value, Fields)
              case Failure(e) => reply == e && db.Snapshot() == old(db.Snapshot())
              case Success(a) =>
                && db.Snapshot() == old(db.Snapshot()).(applications := old(db.applications)[id := a])
                && reply == Reply(200, RecordBody(ApplicationToDict(id, a)))
  {
    if id !in db.applications {
      return NotFound;
    }
    if !HasContent(data) {
      return BadRequest("Missing JSON body");
    }
    var body := data.value;
    var application := db.applications[id];
    var i := 0;
    while i < |Fields|
      invariant 0 <= i <= |Fields|
      invariant ApplyUpdate(db.applications[id], body, Fields) == ApplyUpdate(application, body, Fields[i..])
    {
      var f := Fields[i];
      assert Fields[i..][0] == f && Fields[i..][1..] == Fields[i + 1..];
      if Key(f) in body {
        var value := body[Key(f)];
        if NullOrEmpty(value) {
          return BadRequest("Invalid " + Key(f));
        }
        if f != Status && PyInt(value).None? {
          return ServerError;
        }
        application := Assign(application, f, value);
      }
      i := i + 1;
    }
    db.UpdateApplication(id, application);
    reply := Reply(200, RecordBody(ApplicationToDict(id, application)));
  }

  method DeleteApplication(db: Database, id: int) returns (reply: Reply)
    requires db.Valid()
    modifies db
    ensures db.Valid()
    ensures id !in old(db.applications) ==> reply == NotFound && db.Snapshot() == old(db.Snapshot())
    ensures id in old(db.applications) ==>
              && reply == Deleted
              && db.Snapshot() == WithoutApplication(old(db.Snapshot()), id)
              && id !in db.applications
  {
    if id !in db.applications {
      return NotFound;
    }
    db.DeleteApplication(id);
    reply := Deleted;
  }
}
