/** The `/jobs` routes: create, get, partial update and delete of job rows. */
module JobRoutes {
  import opened Json
  import opened Numerals
  import opened Http
  import opened Models
  import opened Store

  datatype JobField = Title | Description | Location | Salary | EmployerId

  function Key(f: JobField): string
  {
    match f
    case Title => "title"
    case Description => "description"
    case Location => "location"
    case Salary => "salary"
    case EmployerId => "employer_id"
  }

  /** The keys `create_job` requires, in the order `update_job` visits them. */
  const Fields: seq<JobField> := [Title, Description, Location, Salary, EmployerId]

  /** A column of a job as JSON carries it. */
  function Column(j: Job, f: JobField): JsonValue
  {
    match f
    case Title => j.title
    case Description => j.description
    case Location => j.location
    case Salary => JNum(j.salary)
    case EmployerId => JNum(j.employerId as real)
  }

  /** Two jobs that agree on every column are the same job. */
  lemma ColumnsDetermineJob(a: Job, b: Job)
    requires forall f :: Column(a, f) == Column(b, f)
    ensures a == b
  {
    assert Column(a, Title) == Column(b, Title);
    assert Column(a, Description) == Column(b, Description);
    assert Column(a, Location) == Column(b, Location);
    assert Column(a, Salary) == Column(b, Salary);
    assert Column(a, EmployerId) == Column(b, EmployerId);
  }

  /** `_job_to_dict` without `created_at`: the id and every column under its key. */
  function JobToDict(id: int, j: Job): (d: Body)
    ensures d.Keys == {"id", "title", "description", "location", "salary", "employer_id"}
    ensures d["id"] == JNum(id as real)
    ensures forall f :: d[Key(f)] == Column(j, f)
  {
    map["id" := JNum(id as real), "title" := j.title, "description" := j.description,
        "location" := j.location, "salary" := JNum(j.salary), "employer_id" := JNum(j.employerId as real)]
  }

  /** Every key `create_job` requires is present, and neither None nor "". */
  predicate FieldsPresent(body: Body)
  {
    forall f :: !MissingOrBlank(body, Key(f))
  }

  /** The guards of `create_job`, in order, and the job it builds from the body. */
  function NewJob(data: Option<Body>): (r: Result<Job, Reply>)
    ensures !HasContent(data) ==> r == Failure(BadRequest("Missing JSON body"))
    ensures HasContent(data) && !FieldsPresent(data.value) ==> r == Failure(BadRequest("Missing fields"))
    ensures r.Success? ==>
              && HasContent(data)
              && FieldsPresent(data.value)
              && JobComplete(r.value)
              && "title" in data.value && r.value.title == data.value["title"]
              && "description" in data.value && r.value.description == data.value["description"]
              && "location" in data.value && r.value.location == data.value["location"]
              && "salary" in data.value && Some(r.value.salary) == PyFloat(data.value["salary"])
              && "employer_id" in data.value && Some(r.value.employerId) == PyInt(data.value["employer_id"])
    ensures r.Failure? ==> r.error.status == 400
  {
    if !HasContent(data) then Failure(BadRequest("Missing JSON body"))
    else
      var body := data.value;
      if !FieldsPresent(body) then Failure(BadRequest("Missing fields"))
      else
        assert !MissingOrBlank(body, Key(Salary)) && !MissingOrBlank(body, Key(EmployerId));
        assert !MissingOrBlank(body, Key(Title)) && !MissingOrBlank(body, Key(Description));
        assert !MissingOrBlank(body, Key(Location));
        match ParseFloatField(body["salary"], "salary")
        case Failure(err) =>
          Failure(BadRequest(err))
        case Success(salary) =>
          match ParseIntField(body["employer_id"], "employer_id")
          case Failure(err) =>
            Failure(BadRequest(err))
          case Success(employerId) =>
            Success(Job(body["title"], body["description"], body["location"], salary, employerId))
  }

  /**
   * With every field present, `create_job` converts the salary first and the
   * employer id second: the first that does not convert names the refusal,
   * and when both convert the job is created.
   */
  lemma NewJobConversions(body: Body)
    requires FieldsPresent(body)
    ensures "salary" in body && "employer_id" in body
    ensures PyFloat(body["salary"]).None? ==> NewJob(Some(body)) == Failure(BadRequest("Invalid salary"))
    ensures PyFloat(body["salary"]).Some? && PyInt(body["employer_id"]).None? ==>
              NewJob(Some(body)) == Failure(BadRequest("Invalid employer_id"))
    ensures PyFloat(body["salary"]).Some? && PyInt(body["employer_id"]).Some? ==> NewJob(Some(body)).Success?
  {
    assert !MissingOrBlank(body, Key(Salary)) && !MissingOrBlank(body, Key(EmployerId));
    assert HasContent(Some(body)) by {
      assert !MissingOrBlank(body, Key(Title));
    }
    assert "Invalid " + "salary" == "Invalid salary";
    assert "Invalid " + "employer_id" == "Invalid employer_id";
  }

  /** `update_job` takes a present value unless it is None or "", or a number that does not parse. */
  predicate Acceptable(f: JobField, v: JsonValue)
  {
    && !NullOrEmpty(v)
    && (f == Salary ==> PyFloat(v).Some?)
    && (f == EmployerId ==> PyInt(v).Some?)
  }

  /** The column value `setattr` stores for an acceptable value. */
  function Converted(f: JobField, v: JsonValue): JsonValue
  {
    match f
    case Salary => if PyFloat(v).Some? then JNum(PyFloat(v).value) else JNull
    case EmployerId => if PyInt(v).Some? then JNum(PyInt(v).value as real) else JNull
    case _ => v
  }

  /** `setattr(job, field, value)` after the field's conversion. */
  function Assign(j: Job, f: JobField, v: JsonValue): (r: Job)
    requires Acceptable(f, v)
    ensures Column(r, f) == Converted(f, v)
    ensures forall g :: g != f ==> Column(r, g) == Column(j, g)
    ensures JobComplete(j) ==> JobComplete(r)
  {
    match f
    case Title => j.(title := v)
    case Description => j.(description := v)
    case Location => j.(location := v)
    case Salary => j.(salary := PyFloat(v).value)
    case EmployerId => j.(employerId := PyInt(v).value)
  }

  /** Every field of `fields` that the body carries holds an acceptable value. */
  predicate Accepts(body: Body, fields: seq<JobField>)
  {
    forall f :: f in fields && Key(f) in body ==> Acceptable(f, body[Key(f)])
  }

  /** The position of the first field of `fields` present in the body with a value `update_job` rejects, or |fields|. */
  function FirstRejected(body: Body, fields: seq<JobField>): (i: nat)
    ensures i <= |fields|
    ensures Accepts(body, fields[..i])
    ensures i < |fields| ==> Key(fields[i]) in body && !Acceptable(fields[i], body[Key(fields[i])])
  {
    if fields == [] then 0
    else if Key(fields[0]) in body && !Acceptable(fields[0], body[Key(fields[0])]) then 0
    else
      var i := FirstRejected(body, fields[1..]);
      assert fields[..i + 1] == [fields[0]] + fields[1..][..i];
      i + 1
  }

  /**
   * The loop of `update_job` over `fields`: every present field set to its
   * converted value and every other field kept, or the reply of the first
   * rejected field.
   */
  function ApplyUpdate(j: Job, body: Body, fields: seq<JobField>): (r: Result<Job, Reply>)
    ensures r.Success? <==> Accepts(body, fields)
    ensures r.Success? ==> forall f ::
              Column(r.value, f) == if f in fields && Key(f) in body then Converted(f, body[Key(f)]) else Column(j, f)
    ensures r.Success? && JobComplete(j) ==> JobComplete(r.value)
    ensures r.Failure? ==> FirstRejected(body, fields) < |fields|
                           && r.error == BadRequest("Invalid " + Key(fields[FirstRejected(body, fields)]))
    decreases |fields|
  {
    if fields == [] then Success(j)
    else
      var f := fields[0];
      if Key(f) in body then
        if Acceptable(f, body[Key(f)]) then ApplyUpdate(Assign(j, f, body[Key(f)]), body, fields[1..])
        else Failure(BadRequest("Invalid " + Key(f)))
      else ApplyUpdate(j, body, fields[1..])
  }

  /** One turn of `update_job`'s loop: the first field of `fields` decides, the rest follow. */
  lemma ApplyUpdateStep(j: Job, body: Body, fields: seq<JobField>)
    requires fields != []
    ensures var f := fields[0];
            ApplyUpdate(j, body, fields)
            == if Key(f) !in body then ApplyUpdate(j, body, fields[1..])
               else if !Acceptable(f, body[Key(f)]) then Failure(BadRequest("Invalid " + Key(f)))
               else ApplyUpdate(Assign(j, f, body[Key(f)]), body, fields[1..])
  {
  }

  /** When every field before position `k` is accepted and the one at `k` is refused, `k` is the first refused. */
  lemma {:induction false} FirstRejectedAt(body: Body, fields: seq<JobField>, k: nat)
    requires k < |fields| && Accepts(body, fields[..k])
    requires Key(fields[k]) in body && !Acceptable(fields[k], body[Key(fields[k])])
    ensures FirstRejected(body, fields) == k
  {
    if k > 0 {
      assert fields[0] in fields[..k];
      assert fields[1..][k - 1] == fields[k];
      forall f | f in fields[1..][..k - 1] && Key(f) in body
        ensures Acceptable(f, body[Key(f)])
      {
        assert fields[1..][..k - 1] == fields[1..k];
        assert f in fields[..k];
      }
      FirstRejectedAt(body, fields[1..], k - 1);
    }
  }

  /**
   * A body that `create_job` accepts, sent as an update of any job, turns that
   * job into the one `create_job` would have built.
   */
  lemma CreateBodyUpdatesToCreatedJob(data: Option<Body>, j: Job)
    requires NewJob(data).Success?
    ensures ApplyUpdate(j, data.value, Fields) == Success(NewJob(data).value)
  {
    var body, created := data.value, NewJob(data).value;
    forall f | f in Fields && Key(f) in body
      ensures Acceptable(f, body[Key(f)])
    {
    }
    var r := ApplyUpdate(j, body, Fields);
    forall f
      ensures Column(r.value, f) == Column(created, f)
    {
      assert f in Fields;
    }
    ColumnsDetermineJob(r.value, created);
  }

  method CreateJob(db: Database, data: Option<Body>) returns (reply: Reply)
    requires db.Valid()
    modifies db
    ensures db.Valid()
    ensures NewJob(data).Failure? ==> reply == NewJob(data).error && db.Snapshot() == old(db.Snapshot())
    ensures NewJob(data).Success? ==>
              var id := old(db.nextJob);
              && id !in old(db.jobs)
              && db.Snapshot() == old(db.Snapshot()).(jobs := old(db.jobs)[id := NewJob(data).value])
              && reply == Reply(201, RecordBody(JobToDict(id, NewJob(data).value)))
  {
    var checked := NewJob(data);
    if checked.Failure? {
      return checked.error;
    }
    var id := db.InsertJob(checked.value);
    reply := Reply(201, RecordBody(JobToDict(id, checked.value)));
  }

  method GetJob(db: Database, id: int) returns (reply: Reply)
    ensures id in db.jobs ==> reply == Reply(200, RecordBody(JobToDict(id, db.jobs[id])))
    ensures id !in db.jobs ==> reply == NotFound
  {
    if id !in db.jobs {
      return NotFound;
    }
    reply := Reply(200, RecordBody(JobToDict(id, db.jobs[id])));
  }

  method UpdateJob(db: Database, id: int, data: Option<Body>) returns (reply: Reply)
    requires db.Valid()
    modifies db
    ensures db.Valid()
    ensures id !in old(db.jobs) ==> reply == NotFound && db.Snapshot() == old(db.Snapshot())
    ensures id in old(db.jobs) && !HasContent(data) ==>
              reply == BadRequest("Missing JSON body") && db.Snapshot() == old(db.Snapshot())
    ensures id in old(db.jobs) && HasContent(data) ==>
              match ApplyUpdate(old(db.jobs[id]), data.value, Fields)
              case Failure(e) => reply == e && db.Snapshot() == old(db.Snapshot())
              case Success(j) =>
                && db.Snapshot() == old(db.Snapshot()).(jobs := old(db.jobs)[id := j])
                && reply == Reply(200, RecordBody(JobToDict(id, j)))
  {
    if id !in db.jobs {
      return NotFound;
    }
    if !HasContent(data) {
      return BadRequest("Missing JSON body");
    }
    var updated := UpdatedJob(db.jobs[id], data.value);
    if updated.Failure? {
      return updated.error;
    }
    db.UpdateJob(id, updated.value);
    reply := Reply(200, RecordBody(JobToDict(id, updated.value)));
  }

  /** The checks `update_job` makes on one present field: the refusal, or None when the value is taken. */
  method CheckField(f: JobField, value: JsonValue) returns (refusal: Option<Reply>)
    ensures refusal.None? <==> Acceptable(f, value)
    ensures refusal.Some? ==> refusal.value == BadRequest("Invalid " + Key(f))
  {
    if NullOrEmpty(value) {
      return Some(BadRequest("Invalid " + Key(f)));
    }
    if f == Salary {
      var parsed := ParseFloatField(value, "salary");
      if parsed.Failure? {
        assert Key(f) == "salary";
        return Some(BadRequest(parsed.error));
      }
    }
    if f == EmployerId {
      var parsed := ParseIntField(value, "employer_id");
      if parsed.Failure? {
        assert Key(f) == "employer_id";
        return Some(BadRequest(parsed.error));
      }
    }
    refusal := None;
  }

  /** The loop of `update_job` over the fields, on the job as loaded: the updated job, or the first refusal. */
  method UpdatedJob(loaded: Job, body: Body) returns (r: Result<Job, Reply>)
    ensures r == ApplyUpdate(loaded, body, Fields)
  {
    var job := loaded;
    var i := 0;
    while i < |Fields|
      invariant 0 <= i <= |Fields|
      invariant ApplyUpdate(loaded, body, Fields) == ApplyUpdate(job, body, Fields[i..])
    {
      var f := Fields[i];
      assert Fields[i..][0] == f && Fields[i..][1..] == Fields[i + 1..];
      ApplyUpdateStep(job, body, Fields[i..]);
      if Key(f) in body {
        var value := body[Key(f)];
        var refusal := CheckField(f, value);
        if refusal.Some? {
          return Failure(refusal.value);
        }
        job := Assign(job, f, value);
      }
      i := i + 1;
    }
    r := Success(job);
  }

  method DeleteJob(db: Database, id: int) returns (reply: Reply)
    requires db.Valid()
    modifies db
    ensures db.Valid()
    ensures id !in old(db.jobs) ==> reply == NotFound && db.Snapshot() == old(db.Snapshot())
    ensures id in old(db.jobs) ==>
              && reply == Deleted
              && db.Snapshot() == WithoutJob(old(db.Snapshot()), id)
              && id !in db.jobs
  {
    if id !in db.jobs {
      return NotFound;
    }
    db.DeleteJob(id);
    reply := Deleted;
  }
}
