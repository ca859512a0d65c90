/**
 * What the pages send against what the routes do with it: a form field left
 * blank in an update keeps the stored column, a number input that is not a
 * numeral arrives as null, and the create forms store what was typed.
 */
module ClientServer {
  import opened Json
  import opened Numerals
  import opened Http
  import opened Models
  import J = JobRoutes
  import JP = JobsPage
  import E = EmployerRoutes
  import EP = EmployersPage
  import P = ProfileRoutes
  import PP = ProfilesPage
  import A = ApplicationRoutes
  import AP = ApplicationsPage

  /** A number input the server can read once `Number()` has run on it: a numeral. */
  predicate Numeral(s: string)
  {
    ParseDecimal(s).Some?
  }

  /**
   * A number input passes `update_job` when it is blank (not sent) or a numeral.
   * The form fields are plain strings here: the browser's sanitising of
   * `type="number"` inputs, which leaves only "" or a valid number, is not
   * modelled, so the refusal lemmas below cover strings a client other than
   * the pages' inputs would have to supply.
   */
  predicate NumberInputAccepted(s: string)
  {
    s == "" || Numeral(s)
  }

  /** `Number()` on a filled number input yields a value `update_job` takes exactly when the input is a numeral. */
  lemma NumberInputVerdict(s: string)
    requires s != ""
    ensures J.Acceptable(J.Salary, JsNumber(s)) <==> Numeral(s)
    ensures J.Acceptable(J.EmployerId, JsNumber(s)) <==> Numeral(s)
    ensures PyInt(JsNumber(s)).Some? <==> Numeral(s)
    ensures NullOrEmpty(JsNumber(s)) <==> !Numeral(s)
  {
  }

  /** The condition on a body under which `update_job` goes through, key by key. */
  predicate JobBodyAcceptable(p: Body)
  {
    && ("title" in p ==> !NullOrEmpty(p["title"]))
    && ("description" in p ==> !NullOrEmpty(p["description"]))
    && ("location" in p ==> !NullOrEmpty(p["location"]))
    && ("salary" in p ==> J.Acceptable(J.Salary, p["salary"]))
    && ("employer_id" in p ==> J.Acceptable(J.EmployerId, p["employer_id"]))
  }

  /** A body whose every field `update_job` accepts meets the key-by-key condition. */
  lemma JobAcceptsKeyByKey(p: Body)
    requires J.Accepts(p, J.Fields)
    ensures JobBodyAcceptable(p)
  {
    assert J.Title in J.Fields && J.Description in J.Fields && J.Location in J.Fields;
    assert J.Salary in J.Fields && J.EmployerId in J.Fields;
  }

  /** A body `update_job` goes through with meets the key-by-key condition. */
  lemma JobAcceptedOnlyIf(j: Job, p: Body)
    requires J.ApplyUpdate(j, p, J.Fields).Success?
    ensures JobBodyAcceptable(p)
  {
    JobAcceptsKeyByKey(p);
  }

  /** A body that meets the key-by-key condition goes through `update_job`. */
  lemma JobAcceptedIf(j: Job, p: Body)
    requires JobBodyAcceptable(p)
    ensures J.ApplyUpdate(j, p, J.Fields).Success?
  {
    forall f | f in J.Fields && J.Key(f) in p
      ensures J.Acceptable(f, p[J.Key(f)])
    {
      match f
      case Title =>
      case Description =>
      case Location =>
      case Salary =>
      case EmployerId =>
    }
    assert J.Accepts(p, J.Fields);
  }

  /** `update_job` takes a body exactly when no present text is null or "" and each present number converts. */
  lemma JobAcceptsByBody(j: Job, p: Body)
    ensures J.ApplyUpdate(j, p, J.Fields).Success? <==> JobBodyAcceptable(p)
  {
    if J.ApplyUpdate(j, p, J.Fields).Success? {
      JobAcceptedOnlyIf(j, p);
    }
    if JobBodyAcceptable(p) {
      JobAcceptedIf(j, p);
    }
  }

  /**
   * The Jobs update form against `update_job`: the update goes through
   * exactly when both number inputs are blank or numerals.
   */
  lemma JobUpdateAccepted(j: Job, form: JP.JobForm)
    ensures J.ApplyUpdate(j, JP.UpdatePayload(form), J.Fields).Success?
            <==> NumberInputAccepted(form.salary) && NumberInputAccepted(form.employerId)
  {
    JobAcceptsByBody(j, JP.UpdatePayload(form));
    JP.UpdatePayloadByKey(form);
    if form.salary != "" {
      NumberInputVerdict(form.salary);
    }
    if form.employerId != "" {
      NumberInputVerdict(form.employerId);
    }
  }

  /** One column after `update_job`: the present key's converted value, or the old column. */
  lemma JobColumnByBody(j: Job, p: Body, f: J.JobField)
    requires J.ApplyUpdate(j, p, J.Fields).Success?
    ensures J.Column(J.ApplyUpdate(j, p, J.Fields).value, f)
            == if J.Key(f) in p then J.Converted(f, p[J.Key(f)]) else J.Column(j, f)
    ensures J.Key(f) in p ==> J.Acceptable(f, p[J.Key(f)])
  {
    assert f in J.Fields;
  }

  /** A salary column that holds the converted salary of the body, or the old one. */
  lemma SalaryFromColumn(u: Job, j: Job, p: Body)
    requires J.Column(u, J.Salary) == if "salary" in p then J.Converted(J.Salary, p["salary"]) else J.Column(j, J.Salary)
    requires "salary" in p ==> J.Acceptable(J.Salary, p["salary"])
    ensures "salary" in p ==> PyFloat(p["salary"]) == Some(u.salary)
    ensures "salary" !in p ==> u.salary == j.salary
  {
  }

  /** An employer id column that holds the converted id of the body, or the old one. */
  lemma EmployerIdFromColumn(u: Job, j: Job, p: Body)
    requires J.Column(u, J.EmployerId)
             == if "employer_id" in p then J.Converted(J.EmployerId, p["employer_id"]) else J.Column(j, J.EmployerId)
    requires "employer_id" in p ==> J.Acceptable(J.EmployerId, p["employer_id"])
    ensures "employer_id" in p ==> PyInt(p["employer_id"]) == Some(u.employerId)
    ensures "employer_id" !in p ==> u.employerId == j.employerId
  {
  }

  /** What `update_job` stores, read off the body: a present key's converted value, or the old column. */
  lemma JobUpdateByBody(j: Job, p: Body)
    requires J.ApplyUpdate(j, p, J.Fields).Success?
    ensures var u := J.ApplyUpdate(j, p, J.Fields).value;
            && u.title == (if "title" in p then p["title"] else j.title)
            && u.description == (if "description" in p then p["description"] else j.description)
            && u.location == (if "location" in p then p["location"] else j.location)
            && ("salary" in p ==> PyFloat(p["salary"]) == Some(u.salary))
            && ("salary" !in p ==> u.salary == j.salary)
            && ("employer_id" in p ==> PyInt(p["employer_id"]) == Some(u.employerId))
            && ("employer_id" !in p ==> u.employerId == j.employerId)
  {
    var u := J.ApplyUpdate(j, p, J.Fields).value;
    JobColumnByBody(j, p, J.Title);
    JobColumnByBody(j, p, J.Description);
    JobColumnByBody(j, p, J.Location);
    JobColumnByBody(j, p, J.Salary);
    JobColumnByBody(j, p, J.EmployerId);
    SalaryFromColumn(u, j, p);
    EmployerIdFromColumn(u, j, p);
  }

  /** A filled number input that is a numeral is sent as its value. */
  lemma NumeralSent(s: string)
    requires s != "" && Numeral(s)
    ensures JsNumber(s) == JNum(ParseDecimal(s).value)
  {
  }

  /** The text columns after an update from the Jobs form: a blank input keeps the column. */
  lemma JobTextColumns(j: Job, form: JP.JobForm)
    requires J.ApplyUpdate(j, JP.UpdatePayload(form), J.Fields).Success?
    ensures var u := J.ApplyUpdate(j, JP.UpdatePayload(form), J.Fields).value;
            && u.title == (if form.title == "" then j.title else JStr(form.title))
            && u.description == (if form.description == "" then j.description else JStr(form.description))
            && u.location == (if form.location == "" then j.location else JStr(form.location))
  {
    JobUpdateByBody(j, JP.UpdatePayload(form));
    JP.UpdatePayloadByKey(form);
  }

  /** The number columns after an update from the Jobs form: a blank input keeps the column. */
  lemma JobNumberColumns(j: Job, form: JP.JobForm)
    requires J.ApplyUpdate(j, JP.UpdatePayload(form), J.Fields).Success?
    ensures var u := J.ApplyUpdate(j, JP.UpdatePayload(form), J.Fields).value;
            && (form.salary == "" ==> u.salary == j.salary)
            && (form.salary != "" ==> Numeral(form.salary) && u.salary == ParseDecimal(form.salary).value)
            && (form.employerId == "" ==> u.employerId == j.employerId)
            && (form.employerId != "" ==> Numeral(form.employerId) && u.employerId == Trunc(ParseDecimal(form.employerId).value))
  {
    JobUpdateByBody(j, JP.UpdatePayload(form));
    JP.UpdatePayloadByKey(form);
    JobUpdateAccepted(j, form);
    if form.salary != "" {
      NumeralSent(form.salary);
    }
    if form.employerId != "" {
      NumeralSent(form.employerId);
    }
  }

  /**
   * Cross-file: a blank input of the Jobs update form leaves its column as
   * stored, and a filled one replaces it with what was typed (an employer id
   * truncated toward zero).
   */
  lemma JobUpdateColumns(j: Job, form: JP.JobForm)
    requires J.ApplyUpdate(j, JP.UpdatePayload(form), J.Fields).Success?
    ensures var u := J.ApplyUpdate(j, JP.UpdatePayload(form), J.Fields).value;
            && u.title == (if form.title == "" then j.title else JStr(form.title))
            && u.description == (if form.description == "" then j.description else JStr(form.description))
            && u.location == (if form.location == "" then j.location else JStr(form.location))
            && (form.salary == "" ==> u.salary == j.salary)
            && (form.salary != "" ==> Numeral(form.salary) && u.salary == ParseDecimal(form.salary).value)
            && (form.employerId == "" ==> u.employerId == j.employerId)
            && (form.employerId != "" ==> Numeral(form.employerId) && u.employerId == Trunc(ParseDecimal(form.employerId).value))
  {
    JobTextColumns(j, form);
    JobNumberColumns(j, form);
  }

  /** A body whose first refused field is the salary is answered "Invalid salary". */
  lemma JobSalaryRefusal(j: Job, p: Body)
    requires J.FirstRejected(p, J.Fields) == 3
    ensures J.ApplyUpdate(j, p, J.Fields) == Failure(BadRequest("Invalid salary"))
  {
    assert J.Fields[3] in J.Fields && J.Key(J.Fields[3]) == "salary";
    assert "Invalid " + "salary" == "Invalid salary";
  }

  /** A body whose first refused field is the employer id is answered "Invalid employer_id". */
  lemma JobEmployerIdRefusal(j: Job, p: Body)
    requires J.FirstRejected(p, J.Fields) == 4
    ensures J.ApplyUpdate(j, p, J.Fields) == Failure(BadRequest("Invalid employer_id"))
  {
    assert J.Fields[4] in J.Fields && J.Key(J.Fields[4]) == "employer_id";
    assert "Invalid " + "employer_id" == "Invalid employer_id";
  }

  /** The text inputs are never refused. */
  lemma JobTextsAccepted(form: JP.JobForm)
    ensures J.Accepts(JP.UpdatePayload(form), J.Fields[..3])
  {
    JP.UpdatePayloadByKey(form);
    assert J.Fields[..3] == [J.Title, J.Description, J.Location];
  }

  /** With the salary blank or a numeral, everything before the employer id is accepted. */
  lemma JobTextsAndSalaryAccepted(form: JP.JobForm)
    requires NumberInputAccepted(form.salary)
    ensures J.Accepts(JP.UpdatePayload(form), J.Fields[..4])
  {
    var p := JP.UpdatePayload(form);
    JobTextsAccepted(form);
    JP.UpdatePayloadByKey(form);
    if form.salary != "" {
      NumberInputVerdict(form.salary);
    }
    assert J.Fields[..4] == J.Fields[..3] + [J.Salary];
  }

  /** A salary that is not a numeral is the first field `update_job` refuses. */
  lemma JobSalaryFirstRefused(form: JP.JobForm)
    requires !NumberInputAccepted(form.salary)
    ensures J.FirstRejected(JP.UpdatePayload(form), J.Fields) == 3
  {
    JobTextsAccepted(form);
    JP.UpdatePayloadByKey(form);
    NumberInputVerdict(form.salary);
    J.FirstRejectedAt(JP.UpdatePayload(form), J.Fields, 3);
  }

  /** With the salary accepted, an employer id that is not a numeral is the first field refused. */
  lemma JobEmployerIdFirstRefused(form: JP.JobForm)
    requires NumberInputAccepted(form.salary) && !NumberInputAccepted(form.employerId)
    ensures J.FirstRejected(JP.UpdatePayload(form), J.Fields) == 4
  {
    JobTextsAndSalaryAccepted(form);
    JP.UpdatePayloadByKey(form);
    NumberInputVerdict(form.employerId);
    J.FirstRejectedAt(JP.UpdatePayload(form), J.Fields, 4);
  }

  /** A salary that is not a numeral is sent as null and refused first, before the employer id. */
  lemma JobSalaryRefused(j: Job, form: JP.JobForm)
    requires !NumberInputAccepted(form.salary)
    ensures J.ApplyUpdate(j, JP.UpdatePayload(form), J.Fields) == Failure(BadRequest("Invalid salary"))
  {
    JobSalaryFirstRefused(form);
    JobSalaryRefusal(j, JP.UpdatePayload(form));
  }

  /** With the salary accepted, an employer id that is not a numeral is refused. */
  lemma JobEmployerIdRefused(j: Job, form: JP.JobForm)
    requires NumberInputAccepted(form.salary) && !NumberInputAccepted(form.employerId)
    ensures J.ApplyUpdate(j, JP.UpdatePayload(form), J.Fields) == Failure(BadRequest("Invalid employer_id"))
  {
    JobEmployerIdFirstRefused(form);
    JobEmployerIdRefusal(j, JP.UpdatePayload(form));
  }

  /** An integer typed into a number input is sent as that number. */
  lemma TypedIntegerSent(n: int)
    ensures ShowInt(n) != "" && Numeral(ShowInt(n))
    ensures JsNumber(ShowInt(n)) == JNum(n as real)
  {
    ParseShowInt(n);
    IntegerIsDecimal(ShowInt(n));
  }

  /** Every blank update form sends `{}`, which each update route refuses with 400 "Missing JSON body". */
  lemma BlankUpdateFormsSendNothing()
    ensures JP.UpdatePayload(JP.EmptyForm) == map[]
    ensures EP.UpdatePayload(EP.EmptyForm) == map[]
    ensures PP.UpdatePayload(PP.EmptyForm) == map[]
    ensures AP.UpdatePayload(AP.UpdateReset) == map[]
    ensures !HasContent(Some(map[]))
  {
    JP.BlankUpdateSendsNothing();
    EP.BlankUpdateSendsNothing();
    PP.BlankUpdateSendsNothing();
    AP.BlankUpdateSendsNothing();
  }

  /**
   * A create form with non-blank text and integers typed into the number
   * inputs passes `create_job` and stores exactly what was typed.
   */
  lemma TypedJobCreated(title: string, description: string, location: string, salary: int, employerId: int)
    requires title != "" && description != "" && location != ""
    ensures J.NewJob(Some(JP.CreatePayload(JP.JobForm(title, description, location, ShowInt(salary), ShowInt(employerId)))))
            == Success(Job(JStr(title), JStr(description), JStr(location), salary as real, employerId))
  {
    var form := JP.JobForm(title, description, location, ShowInt(salary), ShowInt(employerId));
    TypedJobBody(form, salary, employerId);
    J.NewJobConversions(JP.CreatePayload(form));
  }

  /** The create payload of a job form with non-blank text and typed integers, key by key. */
  lemma TypedJobBody(form: JP.JobForm, salary: int, employerId: int)
    requires form.title != "" && form.description != "" && form.location != ""
    requires form.salary == ShowInt(salary) && form.employerId == ShowInt(employerId)
    ensures var body := JP.CreatePayload(form);
            && J.FieldsPresent(body)
            && body["title"] == JStr(form.title) && body["description"] == JStr(form.description)
            && body["location"] == JStr(form.location)
            && PyFloat(body["salary"]) == Some(salary as real)
            && PyInt(body["employer_id"]) == Some(employerId)
  {
    TypedIntegerSent(salary);
    TypedIntegerSent(employerId);
    TypedIntegerArrives(employerId);
    var body := JP.CreatePayload(form);
    forall f
      ensures !MissingOrBlank(body, J.Key(f))
    {
      assert body[J.Key(f)] == JP.Sent(form, f);
    }
  }

  /**
   * The employers page sends `Number(user_id)`, so a blank user id or one
   * typed as 0 arrives as the number 0, which `not data.get(k)` counts as
   * missing: 400 "Missing fields", whatever the other inputs hold.
   */
  lemma EmployerZeroUserIdIsMissing(form: EP.EmployerForm)
    requires form.userId == "" || ParseDecimal(form.userId) == Some(0.0)
    ensures E.NewEmployer(Some(EP.CreatePayload(form))) == Failure(BadRequest("Missing fields"))
  {
    var body := EP.CreatePayload(form);
    assert body["user_id"] == JNum(0.0);
    assert !Truthy(Get(body, E.Key(E.UserId)));
  }

  /**
   * A profile created with a blank bio stores "" rather than null: the create
   * payload spreads every input.
   */
  lemma TypedProfileCreated(userId: int, fullName: string, bio: string)
    requires fullName != ""
    ensures P.NewProfile(Some(PP.CreatePayload(PP.ProfileForm(ShowInt(userId), fullName, bio))))
            == Success(Profile(userId, JStr(fullName), JStr(bio)))
  {
    TypedIntegerSent(userId);
    TypedIntegerArrives(userId);
    var body := PP.CreatePayload(PP.ProfileForm(ShowInt(userId), fullName, bio));
    assert body["user_id"] == JNum(userId as real) && body["full_name"] == JStr(fullName) && body["bio"] == JStr(bio);
  }

  /**
   * The create form's initial status "pending" is stored as given, and the
   * listed row shows in the pending column.
   */
  lemma DefaultApplicationIsPending(userId: int, jobId: int, id: int)
    ensures var form := AP.CreateReset.(userId := ShowInt(userId), jobId := ShowInt(jobId));
            A.NewApplication(Some(AP.CreatePayload(form))) == Success(Application(userId, jobId, JStr("pending")))
    ensures var row := A.ApplicationToDict(id, Application(userId, jobId, JStr("pending")));
            AP.Grouped([row])["pending"] == [row]
  {
    TypedIntegerSent(userId);
    TypedIntegerSent(jobId);
    TypedIntegerArrives(userId);
    TypedIntegerArrives(jobId);
    var form := AP.CreateReset.(userId := ShowInt(userId), jobId := ShowInt(jobId));
    var body := AP.CreatePayload(form);
    assert body["user_id"] == JNum(userId as real) && body["job_id"] == JNum(jobId as real);
    assert body["status"] == JStr("pending");
    var row := A.ApplicationToDict(id, Application(userId, jobId, JStr("pending")));
    assert Get(row, "status") == JStr("pending");
    assert AP.WithStatus([row], "pending") == [row];
  }

  // Profiles

  /** What `update_profile` stores, read off the body. */
  lemma ProfileUpdateByBody(p0: Profile, b: Body)
    requires P.ApplyUpdate(p0, b, P.Fields).Success?
    ensures var u := P.ApplyUpdate(p0, b, P.Fields).value;
            && u.fullName == (if "full_name" in b then b["full_name"] else p0.fullName)
            && u.bio == (if "bio" in b then b["bio"] else p0.bio)
            && ("user_id" in b ==> PyInt(b["user_id"]) == Some(u.userId))
            && ("user_id" !in b ==> u.userId == p0.userId)
  {
    var u := P.ApplyUpdate(p0, b, P.Fields).value;
    assert P.UserId in P.Fields && P.FullName in P.Fields && P.Bio in P.Fields;
    assert P.Column(u, P.UserId) == JNum(u.userId as real);
    assert P.Column(u, P.FullName) == u.fullName && P.Column(u, P.Bio) == u.bio;
  }

  /** `update_profile` refuses a body only for a `user_id` that does not convert. */
  lemma ProfileAcceptsByBody(p0: Profile, b: Body)
    ensures P.ApplyUpdate(p0, b, P.Fields).Success? <==> ("user_id" in b ==> PyInt(b["user_id"]).Some?)
  {
    assert P.UserId in P.Fields && P.Key(P.UserId) == "user_id";
  }

  /**
   * The Profiles update form against `update_profile`: refused with 400
   * "Invalid user_id" exactly when the user id input is filled with something
   * other than a numeral.
   */
  lemma ProfileUpdateAccepted(p0: Profile, form: PP.ProfileForm)
    ensures P.ApplyUpdate(p0, PP.UpdatePayload(form), P.Fields).Success? <==> NumberInputAccepted(form.userId)
    ensures P.ApplyUpdate(p0, PP.UpdatePayload(form), P.Fields).Failure? ==>
              P.ApplyUpdate(p0, PP.UpdatePayload(form), P.Fields) == Failure(BadRequest("Invalid user_id"))
  {
    ProfileAcceptsByBody(p0, PP.UpdatePayload(form));
    PP.UpdatePayloadByKey(form);
    if form.userId != "" {
      NumberInputVerdict(form.userId);
    }
  }

  /** Cross-file: a blank input of the Profiles update form leaves its column as stored. */
  lemma ProfileUpdateColumns(p0: Profile, form: PP.ProfileForm)
    requires P.ApplyUpdate(p0, PP.UpdatePayload(form), P.Fields).Success?
    ensures var u := P.ApplyUpdate(p0, PP.UpdatePayload(form), P.Fields).value;
            && u.fullName == (if form.fullName == "" then p0.fullName else JStr(form.fullName))
            && u.bio == (if form.bio == "" then p0.bio else JStr(form.bio))
            && (form.userId == "" ==> u.userId == p0.userId)
            && (form.userId != "" ==> Numeral(form.userId) && u.userId == Trunc(ParseDecimal(form.userId).value))
  {
    ProfileUpdateByBody(p0, PP.UpdatePayload(form));
    ProfileUpdateAccepted(p0, form);
    PP.UpdatePayloadByKey(form);
    if form.userId != "" {
      NumeralSent(form.userId);
    }
  }

  /**
   * The route would store a null or "" bio, but the form never sends one: a
   * profile's bio (and full name) can be blanked only if it already was.
   */
  lemma ProfileFormNeverClearsText(p0: Profile, form: PP.ProfileForm)
    requires P.ApplyUpdate(p0, PP.UpdatePayload(form), P.Fields).Success?
    ensures var u := P.ApplyUpdate(p0, PP.UpdatePayload(form), P.Fields).value;
            && (NullOrEmpty(u.bio) ==> u.bio == p0.bio)
            && (NullOrEmpty(u.fullName) ==> u.fullName == p0.fullName)
  {
    ProfileUpdateColumns(p0, form);
  }

  // Employers

  /** One column after `update_employer`: the present key's converted value, or the old column. */
  lemma EmployerColumnByBody(e: Employer, b: Body, f: E.EmployerField)
    requires E.ApplyUpdate(e, b, E.Fields).Success?
    ensures E.Column(E.ApplyUpdate(e, b, E.Fields).value, f)
            == if E.Key(f) in b then E.Converted(f, b[E.Key(f)]) else E.Column(e, f)
    ensures E.Key(f) in b ==> E.Acceptable(f, b[E.Key(f)])
  {
    assert f in E.Fields;
  }

  /** What `update_employer` stores in the text columns, read off the body. */
  lemma EmployerUpdateTextByBody(e: Employer, b: Body)
    requires E.ApplyUpdate(e, b, E.Fields).Success?
    ensures var u := E.ApplyUpdate(e, b, E.Fields).value;
            && u.name == (if "name" in b then b["name"] else e.name)
            && u.email == (if "email" in b then b["email"] else e.email)
            && u.companyName == (if "company_name" in b then b["company_name"] else e.companyName)
            && u.contactPerson == (if "contact_person" in b then b["contact_person"] else e.contactPerson)
            && u.passwordHash == (if "password_hash" in b then b["password_hash"] else e.passwordHash)
  {
    var u := E.ApplyUpdate(e, b, E.Fields).value;
    EmployerColumnByBody(e, b, E.Name);
    EmployerColumnByBody(e, b, E.Email);
    EmployerColumnByBody(e, b, E.CompanyName);
    EmployerColumnByBody(e, b, E.ContactPerson);
    EmployerColumnByBody(e, b, E.PasswordHash);
    assert E.Column(u, E.Name) == u.name && E.Column(u, E.Email) == u.email;
    assert E.Column(u, E.CompanyName) == u.companyName && E.Column(u, E.ContactPerson) == u.contactPerson;
    assert E.Column(u, E.PasswordHash) == u.passwordHash;
  }

  /** A user id column that holds the converted id of the body, or the old one. */
  lemma UserIdFromColumn(u: Employer, e: Employer, b: Body)
    requires E.Column(u, E.UserId) == if "user_id" in b then E.Converted(E.UserId, b["user_id"]) else E.Column(e, E.UserId)
    requires "user_id" in b ==> E.Acceptable(E.UserId, b["user_id"])
    ensures "user_id" in b ==> PyInt(b["user_id"]) == Some(u.userId)
    ensures "user_id" !in b ==> u.userId == e.userId
  {
  }

  /** What `update_employer` stores as the user id, read off the body. */
  lemma EmployerUpdateUserIdByBody(e: Employer, b: Body)
    requires E.ApplyUpdate(e, b, E.Fields).Success?
    ensures var u := E.ApplyUpdate(e, b, E.Fields).value;
            && ("user_id" in b ==> PyInt(b["user_id"]) == Some(u.userId))
            && ("user_id" !in b ==> u.userId == e.userId)
  {
    EmployerColumnByBody(e, b, E.UserId);
    UserIdFromColumn(E.ApplyUpdate(e, b, E.Fields).value, e, b);
  }

  /** `update_employer` fails on a body only for a `user_id` that `int()` cannot convert. */
  lemma EmployerAcceptsByBody(e: Employer, b: Body)
    ensures E.ApplyUpdate(e, b, E.Fields).Success? <==> ("user_id" in b ==> PyInt(b["user_id"]).Some?)
  {
    assert E.UserId in E.Fields && E.Key(E.UserId) == "user_id";
  }

  /**
   * The Employers update form against `update_employer`: a user id input
   * filled with something other than a numeral is sent as null, and `int()`
   * on it raises (500).
   */
  lemma EmployerUpdateAccepted(e: Employer, form: EP.EmployerForm)
    ensures E.ApplyUpdate(e, EP.UpdatePayload(form), E.Fields).Success? <==> NumberInputAccepted(form.userId)
    ensures E.ApplyUpdate(e, EP.UpdatePayload(form), E.Fields).Failure? ==>
              E.ApplyUpdate(e, EP.UpdatePayload(form), E.Fields) == Failure(ServerError)
  {
    EmployerAcceptsByBody(e, EP.UpdatePayload(form));
    EP.UpdatePayloadByKey(form);
    if form.userId != "" {
      NumberInputVerdict(form.userId);
    }
  }

  /** The text columns after an update from the Employers form: a blank input keeps the column. */
  lemma EmployerTextColumns(e: Employer, form: EP.EmployerForm)
    requires E.ApplyUpdate(e, EP.UpdatePayload(form), E.Fields).Success?
    ensures var u := E.ApplyUpdate(e, EP.UpdatePayload(form), E.Fields).value;
            && u.name == (if form.name == "" then e.name else JStr(form.name))
            && u.email == (if form.email == "" then e.email else JStr(form.email))
            && u.companyName == (if form.companyName == "" then e.companyName else JStr(form.companyName))
            && u.contactPerson == (if form.contactPerson == "" then e.contactPerson else JStr(form.contactPerson))
            && u.passwordHash == (if form.passwordHash == "" then e.passwordHash else JStr(form.passwordHash))
  {
    EmployerUpdateTextByBody(e, EP.UpdatePayload(form));
    EP.UpdatePayloadByKey(form);
  }

  /** The user id column after an update from the Employers form: a blank input keeps the column. */
  lemma EmployerUserIdColumn(e: Employer, form: EP.EmployerForm)
    requires E.ApplyUpdate(e, EP.UpdatePayload(form), E.Fields).Success?
    ensures var u := E.ApplyUpdate(e, EP.UpdatePayload(form), E.Fields).value;
            (form.userId == "" ==> u.userId == e.userId)
            && (form.userId != "" ==> Numeral(form.userId) && u.userId == Trunc(ParseDecimal(form.userId).value))
  {
    EmployerUpdateUserIdByBody(e, EP.UpdatePayload(form));
    EmployerUpdateAccepted(e, form);
    EP.UpdatePayloadByKey(form);
    if form.userId != "" {
      NumeralSent(form.userId);
    }
  }

  /** Cross-file: a blank input of the Employers update form leaves its column as stored. */
  lemma EmployerUpdateColumns(e: Employer, form: EP.EmployerForm)
    requires E.ApplyUpdate(e, EP.UpdatePayload(form), E.Fields).Success?
    ensures var u := E.ApplyUpdate(e, EP.UpdatePayload(form), E.Fields).value;
            && u.name == (if form.name == "" then e.name else JStr(form.name))
            && u.email == (if form.email == "" then e.email else JStr(form.email))
            && u.companyName == (if form.companyName == "" then e.companyName else JStr(form.companyName))
            && u.contactPerson == (if form.contactPerson == "" then e.contactPerson else JStr(form.contactPerson))
            && u.passwordHash == (if form.passwordHash == "" then e.passwordHash else JStr(form.passwordHash))
            && (form.userId == "" ==> u.userId == e.userId)
            && (form.userId != "" ==> Numeral(form.userId) && u.userId == Trunc(ParseDecimal(form.userId).value))
  {
    EmployerTextColumns(e, form);
    EmployerUserIdColumn(e, form);
  }

  // Applications

  /** What `update_application` stores, read off the body. */
  lemma ApplicationUpdateByBody(a: Application, b: Body)
    requires A.ApplyUpdate(a, b, A.Fields).Success?
    ensures var u := A.ApplyUpdate(a, b, A.Fields).value;
            && u.status == (if "status" in b then b["status"] else a.status)
            && ("user_id" in b ==> PyInt(b["user_id"]) == Some(u.userId))
            && ("user_id" !in b ==> u.userId == a.userId)
            && ("job_id" in b ==> PyInt(b["job_id"]) == Some(u.jobId))
            && ("job_id" !in b ==> u.jobId == a.jobId)
  {
    var u := A.ApplyUpdate(a, b, A.Fields).value;
    assert A.UserId in A.Fields && A.JobId in A.Fields && A.Status in A.Fields;
    assert A.Column(u, A.UserId) == JNum(u.userId as real) && A.Column(u, A.JobId) == JNum(u.jobId as real);
    assert A.Column(u, A.Status) == u.status;
    if "user_id" in b {
      assert A.Key(A.UserId) == "user_id" && A.Rejection(A.UserId, b["user_id"]).None?;
    }
    if "job_id" in b {
      assert A.Key(A.JobId) == "job_id" && A.Rejection(A.JobId, b["job_id"]).None?;
    }
  }

  /** `update_application` takes a body exactly when no present field is null, "" or an id `int()` cannot convert. */
  lemma ApplicationAcceptsByBody(a: Application, b: Body)
    ensures A.ApplyUpdate(a, b, A.Fields).Success? <==>
              && ("user_id" in b ==> !NullOrEmpty(b["user_id"]) && PyInt(b["user_id"]).Some?)
              && ("job_id" in b ==> !NullOrEmpty(b["job_id"]) && PyInt(b["job_id"]).Some?)
              && ("status" in b ==> !NullOrEmpty(b["status"]))
  {
    assert A.UserId in A.Fields && A.JobId in A.Fields && A.Status in A.Fields;
    assert A.Key(A.UserId) == "user_id" && A.Key(A.JobId) == "job_id" && A.Key(A.Status) == "status";
  }

  /**
   * The Applications update form against `update_application`: the update
   * goes through exactly when each id input is blank or a numeral; the
   * status select never sends a value the route refuses.
   */
  lemma ApplicationUpdateAccepted(a: Application, form: AP.ApplicationForm)
    ensures A.ApplyUpdate(a, AP.UpdatePayload(form), A.Fields).Success?
            <==> NumberInputAccepted(form.userId) && NumberInputAccepted(form.jobId)
  {
    ApplicationAcceptsByBody(a, AP.UpdatePayload(form));
    AP.UpdatePayloadByKey(form);
    if form.userId != "" {
      NumberInputVerdict(form.userId);
    }
    if form.jobId != "" {
      NumberInputVerdict(form.jobId);
    }
  }

  /** Cross-file: a blank input of the Applications update form leaves its column as stored. */
  lemma ApplicationUpdateColumns(a: Application, form: AP.ApplicationForm)
    requires A.ApplyUpdate(a, AP.UpdatePayload(form), A.Fields).Success?
    ensures var u := A.ApplyUpdate(a, AP.UpdatePayload(form), A.Fields).value;
            && u.status == (if form.status == "" then a.status else JStr(form.status))
            && (form.userId == "" ==> u.userId == a.userId)
            && (form.userId != "" ==> Numeral(form.userId) && u.userId == Trunc(ParseDecimal(form.userId).value))
            && (form.jobId == "" ==> u.jobId == a.jobId)
            && (form.jobId != "" ==> Numeral(form.jobId) && u.jobId == Trunc(ParseDecimal(form.jobId).value))
  {
    ApplicationUpdateByBody(a, AP.UpdatePayload(form));
    ApplicationUpdateAccepted(a, form);
    AP.UpdatePayloadByKey(form);
    if form.userId != "" {
      NumeralSent(form.userId);
    }
    if form.jobId != "" {
      NumeralSent(form.jobId);
    }
  }

  /** A body with a null `user_id` is answered "Invalid user_id" before anything else. */
  lemma ApplicationUserIdRefusal(a: Application, b: Body)
    requires "user_id" in b && b["user_id"] == JNull
    ensures A.ApplyUpdate(a, b, A.Fields) == Failure(BadRequest("Invalid user_id"))
  {
    assert A.Fields[0] == A.UserId && A.Key(A.UserId) == "user_id";
    assert "Invalid " + "user_id" == "Invalid user_id";
  }

  /** With the user id accepted, a body with a null `job_id` is answered "Invalid job_id". */
  lemma ApplicationJobIdRefusal(a: Application, b: Body)
    requires "user_id" in b ==> !NullOrEmpty(b["user_id"]) && PyInt(b["user_id"]).Some?
    requires "job_id" in b && b["job_id"] == JNull
    ensures A.ApplyUpdate(a, b, A.Fields) == Failure(BadRequest("Invalid job_id"))
  {
    assert A.Fields[0] == A.UserId && A.Key(A.UserId) == "user_id";
    assert A.Fields[1] == A.JobId && A.Key(A.JobId) == "job_id";
    assert A.Fields[1..][0] == A.JobId;
    assert "Invalid " + "job_id" == "Invalid job_id";
  }

  /**
   * The Applications update form: a user id that is not a numeral is sent as
   * null and refused first; with it accepted, a job id that is not a numeral.
   */
  lemma ApplicationUpdateRefusal(a: Application, form: AP.ApplicationForm)
    ensures !NumberInputAccepted(form.userId) ==>
              A.ApplyUpdate(a, AP.UpdatePayload(form), A.Fields) == Failure(BadRequest("Invalid user_id"))
    ensures NumberInputAccepted(form.userId) && !NumberInputAccepted(form.jobId) ==>
              A.ApplyUpdate(a, AP.UpdatePayload(form), A.Fields) == Failure(BadRequest("Invalid job_id"))
  {
    AP.UpdatePayloadByKey(form);
    if form.userId != "" {
      NumberInputVerdict(form.userId);
    }
    if form.jobId != "" {
      NumberInputVerdict(form.jobId);
    }
    if !NumberInputAccepted(form.userId) {
      ApplicationUserIdRefusal(a, AP.UpdatePayload(form));
    } else if !NumberInputAccepted(form.jobId) {
      ApplicationJobIdRefusal(a, AP.UpdatePayload(form));
    }
  }

  /** A status picked in the update select lands the updated row in that status's column. */
  lemma SelectedStatusShown(a: Application, form: AP.ApplicationForm, id: int)
    requires A.ApplyUpdate(a, AP.UpdatePayload(form), A.Fields).Success?
    requires form.status in AP.ColumnOrder
    ensures var row := A.ApplicationToDict(id, A.ApplyUpdate(a, AP.UpdatePayload(form), A.Fields).value);
            AP.Grouped([row])[form.status] == [row]
  {
    var u := A.ApplyUpdate(a, AP.UpdatePayload(form), A.Fields).value;
    ApplicationUpdateColumns(a, form);
    var row := A.ApplicationToDict(id, u);
    assert A.Key(A.Status) == "status" && Get(row, "status") == JStr(form.status);
    assert AP.WithStatus([row], form.status) == [row];
  }
}
