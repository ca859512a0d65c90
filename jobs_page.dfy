/**
 * The Jobs page: the create, update and delete forms, the payloads they send
 * and the page state each handler leaves behind. The form fields are the keys
 * of the jobs API.
 */
module JobsPage {
  import opened Json
  import opened Numerals
  import opened PageState
  import opened JobRoutes

  /** The text the user typed into each input of a job form. */
  datatype JobForm = JobForm(title: string, description: string, location: string, salary: string, employerId: string)

  const EmptyForm: JobForm := JobForm("", "", "", "", "")

  function Text(form: JobForm, f: JobField): string
  {
    match f
    case Title => form.title
    case Description => form.description
    case Location => form.location
    case Salary => form.salary
    case EmployerId => form.employerId
  }

  /** What goes over the wire for a field: the text, or `Number(text)` for salary and employer id. */
  function Sent(form: JobForm, f: JobField): (v: JsonValue)
    ensures f == Salary || f == EmployerId ==> v == JsNumber(Text(form, f)) && (v.JNum? || v == JNull)
    ensures f != Salary && f != EmployerId ==> v == JStr(Text(form, f))
  {
    if f == Salary || f == EmployerId then JsNumber(Text(form, f)) else JStr(Text(form, f))
  }

  /** `{...createForm, salary: Number(...), employer_id: Number(...)}`: every field, blank or not. */
  function CreatePayload(form: JobForm): (p: Body)
    ensures p.Keys == {"title", "description", "location", "salary", "employer_id"}
    ensures forall f :: p[Key(f)] == Sent(form, f)
  {
    map["title" := JStr(form.title), "description" := JStr(form.description), "location" := JStr(form.location),
        "salary" := JsNumber(form.salary), "employer_id" := JsNumber(form.employerId)]
  }

  const JobKeys: set<string> := {"title", "description", "location", "salary", "employer_id"}

  /** The entries for the non-blank fields among `fields`. */
  function PayloadOf(form: JobForm, fields: seq<JobField>): (p: Body)
    ensures forall f :: Key(f) in p <==> f in fields && Text(form, f) != ""
    ensures forall f :: Key(f) in p ==> p[Key(f)] == Sent(form, f)
    ensures p.Keys <= JobKeys
  {
    if fields == [] then map[]
    else
      var f, rest := fields[|fields| - 1], PayloadOf(form, fields[..|fields| - 1]);
      if Text(form, f) != "" then rest[Key(f) := Sent(form, f)] else rest
  }

  /** `handleUpdate`'s payload: a key for exactly the non-blank fields, and never the id. */
  function UpdatePayload(form: JobForm): (p: Body)
    ensures forall f :: Key(f) in p <==> Text(form, f) != ""
    ensures forall f :: Key(f) in p ==> p[Key(f)] == Sent(form, f)
    ensures p.Keys <= JobKeys && "id" !in p
  {
    PayloadOf(form, Fields)
  }

  /** `handleUpdate`'s payload described key by key: exactly the non-blank inputs, each as sent. */
  predicate PayloadByKey(form: JobForm, p: Body)
  {
    && p.Keys <= JobKeys
    && ("title" in p <==> form.title != "") && ("title" in p ==> p["title"] == JStr(form.title))
    && ("description" in p <==> form.description != "") && ("description" in p ==> p["description"] == JStr(form.description))
    && ("location" in p <==> form.location != "") && ("location" in p ==> p["location"] == JStr(form.location))
    && ("salary" in p <==> form.salary != "") && ("salary" in p ==> p["salary"] == JsNumber(form.salary))
    && ("employer_id" in p <==> form.employerId != "") && ("employer_id" in p ==> p["employer_id"] == JsNumber(form.employerId))
  }

  /** The specification meets the key-by-key description. */
  lemma UpdatePayloadByKey(form: JobForm)
    ensures PayloadByKey(form, UpdatePayload(form))
  {
    var q := UpdatePayload(form);
    assert Key(Title) == "title" && (Key(Title) in q <==> form.title != "");
    assert Key(Description) == "description" && (Key(Description) in q <==> form.description != "");
    assert Key(Location) == "location" && (Key(Location) in q <==> form.location != "");
    assert Key(Salary) == "salary" && (Key(Salary) in q <==> form.salary != "");
    assert Key(EmployerId) == "employer_id" && (Key(EmployerId) in q <==> form.employerId != "");
  }

  /** A payload described key by key for a form has no key another such payload lacks. */
  lemma ByKeyKeysIncluded(form: JobForm, p: Body, q: Body)
    requires PayloadByKey(form, p) && PayloadByKey(form, q)
    ensures p.Keys <= q.Keys
  {
    forall k | k in p
      ensures k in q
    {
      assert k in JobKeys;
    }
  }

  /** Two payloads described key by key for the same form agree on every key. */
  lemma ByKeySameValues(form: JobForm, p: Body, q: Body)
    requires PayloadByKey(form, p) && PayloadByKey(form, q)
    ensures forall k :: k in p && k in q ==> p[k] == q[k]
  {
    forall k | k in p && k in q
      ensures p[k] == q[k]
    {
      assert k in JobKeys;
    }
  }

  /** The key-by-key description fixes the payload. */
  lemma ByKeyDetermines(form: JobForm, p: Body, q: Body)
    requires PayloadByKey(form, p) && PayloadByKey(form, q)
    ensures p == q
  {
    ByKeyKeysIncluded(form, p, q);
    ByKeyKeysIncluded(form, q, p);
    ByKeySameValues(form, p, q);
  }

  /** The update form as it starts, and as a successful update leaves it, sends `{}`. */
  lemma BlankUpdateSendsNothing()
    ensures UpdatePayload(EmptyForm) == map[]
  {
    UpdatePayloadByKey(EmptyForm);
    ByKeyDetermines(EmptyForm, UpdatePayload(EmptyForm), map[]);
  }

  /** `handleUpdate`'s payload, built as the page builds it: one conditional key assignment per input. */
  method BuildUpdatePayload(form: JobForm) returns (payload: Body)
    ensures payload == UpdatePayload(form)
  {
    payload := map[];
    if form.title != "" {
      payload := payload["title" := JStr(form.title)];
    }
    if form.description != "" {
      payload := payload["description" := JStr(form.description)];
    }
    if form.location != "" {
      payload := payload["location" := JStr(form.location)];
    }
    if form.salary != "" {
      payload := payload["salary" := JsNumber(form.salary)];
    }
    if form.employerId != "" {
      payload := payload["employer_id" := JsNumber(form.employerId)];
    }
    assert PayloadByKey(form, payload);
    UpdatePayloadByKey(form);
    ByKeyDetermines(form, payload, UpdatePayload(form));
  }

  const JobLabels: Labels := Labels(
    "Job created.", "Job updated.", "Job deleted.",
    "Failed to create job", "Failed to update job", "Failed to delete job", "Failed to load jobs")

  /** The Jobs page as first rendered; its mount-time listing is a `Refresh`. */
  method Open() returns (page: CrudPage<JobForm>)
    ensures fresh(page) && page.labels == JobLabels
    ensures forall f :: page.createPayload(f) == CreatePayload(f) && page.updatePayload(f) == UpdatePayload(f)
    ensures page.createReset == EmptyForm && page.updateReset == EmptyForm
    ensures page.rows == [] && page.error == "" && page.message == ""
    ensures page.createForm == EmptyForm && page.updateId == "" && page.updateForm == EmptyForm && page.deleteId == ""
  {
    page := new CrudPage(JobLabels, CreatePayload, UpdatePayload, EmptyForm, EmptyForm);
  }
}
