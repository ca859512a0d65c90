/**
 * The Applications page: the create, update and delete forms, the payloads
 * they send, and the pipeline board that groups the listed applications by
 * status. Both ids go through `Number`; the create form's status starts at
 * "pending", the update form's at blank.
 */
module ApplicationsPage {
  import opened Json
  import opened Numerals
  import opened PageState
  import opened ApplicationRoutes

  /** The text in each input of an application form; `status` is the select's value. */
  datatype ApplicationForm = ApplicationForm(userId: string, jobId: string, status: string)

  /** The create form's initial value, and what it returns to after a create. */
  const CreateReset: ApplicationForm := ApplicationForm("", "", "pending")

  /** The update form's initial value, and what it returns to after an update. */
  const UpdateReset: ApplicationForm := ApplicationForm("", "", "")

  function Text(form: ApplicationForm, f: ApplicationField): string
  {
    match f
    case UserId => form.userId
    case JobId => form.jobId
    case Status => form.status
  }

  /** What goes over the wire for a field: `Number(text)` for the ids, the text for the status. */
  function Sent(form: ApplicationForm, f: ApplicationField): (v: JsonValue)
    ensures f != Status ==> v == JsNumber(Text(form, f)) && (v.JNum? || v == JNull)
    ensures f == Status ==> v == JStr(Text(form, f))
  {
    if f != Status then JsNumber(Text(form, f)) else JStr(Text(form, f))
  }

  /** `{...createForm, user_id: Number(...), job_id: Number(...)}`: every field. */
  function CreatePayload(form: ApplicationForm): (p: Body)
    ensures p.Keys == {"user_id", "job_id", "status"}
    ensures forall f :: p[Key(f)] == Sent(form, f)
  {
    map["user_id" := JsNumber(form.userId), "job_id" := JsNumber(form.jobId), "status" := JStr(form.status)]
  }

  const ApplicationKeys: set<string> := {"user_id", "job_id", "status"}

  /** The entries for the non-blank fields among `fields`, added in order. */
  function PayloadOf(form: ApplicationForm, fields: seq<ApplicationField>): (p: Body)
    ensures forall f :: Key(f) in p <==> f in fields && Text(form, f) != ""
    ensures forall f :: Key(f) in p ==> p[Key(f)] == Sent(form, f)
    ensures p.Keys <= ApplicationKeys
  {
    if fields == [] then map[]
    else
      var f, rest := fields[|fields| - 1], PayloadOf(form, fields[..|fields| - 1]);
      if Text(form, f) != "" then rest[Key(f) := Sent(form, f)] else rest
  }

  /** `handleUpdate`'s payload: a key for exactly the non-blank fields, and never the id. */
  function UpdatePayload(form: ApplicationForm): (p: Body)
    ensures forall f :: Key(f) in p <==> Text(form, f) != ""
    ensures forall f :: Key(f) in p ==> p[Key(f)] == Sent(form, f)
    ensures p.Keys <= ApplicationKeys && "id" !in p
  {
    PayloadOf(form, Fields)
  }

  /** `handleUpdate`'s payload described key by key: exactly the non-blank inputs, each as sent. */
  predicate PayloadByKey(form: ApplicationForm, p: Body)
  {
    && p.Keys <= ApplicationKeys
    && ("user_id" in p <==> form.userId != "") && ("user_id" in p ==> p["user_id"] == JsNumber(form.userId))
    && ("job_id" in p <==> form.jobId != "") && ("job_id" in p ==> p["job_id"] == JsNumber(form.jobId))
    && ("status" in p <==> form.status != "") && ("status" in p ==> p["status"] == JStr(form.status))
  }

  /** The specification meets the key-by-key description. */
  lemma UpdatePayloadByKey(form: ApplicationForm)
    ensures PayloadByKey(form, UpdatePayload(form))
  {
    var q := UpdatePayload(form);
    assert Key(UserId) == "user_id" && (Key(UserId) in q <==> form.userId != "");
    assert Key(JobId) == "job_id" && (Key(JobId) in q <==> form.jobId != "");
    assert Key(Status) == "status" && (Key(Status) in q <==> form.status != "");
  }

  /** A payload described key by key for a form has no key another such payload lacks. */
  lemma ByKeyKeysIncluded(form: ApplicationForm, p: Body, q: Body)
    requires PayloadByKey(form, p) && PayloadByKey(form, q)
    ensures p.Keys <= q.Keys
  {
    forall k | k in p
      ensures k in q
    {
      assert k in ApplicationKeys;
    }
  }

  /** Two payloads described key by key for the same form agree on every key. */
  lemma ByKeySameValues(form: ApplicationForm, p: Body, q: Body)
    requires PayloadByKey(form, p) && PayloadByKey(form, q)
    ensures forall k :: k in p && k in q ==> p[k] == q[k]
  {
    forall k | k in p && k in q
      ensures p[k] == q[k]
    {
      assert k in ApplicationKeys;
    }
  }

  /** The key-by-key description fixes the payload. */
  lemma ByKeyDetermines(form: ApplicationForm, p: Body, q: Body)
    requires PayloadByKey(form, p) && PayloadByKey(form, q)
    ensures p == q
  {
    ByKeyKeysIncluded(form, p, q);
    ByKeyKeysIncluded(form, q, p);
    ByKeySameValues(form, p, q);
  }

  /** The update form as it starts, and as a successful update leaves it, sends `{}`. */
  lemma BlankUpdateSendsNothing()
    ensures UpdatePayload(UpdateReset) == map[]
  {
    UpdatePayloadByKey(UpdateReset);
    ByKeyDetermines(UpdateReset, UpdatePayload(UpdateReset), map[]);
  }

  /** `handleUpdate`'s payload, built as the page builds it: one conditional key assignment per input. */
  method BuildUpdatePayload(form: ApplicationForm) returns (payload: Body)
    ensures payload == UpdatePayload(form)
  {
    payload := map[];
    if form.userId != "" {
      payload := payload["user_id" := JsNumber(form.userId)];
    }
    if form.jobId != "" {
      payload := payload["job_id" := JsNumber(form.jobId)];
    }
    if form.status != "" {
      payload := payload["status" := JStr(form.status)];
    }
    assert PayloadByKey(form, payload);
    UpdatePayloadByKey(form);
    ByKeyDetermines(form, payload, UpdatePayload(form));
  }

  const ApplicationLabels: Labels := Labels(
    "Application created.", "Application updated.", "Application deleted.",
    "Failed to create application", "Failed to update application", "Failed to delete application",
    "Failed to load applications")

  /** The Applications page as first rendered; its mount-time listing is a `Refresh`. */
  method Open() returns (page: CrudPage<ApplicationForm>)
    ensures fresh(page) && page.labels == ApplicationLabels
    ensures forall f :: page.createPayload(f) == CreatePayload(f) && page.updatePayload(f) == UpdatePayload(f)
    ensures page.createReset == CreateReset && page.updateReset == UpdateReset
    ensures page.rows == [] && page.error == "" && page.message == ""
    ensures page.createForm == CreateReset && page.updateId == "" && page.updateForm == UpdateReset
    ensures page.deleteId == ""
  {
    page := new CrudPage(ApplicationLabels, CreatePayload, UpdatePayload, CreateReset, UpdateReset);
  }

  /** The board's columns, left to right. */
  const ColumnOrder: seq<string> := ["pending", "accepted", "rejected"]

  /** `applications.filter((a) => a.status === status)`: a missing status is never equal. */
  function WithStatus(apps: seq<Record>, status: string): (r: seq<Record>)
    ensures forall x :: x in r <==> x in apps && Get(x, "status") == JStr(status)
    ensures |r| <= |apps|
  {
    if apps == [] then []
    else
      var rest := WithStatus(apps[1..], status);
      assert forall x :: x in apps <==> x == apps[0] || x in apps[1..];
      if Get(apps[0], "status") == JStr(status) then [apps[0]] + rest else rest
  }

  /** `grouped`: one filtered list per column, each in listing order. */
  function Grouped(apps: seq<Record>): (g: map<string, seq<Record>>)
    ensures g.Keys == {"pending", "accepted", "rejected"}
    ensures forall s :: s in g ==> forall x :: x in g[s] <==> x in apps && Get(x, "status") == JStr(s)
  {
    map s | s in ColumnOrder :: WithStatus(apps, s)
  }

  /** The listed applications no column shows: any other status, or none. */
  function Unshown(apps: seq<Record>): (r: seq<Record>)
    ensures forall x :: x in r <==> x in apps && !(Get(x, "status").JStr? && Get(x, "status").s in ColumnOrder)
  {
    if apps == [] then []
    else
      var rest := Unshown(apps[1..]);
      assert forall x :: x in apps <==> x == apps[0] || x in apps[1..];
      var v := Get(apps[0], "status");
      if !(v.JStr? && v.s in ColumnOrder) then [apps[0]] + rest else rest
  }

  /** Filtering a concatenation filters each part and keeps their order. */
  lemma {:induction false} WithStatusAppend(a: seq<Record>, b: seq<Record>, status: string)
    ensures WithStatus(a + b, status) == WithStatus(a, status) + WithStatus(b, status)
  {
    if a != [] {
      assert (a + b)[0] == a[0] && (a + b)[1..] == a[1..] + b;
      WithStatusAppend(a[1..], b, status);
    } else {
      assert a + b == b;
    }
  }

  /**
   * Every listed application is in exactly one place: one of the three
   * columns, or among the unshown ones. The counts add up to the listing.
   */
  lemma {:induction false} BoardPartitionsListing(apps: seq<Record>)
    ensures |WithStatus(apps, "pending")| + |WithStatus(apps, "accepted")| + |WithStatus(apps, "rejected")|
            + |Unshown(apps)| == |apps|
  {
    if apps != [] {
      BoardPartitionsListing(apps[1..]);
    }
  }

  /** No application shows in two columns. */
  lemma ColumnsAreDisjoint(apps: seq<Record>, x: Record, s: string, t: string)
    requires x in WithStatus(apps, s) && x in WithStatus(apps, t)
    ensures s == t
  {
  }
}
