/**
 * The Employers page: the create, update and delete forms and the payloads
 * they send. The form fields are the keys of the employers API; only the user
 * id goes through `Number`.
 */
module EmployersPage {
  import opened Json
  import opened Numerals
  import opened PageState
  import opened EmployerRoutes

  /** The text the user typed into each input of an employer form. */
  datatype EmployerForm = EmployerForm(
    userId: string, name: string, email: string, companyName: string, contactPerson: string, passwordHash: string)

  const EmptyForm: EmployerForm := EmployerForm("", "", "", "", "", "")

  function Text(form: EmployerForm, f: EmployerField): string
  {
    match f
    case UserId => form.userId
    case Name => form.name
    case Email => form.email
    case CompanyName => form.companyName
    case ContactPerson => form.contactPerson
    case PasswordHash => form.passwordHash
  }

  /** What goes over the wire for a field: `Number(text)` for the user id, the text otherwise. */
  function Sent(form: EmployerForm, f: EmployerField): (v: JsonValue)
    ensures f == UserId ==> v == JsNumber(Text(form, f)) && (v.JNum? || v == JNull)
    ensures f != UserId ==> v == JStr(Text(form, f))
  {
    if f == UserId then JsNumber(Text(form, f)) else JStr(Text(form, f))
  }

  /** `{...createForm, user_id: Number(...)}`: every field, blank or not. */
  function CreatePayload(form: EmployerForm): (p: Body)
    ensures p.Keys == {"user_id", "name", "email", "company_name", "contact_person", "password_hash"}
    ensures forall f :: p[Key(f)] == Sent(form, f)
  {
    map["user_id" := JsNumber(form.userId), "name" := JStr(form.name), "email" := JStr(form.email),
        "company_name" := JStr(form.companyName), "contact_person" := JStr(form.contactPerson),
        "password_hash" := JStr(form.passwordHash)]
  }

  const EmployerKeys: set<string> := {"user_id", "name", "email", "company_name", "contact_person", "password_hash"}

  /** The entries for the non-blank fields among `fields`, added in order. */
  function PayloadOf(form: EmployerForm, fields: seq<EmployerField>): (p: Body)
    ensures forall f :: Key(f) in p <==> f in fields && Text(form, f) != ""
    ensures forall f :: Key(f) in p ==> p[Key(f)] == Sent(form, f)
    ensures p.Keys <= EmployerKeys
  {
    if fields == [] then map[]
    else
      var f, rest := fields[|fields| - 1], PayloadOf(form, fields[..|fields| - 1]);
      if Text(form, f) != "" then rest[Key(f) := Sent(form, f)] else rest
  }

  /** `handleUpdate`'s payload: a key for exactly the non-blank fields, and never the id. */
  function UpdatePayload(form: EmployerForm): (p: Body)
    ensures forall f :: Key(f) in p <==> Text(form, f) != ""
    ensures forall f :: Key(f) in p ==> p[Key(f)] == Sent(form, f)
    ensures p.Keys <= EmployerKeys && "id" !in p
  {
    PayloadOf(form, Fields)
  }

  /** `handleUpdate`'s payload described key by key: exactly the non-blank inputs, each as sent. */
  predicate PayloadByKey(form: EmployerForm, p: Body)
  {
    && p.Keys <= EmployerKeys
    && ("user_id" in p <==> form.userId != "") && ("user_id" in p ==> p["user_id"] == JsNumber(form.userId))
    && ("name" in p <==> form.name != "") && ("name" in p ==> p["name"] == JStr(form.name))
    && ("email" in p <==> form.email != "") && ("email" in p ==> p["email"] == JStr(form.email))
    && ("company_name" in p <==> form.companyName != "") && ("company_name" in p ==> p["company_name"] == JStr(form.companyName))
    && ("contact_person" in p <==> form.contactPerson != "") && ("contact_person" in p ==> p["contact_person"] == JStr(form.contactPerson))
    && ("password_hash" in p <==> form.passwordHash != "") && ("password_hash" in p ==> p["password_hash"] == JStr(form.passwordHash))
  }

  /** The specification meets the key-by-key description. */
  lemma UpdatePayloadByKey(form: EmployerForm)
    ensures PayloadByKey(form, UpdatePayload(form))
  {
    var q := UpdatePayload(form);
    assert Key(UserId) == "user_id" && (Key(UserId) in q <==> form.userId != "");
    assert Key(Name) == "name" && (Key(Name) in q <==> form.name != "");
    assert Key(Email) == "email" && (Key(Email) in q <==> form.email != "");
    assert Key(CompanyName) == "company_name" && (Key(CompanyName) in q <==> form.companyName != "");
    assert Key(ContactPerson) == "contact_person" && (Key(ContactPerson) in q <==> form.contactPerson != "");
    assert Key(PasswordHash) == "password_hash" && (Key(PasswordHash) in q <==> form.passwordHash != "");
  }

  /** A payload described key by key for a form has no key another such payload lacks. */
  lemma ByKeyKeysIncluded(form: EmployerForm, p: Body, q: Body)
    requires PayloadByKey(form, p) && PayloadByKey(form, q)
    ensures p.Keys <= q.Keys
  {
    forall k | k in p
      ensures k in q
    {
      assert k in EmployerKeys;
    }
  }

  /** Two payloads described key by key for the same form agree on every key. */
  lemma ByKeySameValues(form: EmployerForm, p: Body, q: Body)
    requires PayloadByKey(form, p) && PayloadByKey(form, q)
    ensures forall k :: k in p && k in q ==> p[k] == q[k]
  {
    forall k | k in p && k in q
      ensures p[k] == q[k]
    {
      assert k in EmployerKeys;
    }
  }

  /** The key-by-key description fixes the payload. */
  lemma ByKeyDetermines(form: EmployerForm, p: Body, q: Body)
    requires PayloadByKey(form, p) && PayloadByKey(form, q)
    ensures p == q
  {
    ByKeyKeysIncluded(form, p, q);
    ByKeyKeysIncluded(form, q, p);
    ByKeySameValues(form, p, q);
  }

  /** The update form as it starts, and as a successful update leaves it, sends `{}`. */
  lemma BlankUpdateSendsNothing()
    ensures UpdatePayload(EmptyForm) == map[]
  {
    UpdatePayloadByKey(EmptyForm);
    ByKeyDetermines(EmptyForm, UpdatePayload(EmptyForm), map[]);
  }

  /** `handleUpdate`'s payload, built as the page builds it: one conditional key assignment per input. */
  method BuildUpdatePayload(form: EmployerForm) returns (payload: Body)
    ensures payload == UpdatePayload(form)
  {
    payload := map[];
    if form.userId != "" {
      payload := payload["user_id" := JsNumber(form.userId)];
    }
    if form.name != "" {
      payload := payload["name" := JStr(form.name)];
    }
    if form.email != "" {
      payload := payload["email" := JStr(form.email)];
    }
    if form.companyName != "" {
      payload := payload["company_name" := JStr(form.companyName)];
    }
    if form.contactPerson != "" {
      payload := payload["contact_person" := JStr(form.contactPerson)];
    }
    if form.passwordHash != "" {
      payload := payload["password_hash" := JStr(form.passwordHash)];
    }
    assert PayloadByKey(form, payload);
    UpdatePayloadByKey(form);
    ByKeyDetermines(form, payload, UpdatePayload(form));
  }

  const EmployerLabels: Labels := Labels(
    "Employer created.", "Employer updated.", "Employer deleted.",
    "Failed to create employer", "Failed to update employer", "Failed to delete employer",
    "Failed to load employers")

  /** The Employers page as first rendered; its mount-time listing is a `Refresh`. */
  method Open() returns (page: CrudPage<EmployerForm>)
    ensures fresh(page) && page.labels == EmployerLabels
    ensures forall f :: page.createPayload(f) == CreatePayload(f) && page.updatePayload(f) == UpdatePayload(f)
    ensures page.createReset == EmptyForm && page.updateReset == EmptyForm
    ensures page.rows == [] && page.error == "" && page.message == ""
    ensures page.createForm == EmptyForm && page.updateId == "" && page.updateForm == EmptyForm && page.deleteId == ""
  {
    page := new CrudPage(EmployerLabels, CreatePayload, UpdatePayload, EmptyForm, EmptyForm);
  }
}
