/**
 * The Profiles page: the create, update and delete forms and the payloads
 * they send. Only the user id goes through `Number`.
 */
module ProfilesPage {
  import opened Json
  import opened Numerals
  import opened PageState
  import opened ProfileRoutes

  /** The text the user typed into each input of a profile form. */
  datatype ProfileForm = ProfileForm(userId: string, fullName: string, bio: string)

  const EmptyForm: ProfileForm := ProfileForm("", "", "")

  function Text(form: ProfileForm, f: ProfileField): string
  {
    match f
    case UserId => form.userId
    case FullName => form.fullName
    case Bio => form.bio
  }

  /** What goes over the wire for a field: `Number(text)` for the user id, the text otherwise. */
  function Sent(form: ProfileForm, f: ProfileField): (v: JsonValue)
    ensures f == UserId ==> v == JsNumber(Text(form, f)) && (v.JNum? || v == JNull)
    ensures f != UserId ==> v == JStr(Text(form, f))
  {
    if f == UserId then JsNumber(Text(form, f)) else JStr(Text(form, f))
  }

  /** `{...createForm, user_id: Number(...)}`: every field, so a blank bio is sent as "". */
  function CreatePayload(form: ProfileForm): (p: Body)
    ensures p.Keys == {"user_id", "full_name", "bio"}
    ensures forall f :: p[Key(f)] == Sent(form, f)
  {
    map["user_id" := JsNumber(form.userId), "full_name" := JStr(form.fullName), "bio" := JStr(form.bio)]
  }

  const ProfileKeys: set<string> := {"user_id", "full_name", "bio"}

  /** The entries for the non-blank fields among `fields`, added in order. */
  function PayloadOf(form: ProfileForm, fields: seq<ProfileField>): (p: Body)
    ensures forall f :: Key(f) in p <==> f in fields && Text(form, f) != ""
    ensures forall f :: Key(f) in p ==> p[Key(f)] == Sent(form, f)
    ensures p.Keys <= ProfileKeys
  {
    if fields == [] then map[]
    else
      var f, rest := fields[|fields| - 1], PayloadOf(form, fields[..|fields| - 1]);
      if Text(form, f) != "" then rest[Key(f) := Sent(form, f)] else rest
  }

  /** `handleUpdate`'s payload: a key for exactly the non-blank fields, and never the id. */
  function UpdatePayload(form: ProfileForm): (p: Body)
    ensures forall f :: Key(f) in p <==> Text(form, f) != ""
    ensures forall f :: Key(f) in p ==> p[Key(f)] == Sent(form, f)
    ensures p.Keys <= ProfileKeys && "id" !in p
  {
    PayloadOf(form, Fields)
  }

  /** `handleUpdate`'s payload described key by key: exactly the non-blank inputs, each as sent. */
  predicate PayloadByKey(form: ProfileForm, p: Body)
  {
    && p.Keys <= ProfileKeys
    && ("user_id" in p <==> form.userId != "") && ("user_id" in p ==> p["user_id"] == JsNumber(form.userId))
    && ("full_name" in p <==> form.fullName != "") && ("full_name" in p ==> p["full_name"] == JStr(form.fullName))
    && ("bio" in p <==> form.bio != "") && ("bio" in p ==> p["bio"] == JStr(form.bio))
  }

  /** The specification meets the key-by-key description. */
  lemma UpdatePayloadByKey(form: ProfileForm)
    ensures PayloadByKey(form, UpdatePayload(form))
  {
    var q := UpdatePayload(form);
    assert Key(UserId) == "user_id" && (Key(UserId) in q <==> form.userId != "");
    assert Key(FullName) == "full_name" && (Key(FullName) in q <==> form.fullName != "");
    assert Key(Bio) == "bio" && (Key(Bio) in q <==> form.bio != "");
  }

  /** A payload described key by key for a form has no key another such payload lacks. */
  lemma ByKeyKeysIncluded(form: ProfileForm, p: Body, q: Body)
    requires PayloadByKey(form, p) && PayloadByKey(form, q)
    ensures p.Keys <= q.Keys
  {
    forall k | k in p
      ensures k in q
    {
      assert k in ProfileKeys;
    }
  }

  /** Two payloads described key by key for the same form agree on every key. */
  lemma ByKeySameValues(form: ProfileForm, p: Body, q: Body)
    requires PayloadByKey(form, p) && PayloadByKey(form, q)
    ensures forall k :: k in p && k in q ==> p[k] == q[k]
  {
    forall k | k in p && k in q
      ensures p[k] == q[k]
    {
      assert k in ProfileKeys;
    }
  }

  /** The key-by-key description fixes the payload. */
  lemma ByKeyDetermines(form: ProfileForm, p: Body, q: Body)
    requires PayloadByKey(form, p) && PayloadByKey(form, q)
    ensures p == q
  {
    ByKeyKeysIncluded(form, p, q);
    ByKeyKeysIncluded(form, q, p);
    ByKeySameValues(form, p, q);
  }

  /** The update form as it starts, and as a successful update leaves it, sends `{}`. */
  lemma BlankUpdateSendsNothing()
    ensures UpdatePayload(EmptyForm) == map[]
  {
    UpdatePayloadByKey(EmptyForm);
    ByKeyDetermines(EmptyForm, UpdatePayload(EmptyForm), map[]);
  }

  /** `handleUpdate`'s payload, built as the page builds it: one conditional key assignment per input. */
  method BuildUpdatePayload(form: ProfileForm) returns (payload: Body)
    ensures payload == UpdatePayload(form)
  {
    payload := map[];
    if form.userId != "" {
      payload := payload["user_id" := JsNumber(form.userId)];
    }
    if form.fullName != "" {
      payload := payload["full_name" := JStr(form.fullName)];
    }
    if form.bio != "" {
      payload := payload["bio" := JStr(form.bio)];
    }
    assert PayloadByKey(form, payload);
    UpdatePayloadByKey(form);
    ByKeyDetermines(form, payload, UpdatePayload(form));
  }

  const ProfileLabels: Labels := Labels(
    "Profile created.", "Profile updated.", "Profile deleted.",
    "Failed to create profile", "Failed to update profile", "Failed to delete profile",
    "Failed to load profiles")

  /** The Profiles page as first rendered; its mount-time listing is a `Refresh`. */
  method Open() returns (page: CrudPage<ProfileForm>)
    ensures fresh(page) && page.labels == ProfileLabels
    ensures forall f :: page.createPayload(f) == CreatePayload(f) && page.updatePayload(f) == UpdatePayload(f)
    ensures page.createReset == EmptyForm && page.updateReset == EmptyForm
    ensures page.rows == [] && page.error == "" && page.message == ""
    ensures page.createForm == EmptyForm && page.updateId == "" && page.updateForm == EmptyForm && page.deleteId == ""
  {
    page := new CrudPage(ProfileLabels, CreatePayload, UpdatePayload, EmptyForm, EmptyForm);
  }
}
