/** The `/profiles` routes: create, get, partial update and delete of profile rows. */
module ProfileRoutes {
  import opened Json
  import opened Numerals
  import opened Http
  import opened Models
  import opened Store

  datatype ProfileField = UserId | FullName | Bio

  function Key(f: ProfileField): string
  {
    match f
    case UserId => "user_id"
    case FullName => "full_name"
    case Bio => "bio"
  }

  /** The keys `update_profile` visits, in order. */
  const Fields: seq<ProfileField> := [UserId, FullName, Bio]

  function Column(p: Profile, f: ProfileField): JsonValue
  {
    match f
    case UserId => JNum(p.userId as real)
    case FullName => p.fullName
    case Bio => p.bio
  }

  /** `_profile_to_dict` without `created_at`. */
  function ProfileToDict(id: int, p: Profile): (d: Body)
    ensures d.Keys == {"id", "user_id", "full_name", "bio"}
    ensures d["id"] == JNum(id as real)
    ensures forall f :: d[Key(f)] == Column(p, f)
  {
    map["id" := JNum(id as real), "user_id" := JNum(p.userId as real), "full_name" := p.fullName, "bio" := p.bio]
  }

  /** The guards of `create_profile` and the row it builds; `bio` is `data.get("bio")`. */
  function NewProfile(data: Option<Body>): (r: Result<Profile, Reply>)
    ensures !HasContent(data) ==> r == Failure(BadRequest("Missing JSON body"))
    ensures HasContent(data) && (MissingOrBlank(data.value, "user_id") || MissingOrBlank(data.value, "full_name")) ==>
              r == Failure(BadRequest("Missing fields"))
    ensures HasContent(data) && !MissingOrBlank(data.value, "user_id") && !MissingOrBlank(data.value, "full_name") ==>
              (PyInt(data.value["user_id"]).None? ==> r == Failure(BadRequest("Invalid user_id")))
    ensures r.Failure? ==> r.error.status == 400
    ensures r.Success? ==>
              && HasContent(data)
              && ProfileComplete(r.value)
              && Some(r.value.userId) == PyInt(data.value["user_id"])
              && r.value.fullName == data.value["full_name"]
              && ("bio" in data.value ==> r.value.bio == data.value["bio"])
              && ("bio" !in data.value ==> r.value.bio == JNull)
  {
    if !HasContent(data) then Failure(BadRequest("Missing JSON body"))
    else
      var body := data.value;
      if MissingOrBlank(body, "user_id") || MissingOrBlank(body, "full_name") then Failure(BadRequest("Missing fields"))
      else match ParseIntField(body["user_id"], "user_id")
        case Failure(err) =>
          assert err == "Invalid user_id";
          Failure(BadRequest(err))
        case Success(userId) => Success(Profile(userId, body["full_name"], Get(body, "bio")))
  }

  /** `update_profile` rejects only a `user_id` that `_parse_int` cannot convert; None and "" pass through. */
  predicate Acceptable(f: ProfileField, v: JsonValue)
  {
    f == UserId ==> PyInt(v).Some?
  }

  function Converted(f: ProfileField, v: JsonValue): JsonValue
  {
    if f != UserId then v
    else if PyInt(v).Some? then JNum(PyInt(v).value as real) else JNull
  }

  function Assign(p: Profile, f: ProfileField, v: JsonValue): (r: Profile)
    requires Acceptable(f, v)
    ensures Column(r, f) == Converted(f, v)
    ensures forall g :: g != f ==> Column(r, g) == Column(p, g)
  {
    match f
    case UserId => p.(userId := PyInt(v).value)
    case FullName => p.(fullName := v)
    case Bio => p.(bio := v)
  }

  predicate Accepts(body: Body, fields: seq<ProfileField>)
  {
    forall f :: f in fields && Key(f) in body ==> Acceptable(f, body[Key(f)])
  }

  /** The loop of `update_profile` over `fields`. */
  function ApplyUpdate(p: Profile, body: Body, fields: seq<ProfileField>): (r: Result<Profile, Reply>)
    ensures r.Success? <==> Accepts(body, fields)
    ensures r.Success? ==> forall f ::
              Column(r.value, f) == if f in fields && Key(f) in body then Converted(f, body[Key(f)]) else Column(p, f)
    ensures r.Failure? ==> r == Failure(BadRequest("Invalid user_id"))
    decreases |fields|
  {
    if fields == [] then Success(p)
    else
      var f := fields[0];
      if Key(f) in body then
        if Acceptable(f, body[Key(f)]) then ApplyUpdate(Assign(p, f, body[Key(f)]), body, fields[1..])
        else Failure(BadRequest("Invalid user_id"))
      else ApplyUpdate(p, body, fields[1..])
  }

  /**
   * Unlike the jobs route, an update may blank `full_name` or `bio`: "" is
   * stored as given, and a null `full_name` passes the loop and is refused only
   * by the NOT NULL constraint at commit.
   */
  lemma UpdateAcceptsBlankText(p: Profile, v: JsonValue)
    requires NullOrEmpty(v)
    ensures ApplyUpdate(p, map["full_name" := v], Fields) == Success(p.(fullName := v))
    ensures ApplyUpdate(p, map["bio" := v], Fields) == Success(p.(bio := v))
  {
    var r1 := ApplyUpdate(p, map["full_name" := v], Fields).value;
    assert Column(r1, UserId) == Column(p, UserId) && Column(r1, FullName) == v && Column(r1, Bio) == Column(p, Bio);
    var r2 := ApplyUpdate(p, map["bio" := v], Fields).value;
    assert Column(r2, UserId) == Column(p, UserId) && Column(r2, FullName) == Column(p, FullName) && Column(r2, Bio) == v;
  }

  method CreateProfile(db: Database, data: Option<Body>) returns (reply: Reply)
    requires db.Valid()
    modifies db
    ensures db.Valid()
    ensures NewProfile(data).Failure? ==> reply == NewProfile(data).error && db.Snapshot() == old(db.Snapshot())
    ensures NewProfile(data).Success? ==>
              var id := old(db.nextProfile);
              && id !in old(db.profiles)
              && db.Snapshot() == old(db.Snapshot()).(profiles := old(db.profiles)[id := NewProfile(data).value])
              && reply == Reply(201, RecordBody(ProfileToDict(id, NewProfile(data).value)))
  {
    var checked := NewProfile(data);
    if checked.Failure? {
      return checked.error;
    }
    var id := db.InsertProfile(checked.value);
    reply := Reply(201, RecordBody(ProfileToDict(id, checked.value)));
  }

  method GetProfile(db: Database, id: int) returns (reply: Reply)
    ensures id in db.profiles ==> reply == Reply(200, RecordBody(ProfileToDict(id, db.profiles[id])))
    ensures id !in db.profiles ==> reply == NotFound
  {
    if id !in db.profiles {
      return NotFound;
    }
    reply := Reply(200, RecordBody(ProfileToDict(id, db.profiles[id])));
  }

  method UpdateProfile(db: Database, id: int, data: Option<Body>) returns (reply: Reply)
    requires db.Valid()
    modifies db
    ensures db.Valid()
    ensures id !in old(db.profiles) ==> reply == NotFound && db.Snapshot() == old(db.Snapshot())
    ensures id in old(db.profiles) && !HasContent(data) ==>
              reply == BadRequest("Missing JSON body") && db.Snapshot() == old(db.Snapshot())
    ensures id in old(db.profiles) && HasContent(data) ==>
              match ApplyUpdate(old(db.profiles[id]), data.value, Fields)
              case Failure(e) => reply == e && db.Snapshot() == old(db.Snapshot())
              case Success(p) =>
                if ProfileComplete(p) then
                  && db.Snapshot() == old(db.Snapshot()).(profiles := old(db.profiles)[id := p])
                  && reply == Reply(200, RecordBody(ProfileToDict(id, p)))
                else reply == ServerError && db.Snapshot() == old(db.Snapshot())
  {
    if id !in db.profiles {
      return NotFound;
    }
    if !HasContent(data) {
      return BadRequest("Missing JSON body");
    }
    var body := data.value;
    var profile := db.profiles[id];
    var i := 0;
    while i < |Fields|
      invariant 0 <= i <= |Fields|
      invariant ApplyUpdate(db.profiles[id], body, Fields) == ApplyUpdate(profile, body, Fields[i..])
    {
      var f := Fields[i];
      assert Fields[i..][0] == f && Fields[i..][1..] == Fields[i + 1..];
      if Key(f) in body {
        var value := body[Key(f)];
        if f == UserId {
          var parsed := ParseIntField(value, "user_id");
          if parsed.Failure? {
            assert parsed.error == "Invalid user_id";
            return BadRequest(parsed.error);
          }
        }
        profile := Assign(profile, f, value);
      }
      i := i + 1;
    }
    var committed := db.UpdateProfile(id, profile);
    if !committed {
      return ServerError;
    }
    reply := Reply(200, RecordBody(ProfileToDict(id, profile)));
  }

  method DeleteProfile(db: Database, id: int) returns (reply: Reply)
    requires db.Valid()
    modifies db
    ensures db.Valid()
    ensures id !in old(db.profiles) ==> reply == NotFound && db.Snapshot() == old(db.Snapshot())
    ensures id in old(db.profiles) ==>
              && reply == Deleted
              && db.Snapshot() == WithoutProfile(old(db.Snapshot()), id)
              && id !in db.profiles
  {
    if id !in db.profiles {
      return NotFound;
    }
    db.DeleteProfile(id);
    reply := Deleted;
  }
}
