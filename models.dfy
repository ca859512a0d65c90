/**
 * The five tables of the schema, the column constraints the database enforces
 * at commit, and the cascading deletes declared along the foreign keys.
 */
module Models {
  import opened Json

  /**
   * A stored password hash. The salted hash of the password library is modelled
   * by a tagged value: it matches exactly the password it was made from, and it
   * is never the raw string itself.
   */
  datatype PasswordHash = Hashed(secret: string)

  function GeneratePasswordHash(password: string): PasswordHash
  {
    Hashed(password)
  }

  predicate CheckPasswordHash(h: PasswordHash, password: string)
  {
    h.secret == password
  }

  /** A hash checks against the password it was made from, and only against that one. */
  lemma HashMatchesOnlyItsPassword(p: string, q: string)
    ensures CheckPasswordHash(GeneratePasswordHash(p), q) <==> p == q
  {
  }

  datatype User = User(username: JsonValue, email: string, passwordHash: PasswordHash, role: string)

  datatype Employer = Employer(
    userId: int, name: JsonValue, email: JsonValue,
    companyName: JsonValue, contactPerson: JsonValue, passwordHash: JsonValue)

  datatype Job = Job(title: JsonValue, description: JsonValue, location: JsonValue, salary: real, employerId: int)

  datatype Application = Application(userId: int, jobId: int, status: JsonValue)

  /** `bio` is the one nullable text column: JNull is a profile without a bio. */
  datatype Profile = Profile(userId: int, fullName: JsonValue, bio: JsonValue)

  const DefaultStatus: JsonValue := JStr("pending")

  /**
   * The status an inserted application ends up with. The ORM leaves a None
   * attribute out of the INSERT, so the column default 'pending' applies both
   * when the key was absent and when it was null.
   */
  function InsertedStatus(given: JsonValue): (s: JsonValue)
    ensures s != JNull
    ensures given != JNull ==> s == given
    ensures given == JNull ==> s == JStr("pending")
  {
    if given == JNull then DefaultStatus else given
  }

  datatype Tables = Tables(
    users: map<int, User>,
    employers: map<int, Employer>,
    jobs: map<int, Job>,
    applications: map<int, Application>,
    profiles: map<int, Profile>)

  const EmptyTables: Tables := Tables(map[], map[], map[], map[], map[])

  // NOT NULL columns that can receive a null value from a request.

  predicate UserComplete(u: User)
  {
    u.username != JNull
  }

  predicate EmployerComplete(e: Employer)
  {
    && e.name != JNull && e.email != JNull && e.companyName != JNull
    && e.contactPerson != JNull && e.passwordHash != JNull
  }

  predicate JobComplete(j: Job)
  {
    j.title != JNull && j.description != JNull && j.location != JNull
  }

  predicate ProfileComplete(p: Profile)
  {
    p.fullName != JNull
  }

  // UNIQUE columns: does row `id`, holding `u`, share a unique value with another row?

  predicate UserClashes(users: map<int, User>, id: int, u: User)
  {
    exists k :: k in users && k != id && (users[k].username == u.username || users[k].email == u.email)
  }

  predicate EmployerClashes(employers: map<int, Employer>, id: int, e: Employer)
  {
    exists k :: k in employers && k != id && (employers[k].name == e.name || employers[k].email == e.email)
  }

  /** Every constraint the database checks when a transaction commits. */
  ghost predicate Constraints(t: Tables)
  {
    && (forall k :: k in t.users ==> UserComplete(t.users[k]) && !UserClashes(t.users, k, t.users[k]))
    && (forall k :: k in t.employers ==> EmployerComplete(t.employers[k]) && !EmployerClashes(t.employers, k, t.employers[k]))
    && (forall k :: k in t.jobs ==> JobComplete(t.jobs[k]))
    && (forall k :: k in t.profiles ==> ProfileComplete(t.profiles[k]))
  }

  /** Usernames and emails are unique across users; names and emails across employers. */
  lemma ConstraintsMeanUnique(t: Tables, a: int, b: int)
    requires Constraints(t)
    ensures a in t.users && b in t.users && a != b ==>
              t.users[a].username != t.users[b].username && t.users[a].email != t.users[b].email
    ensures a in t.employers && b in t.employers && a != b ==>
              t.employers[a].name != t.employers[b].name && t.employers[a].email != t.employers[b].email
  {
    if a in t.users && b in t.users && a != b {
      assert !UserClashes(t.users, a, t.users[a]);
    }
    if a in t.employers && b in t.employers && a != b {
      assert !EmployerClashes(t.employers, a, t.employers[a]);
    }
  }

  /** Every foreign key names an existing row. */
  ghost predicate RefIntegrity(t: Tables)
  {
    && (forall k :: k in t.employers ==> t.employers[k].userId in t.users)
    && (forall k :: k in t.profiles ==> t.profiles[k].userId in t.users)
    && (forall k :: k in t.jobs ==> t.jobs[k].employerId in t.employers)
    && (forall k :: k in t.applications ==> t.applications[k].userId in t.users && t.applications[k].jobId in t.jobs)
  }

  /** Every row of r is a row of t, unchanged. */
  ghost predicate Shrinks(t: Tables, r: Tables)
  {
    && (forall k :: k in r.users ==> k in t.users && r.users[k] == t.users[k])
    && (forall k :: k in r.employers ==> k in t.employers && r.employers[k] == t.employers[k])
    && (forall k :: k in r.jobs ==> k in t.jobs && r.jobs[k] == t.jobs[k])
    && (forall k :: k in r.applications ==> k in t.applications && r.applications[k] == t.applications[k])
    && (forall k :: k in r.profiles ==> k in t.profiles && r.profiles[k] == t.profiles[k])
  }

  /**
   * Deleting the given users, employers and jobs together with everything that
   * references them: employers and profiles of a deleted user, jobs of a
   * deleted employer, applications of a deleted user or on a deleted job.
   */
  function Cascade(t: Tables, users: set<int>, employers: set<int>, jobs: set<int>): (r: Tables)
    ensures Shrinks(t, r)
    ensures RefIntegrity(t) ==> RefIntegrity(r)
  {
    var goneEmployers := employers + set k | k in t.employers && t.employers[k].userId in users;
    var goneJobs := jobs + set k | k in t.jobs && t.jobs[k].employerId in goneEmployers;
    Tables(
      t.users - users,
      t.employers - goneEmployers,
      t.jobs - goneJobs,
      map k | k in t.applications && t.applications[k].userId !in users && t.applications[k].jobId !in goneJobs
            :: t.applications[k],
      map k | k in t.profiles && t.profiles[k].userId !in users :: t.profiles[k])
  }

  /** Does job j belong to an employer row of user `user`? */
  ghost predicate JobOfUser(t: Tables, j: Job, user: int)
  {
    j.employerId in t.employers && t.employers[j.employerId].userId == user
  }

  /** Deleting a user row (models.py:23, 66, 89 and the backrefs at 30-34, 70-74, 93-97). */
  function WithoutUser(t: Tables, id: int): (r: Tables)
    ensures Shrinks(t, r)
    ensures RefIntegrity(t) ==> RefIntegrity(r)
    ensures r.users.Keys == t.users.Keys - {id}
    ensures forall k :: k in r.employers <==> k in t.employers && t.employers[k].userId != id
    ensures forall k :: k in r.profiles <==> k in t.profiles && t.profiles[k].userId != id
    ensures forall k :: k in r.jobs <==> k in t.jobs && !JobOfUser(t, t.jobs[k], id)
    ensures forall k :: k in r.applications <==>
              && k in t.applications
              && t.applications[k].userId != id
              && !(t.applications[k].jobId in t.jobs && JobOfUser(t, t.jobs[t.applications[k].jobId], id))
  {
    Cascade(t, {id}, {}, {})
  }

  /** Deleting an employer row (models.py:53-58 and the applications backref of each job). */
  function WithoutEmployer(t: Tables, id: int): (r: Tables)
    ensures Shrinks(t, r)
    ensures RefIntegrity(t) ==> RefIntegrity(r)
    ensures r.users == t.users && r.profiles == t.profiles
    ensures r.employers.Keys == t.employers.Keys - {id}
    ensures forall k :: k in r.jobs <==> k in t.jobs && t.jobs[k].employerId != id
    ensures forall k :: k in r.applications <==>
              && k in t.applications
              && !(t.applications[k].jobId in t.jobs && t.jobs[t.applications[k].jobId].employerId == id)
  {
    Cascade(t, {}, {id}, {})
  }

  /** Deleting a job row (models.py:67, 75-79). */
  function WithoutJob(t: Tables, id: int): (r: Tables)
    ensures Shrinks(t, r)
    ensures RefIntegrity(t) ==> RefIntegrity(r)
    ensures r.users == t.users && r.employers == t.employers && r.profiles == t.profiles
    ensures r.jobs.Keys == t.jobs.Keys - {id}
    ensures forall k :: k in r.applications <==> k in t.applications && t.applications[k].jobId != id
  {
    Cascade(t, {}, {}, {id})
  }

  /** Deleting an application or a profile removes that row alone: nothing references them. */
  function WithoutApplication(t: Tables, id: int): (r: Tables)
    ensures Shrinks(t, r)
    ensures RefIntegrity(t) ==> RefIntegrity(r)
    ensures r.applications.Keys == t.applications.Keys - {id}
    ensures r.users == t.users && r.employers == t.employers && r.jobs == t.jobs && r.profiles == t.profiles
  {
    t.(applications := t.applications - {id})
  }

  function WithoutProfile(t: Tables, id: int): (r: Tables)
    ensures Shrinks(t, r)
    ensures RefIntegrity(t) ==> RefIntegrity(r)
    ensures r.profiles.Keys == t.profiles.Keys - {id}
    ensures r.users == t.users && r.employers == t.employers && r.jobs == t.jobs && r.applications == t.applications
  {
    t.(profiles := t.profiles - {id})
  }

  /** Deleting rows never breaks a constraint that held before. */
  lemma ShrinkingKeepsConstraints(t: Tables, r: Tables)
    requires Constraints(t) && Shrinks(t, r)
    ensures Constraints(r)
  {
    forall k | k in r.users
      ensures !UserClashes(r.users, k, r.users[k])
    {
      assert !UserClashes(t.users, k, t.users[k]);
    }
    forall k | k in r.employers
      ensures !EmployerClashes(r.employers, k, r.employers[k])
    {
      assert !EmployerClashes(t.employers, k, t.employers[k]);
    }
  }

  /**
   * The cascade is transitive: once a user is deleted, no job of any of the
   * user's employer rows and no application on such a job remains.
   */
  lemma UserCascadeReachesApplications(t: Tables, user: int, a: int)
    requires a in t.applications
    requires t.applications[a].jobId in t.jobs
    requires JobOfUser(t, t.jobs[t.applications[a].jobId], user)
    ensures t.applications[a].jobId !in WithoutUser(t, user).jobs
    ensures a !in WithoutUser(t, user).applications
  {
  }
}
