/**
 * The database behind the routes: the five tables as maps from id to row, the
 * next id each table hands out, and the row-level operations the routes use.
 * Each operation is one committed transaction: an insert or an update that
 * breaks a constraint raises at commit and leaves every table as it was.
 */
module Store {
  import opened Json
  import opened Models

  /** Every id in use is positive and below the next one to be handed out. */
  predicate IdsBelow(ids: set<int>, next: int)
  {
    1 <= next && forall k :: k in ids ==> 1 <= k < next
  }

  predicate IdsFresh(t: Tables, nextUser: int, nextEmployer: int, nextJob: int, nextApplication: int, nextProfile: int)
  {
    && IdsBelow(t.users.Keys, nextUser)
    && IdsBelow(t.employers.Keys, nextEmployer)
    && IdsBelow(t.jobs.Keys, nextJob)
    && IdsBelow(t.applications.Keys, nextApplication)
    && IdsBelow(t.profiles.Keys, nextProfile)
  }

  /** Deleting rows keeps every remaining id below its table's counter. */
  lemma ShrinkingKeepsIds(t: Tables, r: Tables, nu: int, ne: int, nj: int, na: int, np: int)
    requires IdsFresh(t, nu, ne, nj, na, np) && Shrinks(t, r)
    ensures IdsFresh(r, nu, ne, nj, na, np)
  {
  }

  class Database {
    var users: map<int, User>
    var employers: map<int, Employer>
    var jobs: map<int, Job>
    var applications: map<int, Application>
    var profiles: map<int, Profile>
    var nextUser: int
    var nextEmployer: int
    var nextJob: int
    var nextApplication: int
    var nextProfile: int

    function Snapshot(): Tables
      reads this
    {
      Tables(users, employers, jobs, applications, profiles)
    }

    ghost predicate Valid()
      reads this
    {
      && Constraints(Snapshot())
      && IdsFresh(Snapshot(), nextUser, nextEmployer, nextJob, nextApplication, nextProfile)
    }

    constructor ()
      ensures Valid()
      ensures Snapshot() == EmptyTables
    {
      users, employers, jobs, applications, profiles := map[], map[], map[], map[], map[];
      nextUser, nextEmployer, nextJob, nextApplication, nextProfile := 1, 1, 1, 1, 1;
    }

    /** `db.session.add(user)` and commit; a taken username or email raises IntegrityError. */
    method InsertUser(u: User) returns (id: int, committed: bool)
      requires Valid() && UserComplete(u)
      modifies this
      ensures Valid()
      ensures id == old(nextUser) && id !in old(users)
      ensures committed <==> !UserClashes(old(users), id, u)
      ensures committed ==> Snapshot() == old(Snapshot()).(users := old(users)[id := u])
      ensures !committed ==> Snapshot() == old(Snapshot())
    {
      id := nextUser;
      committed := !UserClashes(users, id, u);
      if committed {
        UserInsertKeepsUnique(users, id, u, users[id := u]);
        users := users[id := u];
        nextUser := nextUser + 1;
      }
    }

    /** `db.session.add(employer)` and commit; a taken name or email raises IntegrityError. */
    method InsertEmployer(e: Employer) returns (id: int, committed: bool)
      requires Valid() && EmployerComplete(e)
      modifies this
      ensures Valid()
      ensures id == old(nextEmployer) && id !in old(employers)
      ensures committed <==> !EmployerClashes(old(employers), id, e)
      ensures committed ==> Snapshot() == old(Snapshot()).(employers := old(employers)[id := e])
      ensures !committed ==> Snapshot() == old(Snapshot())
    {
      id := nextEmployer;
      committed := !EmployerClashes(employers, id, e);
      if committed {
        EmployerPutKeepsUnique(employers, id, e, employers[id := e]);
        employers := employers[id := e];
        nextEmployer := nextEmployer + 1;
      }
    }

    /** Commit of an employer whose attributes were reassigned: NOT NULL and UNIQUE are checked. */
    method UpdateEmployer(id: int, e: Employer) returns (committed: bool)
      requires Valid() && id in employers
      modifies this
      ensures Valid()
      ensures committed <==> EmployerComplete(e) && !EmployerClashes(old(employers), id, e)
      ensures committed ==> Snapshot() == old(Snapshot()).(employers := old(employers)[id := e])
      ensures !committed ==> Snapshot() == old(Snapshot())
    {
      committed := EmployerComplete(e) && !EmployerClashes(employers, id, e);
      if committed {
        EmployerPutKeepsUnique(employers, id, e, employers[id := e]);
        employers := employers[id := e];
      }
    }

    method InsertJob(j: Job) returns (id: int)
      requires Valid() && JobComplete(j)
      modifies this
      ensures Valid()
      ensures id == old(nextJob) && id !in old(jobs)
      ensures Snapshot() == old(Snapshot()).(jobs := old(jobs)[id := j])
    {
      id := nextJob;
      jobs := jobs[id := j];
      nextJob := nextJob + 1;
    }

    method UpdateJob(id: int, j: Job)
      requires Valid() && id in jobs && JobComplete(j)
      modifies this
      ensures Valid()
      ensures Snapshot() == old(Snapshot()).(jobs := old(jobs)[id := j])
    {
      jobs := jobs[id := j];
    }

    method InsertApplication(a: Application) returns (id: int)
      requires Valid()
      modifies this
      ensures Valid()
      ensures id == old(nextApplication) && id !in old(applications)
      ensures Snapshot() == old(Snapshot()).(applications := old(applications)[id := a])
    {
      id := nextApplication;
      applications := applications[id := a];
      nextApplication := nextApplication + 1;
    }

    method UpdateApplication(id: int, a: Application)
      requires Valid() && id in applications
      modifies this
      ensures Valid()
      ensures Snapshot() == old(Snapshot()).(applications := old(applications)[id := a])
    {
      applications := applications[id := a];
    }

    method InsertProfile(p: Profile) returns (id: int)
      requires Valid() && ProfileComplete(p)
      modifies this
      ensures Valid()
      ensures id == old(nextProfile) && id !in old(profiles)
      ensures Snapshot() == old(Snapshot()).(profiles := old(profiles)[id := p])
    {
      id := nextProfile;
      profiles := profiles[id := p];
      nextProfile := nextProfile + 1;
    }

    /** Commit of a profile whose attributes were reassigned: a null `full_name` raises IntegrityError. */
    method UpdateProfile(id: int, p: Profile) returns (committed: bool)
      requires Valid() && id in profiles
      modifies this
      ensures Valid()
      ensures committed <==> ProfileComplete(p)
      ensures committed ==> Snapshot() == old(Snapshot()).(profiles := old(profiles)[id := p])
      ensures !committed ==> Snapshot() == old(Snapshot())
    {
      committed := ProfileComplete(p);
      if committed {
        profiles := profiles[id := p];
      }
    }

    /** Tables obtained by deleting rows keep the constraints and the id counters' bound. */
    lemma ShrinkingKeepsValid(r: Tables)
      requires Valid() && Shrinks(Snapshot(), r)
      ensures Constraints(r) && IdsFresh(r, nextUser, nextEmployer, nextJob, nextApplication, nextProfile)
    {
      ShrinkingKeepsConstraints(Snapshot(), r);
      ShrinkingKeepsIds(Snapshot(), r, nextUser, nextEmployer, nextJob, nextApplication, nextProfile);
    }

    /** The tables after a committed delete. */
    method Replace(r: Tables)
      requires Constraints(r) && IdsFresh(r, nextUser, nextEmployer, nextJob, nextApplication, nextProfile)
      modifies this
      ensures Valid() && Snapshot() == r
      ensures nextUser == old(nextUser) && nextEmployer == old(nextEmployer) && nextJob == old(nextJob)
      ensures nextApplication == old(nextApplication) && nextProfile == old(nextProfile)
    {
      users, employers, jobs, applications, profiles := r.users, r.employers, r.jobs, r.applications, r.profiles;
    }

    /** `db.session.delete(row)` and commit, with the cascades the schema declares. */
    method DeleteUser(id: int)
      requires Valid() && id in users
      modifies this
      ensures Valid()
      ensures Snapshot() == WithoutUser(old(Snapshot()), id)
    {
      var r := WithoutUser(Snapshot(), id);
      ShrinkingKeepsValid(r);
      Replace(r);
    }

    method DeleteEmployer(id: int)
      requires Valid() && id in employers
      modifies this
      ensures Valid()
      ensures Snapshot() == WithoutEmployer(old(Snapshot()), id)
    {
      var r := WithoutEmployer(Snapshot(), id);
      ShrinkingKeepsValid(r);
      Replace(r);
    }

    method DeleteJob(id: int)
      requires Valid() && id in jobs
      modifies this
      ensures Valid()
      ensures Snapshot() == WithoutJob(old(Snapshot()), id)
    {
      var r := WithoutJob(Snapshot(), id);
      ShrinkingKeepsValid(r);
      Replace(r);
    }

    method DeleteApplication(id: int)
      requires Valid() && id in applications
      modifies this
      ensures Valid()
      ensures Snapshot() == WithoutApplication(old(Snapshot()), id)
    {
      applications := applications - {id};
    }

    method DeleteProfile(id: int)
      requires Valid() && id in profiles
      modifies this
      ensures Valid()
      ensures Snapshot() == WithoutProfile(old(Snapshot()), id)
    {
      profiles := profiles - {id};
    }
  }

  /** A user that clashes with no other row keeps every username and email unique. */
  lemma UserInsertKeepsUnique(users: map<int, User>, id: int, u: User, m: map<int, User>)
    requires forall k :: k in users ==> !UserClashes(users, k, users[k])
    requires !UserClashes(users, id, u)
    requires m == users[id := u]
    ensures forall k :: k in m ==> !UserClashes(m, k, m[k])
  {
    forall k | k in m && k != id
      ensures !UserClashes(m, k, m[k])
    {
      assert !UserClashes(users, k, users[k]);
    }
  }

  /** Putting an employer that clashes with no other row keeps names and emails unique. */
  lemma EmployerPutKeepsUnique(employers: map<int, Employer>, id: int, e: Employer, m: map<int, Employer>)
    requires forall k :: k in employers ==> !EmployerClashes(employers, k, employers[k])
    requires !EmployerClashes(employers, id, e)
    requires m == employers[id := e]
    ensures forall k :: k in m ==> !EmployerClashes(m, k, m[k])
  {
    forall k | k in m && k != id
      ensures !EmployerClashes(m, k, m[k])
    {
      assert !EmployerClashes(employers, k, employers[k]);
    }
  }
}
