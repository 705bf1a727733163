/** The running system: services wired to one database, serving requests one at a time. */
module Application {
  import opened Store
  import opened CivicPoints
  import opened IssueMedia
  import opened IssueVerification
  import opened IssueLifecycle
  import opened Runs

  class Backend {
    const db: Database
    const ai: IssueVerificationService
    const issues: IssuesService
    const media: IssueMediaService
    const lifecycle: IssueLifecycleService

    constructor (ai: IssueVerificationService)
      ensures this.ai == ai && Wired() && fresh(db)
      ensures db.View() == Execute(ai, [])
    {
      var database := new Database();
      var issuesService := new IssuesService(database);
      var mediaService := new IssueMediaService(database);
      var points := new CivicPointsService(database);
      this.db := database;
      this.ai := ai;
      this.issues := issuesService;
      this.media := mediaService;
      this.lifecycle := new IssueLifecycleService(database, issuesService, ai, points);
    }

    ghost predicate Wired() {
      && issues.db == db && media.db == db
      && lifecycle.db == db && lifecycle.ai == ai && lifecycle.Wired()
    }

    /** Requests on the lifecycle routes. */
    method ServeLifecycle(r: Request) returns (accepted: bool)
      requires Wired()
      requires r.Claim? || r.Release? || r.Start? || r.Resolve? || r.ChangeStatus?
      modifies db
      ensures db.View() == Next(ai, old(db.View()), r)
      ensures accepted <==> Handle(ai, old(db.View()), r).Success?
    {
      var reply;
      match r {
        case Claim(id, actor, now) => reply := lifecycle.Claim(id, actor, now);
        case Release(id, actor) => reply := lifecycle.Release(id, actor);
        case Start(id, actor) => reply := lifecycle.Start(id, actor);
        case Resolve(id, actor, note, outside, now) => reply := lifecycle.Resolve(id, actor, note, outside, now);
        case ChangeStatus(target, dto, actor, now, fault) =>
          reply := lifecycle.ChangeStatus(target, dto, actor, now, fault);
      }
      accepted := reply.Success?;
    }

    /** Requests on the reporting and media routes. */
    method ServeContent(r: Request) returns (accepted: bool)
      requires Wired()
      requires r.Create? || r.Edit? || r.Upload? || r.Remove?
      modifies db
      ensures db.View() == Next(ai, old(db.View()), r)
      ensures accepted <==> Handle(ai, old(db.View()), r).Success?
    {
      match r
      case Create(id, reporter, report) =>
        var reply := issues.Create(id, reporter, report);
        accepted := reply.Success?;
      case Edit(id, actor, changes) =>
        var reply := issues.UpdateOwn(id, actor, changes);
        accepted := reply.Success?;
      case Upload(id, actor, file, fid, now) =>
        var reply := media.Upload(id, actor, file, fid, now);
        accepted := reply.Success?;
      case Remove(fid, actor) =>
        var reply := media.Remove(fid, actor);
        accepted := reply.Success?;
    }

    /**
     The services together do exactly what the run model says of each request, and report a
     refusal exactly when it refuses.
     */
    method Serve(r: Request) returns (accepted: bool)
      requires Wired()
      modifies db
      ensures db.View() == Next(ai, old(db.View()), r)
      ensures accepted <==> Handle(ai, old(db.View()), r).Success?
    {
      if r.Create? || r.Edit? || r.Upload? || r.Remove? {
        accepted := ServeContent(r);
      } else {
        accepted := ServeLifecycle(r);
      }
    }

    /** Serving requests one after another leads to the state their run leads to. */
    method ServeAll(rs: seq<Request>)
      requires Wired() && db.View() == EMPTY
      modifies db
      ensures db.View() == Execute(ai, rs) && Inv(ai, db.View())
    {
      for n := 0 to |rs|
        invariant db.View() == Execute(ai, rs[..n])
      {
        var _ := Serve(rs[n]);
        ExecuteNext(ai, rs[..n], rs[n]);
        assert rs[..n + 1] == rs[..n] + [rs[n]];
      }
      assert rs[..|rs|] == rs;
      Reachable(ai, rs);
    }
  }
}
