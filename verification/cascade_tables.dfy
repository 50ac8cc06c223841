/** dao/source_dao.go and dao/application_dao.go: the transactions that delete a source or an application
    with everything below it.  The foreign keys modelled here are all ON DELETE CASCADE. */
module CascadeTables {
  import opened Collections

  datatype AppAuth = AppAuth(id: int, tenantId: int, applicationId: int, authenticationId: int)
  datatype Application = Application(id: int, tenantId: int, sourceId: int)
  datatype Endpoint = Endpoint(id: int, tenantId: int, sourceId: int)
  datatype Connection = Connection(id: int)
  datatype Link = Link(sourceId: int, connectionId: int, tenantId: int)
  datatype Source = Source(id: int, tenantId: int)
  datatype ResourceType = SourceType | ApplicationType | EndpointType
  datatype Authentication = Authentication(id: int, tenantId: int, resourceType: ResourceType, resourceId: int)

  datatype Tables = Tables(
    appAuths: seq<AppAuth>,
    applications: seq<Application>,
    endpoints: seq<Endpoint>,
    connections: seq<Connection>,
    links: seq<Link>,
    sources: seq<Source>,
    authentications: seq<Authentication>)

  ghost predicate KeysHold(db: Tables) {
    && (forall x :: x in db.appAuths ==>
          && (exists a :: a in db.applications && a.id == x.applicationId)
          && (exists t :: t in db.authentications && t.id == x.authenticationId))
    && (forall a :: a in db.applications ==> exists s :: s in db.sources && s.id == a.sourceId)
    && (forall e :: e in db.endpoints ==> exists s :: s in db.sources && s.id == e.sourceId)
    && (forall l :: l in db.links ==>
          && (exists s :: s in db.sources && s.id == l.sourceId)
          && (exists c :: c in db.connections && c.id == l.connectionId))
  }

  /** Primary keys. */
  ghost predicate IdsUnique(db: Tables) {
    && (forall x, y :: x in db.appAuths && y in db.appAuths && x.id == y.id ==> x == y)
    && (forall e, f :: e in db.endpoints && f in db.endpoints && e.id == f.id ==> e == f)
    && (forall a, b :: a in db.applications && b in db.applications && a.id == b.id ==> a == b)
    && (forall s, t :: s in db.sources && t in db.sources && s.id == t.id ==> s == t)
  }

  // ---- the DELETE statements, with what the foreign keys take along ----

  function AppAuthIds(xs: seq<AppAuth>): set<int> { set x | x in xs :: x.id }
  function ApplicationIds(xs: seq<Application>): set<int> { set x | x in xs :: x.id }
  function EndpointIds(xs: seq<Endpoint>): set<int> { set x | x in xs :: x.id }
  function ConnectionIds(xs: seq<Connection>): set<int> { set x | x in xs :: x.id }
  function AuthenticationIds(xs: seq<Authentication>): set<int> { set x | x in xs :: x.id }

  function AppAuthOutside(ids: set<int>): AppAuth -> bool { (x: AppAuth) => x.id !in ids }
  function AppAuthOfOther(apps: set<int>): AppAuth -> bool { (x: AppAuth) => x.applicationId !in apps }
  function AppAuthNamingOther(auths: set<int>): AppAuth -> bool { (x: AppAuth) => x.authenticationId !in auths }
  function ApplicationOutside(ids: set<int>): Application -> bool { (x: Application) => x.id !in ids }
  function EndpointOutside(ids: set<int>): Endpoint -> bool { (x: Endpoint) => x.id !in ids }
  function ConnectionOutside(ids: set<int>): Connection -> bool { (x: Connection) => x.id !in ids }
  function LinkOutside(ids: set<int>): Link -> bool { (x: Link) => x.connectionId !in ids }
  function ApplicationOfOther(source: int): Application -> bool { (x: Application) => x.sourceId != source }
  function EndpointOfOther(source: int): Endpoint -> bool { (x: Endpoint) => x.sourceId != source }
  function LinkOfOther(source: int): Link -> bool { (x: Link) => x.sourceId != source }
  function OtherSource(source: int): Source -> bool { (x: Source) => x.id != source }

  function DeleteAppAuths(db: Tables, ids: set<int>): Tables {
    db.(appAuths := Filter(db.appAuths, AppAuthOutside(ids)))
  }

  function DeleteApplications(db: Tables, ids: set<int>): Tables {
    db.(applications := Filter(db.applications, ApplicationOutside(ids)),
        appAuths := Filter(db.appAuths, AppAuthOfOther(ids)))
  }

  function DeleteEndpoints(db: Tables, ids: set<int>): Tables {
    db.(endpoints := Filter(db.endpoints, EndpointOutside(ids)))
  }

  function DeleteConnections(db: Tables, ids: set<int>): Tables {
    db.(connections := Filter(db.connections, ConnectionOutside(ids)),
        links := Filter(db.links, LinkOutside(ids)))
  }

  function DeleteSource(db: Tables, source: int): Tables {
    var apps := set a | a in db.applications && a.sourceId == source :: a.id;
    db.(sources := Filter(db.sources, OtherSource(source)),
        applications := Filter(db.applications, ApplicationOfOther(source)),
        appAuths := Filter(db.appAuths, AppAuthOfOther(apps)),
        endpoints := Filter(db.endpoints, EndpointOfOther(source)),
        links := Filter(db.links, LinkOfOther(source)))
  }

  function Other<T>(p: T -> bool): T -> bool {
    (x: T) => !p(x)
  }

  function DeleteAuthentications(db: Tables, gone: Authentication -> bool): Tables {
    db.(authentications := Filter(db.authentications, Other(gone)),
        appAuths := Filter(db.appAuths, AppAuthNamingOther(AuthenticationIds(Filter(db.authentications, gone)))))
  }

  // ---- the SELECT statements ----

  function AppAuthUnder(applications: seq<Application>, tenant: int, source: int): AppAuth -> bool {
    (x: AppAuth) =>
      exists a :: a in applications && a.id == x.applicationId && a.sourceId == source && a.tenantId == tenant
  }

  function ApplicationUnder(tenant: int, source: int): Application -> bool {
    (a: Application) => a.sourceId == source && a.tenantId == tenant
  }

  function EndpointUnder(tenant: int, source: int): Endpoint -> bool {
    (e: Endpoint) => e.sourceId == source && e.tenantId == tenant
  }

  function ConnectionUnder(links: seq<Link>, tenant: int, source: int): Connection -> bool {
    (c: Connection) => exists l :: l in links && l.connectionId == c.id && l.sourceId == source && l.tenantId == tenant
  }

  function SourceIs(tenant: int, source: int): Source -> bool {
    (s: Source) => s.id == source && s.tenantId == tenant
  }

  function First<T>(xs: seq<T>): Option<T> {
    if xs == [] then None else Some(xs[0])
  }

  datatype Deleted = Deleted(
    appAuths: seq<AppAuth>,
    applications: seq<Application>,
    endpoints: seq<Endpoint>,
    connections: seq<Connection>,
    source: Option<Source>)

  datatype Result<T> = Ok(value: T) | Failed | Crashed

  /** What fetching one row into a nil pointer does when no row arrives.  A blank row cannot be deleted: the
      object mapper refuses a DELETE without a condition. */
  datatype NoRow = LeavesNil | PointsToBlank

  function DropAppAuthsOf(db: Tables, tenant: int, source: int): Tables {
    DeleteAppAuths(db, AppAuthIds(Filter(db.appAuths, AppAuthUnder(db.applications, tenant, source))))
  }

  function DropApplicationsOf(db: Tables, tenant: int, source: int): Tables {
    DeleteApplications(db, ApplicationIds(Filter(db.applications, ApplicationUnder(tenant, source))))
  }

  function DropEndpointsOf(db: Tables, tenant: int, source: int): Tables {
    DeleteEndpoints(db, EndpointIds(Filter(db.endpoints, EndpointUnder(tenant, source))))
  }

  function DropConnectionsOf(db: Tables, tenant: int, source: int): Tables {
    DeleteConnections(db, ConnectionIds(Filter(db.connections, ConnectionUnder(db.links, tenant, source))))
  }

  function DropSourceOf(db: Tables, tenant: int, source: int): Tables {
    if First(Filter(db.sources, SourceIs(tenant, source))).Some? then DeleteSource(db, source) else db
  }

  /** The state after the first `n` of the five deletions of the source cascade. */
  function SourceStage(db: Tables, tenant: int, source: int, n: nat): Tables
    requires n <= 5
  {
    if n == 0 then db
    else
      var before := SourceStage(db, tenant, source, n - 1);
      match n
      case 1 => DropAppAuthsOf(before, tenant, source)
      case 2 => DropApplicationsOf(before, tenant, source)
      case 3 => DropEndpointsOf(before, tenant, source)
      case 4 => DropConnectionsOf(before, tenant, source)
      case _ => DropSourceOf(before, tenant, source)
  }

  function AfterSource(db: Tables, tenant: int, source: int): Tables {
    var d1 := DropAppAuthsOf(db, tenant, source);
    var d2 := DropApplicationsOf(d1, tenant, source);
    var d3 := DropEndpointsOf(d2, tenant, source);
    var d4 := DropConnectionsOf(d3, tenant, source);
    DropSourceOf(d4, tenant, source)
  }

  function SourceReturned(db: Tables, tenant: int, source: int): Deleted {
    Deleted(Filter(db.appAuths, AppAuthUnder(db.applications, tenant, source)),
            Filter(db.applications, ApplicationUnder(tenant, source)),
            Filter(db.endpoints, EndpointUnder(tenant, source)),
            Filter(db.connections, ConnectionUnder(db.links, tenant, source)),
            First(Filter(db.sources, SourceIs(tenant, source))))
  }

  /** Skipping a DELETE whose id list is empty is the same as running it. */
  lemma EmptyDeletes(db: Tables)
    ensures DeleteAppAuths(db, {}) == db && DeleteApplications(db, {}) == db
    ensures DeleteEndpoints(db, {}) == db && DeleteConnections(db, {}) == db
    ensures AppAuthIds([]) == {} && ApplicationIds([]) == {} && EndpointIds([]) == {} && ConnectionIds([]) == {}
  {
    FilterAll(db.appAuths, AppAuthOutside({}));
    FilterAll(db.appAuths, AppAuthOfOther({}));
    FilterAll(db.applications, ApplicationOutside({}));
    FilterAll(db.endpoints, EndpointOutside({}));
    FilterAll(db.connections, ConnectionOutside({}));
    FilterAll(db.links, LinkOutside({}));
  }

  /** A SELECT, statement `n`, and, unless it found nothing, a DELETE, statement `n + 1`, both succeed. */
  predicate Passes<T(==)>(failing: Option<nat>, n: nat, found: seq<T>) {
    failing != Some(n) && (found != [] ==> failing != Some(n + 1))
  }

  /** No statement that the transaction runs reports an error, the commit, statement 10, included. */
  predicate SourceSucceeds(db: Tables, tenant: int, source: int, failing: Option<nat>, noRow: NoRow) {
    && Passes(failing, 0, Filter(db.appAuths, AppAuthUnder(db.applications, tenant, source)))
    && Passes(failing, 2, Filter(db.applications, ApplicationUnder(tenant, source)))
    && Passes(failing, 4, Filter(db.endpoints, EndpointUnder(tenant, source)))
    && Passes(failing, 6, Filter(db.connections, ConnectionUnder(db.links, tenant, source)))
    && Passes(failing, 8, Filter(db.sources, SourceIs(tenant, source)))
    && (noRow.PointsToBlank? ==> Filter(db.sources, SourceIs(tenant, source)) != [])
    && failing != Some(10)
  }

  class Database {
    var db: Tables

    constructor (db: Tables)
      ensures this.db == db
    {
      this.db := db;
    }

    method DropAppAuths(tenant: int, source: int, failing: Option<nat>, n: nat)
        returns (ok: bool, appAuths: seq<AppAuth>)
      modifies this
      ensures ok <==> Passes(failing, n, Filter(old(db).appAuths, AppAuthUnder(old(db).applications, tenant, source)))
      ensures ok ==> appAuths == Filter(old(db).appAuths, AppAuthUnder(old(db).applications, tenant, source))
      ensures ok ==> db == DropAppAuthsOf(old(db), tenant, source)
      ensures !ok ==> db == old(db)
    {
      EmptyDeletes(db);
      appAuths := Filter(db.appAuths, AppAuthUnder(db.applications, tenant, source));
      ok := failing != Some(n) && (|appAuths| == 0 || failing != Some(n + 1));
      if ok && |appAuths| != 0 {
        db := DeleteAppAuths(db, AppAuthIds(appAuths));
      }
    }

    method DropApplications(tenant: int, source: int, failing: Option<nat>, n: nat)
        returns (ok: bool, applications: seq<Application>)
      modifies this
      ensures ok <==> Passes(failing, n, Filter(old(db).applications, ApplicationUnder(tenant, source)))
      ensures ok ==> applications == Filter(old(db).applications, ApplicationUnder(tenant, source))
      ensures ok ==> db == DropApplicationsOf(old(db), tenant, source)
      ensures !ok ==> db == old(db)
    {
      EmptyDeletes(db);
      applications := Filter(db.applications, ApplicationUnder(tenant, source));
      ok := failing != Some(n) && (|applications| == 0 || failing != Some(n + 1));
      if ok && |applications| != 0 {
        db := DeleteApplications(db, ApplicationIds(applications));
      }
    }

    method DropEndpoints(tenant: int, source: int, failing: Option<nat>, n: nat)
        returns (ok: bool, endpoints: seq<Endpoint>)
      modifies this
      ensures ok <==> Passes(failing, n, Filter(old(db).endpoints, EndpointUnder(tenant, source)))
      ensures ok ==> endpoints == Filter(old(db).endpoints, EndpointUnder(tenant, source))
      ensures ok ==> db == DropEndpointsOf(old(db), tenant, source)
      ensures !ok ==> db == old(db)
    {
      EmptyDeletes(db);
      endpoints := Filter(db.endpoints, EndpointUnder(tenant, source));
      ok := failing != Some(n) && (|endpoints| == 0 || failing != Some(n + 1));
      if ok && |endpoints| != 0 {
        db := DeleteEndpoints(db, EndpointIds(endpoints));
      }
    }

    method DropConnections(tenant: int, source: int, failing: Option<nat>, n: nat)
        returns (ok: bool, connections: seq<Connection>)
      modifies this
      ensures ok <==> Passes(failing, n, Filter(old(db).connections, ConnectionUnder(old(db).links, tenant, source)))
      ensures ok ==> connections == Filter(old(db).connections, ConnectionUnder(old(db).links, tenant, source))
      ensures ok ==> db == DropConnectionsOf(old(db), tenant, source)
      ensures !ok ==> db == old(db)
    {
      EmptyDeletes(db);
      connections := Filter(db.connections, ConnectionUnder(db.links, tenant, source));
      ok := failing != Some(n) && (|connections| == 0 || failing != Some(n + 1));
      if ok && |connections| != 0 {
        db := DeleteConnections(db, ConnectionIds(connections));
      }
    }

    method DropSource(tenant: int, source: int, failing: Option<nat>, n: nat, noRow: NoRow)
        returns (ok: bool, found: Option<Source>)
      modifies this
      ensures ok <==> Passes(failing, n, Filter(old(db).sources, SourceIs(tenant, source)))
                      && (noRow.PointsToBlank? ==> Filter(old(db).sources, SourceIs(tenant, source)) != [])
      ensures ok ==> found == First(Filter(old(db).sources, SourceIs(tenant, source)))
      ensures ok ==> db == DropSourceOf(old(db), tenant, source)
      ensures !ok ==> db == old(db)
    {
      found := First(Filter(db.sources, SourceIs(tenant, source)));
      ok := failing != Some(n);
      if ok && (found.Some? || noRow.PointsToBlank?) {
        ok := found.Some? && failing != Some(n + 1);
        if ok {
          db := DeleteSource(db, source);
        }
      }
    }

    /** Statements 2 to 9. */
    method DropChildren(tenant: int, source: int, failing: Option<nat>, noRow: NoRow)
        returns (ok: bool, deleted: Deleted)
      modifies this
      ensures ok <==>
        && Passes(failing, 2, Filter(old(db).applications, ApplicationUnder(tenant, source)))
        && Passes(failing, 4, Filter(old(db).endpoints, EndpointUnder(tenant, source)))
        && Passes(failing, 6, Filter(old(db).connections, ConnectionUnder(old(db).links, tenant, source)))
        && Passes(failing, 8, Filter(old(db).sources, SourceIs(tenant, source)))
        && (noRow.PointsToBlank? ==> Filter(old(db).sources, SourceIs(tenant, source)) != [])
      ensures ok ==> deleted.applications == Filter(old(db).applications, ApplicationUnder(tenant, source))
      ensures ok ==> deleted.endpoints == Filter(old(db).endpoints, EndpointUnder(tenant, source))
      ensures ok ==> deleted.connections == Filter(old(db).connections, ConnectionUnder(old(db).links, tenant, source))
      ensures ok ==> deleted.source == First(Filter(old(db).sources, SourceIs(tenant, source)))
      ensures ok ==> db == DropSourceOf(DropConnectionsOf(DropEndpointsOf(DropApplicationsOf(
                               old(db), tenant, source), tenant, source), tenant, source), tenant, source)
    {
      deleted := Deleted([], [], [], [], None);
      var applications, endpoints, connections, found;
      ok, applications := DropApplications(tenant, source, failing, 2);
      if !ok { return; }
      assert db.endpoints == old(db).endpoints && db.connections == old(db).connections;
      assert db.links == old(db).links && db.sources == old(db).sources;
      ok, endpoints := DropEndpoints(tenant, source, failing, 4);
      if !ok { return; }
      assert db.connections == old(db).connections && db.links == old(db).links && db.sources == old(db).sources;
      ok, connections := DropConnections(tenant, source, failing, 6);
      if !ok { return; }
      assert db.sources == old(db).sources;
      ok, found := DropSource(tenant, source, failing, 8, noRow);
      deleted := Deleted([], applications, endpoints, connections, found);
    }

    /** The transaction of `sourceDaoImpl.DeleteCascade`; `failing` is the number of the SQL statement
        that reports an error, if there is one. */
    method DeleteSourceCascade(tenant: int, source: int, failing: Option<nat>, noRow: NoRow)
        returns (r: Result<Deleted>)
      modifies this
      ensures r.Ok? <==> SourceSucceeds(old(db), tenant, source, failing, noRow)
      ensures r.Ok? ==> db == AfterSource(old(db), tenant, source) && r.value == SourceReturned(old(db), tenant, source)
      ensures !r.Ok? ==> r == Failed && db == old(db)
    {
      var snapshot := db;
      var deleted := Deleted([], [], [], [], None);
      var ok, appAuths := DropAppAuths(tenant, source, failing, 0);
      if ok {
        assert db == snapshot.(appAuths := db.appAuths);
        ok, deleted := DropChildren(tenant, source, failing, noRow);
      }
      if !ok || failing == Some(10) {
        db := snapshot;
        return Failed;
      }
      r := Ok(deleted.(appAuths := appAuths));
    }

    /** The transaction of `applicationDaoImpl.DeleteCascade` and the log lines in and after it, which follow
        the application pointer whether or not it was set. */
    method DeleteApplicationCascade(tenant: int, application: int, failing: Option<nat>, noRow: NoRow)
        returns (r: Result<(seq<AppAuth>, Application)>)
      modifies this
      ensures r.Crashed? <==> !PointerIsSet(old(db), tenant, application, failing, noRow)
      ensures r.Ok? <==> ApplicationFound(old(db), tenant, application).Some?
                         && ApplicationCommits(old(db), tenant, application, failing, noRow)
      ensures r.Ok? ==> r.value.0 == AppAuthsFound(old(db), tenant, application)
                        && Some(r.value.1) == ApplicationFound(old(db), tenant, application)
      ensures db == if ApplicationCommits(old(db), tenant, application, failing, noRow)
                    then AfterApplication(old(db), tenant, application) else old(db)
    {
      EmptyDeletes(db);
      var snapshot := db;
      var appAuths, found := AppAuthsFound(db, tenant, application), None;
      var isSet, ok := false, false;
      if failing != Some(0) && (|appAuths| == 0 || failing != Some(1)) {
        if |appAuths| != 0 {
          db := DeleteAppAuths(db, AppAuthIds(appAuths));
        }
        found := ApplicationFound(db, tenant, application);
        ok := failing != Some(2);
        isSet := (ok && found.Some?) || noRow.PointsToBlank?;
        if isSet {
          ok := ok && found.Some? && failing != Some(3);
          if ok {
            db := DeleteApplications(db, {application});
          }
        }
        if !ok && !isSet {
          db := snapshot;
          return Crashed;
        }
      }
      if !ok || failing == Some(4) {
        db := snapshot;
        ok := false;
      }
      if !isSet {
        return Crashed;
      }
      r := if ok then Ok((appAuths, found.value)) else Failed;
    }
  }

  /** The statement that sets the pointer was reached and set it. */
  predicate PointerIsSet(db: Tables, tenant: int, application: int, failing: Option<nat>, noRow: NoRow) {
    && Passes(failing, 0, AppAuthsFound(db, tenant, application))
    && (noRow.LeavesNil? ==> failing != Some(2) && ApplicationFound(db, tenant, application).Some?)
  }

  /** Nothing that the transaction runs fails, the commit, statement 4, included.  Where the pointer stays nil,
      an application that is not found is no failure. */
  predicate ApplicationCommits(db: Tables, tenant: int, application: int, failing: Option<nat>, noRow: NoRow) {
    && Passes(failing, 0, AppAuthsFound(db, tenant, application))
    && failing != Some(2) && failing != Some(4)
    && (if ApplicationFound(db, tenant, application).Some? then failing != Some(3) else noRow.LeavesNil?)
  }

  function AppAuthOf(tenant: int, application: int): AppAuth -> bool {
    (x: AppAuth) => x.applicationId == application && x.tenantId == tenant
  }

  function ApplicationIs(tenant: int, application: int): Application -> bool {
    (a: Application) => a.id == application && a.tenantId == tenant
  }

  function AppAuthsFound(db: Tables, tenant: int, application: int): seq<AppAuth> {
    Filter(db.appAuths, AppAuthOf(tenant, application))
  }

  function ApplicationFound(db: Tables, tenant: int, application: int): Option<Application> {
    First(Filter(db.applications, ApplicationIs(tenant, application)))
  }

  function AfterApplication(db: Tables, tenant: int, application: int): Tables {
    var d1 := DeleteAppAuths(db, AppAuthIds(AppAuthsFound(db, tenant, application)));
    if ApplicationFound(db, tenant, application).Some? then DeleteApplications(d1, {application}) else d1
  }

  // ---- referential integrity ----

  lemma DeleteAppAuthsKeepsKeys(db: Tables, ids: set<int>)
    requires KeysHold(db)
    ensures KeysHold(DeleteAppAuths(db, ids))
  {
  }

  lemma DeleteApplicationsKeepsKeys(db: Tables, ids: set<int>)
    requires KeysHold(db)
    ensures KeysHold(DeleteApplications(db, ids))
  {
    var after := DeleteApplications(db, ids);
    forall x | x in after.appAuths ensures exists a :: a in after.applications && a.id == x.applicationId {
      var a :| a in db.applications && a.id == x.applicationId;
      assert a in after.applications;
    }
  }

  lemma DeleteEndpointsKeepsKeys(db: Tables, ids: set<int>)
    requires KeysHold(db)
    ensures KeysHold(DeleteEndpoints(db, ids))
  {
  }

  lemma DeleteConnectionsKeepsKeys(db: Tables, ids: set<int>)
    requires KeysHold(db)
    ensures KeysHold(DeleteConnections(db, ids))
  {
    var after := DeleteConnections(db, ids);
    forall l | l in after.links ensures exists c :: c in after.connections && c.id == l.connectionId {
      var c :| c in db.connections && c.id == l.connectionId;
      assert c in after.connections;
    }
  }

  lemma DeleteSourceKeepsKeys(db: Tables, source: int)
    requires KeysHold(db)
    ensures KeysHold(DeleteSource(db, source))
  {
    var after := DeleteSource(db, source);
    forall x | x in after.appAuths ensures exists a :: a in after.applications && a.id == x.applicationId {
      var a :| a in db.applications && a.id == x.applicationId;
      assert a in after.applications;
    }
    forall s | s in db.sources && s.id != source ensures s in after.sources {
    }
  }

  /** No statement of the source cascade breaks a foreign key: every intermediate state is sound. */
  lemma {:induction false} EveryStageKeepsKeys(db: Tables, tenant: int, source: int, n: nat)
    requires KeysHold(db) && n <= 5
    ensures KeysHold(SourceStage(db, tenant, source, n))
  {
    if n > 0 {
      EveryStageKeepsKeys(db, tenant, source, n - 1);
      var d := SourceStage(db, tenant, source, n - 1);
      match n
      case 1 => DeleteAppAuthsKeepsKeys(d,
          AppAuthIds(Filter(d.appAuths, AppAuthUnder(d.applications, tenant, source))));
      case 2 => DeleteApplicationsKeepsKeys(d,
          ApplicationIds(Filter(d.applications, ApplicationUnder(tenant, source))));
      case 3 => DeleteEndpointsKeepsKeys(d, EndpointIds(Filter(d.endpoints, EndpointUnder(tenant, source))));
      case 4 => DeleteConnectionsKeepsKeys(d,
          ConnectionIds(Filter(d.connections, ConnectionUnder(d.links, tenant, source))));
      case _ => DeleteSourceKeepsKeys(d, source);
    }
  }

  lemma LastStage(db: Tables, tenant: int, source: int)
    ensures SourceStage(db, tenant, source, 5) == AfterSource(db, tenant, source)
  {
    assert SourceStage(db, tenant, source, 0) == db;
    assert SourceStage(db, tenant, source, 1) == DropAppAuthsOf(db, tenant, source);
    assert SourceStage(db, tenant, source, 2) == DropApplicationsOf(SourceStage(db, tenant, source, 1), tenant, source);
    assert SourceStage(db, tenant, source, 3) == DropEndpointsOf(SourceStage(db, tenant, source, 2), tenant, source);
    assert SourceStage(db, tenant, source, 4) == DropConnectionsOf(SourceStage(db, tenant, source, 3), tenant, source);
    assert SourceStage(db, tenant, source, 5) == DropSourceOf(SourceStage(db, tenant, source, 4), tenant, source);
  }

  lemma AfterSourceKeepsKeys(db: Tables, tenant: int, source: int)
    requires KeysHold(db)
    ensures KeysHold(AfterSource(db, tenant, source))
  {
    EveryStageKeepsKeys(db, tenant, source, 5);
    LastStage(db, tenant, source);
  }

  /** Deleting authentications takes along the app-authentications that name them, and no key breaks. */
  lemma DeleteAuthenticationsKeepsKeys(db: Tables, gone: Authentication -> bool)
    requires KeysHold(db)
    ensures KeysHold(DeleteAuthentications(db, gone))
  {
    var after := DeleteAuthentications(db, gone);
    forall x | x in after.appAuths ensures exists t :: t in after.authentications && t.id == x.authenticationId {
      var t :| t in db.authentications && t.id == x.authenticationId;
      assert gone(t) ==> t in Filter(db.authentications, gone);
      assert t in after.authentications;
    }
  }

  // ---- what is left, and what is reported ----

  /** The application of an app-authentication hangs below the source, whatever its tenant. */
  function HangsBelow(applications: seq<Application>, source: int): AppAuth -> bool {
    (x: AppAuth) => exists a :: a in applications && a.id == x.applicationId && a.sourceId == source
  }

  function NotBelow(applications: seq<Application>, source: int): AppAuth -> bool {
    (x: AppAuth) => !HangsBelow(applications, source)(x)
  }

  ghost predicate SourceExists(db: Tables, tenant: int, source: int) {
    exists s :: s in db.sources && s.id == source && s.tenantId == tenant
  }

  lemma AppAuthsAfterSource(db: Tables, tenant: int, source: int, x: AppAuth)
    requires KeysHold(db) && IdsUnique(db) && x in db.appAuths
    ensures var d1 := DropAppAuthsOf(db, tenant, source);
            var d2 := DropApplicationsOf(d1, tenant, source);
            x in d2.appAuths && (forall a :: a in d2.applications && a.sourceId == source ==> x.applicationId != a.id)
            <==> NotBelow(db.applications, source)(x)
  {
    var d1 := DropAppAuthsOf(db, tenant, source);
    var d2 := DropApplicationsOf(d1, tenant, source);
    var app :| app in db.applications && app.id == x.applicationId;
    if app.sourceId == source {
      assert HangsBelow(db.applications, source)(x);
      if app.tenantId == tenant {
        assert app in Filter(d1.applications, ApplicationUnder(tenant, source));
        assert x.applicationId in ApplicationIds(Filter(d1.applications, ApplicationUnder(tenant, source)));
      } else {
        assert app in d2.applications;
      }
    } else {
      assert forall a :: a in db.applications && a.id == x.applicationId ==> a == app;
      assert !HangsBelow(db.applications, source)(x);
      assert x in d1.appAuths;
      assert x in d2.appAuths;
    }
  }

  /** Both ways an app-authentication can go leave those that do not hang below the source. */
  lemma AppAuthsAfterSourceAre(db: Tables, tenant: int, source: int)
    requires KeysHold(db) && IdsUnique(db)
    ensures var d1 := DropAppAuthsOf(db, tenant, source);
            var d2 := DropApplicationsOf(d1, tenant, source);
            var left := set a | a in d2.applications && a.sourceId == source :: a.id;
            Filter(d2.appAuths, AppAuthOfOther(left)) == Filter(db.appAuths, NotBelow(db.applications, source))
  {
    var d1 := DropAppAuthsOf(db, tenant, source);
    var d2 := DropApplicationsOf(d1, tenant, source);
    var left := set a | a in d2.applications && a.sourceId == source :: a.id;
    FilterTwice(d1.appAuths, AppAuthOfOther(ApplicationIds(Filter(d1.applications, ApplicationUnder(tenant, source)))),
                AppAuthOfOther(left), NotBelow(db.applications, source)) by {
      forall x | x in d1.appAuths {
        AppAuthsAfterSource(db, tenant, source, x);
      }
    }
    FilterTwice(db.appAuths,
                AppAuthOutside(AppAuthIds(Filter(db.appAuths, AppAuthUnder(db.applications, tenant, source)))),
                NotBelow(db.applications, source), NotBelow(db.applications, source)) by {
      forall x | x in db.appAuths {
        AppAuthsAfterSource(db, tenant, source, x);
      }
    }
  }

  /** The end state of the source cascade, table by table.  Applications, endpoints, their
      app-authentications and links go with the source even when they belong to another tenant; of the
      other sources only connections they share with this one, and the links to those, are lost. */
  lemma AfterSourceIs(db: Tables, tenant: int, source: int)
    requires KeysHold(db) && IdsUnique(db) && SourceExists(db, tenant, source)
    ensures var after := AfterSource(db, tenant, source);
            var dropped := ConnectionIds(Filter(db.connections, ConnectionUnder(db.links, tenant, source)));
            && after.sources == Filter(db.sources, OtherSource(source))
            && after.applications == Filter(db.applications, ApplicationOfOther(source))
            && after.endpoints == Filter(db.endpoints, EndpointOfOther(source))
            && after.appAuths == Filter(db.appAuths, NotBelow(db.applications, source))
            && after.connections == Filter(db.connections, ConnectionOutside(dropped))
            && after.links == Filter(Filter(db.links, LinkOutside(dropped)), LinkOfOther(source))
            && after.authentications == db.authentications
            && KeysHold(after)
  {
    AfterSourceKeepsKeys(db, tenant, source);
    AppAuthsAfterSourceAre(db, tenant, source);
    var d4 := DropConnectionsOf(DropEndpointsOf(DropApplicationsOf(DropAppAuthsOf(db, tenant, source), tenant, source),
                                                tenant, source), tenant, source);
    var s :| s in db.sources && s.id == source && s.tenantId == tenant;
    assert s in Filter(d4.sources, SourceIs(tenant, source));
    FilterTwice(db.applications,
                ApplicationOutside(ApplicationIds(Filter(db.applications, ApplicationUnder(tenant, source)))),
                ApplicationOfOther(source), ApplicationOfOther(source));
    FilterTwice(db.endpoints, EndpointOutside(EndpointIds(Filter(db.endpoints, EndpointUnder(tenant, source)))),
                EndpointOfOther(source), EndpointOfOther(source));
  }

  /** Which rows are returned: those the deleting tenant has below the source, and the source if it is the
      tenant's. */
  lemma ReturnedIff(db: Tables, tenant: int, source: int)
    requires IdsUnique(db)
    ensures var r := SourceReturned(db, tenant, source);
            && (forall a :: a in r.applications <==>
                  a in db.applications && a.sourceId == source && a.tenantId == tenant)
            && (forall e :: e in r.endpoints <==> e in db.endpoints && e.sourceId == source && e.tenantId == tenant)
            && (forall x :: x in r.appAuths <==>
                  x in db.appAuths && exists a :: a in r.applications && a.id == x.applicationId)
            && (forall c :: c in r.connections <==>
                  c in db.connections && Link(source, c.id, tenant) in db.links)
            && (forall s :: r.source == Some(s) <==> s in db.sources && s.id == source && s.tenantId == tenant)
  {
    ReturnedSourceIff(db, tenant, source);
  }

  lemma ReturnedSourceIff(db: Tables, tenant: int, source: int)
    requires IdsUnique(db)
    ensures forall s :: First(Filter(db.sources, SourceIs(tenant, source))) == Some(s)
                        <==> s in db.sources && s.id == source && s.tenantId == tenant
  {
    var found := Filter(db.sources, SourceIs(tenant, source));
    assert found != [] ==> found[0] in found;
    forall s | s in db.sources && s.id == source && s.tenantId == tenant ensures s in found {
    }
  }

  /** A source of another tenant stays. */
  lemma OtherTenantsSourceStays(db: Tables, tenant: int, source: int)
    requires IdsUnique(db) && !SourceExists(db, tenant, source)
    ensures AfterSource(db, tenant, source).sources == db.sources
  {
    ReturnedSourceIff(db, tenant, source);
  }

  function ApplicationAt(source: int): Application -> bool { (a: Application) => a.sourceId == source }
  function EndpointAt(source: int): Endpoint -> bool { (e: Endpoint) => e.sourceId == source }

  function Removed<T(==)>(before: seq<T>, after: seq<T>): seq<T> {
    Filter(before, x => x !in after)
  }

  /** Everything below the source belongs to the tenant that deletes it. */
  ghost predicate OneTenant(db: Tables, tenant: int, source: int) {
    && (forall a :: a in db.applications && a.sourceId == source ==> a.tenantId == tenant)
    && (forall e :: e in db.endpoints && e.sourceId == source ==> e.tenantId == tenant)
  }

  lemma RemovedIsFilter<T>(before: seq<T>, kept: T -> bool, gone: T -> bool)
    requires forall x :: x in before ==> gone(x) == !kept(x)
    ensures Removed(before, Filter(before, kept)) == Filter(before, gone)
  {
    FilterCongruent(before, x => x !in Filter(before, kept), gone);
  }

  /** Filtering by a stronger predicate gives the same rows exactly when no row separates the two. */
  lemma SameFilterIff<T>(xs: seq<T>, p: T -> bool, q: T -> bool)
    requires forall x :: x in xs && p(x) ==> q(x)
    ensures Filter(xs, p) == Filter(xs, q) <==> forall x :: x in xs && q(x) ==> p(x)
  {
    if forall x :: x in xs && q(x) ==> p(x) {
      FilterCongruent(xs, p, q);
    } else {
      var x :| x in xs && q(x) && !p(x);
      assert x in Filter(xs, q) && x !in Filter(xs, p);
    }
  }

  lemma ReturnedApplications(db: Tables, tenant: int, source: int)
    ensures Filter(db.applications, ApplicationUnder(tenant, source))
            == Removed(db.applications, Filter(db.applications, ApplicationOfOther(source)))
            <==> forall a :: a in db.applications && a.sourceId == source ==> a.tenantId == tenant
  {
    RemovedIsFilter(db.applications, ApplicationOfOther(source), ApplicationAt(source));
    SameFilterIff(db.applications, ApplicationUnder(tenant, source), ApplicationAt(source));
  }

  lemma ReturnedEndpoints(db: Tables, tenant: int, source: int)
    ensures Filter(db.endpoints, EndpointUnder(tenant, source))
            == Removed(db.endpoints, Filter(db.endpoints, EndpointOfOther(source)))
            <==> forall e :: e in db.endpoints && e.sourceId == source ==> e.tenantId == tenant
  {
    RemovedIsFilter(db.endpoints, EndpointOfOther(source), EndpointAt(source));
    SameFilterIff(db.endpoints, EndpointUnder(tenant, source), EndpointAt(source));
  }

  lemma ReturnedAppAuths(db: Tables, tenant: int, source: int)
    requires OneTenant(db, tenant, source) && KeysHold(db) && IdsUnique(db)
    ensures Filter(db.appAuths, AppAuthUnder(db.applications, tenant, source))
            == Removed(db.appAuths, Filter(db.appAuths, NotBelow(db.applications, source)))
  {
    RemovedIsFilter(db.appAuths, NotBelow(db.applications, source), HangsBelow(db.applications, source));
    SameFilterIff(db.appAuths, AppAuthUnder(db.applications, tenant, source), HangsBelow(db.applications, source));
  }

  lemma ReturnedSource(db: Tables, tenant: int, source: int)
    requires IdsUnique(db) && SourceExists(db, tenant, source)
    ensures var r := SourceReturned(db, tenant, source);
            r.source.Some? && r.source.value in db.sources && r.source.value.id == source
  {
    var s :| s in db.sources && s.id == source && s.tenantId == tenant;
    assert s in Filter(db.sources, SourceIs(tenant, source));
  }

  /** The returned applications and endpoints are exactly the rows that the transaction removed, if and only
      if the whole source belongs to the deleting tenant; then so are the app-authentications.  The keys
      would otherwise take rows along that nobody is told about. */
  lemma ReturnedIsRemovedIff(db: Tables, tenant: int, source: int)
    requires KeysHold(db) && IdsUnique(db) && SourceExists(db, tenant, source)
    ensures var after, r := AfterSource(db, tenant, source), SourceReturned(db, tenant, source);
            && ((r.applications == Removed(db.applications, after.applications)
                 && r.endpoints == Removed(db.endpoints, after.endpoints))
                <==> OneTenant(db, tenant, source))
            && (OneTenant(db, tenant, source) ==> r.appAuths == Removed(db.appAuths, after.appAuths))
            && r.source.Some? && r.source.value in db.sources && r.source.value.id == source
            && forall s :: s in db.sources ==> (s !in after.sources <==> s == r.source.value)
  {
    AfterSourceIs(db, tenant, source);
    ReturnedSource(db, tenant, source);
    ReturnedApplications(db, tenant, source);
    ReturnedEndpoints(db, tenant, source);
    if OneTenant(db, tenant, source) {
      ReturnedAppAuths(db, tenant, source);
    }
  }

  /** The returned connections are always exactly the ones that are gone, shared or not. */
  lemma ReturnedConnectionsAreRemoved(db: Tables, tenant: int, source: int)
    requires KeysHold(db) && IdsUnique(db) && SourceExists(db, tenant, source)
    requires forall c, d :: c in db.connections && d in db.connections && c.id == d.id ==> c == d
    ensures SourceReturned(db, tenant, source).connections
            == Removed(db.connections, AfterSource(db, tenant, source).connections)
  {
    AfterSourceIs(db, tenant, source);
    var under := ConnectionUnder(db.links, tenant, source);
    RemovedIsFilter(db.connections, ConnectionOutside(ConnectionIds(Filter(db.connections, under))), under);
  }

  lemma BelowOneSource(db: Tables, source: int, other: int, x: AppAuth)
    requires IdsUnique(db) && other != source && HangsBelow(db.applications, other)(x)
    ensures !HangsBelow(db.applications, source)(x)
  {
  }

  /** Rows of other sources keep their place: each table, narrowed to another source, reads as before. */
  lemma OtherSourcesUntouched(db: Tables, tenant: int, source: int, other: int)
    requires KeysHold(db) && IdsUnique(db) && SourceExists(db, tenant, source) && other != source
    ensures var after := AfterSource(db, tenant, source);
            && Filter(after.applications, ApplicationAt(other)) == Filter(db.applications, ApplicationAt(other))
            && Filter(after.endpoints, EndpointAt(other)) == Filter(db.endpoints, EndpointAt(other))
            && Filter(after.appAuths, HangsBelow(db.applications, other))
                == Filter(db.appAuths, HangsBelow(db.applications, other))
  {
    AfterSourceIs(db, tenant, source);
    FilterImplied(db.applications, ApplicationOfOther(source), ApplicationAt(other));
    FilterImplied(db.endpoints, EndpointOfOther(source), EndpointAt(other));
    forall x | HangsBelow(db.applications, other)(x) ensures NotBelow(db.applications, source)(x) {
      BelowOneSource(db, source, other, x);
    }
    FilterImplied(db.appAuths, NotBelow(db.applications, source), HangsBelow(db.applications, other));
  }

  /** The application found is the tenant's row of that id. */
  lemma ApplicationFoundIs(db: Tables, tenant: int, application: int, a: Application)
    requires IdsUnique(db)
    ensures ApplicationFound(db, tenant, application) == Some(a)
            <==> a in db.applications && a.id == application && a.tenantId == tenant
  {
    var found := Filter(db.applications, ApplicationIs(tenant, application));
    assert found != [] ==> found[0] in found;
    if a in db.applications && a.id == application && a.tenantId == tenant {
      assert a in found;
    }
  }

  /** Deleting an application: its app-authentications of any tenant go with it, the keys hold, and the
      returned ones are all that went if and only if they share the tenant. */
  lemma AfterApplicationIs(db: Tables, tenant: int, application: int)
    requires KeysHold(db) && IdsUnique(db)
    requires ApplicationFound(db, tenant, application).Some?
    ensures var after := AfterApplication(db, tenant, application);
            && KeysHold(after)
            && after == db.(applications := Filter(db.applications, ApplicationOutside({application})),
                            appAuths := Filter(db.appAuths, AppAuthOfOther({application})))
            && (AppAuthsFound(db, tenant, application) == Removed(db.appAuths, after.appAuths)
                <==> forall x :: x in db.appAuths && x.applicationId == application ==> x.tenantId == tenant)
  {
    var ids := AppAuthIds(AppAuthsFound(db, tenant, application));
    DeleteAppAuthsKeepsKeys(db, ids);
    DeleteApplicationsKeepsKeys(DeleteAppAuths(db, ids), {application});
    FilterTwice(db.appAuths, AppAuthOutside(ids), AppAuthOfOther({application}), AppAuthOfOther({application}));
    var ofApp := (x: AppAuth) => x.applicationId == application;
    RemovedIsFilter(db.appAuths, AppAuthOfOther({application}), ofApp);
    SameFilterIff(db.appAuths, AppAuthOf(tenant, application), ofApp);
  }
}
