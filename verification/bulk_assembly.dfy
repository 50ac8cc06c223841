/** `BulkAssembly`: one transaction over the tables, except that the authentications are inserted outside of
    it and stay when it is rolled back. */
module BulkAssembly {
  import opened Collections
  import opened LikePatterns
  import opened BulkModel
  import opened BulkLinking
  import opened BulkAvailability

  /** The next id of each table's sequence.  A rollback does not give ids back. */
  datatype Counters = Counters(source: nat, application: nat, endpoint: nat, authentication: nat)

  /** Which statements of the database fail. */
  datatype Faults = Faults(createSources: bool, createApplications: bool, createEndpoints: bool,
                           createAuthentication: nat -> bool, createAppAuths: bool,
                           updateSources: bool, updateApplications: bool, updateAuthentications: bool, commit: bool)

  /** What a run creates, before the availability override. */
  datatype Made = Made(sources: seq<Source>, applications: seq<Application>, endpoints: seq<Endpoint>,
                       authentications: seq<Authentication>, appAuths: seq<AppAuth>)

  // ---- rows get their ids in order ----

  function StampSources(rows: seq<Source>, first: nat): seq<Source> {
    seq(|rows|, i requires 0 <= i < |rows| => rows[i].(id := first + i))
  }

  function StampApplications(rows: seq<Application>, first: nat): seq<Application> {
    seq(|rows|, i requires 0 <= i < |rows| => rows[i].(id := first + i))
  }

  function StampEndpoints(rows: seq<Endpoint>, first: nat): seq<Endpoint> {
    seq(|rows|, i requires 0 <= i < |rows| => rows[i].(id := first + i))
  }

  function StampAuthentications(rows: seq<Authentication>, first: nat): seq<Authentication> {
    seq(|rows|, i requires 0 <= i < |rows| => rows[i].(id := first + i))
  }

  // ---- the plan: what a request asks for ----

  predicate SourcesParse(c: Catalog, own: Ownership, reqs: seq<SourceReq>) {
    forall req :: req in reqs ==> ParseSource(c, own, req).Ok?
  }

  function ParsedSources(c: Catalog, own: Ownership, reqs: seq<SourceReq>): seq<Source>
    requires SourcesParse(c, own, reqs)
  {
    seq(|reqs|, i requires 0 <= i < |reqs| => ParseSource(c, own, reqs[i]).value)
  }

  predicate EndpointsParse(c: Catalog, sources: seq<Source>, reqs: seq<EndpointReq>) {
    forall req :: req in reqs ==> ParseEndpoint(c, sources, req).Ok?
  }

  function ParsedEndpoints(c: Catalog, sources: seq<Source>, reqs: seq<EndpointReq>): seq<Endpoint>
    requires EndpointsParse(c, sources, reqs)
  {
    seq(|reqs|, i requires 0 <= i < |reqs| => ParseEndpoint(c, sources, reqs[i]).value)
  }

  predicate AuthenticationsLink(c: Catalog, own: Ownership, made: Created, reqs: seq<AuthReq>)
    requires made.sources != []
  {
    forall req :: req in reqs ==>
      LinkAuthentication(c, own, made, req).Ok? && LinkAuthentication(c, own, made, req).value.Some?
  }

  function LinkedAuthentications(c: Catalog, own: Ownership, made: Created, reqs: seq<AuthReq>): seq<Authentication>
    requires made.sources != [] && AuthenticationsLink(c, own, made, reqs)
  {
    seq(|reqs|, i requires 0 <= i < |reqs| => LinkAuthentication(c, own, made, reqs[i]).value.value)
  }

  predicate IsApplicationAuth(t: Authentication) {
    t.resourceType.ApplicationResource?
  }

  function WithId(id: int): Application -> bool {
    (a: Application) => a.id == id
  }

  /** `findApplicationTypeIdByApplicationID` and the lookup that follows it. */
  predicate AppAuthUserOwned(c: Catalog, own: Ownership, applications: seq<Application>, applicationId: int) {
    var found := Filter(applications, WithId(applicationId));
    found != [] && AppTypeById(c, found[0].appType.id).Some?
        && own.OwnsApplication(AppTypeById(c, found[0].appType.id).value.name)
  }

  function AppAuthFor(c: Catalog, own: Ownership, applications: seq<Application>): Authentication -> AppAuth {
    (t: Authentication) => AppAuth(t.resourceId, t.id, AppAuthUserOwned(c, own, applications, t.resourceId))
  }

  function LinksIn(auths: seq<Authentication>, link: Authentication -> AppAuth): seq<AppAuth> {
    Map(Filter(auths, IsApplicationAuth), link)
  }

  function AppAuthsOf(c: Catalog, own: Ownership, applications: seq<Application>,
                      auths: seq<Authentication>): seq<AppAuth> {
    LinksIn(auths, AppAuthFor(c, own, applications))
  }

  predicate TypesKnown(c: Catalog, reqs: seq<ApplicationReq>) {
    forall req :: req in reqs ==> TypeOfApplication(c, req).Ok?
  }

  /** The request is acceptable up to its authentications. */
  predicate ResourcesAsked(c: Catalog, own: Ownership, req: Request, n: Counters) {
    && SourcesParse(c, own, req.sources)
    && req.sources != []
    && var sources := StampSources(ParsedSources(c, own, req.sources), n.source);
    && ApplicationsLink(c, own, sources, req.applications)
    && EndpointsParse(c, sources, req.endpoints)
  }

  function Resources(c: Catalog, own: Ownership, req: Request, n: Counters): (made: Created)
    requires ResourcesAsked(c, own, req, n)
    ensures |made.sources| == |req.sources| && |made.applications| == |req.applications|
            && |made.endpoints| == |req.endpoints|
  {
    var sources := StampSources(ParsedSources(c, own, req.sources), n.source);
    Created(sources, StampApplications(AllLinks(c, own, sources, req.applications), n.application),
            StampEndpoints(ParsedEndpoints(c, sources, req.endpoints), n.endpoint))
  }

  function WithAuthentications(c: Catalog, own: Ownership, created: Created, reqs: seq<AuthReq>,
                               first: nat): Option<Made>
    requires created.sources != []
  {
    if !AuthenticationsLink(c, own, created, reqs) then None
    else
      var auths := StampAuthentications(LinkedAuthentications(c, own, created, reqs), first);
      Some(Made(created.sources, created.applications, created.endpoints, auths,
                AppAuthsOf(c, own, created.applications, auths)))
  }

  /** What the request creates when no statement fails; `None` when the request itself is refused. */
  function Plan(c: Catalog, userId: string, req: Request, n: Counters): Option<Made> {
    var own := OwnershipOf(c, userId, req.applications);
    if !TypesKnown(c, req.applications) || !ResourcesAsked(c, own, req, n) then None
    else WithAuthentications(c, own, Resources(c, own, req, n), req.authentications, n.authentication)
  }

  // ---- faults ----

  predicate ResourceFault(req: Request, f: Faults) {
    f.createSources || (req.applications != [] && f.createApplications) || (req.endpoints != [] && f.createEndpoints)
  }

  /** How many of the authentications are inserted: up to the first insert that fails. */
  function Inserted(f: nat -> bool, from: nat, n: nat): (k: nat)
    requires from <= n
    ensures from <= k <= n
    ensures (forall i: nat :: from <= i < k ==> !f(i)) && (k < n ==> f(k))
    decreases n - from
  {
    if from == n || f(from) then from else Inserted(f, from + 1, n)
  }

  /** The rows that a failed run leaves behind. */
  function Survivors(plan: Option<Made>, req: Request, f: Faults): seq<Authentication> {
    match plan
    case None => []
    case Some(made) =>
      if ResourceFault(req, f) then []
      else made.authentications[..Inserted(f.createAuthentication, 0, |made.authentications|)]
  }

  function SourceIdsOf(made: Made): seq<int> { SourceIds(made.sources, made.applications) }
  function ApplicationIdsOf(made: Made): seq<int> { ApplicationIds(made.sources, made.applications) }
  function AuthenticationIdsOf(made: Made): seq<int> {
    AuthenticationIds(SourceIdsOf(made), ApplicationIdsOf(made), made.authentications)
  }

  predicate UpdateFault(made: Made, f: Faults) {
    || (SourceIdsOf(made) != [] && f.updateSources)
    || (ApplicationIdsOf(made) != [] && f.updateApplications)
    || (AuthenticationIdsOf(made) != [] && f.updateAuthentications)
  }

  predicate LateFault(made: Made, f: Faults) {
    (made.appAuths != [] && f.createAppAuths) || UpdateFault(made, f) || f.commit
  }

  predicate Commits(plan: Option<Made>, req: Request, f: Faults) {
    && plan.Some?
    && !ResourceFault(req, f)
    && Inserted(f.createAuthentication, 0, |plan.value.authentications|) == |plan.value.authentications|
    && !LateFault(plan.value, f)
  }

  /** What a run creates, with the availability override. */
  function Overridden(made: Made): Made {
    made.(sources := Map(made.sources, SourceAfter(made.applications)),
          applications := Map(made.applications, ApplicationAfter(made.sources)),
          authentications := Map(made.authentications, AuthenticationAfter(made.sources, made.applications)))
  }

  // ---- the override in memory and in the tables ----

  predicate FreshIds(made: Made, n: Counters) {
    && (forall i :: 0 <= i < |made.sources| ==> made.sources[i].id == n.source + i)
    && (forall i :: 0 <= i < |made.applications| ==> made.applications[i].id == n.application + i)
    && (forall i :: 0 <= i < |made.endpoints| ==> made.endpoints[i].id == n.endpoint + i)
    && (forall i :: 0 <= i < |made.authentications| ==> made.authentications[i].id == n.authentication + i)
  }

  lemma PlanHasFreshIds(c: Catalog, userId: string, req: Request, n: Counters)
    requires Plan(c, userId, req, n).Some?
    ensures FreshIds(Plan(c, userId, req, n).value, n)
  {
  }

  lemma UpdateSkipsOlder(olderSources: seq<Source>, olderApplications: seq<Application>,
                         olderAuths: seq<Authentication>,
                         made: Made, n: Counters)
    requires FreshIds(made, n)
    requires forall s :: s in olderSources ==> s.id < n.source
    requires forall a :: a in olderApplications ==> a.id < n.application
    requires forall t :: t in olderAuths ==> t.id < n.authentication
    ensures Map(olderSources, SourceUpdate(SourceIdsOf(made))) == olderSources
    ensures Map(olderApplications, ApplicationUpdate(ApplicationIdsOf(made))) == olderApplications
    ensures Map(olderAuths, AuthenticationUpdate(AuthenticationIdsOf(made))) == olderAuths
  {
    forall s | s in olderSources ensures s.id !in SourceIdsOf(made) {
      SourceIdsAre(made.sources, made.applications, s.id);
    }
    forall a | a in olderApplications ensures a.id !in ApplicationIdsOf(made) {
      ApplicationIdsAre(made.sources, made.applications, a.id);
    }
    forall t | t in olderAuths ensures t.id !in AuthenticationIdsOf(made) {
      InMap(Filter(made.authentications, AuthenticationIsListed(SourceIdsOf(made), ApplicationIdsOf(made))),
          AuthenticationId, t.id);
    }
  }

  lemma UpdateNewer<T>(older: seq<T>, newer: seq<T>, update: T -> T, after: T -> T)
    requires Map(older, update) == older && Map(newer, update) == Map(newer, after)
    ensures Map(older + newer, update) == older + Map(newer, after)
  {
    MapAppend(older, newer, update);
  }

  /** The UPDATE statements change exactly the new rows, and exactly as the loops changed the slices. */
  lemma TablesFollowMemory(olderSources: seq<Source>, olderApplications: seq<Application>,
                           olderAuths: seq<Authentication>,
                           made: Made, n: Counters)
    requires FreshIds(made, n)
    requires forall s :: s in olderSources ==> s.id < n.source
    requires forall a :: a in olderApplications ==> a.id < n.application
    requires forall t :: t in olderAuths ==> t.id < n.authentication
    ensures Map(olderSources + made.sources, SourceUpdate(SourceIdsOf(made))) == olderSources + Overridden(made).sources
    ensures Map(olderApplications + made.applications, ApplicationUpdate(ApplicationIdsOf(made)))
            == olderApplications + Overridden(made).applications
    ensures Map(olderAuths + made.authentications, AuthenticationUpdate(AuthenticationIdsOf(made)))
            == olderAuths + Overridden(made).authentications
  {
    UpdateSkipsOlder(olderSources, olderApplications, olderAuths, made, n);
    FreshIdsDistinct(made, n);
    UpdatesAgree(made.sources, made.applications, made.authentications);
    UpdateNewer(olderSources, made.sources, SourceUpdate(SourceIdsOf(made)), SourceAfter(made.applications));
    UpdateNewer(olderApplications, made.applications, ApplicationUpdate(ApplicationIdsOf(made)),
        ApplicationAfter(made.sources));
    UpdateNewer(olderAuths, made.authentications, AuthenticationUpdate(AuthenticationIdsOf(made)),
                AuthenticationAfter(made.sources, made.applications));
  }

  lemma FreshIdsDistinct(made: Made, n: Counters)
    requires FreshIds(made, n)
    ensures SourceIdsDistinct(made.sources) && ApplicationIdsDistinct(made.applications)
    ensures AuthenticationIdsDistinct(made.authentications)
  {
  }

  // ---- the store ----

  /** The tables that a rollback restores. */
  datatype Tables = Tables(sources: seq<Source>, applications: seq<Application>, endpoints: seq<Endpoint>,
                           appAuths: seq<AppAuth>)

  function WithResources(t: Tables, made: Created): Tables {
    t.(sources := t.sources + made.sources, applications := t.applications + made.applications,
       endpoints := t.endpoints + made.endpoints)
  }

  class BulkStore {
    var tables: Tables
    /** Written outside the transaction. */
    var authentications: seq<Authentication>
    var next: Counters

    ghost predicate Valid()
      reads this
    {
      && next.source >= 1 && next.application >= 1 && next.endpoint >= 1 && next.authentication >= 1
      && Older(tables, authentications, next)
    }

    method CreateSources(rows: seq<Source>, fails: bool) returns (r: Result<seq<Source>>)
      modifies `tables, `next
      ensures r == if rows == [] then Err(EmptySlice)
                   else if fails then Err(StoreError)
                   else Ok(StampSources(rows, old(next.source)))
      ensures tables == if r.Ok? then old(tables).(sources := old(tables.sources) + r.value) else old(tables)
      ensures next == old(next).(source := old(next.source) + if r.Ok? then |rows| else 0)
    {
      if rows == [] {
        return Err(EmptySlice);
      }
      if fails {
        return Err(StoreError);
      }
      var made := StampSources(rows, next.source);
      tables := tables.(sources := tables.sources + made);
      next := next.(source := next.source + |rows|);
      r := Ok(made);
    }

    method CreateApplications(rows: seq<Application>, fails: bool) returns (r: Result<seq<Application>>)
      modifies `tables, `next
      ensures r == if rows == [] then Err(EmptySlice) else if fails then Err(StoreError)
                   else Ok(StampApplications(rows, old(next.application)))
      ensures tables == if r.Ok? then old(tables).(applications := old(tables.applications) + r.value) else old(tables)
      ensures next == old(next).(application := old(next.application) + if r.Ok? then |rows| else 0)
    {
      if rows == [] {
        return Err(EmptySlice);
      }
      if fails {
        return Err(StoreError);
      }
      var made := StampApplications(rows, next.application);
      tables := tables.(applications := tables.applications + made);
      next := next.(application := next.application + |rows|);
      r := Ok(made);
    }

    method CreateEndpoints(rows: seq<Endpoint>, fails: bool) returns (r: Result<seq<Endpoint>>)
      modifies `tables, `next
      ensures r == if rows == [] then Err(EmptySlice) else if fails then Err(StoreError)
                   else Ok(StampEndpoints(rows, old(next.endpoint)))
      ensures tables == if r.Ok? then old(tables).(endpoints := old(tables.endpoints) + r.value) else old(tables)
      ensures next == old(next).(endpoint := old(next.endpoint) + if r.Ok? then |rows| else 0)
    {
      if rows == [] {
        return Err(EmptySlice);
      }
      if fails {
        return Err(StoreError);
      }
      var made := StampEndpoints(rows, next.endpoint);
      tables := tables.(endpoints := tables.endpoints + made);
      next := next.(endpoint := next.endpoint + |rows|);
      r := Ok(made);
    }

    method BuildSources(c: Catalog, own: Ownership, reqs: seq<SourceReq>, fails: bool) returns (r: Result<seq<Source>>)
      modifies `tables, `next
      ensures r.Ok? <==> SourcesParse(c, own, reqs) && reqs != [] && !fails
      ensures r.Ok? ==> r.value == StampSources(ParsedSources(c, own, reqs), old(next.source))
      ensures tables == if r.Ok? then old(tables).(sources := old(tables.sources) + r.value) else old(tables)
      ensures next == old(next).(source := old(next.source) + if r.Ok? then |reqs| else 0)
    {
      var parsed := ParseSources(c, own, reqs);
      if parsed.Err? {
        return Err(parsed.error);
      }
      assert parsed.value == ParsedSources(c, own, reqs);
      r := CreateSources(parsed.value, fails);
    }

    method BuildApplications(c: Catalog, own: Ownership, made: seq<Source>, reqs: seq<ApplicationReq>, fails: bool)
        returns (r: Result<seq<Application>>)
      modifies `tables, `next
      ensures r.Ok? <==> ApplicationsLink(c, own, made, reqs) && (reqs == [] || !fails)
      ensures r.Ok? ==> r.value == StampApplications(AllLinks(c, own, made, reqs), old(next.application))
      ensures tables == if r.Ok? then old(tables).(applications := old(tables.applications) + r.value) else old(tables)
      ensures next == old(next).(application := old(next.application) + if r.Ok? then |reqs| else 0)
    {
      var parsed := ParseApplications(c, own, made, reqs);
      if parsed.Err? {
        return Err(parsed.error);
      }
      r := CreateApplications(parsed.value, fails);
      if r.Err? && r.error == EmptySlice {
        r := Ok([]);
      }
    }

    method BuildEndpoints(c: Catalog, made: seq<Source>, reqs: seq<EndpointReq>, fails: bool)
        returns (r: Result<seq<Endpoint>>)
      modifies `tables, `next
      ensures r.Ok? <==> EndpointsParse(c, made, reqs) && (reqs == [] || !fails)
      ensures r.Ok? ==> r.value == StampEndpoints(ParsedEndpoints(c, made, reqs), old(next.endpoint))
      ensures tables == if r.Ok? then old(tables).(endpoints := old(tables.endpoints) + r.value) else old(tables)
      ensures next == old(next).(endpoint := old(next.endpoint) + if r.Ok? then |reqs| else 0)
    {
      var parsed := ParseEndpoints(c, made, reqs);
      if parsed.Err? {
        return Err(parsed.error);
      }
      assert parsed.value == ParsedEndpoints(c, made, reqs);
      r := CreateEndpoints(parsed.value, fails);
      if r.Err? && r.error == EmptySlice {
        r := Ok([]);
      }
    }

    /** The parsing and creation of sources, applications and endpoints. */
    method BuildResources(c: Catalog, own: Ownership, req: Request, f: Faults) returns (r: Result<Created>)
      modifies `tables, `next
      ensures r.Ok? <==> ResourcesAsked(c, own, req, old(next)) && !ResourceFault(req, f)
      ensures r.Ok? ==>
                && r.value == Resources(c, own, req, old(next))
                && tables == WithResources(old(tables), r.value)
                && next == Advanced(old(next), r.value)
      ensures NotBehind(old(next), next) && next.authentication == old(next.authentication)
    {
      r := Err(Invalid);
      var madeSources := BuildSources(c, own, req.sources, f.createSources);
      if madeSources.Ok? {
        var apps := BuildApplications(c, own, madeSources.value, req.applications, f.createApplications);
        if apps.Ok? {
          var points := BuildEndpoints(c, madeSources.value, req.endpoints, f.createEndpoints);
          if points.Ok? {
            return Ok(Created(madeSources.value, apps.value, points.value));
          }
        }
      }
    }

    method InsertAuthentication(row: Authentication) returns (t: Authentication)
      modifies `authentications, `next
      ensures t == row.(id := old(next.authentication))
      ensures authentications == old(authentications) + [t]
      ensures next == old(next).(authentication := old(next.authentication) + 1)
    {
      t := row.(id := next.authentication);
      authentications := authentications + [t];
      next := next.(authentication := next.authentication + 1);
    }

    /** One turn of the loop: an insert, and an application authentication in memory for an application. */
    method AuthenticationTurn(row: Authentication, link: Authentication -> AppAuth, ghost was: seq<Authentication>,
                              auths: seq<Authentication>, links: seq<AppAuth>)
        returns (auths': seq<Authentication>, links': seq<AppAuth>)
      requires authentications == was + auths && links == LinksIn(auths, link)
      modifies `authentications, `next
      ensures auths' == auths + [row.(id := old(next.authentication))]
      ensures authentications == was + auths' && links' == LinksIn(auths', link)
      ensures next.authentication == old(next.authentication) + 1 && OthersAreSame(next, old(next))
    {
      var t := InsertAuthentication(row);
      OneMoreAuthentication(was, auths, t, IsApplicationAuth, link);
      auths', links' := auths + [t], links;
      if t.resourceType.ApplicationResource? {
        links' := links + [link(t)];
      }
    }

    /** The loop over the linked authentications: one insert each, outside the transaction. */
    method CreateAuthentications(linked: seq<Authentication>, link: Authentication -> AppAuth, fails: nat -> bool)
        returns (auths: seq<Authentication>, links: seq<AppAuth>, ok: bool)
      modifies `authentications, `next
      ensures var k := Inserted(fails, 0, |linked|);
              && (ok <==> k == |linked|)
              && authentications == old(authentications) + StampAuthentications(linked, old(next.authentication))[..k]
              && next == old(next).(authentication := old(next.authentication) + k)
      ensures ok ==> auths == StampAuthentications(linked, old(next.authentication))
      ensures ok ==> links == LinksIn(auths, link)
    {
      ghost var first, was, k := next.authentication, authentications, Inserted(fails, 0, |linked|);
      auths, links, ok := [], [], true;
      var i := 0;
      while ok && i < |linked|
        invariant i <= k && (!ok ==> i == k < |linked|)
        invariant |auths| == i && AreStamped(linked, first, auths)
        invariant authentications == was + auths && links == LinksIn(auths, link)
        invariant next.authentication == first + i && OthersAreSame(next, old(next))
        decreases |linked| - i, ok
      {
        InsertedTurn(fails, i, |linked|);
        if fails(i) {
          ok := false;
        } else {
          OneMoreStamped(linked, first, auths);
          auths, links := AuthenticationTurn(linked[i], link, was, auths, links);
          i := i + 1;
        }
      }
      StampedPrefix(linked, first, auths);
    }

    /** Linking and inserting the authentications, then the application authentications.  `linked` is what
        was asked for; a failure leaves the inserted rows behind. */
    method BuildAuthentications(c: Catalog, own: Ownership, made: Created, reqs: seq<AuthReq>, f: Faults)
        returns (r: Result<Made>)
      requires made.sources != []
      modifies this
      ensures next.(authentication := old(next.authentication)) == old(next) && NotBehind(old(next), next)
      ensures match WithAuthentications(c, own, made, reqs, old(next.authentication))
              case None => r.Err? && tables == old(tables) && authentications == old(authentications)
                  && next == old(next)
              case Some(all) =>
                var k := Inserted(f.createAuthentication, 0, |all.authentications|);
                && authentications == old(authentications) + all.authentications[..k]
                && next.authentication == old(next.authentication) + k
                && (r.Ok? <==> k == |all.authentications| && !(all.appAuths != [] && f.createAppAuths))
                && (r.Ok? ==> r.value == all && tables == old(tables).(appAuths := old(tables.appAuths) + all.appAuths))
    {
      var linked := LinkUpAuthentications(c, own, made, reqs);
      if linked.Err? {
        return Err(linked.error);
      }
      assert linked.value == LinkedAuthentications(c, own, made, reqs);
      var auths, links, ok :=
        CreateAuthentications(linked.value, AppAuthFor(c, own, made.applications), f.createAuthentication);
      if !ok || (links != [] && f.createAppAuths) {
        return Err(StoreError);
      }
      tables := tables.(appAuths := tables.appAuths + links);
      r := Ok(Made(made.sources, made.applications, made.endpoints, auths, links));
    }

    /** The three UPDATE statements; an empty list is not sent. */
    method UpdateTables(sourceIds: seq<int>, applicationIds: seq<int>, authIds: seq<int>, f: Faults) returns (ok: bool)
      modifies `tables, `authentications
      ensures ok <==> !(sourceIds != [] && f.updateSources) && !(applicationIds != [] && f.updateApplications)
                      && !(authIds != [] && f.updateAuthentications)
      ensures !ok ==> authentications == old(authentications)
      ensures ok ==>
                && tables == old(tables).(sources := Map(old(tables.sources), SourceUpdate(sourceIds)),
                                          applications :=
                                              Map(old(tables.applications), ApplicationUpdate(applicationIds)))
                && authentications == Map(old(authentications), AuthenticationUpdate(authIds))
    {
      if sourceIds != [] {
        if f.updateSources { return false; }
        tables := tables.(sources := Map(tables.sources, SourceUpdate(sourceIds)));
      }
      if applicationIds != [] {
        if f.updateApplications { return false; }
        tables := tables.(applications := Map(tables.applications, ApplicationUpdate(applicationIds)));
      }
      if authIds != [] {
        if f.updateAuthentications { return false; }
        authentications := Map(authentications, AuthenticationUpdate(authIds));
      }
      return true;
    }

    /** `setCorrespondingResourcesAsAvailable` with its UPDATE statements. */
    method Override(made: Made, f: Faults, ghost before: Tables, ghost authsBefore: seq<Authentication>,
                    ghost n: Counters)
        returns (ok: bool, output: Made)
      requires FreshIds(made, n) && Older(before, authsBefore, n)
      requires tables == WithAll(before, made) && authentications == authsBefore + made.authentications
      modifies `tables, `authentications
      ensures ok <==> !UpdateFault(made, f)
      ensures !ok ==> authentications == old(authentications)
      ensures ok ==> output == Overridden(made)
      ensures ok ==> tables == WithAll(before, output) && authentications == authsBefore + output.authentications
    {
      TablesFollowMemory(before.sources, before.applications, authsBefore, made, n);
      var ss := ArrayOf(made.sources);
      var aa := ArrayOf(made.applications);
      var tt := ArrayOf(made.authentications);
      var sourceIds, applicationIds, authIds := SetCorrespondingResourcesAsAvailable(ss, aa, tt);
      output := made.(sources := ss[..], applications := aa[..], authentications := tt[..]);
      ok := UpdateTables(sourceIds, applicationIds, authIds, f);
    }

    /** The authentications and the override, once the resources are there. */
    method Finish(c: Catalog, own: Ownership, created: Created, reqs: seq<AuthReq>, f: Faults, ghost before: Tables,
                  ghost n: Counters)
        returns (output: Option<Made>)
      requires created.sources != [] && tables == WithResources(before, created)
      requires Older(before, authentications, n) && next.authentication == n.authentication
      requires var plan := WithAuthentications(c, own, created, reqs, n.authentication);
               plan.Some? ==> FreshIds(plan.value, n)
      modifies this
      ensures next.(authentication := old(next.authentication)) == old(next)
      ensures match WithAuthentications(c, own, created, reqs, n.authentication)
              case None => output == None && authentications == old(authentications) && next == old(next)
              case Some(all) =>
                var k := Inserted(f.createAuthentication, 0, |all.authentications|);
                && next.authentication == old(next.authentication) + k
                && output == (if k == |all.authentications| && !LateFault(all, f) then Some(Overridden(all)) else None)
                && (output.None? ==> authentications == old(authentications) + all.authentications[..k])
                && (output.Some? ==> tables == WithAll(before, output.value)
                                     && authentications == old(authentications) + output.value.authentications)
    {
      output := None;
      ghost var auths := authentications;
      var made := BuildAuthentications(c, own, created, reqs, f);
      if made.Ok? {
        var inserted := authentications;
        var ok, overridden := Override(made.value, f, before, auths, n);
        if ok && !f.commit {
          output := Some(overridden);
        } else {
          authentications := inserted;
        }
      }
    }

    /** The body of the transaction. */
    method Run(c: Catalog, userId: string, req: Request, f: Faults) returns (output: Option<Made>)
      requires Older(tables, authentications, next)
      modifies this
      ensures NotBehind(old(next), next)
      ensures var plan := Plan(c, userId, req, old(next));
              if Commits(plan, req, f) then
                && output == Some(Overridden(plan.value))
                && tables == WithAll(old(tables), output.value)
                && authentications == old(authentications) + output.value.authentications
                && Covers(old(next), next, plan.value)
              else
                && output == None
                && authentications == old(authentications) + Survivors(plan, req, f)
                && next.authentication >= old(next.authentication) + |Survivors(plan, req, f)|
    {
      output := None;
      ghost var before, n := tables, next;
      var own := UserResourceFromApplications(c, userId, req.applications);
      if own.Ok? {
        var created := BuildResources(c, own.value, req, f);
        if created.Ok? {
          if Plan(c, userId, req, n).Some? {
            PlanHasFreshIds(c, userId, req, n);
          }
          output := Finish(c, own.value, created.value, req.authentications, f, before, n);
        }
      }
    }

    /** The request, run in a transaction.  Either everything the plan asks for is there, overridden alike
        in the output and in the tables; or the tables are as they were, and of the authentications those
        inserted before the failure stay, in request order. */
    method BulkAssembly(c: Catalog, userId: string, req: Request, f: Faults) returns (output: Option<Made>)
      requires Valid()
      modifies this
      ensures Valid()
      ensures var plan := Plan(c, userId, req, old(next));
              if Commits(plan, req, f) then
                && output == Some(Overridden(plan.value))
                && tables == WithAll(old(tables), output.value)
                && authentications == old(authentications) + output.value.authentications
              else
                && output == None
                && tables == old(tables)
                && authentications == old(authentications) + Survivors(plan, req, f)
    {
      var saved := tables;
      ghost var n, auths := next, authentications;
      ghost var plan := Plan(c, userId, req, n);
      output := Run(c, userId, req, f);
      if output.None? {
        tables := saved;
      }
      if plan.Some? {
        PlanHasFreshIds(c, userId, req, n);
        if output.Some? {
          StaysOlder(saved, auths, plan.value, n, next);
        } else {
          SurvivorsStayOlder(saved, auths, plan.value, |Survivors(plan, req, f)|, n, next);
        }
      }
    }
  }

  /** The counters moved past everything created. */
  predicate Covers(n: Counters, m: Counters, made: Made) {
    && m.source >= n.source + |made.sources|
    && m.application >= n.application + |made.applications|
    && m.endpoint >= n.endpoint + |made.endpoints|
    && m.authentication >= n.authentication + |made.authentications|
  }

  lemma StaysOlder(t: Tables, auths: seq<Authentication>, made: Made, n: Counters, m: Counters)
    requires Older(t, auths, n) && FreshIds(made, n) && NotBehind(n, m) && Covers(n, m, made)
    ensures Older(WithAll(t, Overridden(made)), auths + Overridden(made).authentications, m)
  {
  }

  lemma SurvivorsStayOlder(t: Tables, auths: seq<Authentication>, made: Made, k: nat, n: Counters, m: Counters)
    requires Older(t, auths, n) && FreshIds(made, n) && NotBehind(n, m)
    requires k <= |made.authentications| && m.authentication >= n.authentication + k
    ensures Older(t, auths + made.authentications[..k], m)
  {
  }

  function WithAll(t: Tables, made: Made): Tables {
    Tables(t.sources + made.sources, t.applications + made.applications, t.endpoints + made.endpoints,
           t.appAuths + made.appAuths)
  }

  ghost predicate Older(t: Tables, auths: seq<Authentication>, n: Counters) {
    && (forall s :: s in t.sources ==> s.id < n.source)
    && (forall a :: a in t.applications ==> a.id < n.application)
    && (forall e :: e in t.endpoints ==> e.id < n.endpoint)
    && (forall t :: t in auths ==> t.id < n.authentication)
  }

  method ArrayOf<T>(xs: seq<T>) returns (a: array<T>)
    ensures fresh(a) && a[..] == xs
  {
    a := new T[|xs|](i requires 0 <= i < |xs| => xs[i]);
  }

  function Advanced(n: Counters, made: Created): Counters {
    n.(source := n.source + |made.sources|, application := n.application + |made.applications|,
       endpoint := n.endpoint + |made.endpoints|)
  }

  predicate NotBehind(n: Counters, m: Counters) {
    m.source >= n.source && m.application >= n.application && m.endpoint >= n.endpoint
        && m.authentication >= n.authentication
  }

  predicate AreStamped(rows: seq<Authentication>, first: nat, stamped: seq<Authentication>) {
    |stamped| <= |rows| && forall k :: 0 <= k < |stamped| ==> stamped[k] == rows[k].(id := first + k)
  }

  /** The counters agree but for that of the authentications. */
  predicate OthersAreSame(n: Counters, m: Counters) {
    n.source == m.source && n.application == m.application && n.endpoint == m.endpoint
  }

  lemma OneMoreStamped(rows: seq<Authentication>, first: nat, stamped: seq<Authentication>)
    requires AreStamped(rows, first, stamped) && |stamped| < |rows|
    ensures AreStamped(rows, first, stamped + [rows[|stamped|].(id := first + |stamped|)])
  {
  }

  lemma InsertedTurn(f: nat -> bool, i: nat, n: nat)
    requires i < n && i <= Inserted(f, 0, n)
    ensures if f(i) then i == Inserted(f, 0, n) else i < Inserted(f, 0, n)
  {
  }

  lemma StampedPrefix(rows: seq<Authentication>, first: nat, stamped: seq<Authentication>)
    requires AreStamped(rows, first, stamped)
    ensures stamped == StampAuthentications(rows, first)[..|stamped|]
    ensures |stamped| == |rows| ==> stamped == StampAuthentications(rows, first)
  {
  }

  lemma OneMoreAuthentication<S, T>(before: seq<S>, xs: seq<S>, x: S, p: S -> bool, f: S -> T)
    ensures before + xs + [x] == before + (xs + [x])
    ensures Map(Filter(xs + [x], p), f) == Map(Filter(xs, p), f) + if p(x) then [f(x)] else []
  {
    assert (xs + [x])[..|xs|] == xs;
    MapSnoc(Filter(xs, p), x, f);
  }

  // ---- what a plan links ----

  /** With distinct source names, every requested application is created once, in request order, on the
      created source of its name. */
  lemma ApplicationsAreLinked(c: Catalog, userId: string, req: Request, n: Counters, i: nat)
    requires Plan(c, userId, req, n).Some? && i < |req.applications|
    requires DistinctNames(Plan(c, userId, req, n).value.sources)
    ensures var made := Plan(c, userId, req, n).value;
            && |made.applications| == |req.applications|
            && made.applications[i].id == n.application + i
            && Ok(made.applications[i].appType) == TypeOfApplication(c, req.applications[i])
            && exists s :: s in made.sources && s.name == req.applications[i].sourceName
                && made.applications[i].sourceId == s.id
  {
    var own, made := OwnershipOf(c, userId, req.applications), Plan(c, userId, req, n).value;
    CountingLinksInOrder(c, own, made.sources, req.applications);
    assert IsLinkOf(c, own, made.sources, req.applications[i], AllLinks(c, own, made.sources, req.applications)[i]);
  }

  /** The names of the sources created are the requested ones, so distinct names are the caller's to check. */
  lemma NamesAreRequested(c: Catalog, userId: string, req: Request, n: Counters)
    requires Plan(c, userId, req, n).Some?
    ensures var made := Plan(c, userId, req, n).value;
            && |made.sources| == |req.sources|
            && (forall i :: 0 <= i < |req.sources| ==> made.sources[i].name == req.sources[i].name)
            && (DistinctNames(made.sources) <==> forall i, j :: 0 <= i < j < |req.sources| ==>
                  req.sources[i].name != req.sources[j].name)
  {
    var own, made := OwnershipOf(c, userId, req.applications), Plan(c, userId, req, n).value;
    forall i | 0 <= i < |req.sources| ensures made.sources[i].name == req.sources[i].name {
      assert ParseSource(c, own, req.sources[i]).Ok?;
    }
  }

  /** A created source has the requested type and status, and belongs to the user if and only if one is
      present and some requested application of a user-owned type names it. */
  lemma SourcesAreRequested(c: Catalog, userId: string, req: Request, n: Counters, i: nat)
    requires Plan(c, userId, req, n).Some? && i < |req.sources|
    ensures |Plan(c, userId, req, n).value.sources| == |req.sources|
    ensures var s, ask := Plan(c, userId, req, n).value.sources[i], req.sources[i];
            && s.id == n.source + i && s.name == ask.name && Ok(s.sourceType) == TypeOfSource(c, ask)
            && s.status == (if |ask.status| > 0 then ask.status else "in_progress")
            && (s.userOwned <==> userId != "" && exists a :: a in req.applications && UserOwned(c)(a)
                                                             && a.sourceName == ask.name)
  {
    assert req.sources[i] in req.sources;
    ParseSourceIs(c, OwnershipOf(c, userId, req.applications), req.sources[i]);
    OwnsSourceIff(c, userId, req.applications, req.sources[i].name);
  }

  /** A created application is in progress, and belongs to the user if and only if its source does and its
      type name, cut at the last slash, was requested with a user-owned type. */
  lemma ApplicationOwnerIff(c: Catalog, userId: string, req: Request, n: Counters, i: nat)
    requires Plan(c, userId, req, n).Some? && i < |req.applications|
    requires DistinctNames(Plan(c, userId, req, n).value.sources)
    ensures |Plan(c, userId, req, n).value.applications| == |req.applications|
    ensures var a, ask := Plan(c, userId, req, n).value.applications[i], req.applications[i];
            && a.status == "in_progress"
            && (a.userOwned
                <==> && userId != ""
                     && (exists r :: r in req.applications && UserOwned(c)(r) && r.sourceName == ask.sourceName)
                     && (exists r :: r in req.applications && UserOwned(c)(r)
                                     && r.typeName == LastSegment(ask.typeName)))
  {
    var own, made := OwnershipOf(c, userId, req.applications), Plan(c, userId, req, n).value;
    CountingLinksInOrder(c, own, made.sources, req.applications);
    assert IsLinkOf(c, own, made.sources, req.applications[i], AllLinks(c, own, made.sources, req.applications)[i]);
    OwnsSourceIff(c, userId, req.applications, req.applications[i].sourceName);
    OwnsApplicationIff(c, userId, req.applications, req.applications[i].typeName);
  }

  /** The application is among the created ones, and the name of its type, cut at the last slash, was
      requested with a user-owned type. */
  ghost predicate TypeIsTheUsers(c: Catalog, reqs: seq<ApplicationReq>, apps: seq<Application>, id: int) {
    exists a, t, r :: && a in apps && a.id == id && t in c.appTypes && t.id == a.appType.id
                      && r in reqs && UserOwned(c)(r) && r.typeName == LastSegment(t.name)
  }

  /** Which application authentications belong to the user. */
  lemma AppAuthOwnerIff(c: Catalog, userId: string, req: Request, n: Counters, l: AppAuth)
    requires Plan(c, userId, req, n).Some? && l in Plan(c, userId, req, n).value.appAuths
    requires forall u, v :: u in c.appTypes && v in c.appTypes && u.id == v.id ==> u == v
    ensures var apps := Plan(c, userId, req, n).value.applications;
            l.userOwned <==> userId != "" && TypeIsTheUsers(c, req.applications, apps, l.applicationId)
  {
    var apps := Plan(c, userId, req, n).value.applications;
    LinksAre(c, userId, req, n, l);
    AppAuthUserOwnedIff(c, userId, req.applications, apps, l.applicationId);
  }

  lemma LinksAre(c: Catalog, userId: string, req: Request, n: Counters, l: AppAuth)
    requires Plan(c, userId, req, n).Some? && l in Plan(c, userId, req, n).value.appAuths
    ensures var own, apps := OwnershipOf(c, userId, req.applications), Plan(c, userId, req, n).value.applications;
            ApplicationIdsDistinct(apps) && l.userOwned == AppAuthUserOwned(c, own, apps, l.applicationId)
  {
    var own, made := OwnershipOf(c, userId, req.applications), Plan(c, userId, req, n).value;
    PlanHasFreshIds(c, userId, req, n);
    FreshIdsDistinct(made, n);
    InMap(Filter(made.authentications, IsApplicationAuth), AppAuthFor(c, own, made.applications), l);
  }

  lemma AppAuthUserOwnedIff(c: Catalog, userId: string, reqs: seq<ApplicationReq>, apps: seq<Application>, id: int)
    requires ApplicationIdsDistinct(apps)
    requires forall u, v :: u in c.appTypes && v in c.appTypes && u.id == v.id ==> u == v
    ensures AppAuthUserOwned(c, OwnershipOf(c, userId, reqs), apps, id)
            <==> userId != "" && TypeIsTheUsers(c, reqs, apps, id)
  {
    var found := Filter(apps, WithId(id));
    forall a | a in apps && a.id == id ensures found != [] && found[0] == a {
      assert a in found && found[0] in apps;
    }
    if found != [] {
      assert found[0] in apps && found[0].id == id;
      TypeByIdIs(c, found[0].appType.id);
      if AppTypeById(c, found[0].appType.id).Some? {
        OwnsApplicationIff(c, userId, reqs, AppTypeById(c, found[0].appType.id).value.name);
      }
    }
  }

  lemma TypeByIdIs(c: Catalog, id: int)
    requires forall u, v :: u in c.appTypes && v in c.appTypes && u.id == v.id ==> u == v
    ensures forall t :: t in c.appTypes && t.id == id <==> AppTypeById(c, id) == Some(t)
  {
    var found := Filter(c.appTypes, (t: AppType) => t.id == id);
    assert found != [] ==> found[0] in found;
  }

  /** An application authentication is created for exactly the Application-typed authentications, naming
      the application each was linked to. */
  lemma AppAuthsAre(c: Catalog, userId: string, req: Request, n: Counters, applicationId: int, authenticationId: int)
    requires Plan(c, userId, req, n).Some?
    ensures var made := Plan(c, userId, req, n).value;
            (exists l :: l in made.appAuths && l.applicationId == applicationId
                && l.authenticationId == authenticationId)
            <==> (exists t :: t in made.authentications && t.resourceType.ApplicationResource?
                              && t.resourceId == applicationId && t.id == authenticationId)
  {
    var own, made := OwnershipOf(c, userId, req.applications), Plan(c, userId, req, n).value;
    var typed, link := Filter(made.authentications, IsApplicationAuth), AppAuthFor(c, own, made.applications);
    if l :| l in made.appAuths && l.applicationId == applicationId && l.authenticationId == authenticationId {
      InMap(typed, link, l);
    }
    if t :| && t in made.authentications && t.resourceType.ApplicationResource?
            && t.resourceId == applicationId && t.id == authenticationId {
      assert t in typed;
      InMap(typed, link, link(t));
    }
  }

  /** The created resource an authentication is for is on this source. */
  ghost predicate ResourceIsOn(made: Made, t: Authentication, source: int) {
    match t.resourceType
    case SourceResource => t.resourceId == source
    case ApplicationResource => exists a :: a in made.applications && a.id == t.resourceId && a.sourceId == source
    case EndpointResource => exists e :: e in made.endpoints && e.id == t.resourceId && e.sourceId == source
    case OtherResource => false
  }

  /** An authentication for an existing resource gets no source, any other the first created one. */
  lemma LinkedSourceIs(c: Catalog, userId: string, req: Request, n: Counters, i: nat)
    requires Plan(c, userId, req, n).Some? && i < |req.authentications|
    ensures var t := Plan(c, userId, req, n).value.authentications[i];
            t.sourceId == if ExistingTarget(c, req.authentications[i]).Some? then 0 else n.source
  {
    assert req.authentications[i] in req.authentications;
    PlanHasFreshIds(c, userId, req, n);
  }

  /** An authentication for a created source is on the first source, by its id and by its source column. */
  lemma SourceResourceIs(c: Catalog, userId: string, req: Request, n: Counters, i: nat)
    requires Plan(c, userId, req, n).Some? && i < |req.authentications|
    requires req.authentications[i].resourceType.SourceResource? && ExistingTarget(c, req.authentications[i]).None?
    ensures var made := Plan(c, userId, req, n).value;
            && made.sources != []
            && made.authentications[i].resourceId == made.authentications[i].sourceId == made.sources[0].id == n.source
            && ResourceIsOn(made, made.authentications[i], n.source)
  {
    assert req.authentications[i] in req.authentications;
    PlanHasFreshIds(c, userId, req, n);
  }

  /** Whatever it is for, an authentication has the next id, the requested type and no status yet; one for an
      existing resource names that resource and no owner. */
  lemma AuthenticationsAreRequested(c: Catalog, userId: string, req: Request, n: Counters, i: nat)
    requires Plan(c, userId, req, n).Some? && i < |req.authentications|
    ensures |Plan(c, userId, req, n).value.authentications| == |req.authentications|
    ensures var t, ask := Plan(c, userId, req, n).value.authentications[i], req.authentications[i];
            && t.id == n.authentication + i && t.resourceType == ask.resourceType && t.status == "in_progress"
            && ask.encodable && (ExistingTarget(c, ask).None? ==> ask.valid)
            && (ExistingTarget(c, ask).Some? ==> Some(t.resourceId) == c.parseInt(ask.resourceName) && !t.userOwned)
  {
    assert req.authentications[i] in req.authentications;
  }

  /** A new authentication is the user's if and only if a user is present, some requested application of a
      user-owned type names the first source and, for an application, some is of the named type. */
  lemma AuthenticationOwnerIff(c: Catalog, userId: string, req: Request, n: Counters, i: nat)
    requires Plan(c, userId, req, n).Some? && i < |req.authentications|
    requires ExistingTarget(c, req.authentications[i]).None?
    ensures var ask := req.authentications[i];
            Plan(c, userId, req, n).value.authentications[i].userOwned
            <==> && !ask.resourceType.EndpointResource?
                 && userId != ""
                 && (exists a :: a in req.applications && UserOwned(c)(a) && a.sourceName == req.sources[0].name)
                 && (ask.resourceType.ApplicationResource? ==>
                       exists a :: a in req.applications && UserOwned(c)(a)
                                   && a.typeName == LastSegment(ask.resourceName))
  {
    var own, ask := OwnershipOf(c, userId, req.applications), req.authentications[i];
    assert ask in req.authentications;
    NamesAreRequested(c, userId, req, n);
    OwnsSourceIff(c, userId, req.applications, req.sources[0].name);
    OwnsApplicationIff(c, userId, req.applications, ask.resourceName);
  }

  lemma FirstSourceIs(made: Made, n: Counters, s: Source)
    requires FreshIds(made, n) && DistinctNames(made.sources) && s in made.sources
    ensures s.id == n.source <==> s.name == made.sources[0].name
  {
  }

  lemma ApplicationIsOn(made: Made, n: Counters, t: Authentication, k: nat, source: int)
    requires FreshIds(made, n) && k < |made.applications|
    requires t.resourceType.ApplicationResource? && t.resourceId == n.application + k
    ensures ResourceIsOn(made, t, source) <==> made.applications[k].sourceId == source
  {
    assert made.applications[k] in made.applications;
  }

  lemma EndpointIsOn(made: Made, n: Counters, t: Authentication, k: nat, source: int)
    requires FreshIds(made, n) && k < |made.endpoints|
    requires t.resourceType.EndpointResource? && t.resourceId == n.endpoint + k
    ensures ResourceIsOn(made, t, source) <==> made.endpoints[k].sourceId == source
  {
    assert made.endpoints[k] in made.endpoints;
  }

  /** Request `k` is the first for this application type. */
  predicate FirstOfType(c: Catalog, reqs: seq<ApplicationReq>, k: nat, id: int) {
    && k < |reqs|
    && forall j :: 0 <= j <= k && TypeOfApplication(c, reqs[j]).Ok? ==>
          (TypeOfApplication(c, reqs[j]).value.id == id <==> j == k)
  }

  /** Request `k` is the first endpoint whose host contains the name, ignoring case. */
  predicate FirstOfHost(reqs: seq<EndpointReq>, k: nat, name: string) {
    && k < |reqs|
    && forall j :: 0 <= j <= k ==> (HasInfix(Lower(reqs[j].host), Lower(name)) <==> j == k)
  }

  lemma TypesAreRequested(c: Catalog, userId: string, req: Request, n: Counters, k: nat, id: int)
    requires Plan(c, userId, req, n).Some? && DistinctNames(Plan(c, userId, req, n).value.sources)
    requires FirstOfType(c, req.applications, k, id)
    ensures var apps := Plan(c, userId, req, n).value.applications;
            k < |apps| && forall j :: 0 <= j <= k ==> (OfType(id)(apps[j]) <==> j == k)
  {
    ApplicationsAreLinked(c, userId, req, n, k);
    forall j | 0 <= j <= k
      ensures OfType(id)(Plan(c, userId, req, n).value.applications[j]) <==> j == k
    {
      ApplicationsAreLinked(c, userId, req, n, j);
    }
  }

  lemma LinkedResourceIs(c: Catalog, userId: string, req: Request, n: Counters, i: nat)
    requires Plan(c, userId, req, n).Some? && i < |req.authentications|
    requires ExistingTarget(c, req.authentications[i]).None?
    ensures var made, ask := Plan(c, userId, req, n).value, req.authentications[i];
            && made.authentications[i].resourceType == ask.resourceType
            && (ask.resourceType.ApplicationResource? ==>
                  LinkupApplication(c, ask.resourceName, made.applications) == Ok(made.authentications[i].resourceId))
            && (ask.resourceType.EndpointResource? ==>
                  LinkupEndpoint(ask.resourceName, made.endpoints) == Ok(made.authentications[i].resourceId))
  {
    assert req.authentications[i] in req.authentications;
  }

  /** The source column of an authentication for a created application, which is the first requested one of
      the named type, is the source of that application, if and only if the request put the application on
      its first source. */
  lemma ApplicationSourceIff(c: Catalog, userId: string, req: Request, n: Counters, i: nat, k: nat)
    requires Plan(c, userId, req, n).Some? && DistinctNames(Plan(c, userId, req, n).value.sources)
    requires i < |req.authentications| && req.authentications[i].resourceType.ApplicationResource?
    requires ExistingTarget(c, req.authentications[i]).None?
    requires var named := AppTypeByName(c, req.authentications[i].resourceName);
             named.Some? && FirstOfType(c, req.applications, k, named.value.id)
    ensures var made := Plan(c, userId, req, n).value;
            && made.authentications[i].resourceId == n.application + k
            && (ResourceIsOn(made, made.authentications[i], made.authentications[i].sourceId)
                <==> req.applications[k].sourceName == req.sources[0].name)
  {
    var made := Plan(c, userId, req, n).value;
    var id := AppTypeByName(c, req.authentications[i].resourceName).value.id;
    PlanHasFreshIds(c, userId, req, n);
    TypesAreRequested(c, userId, req, n, k, id);
    FirstIsHead(made.applications, OfType(id), k);
    LinkedResourceIs(c, userId, req, n, i);
    ApplicationSourceOf(c, userId, req, n, i, k);
  }

  lemma ApplicationSourceOf(c: Catalog, userId: string, req: Request, n: Counters, i: nat, k: nat)
    requires Plan(c, userId, req, n).Some? && i < |req.authentications| && k < |req.applications|
    requires ExistingTarget(c, req.authentications[i]).None?
    requires DistinctNames(Plan(c, userId, req, n).value.sources)
    requires var t := Plan(c, userId, req, n).value.authentications[i];
             t.resourceType.ApplicationResource? && t.resourceId == n.application + k
    ensures var made := Plan(c, userId, req, n).value;
            ResourceIsOn(made, made.authentications[i], made.authentications[i].sourceId)
            <==> req.applications[k].sourceName == req.sources[0].name
  {
    var made := Plan(c, userId, req, n).value;
    PlanHasFreshIds(c, userId, req, n);
    LinkedSourceIs(c, userId, req, n, i);
    ApplicationsAreLinked(c, userId, req, n, k);
    NamesAreRequested(c, userId, req, n);
    ApplicationIsOn(made, n, made.authentications[i], k, n.source);
    var s :| s in made.sources && s.name == req.applications[k].sourceName && made.applications[k].sourceId == s.id;
    FirstSourceIs(made, n, s);
  }

  lemma EndpointsAreParsed(c: Catalog, userId: string, req: Request, n: Counters, k: nat)
    requires Plan(c, userId, req, n).Some? && k < |req.endpoints|
    ensures var made := Plan(c, userId, req, n).value;
            && made.sources != []
            && k < |made.endpoints|
            && ParseEndpoint(c, made.sources, req.endpoints[k]).Ok?
            && made.endpoints[k].sourceId == ParseEndpoint(c, made.sources, req.endpoints[k]).value.sourceId
            && made.endpoints[k].host == req.endpoints[k].host
  {
    assert req.endpoints[k] in req.endpoints;
  }

  /** The request named this endpoint's source and that is the first one, or named none and carried the id
      that the first source was about to get. */
  ghost predicate AsksForFirst(sources: seq<Source>, first: int, ask: EndpointReq)
    requires sources != []
  {
    if exists s :: s in sources && s.name == ask.sourceName then ask.sourceName == sources[0].name
    else ask.sourceId == Id(first)
  }

  lemma EndpointIsOnFirst(c: Catalog, made: Made, n: Counters, ask: EndpointReq)
    requires FreshIds(made, n) && DistinctNames(made.sources) && made.sources != []
    requires ParseEndpoint(c, made.sources, ask).Ok?
    ensures ParseEndpoint(c, made.sources, ask).value.sourceId == n.source
            <==> AsksForFirst(made.sources, n.source, ask)
  {
    EndpointSourceIs(c, made.sources, ask);
    if s :| s in made.sources && s.name == ask.sourceName {
      FirstSourceIs(made, n, s);
    }
  }

  lemma HostsAreRequested(c: Catalog, userId: string, req: Request, n: Counters, k: nat, name: string)
    requires Plan(c, userId, req, n).Some? && FirstOfHost(req.endpoints, k, name)
    ensures var points := Plan(c, userId, req, n).value.endpoints;
            k < |points| && forall j :: 0 <= j <= k ==> (HostContains(name)(points[j]) <==> j == k)
  {
    EndpointsAreParsed(c, userId, req, n, k);
    forall j | 0 <= j <= k ensures HostContains(name)(Plan(c, userId, req, n).value.endpoints[j]) <==> j == k {
      EndpointsAreParsed(c, userId, req, n, j);
    }
  }

  /** The same for a created endpoint, which is the first requested one whose host contains the name. */
  lemma EndpointSourceIff(c: Catalog, userId: string, req: Request, n: Counters, i: nat, k: nat)
    requires Plan(c, userId, req, n).Some?
    requires var made := Plan(c, userId, req, n).value; made.sources != [] && DistinctNames(made.sources)
    requires i < |req.authentications| && req.authentications[i].resourceType.EndpointResource?
    requires ExistingTarget(c, req.authentications[i]).None?
    requires FirstOfHost(req.endpoints, k, req.authentications[i].resourceName)
    ensures var made := Plan(c, userId, req, n).value;
            && made.authentications[i].resourceId == n.endpoint + k
            && (ResourceIsOn(made, made.authentications[i], made.authentications[i].sourceId)
                <==> AsksForFirst(made.sources, n.source, req.endpoints[k]))
  {
    var made, name := Plan(c, userId, req, n).value, req.authentications[i].resourceName;
    PlanHasFreshIds(c, userId, req, n);
    HostsAreRequested(c, userId, req, n, k, name);
    FirstIsHead(made.endpoints, HostContains(name), k);
    LinkedResourceIs(c, userId, req, n, i);
    EndpointSourceOf(c, userId, req, n, i, k);
  }

  lemma EndpointSourceOf(c: Catalog, userId: string, req: Request, n: Counters, i: nat, k: nat)
    requires Plan(c, userId, req, n).Some? && i < |req.authentications| && k < |req.endpoints|
    requires ExistingTarget(c, req.authentications[i]).None?
    requires var made := Plan(c, userId, req, n).value; made.sources != [] && DistinctNames(made.sources)
    requires var t := Plan(c, userId, req, n).value.authentications[i];
             t.resourceType.EndpointResource? && t.resourceId == n.endpoint + k
    ensures var made := Plan(c, userId, req, n).value;
            ResourceIsOn(made, made.authentications[i], made.authentications[i].sourceId)
            <==> AsksForFirst(made.sources, n.source, req.endpoints[k])
  {
    var made := Plan(c, userId, req, n).value;
    PlanHasFreshIds(c, userId, req, n);
    LinkedSourceIs(c, userId, req, n, i);
    EndpointsAreParsed(c, userId, req, n, k);
    EndpointIsOn(made, n, made.authentications[i], k, n.source);
    EndpointIsOnFirst(c, made, n, req.endpoints[k]);
  }

  // ---- what a failed run leaves behind ----

  function FirstNew(n: Counters, resourceType: ResourceType): int {
    match resourceType
    case SourceResource => n.source
    case ApplicationResource => n.application
    case EndpointResource => n.endpoint
    case OtherResource => 0
  }

  ghost predicate CatalogIsCurrent(c: Catalog, n: Counters) {
    forall resourceType, id :: c.existing(resourceType, id) ==> id < FirstNew(n, resourceType)
  }

  lemma NewTargetIsNew(c: Catalog, userId: string, req: Request, n: Counters, i: nat)
    requires Plan(c, userId, req, n).Some? && i < |req.authentications|
    ensures var made := Plan(c, userId, req, n).value;
            var created := Created(made.sources, made.applications, made.endpoints);
            var target := NewTarget(c, created, req.authentications[i]);
            target.Ok? ==> target.value >= FirstNew(n, req.authentications[i].resourceType)
  {
    var made, ask := Plan(c, userId, req, n).value, req.authentications[i];
    PlanHasFreshIds(c, userId, req, n);
    if ask.resourceType.ApplicationResource? && AppTypeByName(c, ask.resourceName).Some? {
      var found := Filter(made.applications, OfType(AppTypeByName(c, ask.resourceName).value.id));
      assert found != [] ==> found[0] in found;
    }
    if ask.resourceType.EndpointResource? {
      var found := Filter(made.endpoints, HostContains(ask.resourceName));
      assert found != [] ==> found[0] in found;
    }
  }

  /** After a rollback, the authentications that stay are the links of a prefix of the requests, and one of
      them belongs to a resource that exists exactly when its request named an existing resource by id; the
      others point at rows that were rolled back. */
  lemma OrphansAre(c: Catalog, userId: string, req: Request, n: Counters, f: Faults, i: nat)
    requires CatalogIsCurrent(c, n)
    requires i < |Survivors(Plan(c, userId, req, n), req, f)|
    ensures i < |req.authentications|
    ensures var survivor, ask := Survivors(Plan(c, userId, req, n), req, f)[i], req.authentications[i];
            && survivor.id == n.authentication + i
            && survivor.resourceType == ask.resourceType
            && (ExistingTarget(c, ask) == Some(survivor.resourceId) <==>
                  survivor.resourceId < FirstNew(n, survivor.resourceType))
            && (ExistingTarget(c, ask).None? <==> survivor.resourceId >= FirstNew(n, survivor.resourceType))
  {
    var own, made := OwnershipOf(c, userId, req.applications), Plan(c, userId, req, n).value;
    var ask := req.authentications[i];
    assert ask in req.authentications;
    NewTargetIsNew(c, userId, req, n, i);
  }
}
