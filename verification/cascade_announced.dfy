/** service/subresource_destroyer.go, end to end: which of the rows that a deletion removes get their destroy
    event.  The links between sources and connections have none. */
module CascadeAnnounced {
  import opened Collections
  import opened CascadeTables
  import opened CascadeEvents

  // ---- any resource ----

  function AppAuthEvent(x: AppAuth): Event { AppAuthDestroyed(x.id) }
  function ApplicationEvent(a: Application): Event { ApplicationDestroyed(a.id) }
  function EndpointEvent(e: Endpoint): Event { EndpointDestroyed(e.id) }
  function ConnectionEvent(c: Connection): Event { ConnectionDestroyed(c.id) }
  function SourceEvent(s: Source): Event { SourceDestroyed(s.id) }

  /** The events of the rows a transaction returned, in the order they are raised. */
  function PlanFor(d: Deleted): seq<Event> {
    Map(d.appAuths, AppAuthEvent) + Map(d.applications, ApplicationEvent) + Map(d.endpoints, EndpointEvent)
    + Map(d.connections, ConnectionEvent) + (if d.source.Some? then [SourceEvent(d.source.value)] else [])
  }

  function IsFetched(job: Job): Authentication -> bool {
    (t: Authentication) => exists f :: f in job.fetches && Listed(job, f)(t)
  }

  ghost predicate AuthenticationIdsUnique(db: Tables) {
    forall t, u :: t in db.authentications && u in db.authentications && t.id == u.id ==> t == u
  }

  ghost predicate ConnectionIdsUnique(db: Tables) {
    forall c, d :: c in db.connections && d in db.connections && c.id == d.id ==> c == d
  }

  /** A schedule in which both goroutines finish and no query fails. */
  ghost predicate Healthy(job: Job, db: Tables, schedule: seq<Tick>) {
    Legal(job, Init(true, db), schedule) && NothingFails(schedule) && BothDone(Run(job, Init(true, db), schedule))
  }

  lemma FetchedIffListed(job: Job, t: Authentication)
    ensures IsFetched(job)(t) <==> SomeFetchLists(job, |job.fetches|, t)
  {
    if i :| 0 <= i < |job.fetches| && Listed(job, job.fetches[i])(t) {
      assert job.fetches[i] in job.fetches;
    }
  }

  lemma DoomedIffFetched(job: Job, db: Tables, t: Authentication)
    requires AuthenticationIdsUnique(db) && t in db.authentications
    ensures Doomed(job, Collected(job, db.authentications, {}, |job.fetches|))(t) <==> IsFetched(job)(t)
  {
    var collected := Collected(job, db.authentications, {}, |job.fetches|);
    CollectedIff(job, db.authentications, |job.fetches|, t);
    FetchedIffListed(job, t);
    if c :| c in collected && c.id == t.id {
      CollectedIff(job, db.authentications, |job.fetches|, c);
    }
  }

  /** Where every interleaving without failures ends. */
  lemma HealthyEnd(job: Job, db: Tables, schedule: seq<Tick>)
    requires AuthenticationIdsUnique(db) && Healthy(job, db, schedule)
    ensures var end := Run(job, Init(true, db), schedule);
            && end.db == DeleteAuthentications(db, IsFetched(job))
            && end.trace == job.plan + Map(Filter(db.authentications, IsFetched(job)), Announce)
  {
    var end := Run(job, Init(true, db), schedule);
    EveryInterleavingIsOrdered(job, true, db, schedule);
    HealthyRunDeletes(job, db, schedule);
    forall t | t in db.authentications ensures Doomed(job, end.collected)(t) == IsFetched(job)(t) {
      DoomedIffFetched(job, db, t);
    }
    FilterCongruent(db.authentications, Doomed(job, end.collected), IsFetched(job));
    FilterCongruent(db.authentications, Other(Doomed(job, end.collected)), Other(IsFetched(job)));
  }

  ghost predicate RemovedAreIn<T(!new)>(before: seq<T>, after: seq<T>, returned: seq<T>) {
    forall x :: x in before && x !in after ==> x in returned
  }

  /** All rows that the transaction removed, links aside, are among those it returned. */
  ghost predicate RemovedAreReturned(db: Tables, after: Tables, d: Deleted) {
    && RemovedAreIn(db.appAuths, after.appAuths, d.appAuths)
    && RemovedAreIn(db.applications, after.applications, d.applications)
    && RemovedAreIn(db.endpoints, after.endpoints, d.endpoints)
    && RemovedAreIn(db.connections, after.connections, d.connections)
    && RemovedAreIn(db.sources, after.sources, if d.source.Some? then [d.source.value] else [])
  }

  ghost predicate ReturnedAreRemoved(db: Tables, after: Tables, d: Deleted) {
    && (forall x :: x in d.appAuths ==> x in db.appAuths && x !in after.appAuths)
    && (forall a :: a in d.applications ==> a in db.applications)
    && (forall e :: e in d.endpoints ==> e in db.endpoints)
    && (forall c :: c in d.connections ==> c in db.connections)
    && (d.source.Some? ==> d.source.value in db.sources)
  }

  ghost predicate Announced<T(!new)>(before: seq<T>, after: seq<T>, event: T -> Event, trace: seq<Event>) {
    forall x :: x in before && x !in after ==> event(x) in trace
  }

  /** Every row that is gone, of the six kinds that have events, has its destroy event. */
  ghost predicate AllAnnounced(db: Tables, after: Tables, trace: seq<Event>) {
    && Announced(db.appAuths, after.appAuths, AppAuthEvent, trace)
    && Announced(db.applications, after.applications, ApplicationEvent, trace)
    && Announced(db.endpoints, after.endpoints, EndpointEvent, trace)
    && Announced(db.connections, after.connections, ConnectionEvent, trace)
    && Announced(db.sources, after.sources, SourceEvent, trace)
    && Announced(db.authentications, after.authentications, Announce, trace)
  }

  /** The app-authentication names an authentication that will be deleted with the resource. */
  function Names(db: Tables, gone: Authentication -> bool): AppAuth -> bool {
    (x: AppAuth) => x.authenticationId in AuthenticationIds(Filter(db.authentications, gone))
  }

  lemma InTrace(d: Deleted, gone: seq<Authentication>)
    ensures var trace := PlanFor(d) + Map(gone, Announce);
            && (forall e :: e in trace <==>
                  || e in Map(d.appAuths, AppAuthEvent) || e in Map(d.applications, ApplicationEvent)
                  || e in Map(d.endpoints, EndpointEvent) || e in Map(d.connections, ConnectionEvent)
                  || (d.source.Some? && e == SourceEvent(d.source.value)) || e in Map(gone, Announce))
  {
  }

  lemma InTraceIff(d: Deleted, gone: seq<Authentication>, e: Event)
    ensures e in PlanFor(d) + Map(gone, Announce) <==>
            match e
            case AppAuthDestroyed(id) => exists x :: x in d.appAuths && x.id == id
            case ApplicationDestroyed(id) => exists a :: a in d.applications && a.id == id
            case EndpointDestroyed(id) => exists x :: x in d.endpoints && x.id == id
            case ConnectionDestroyed(id) => exists c :: c in d.connections && c.id == id
            case SourceDestroyed(id) => d.source.Some? && d.source.value.id == id
            case AuthenticationDestroyed(id) => exists t :: t in gone && t.id == id
  {
    InTrace(d, gone);
    InMap(d.appAuths, AppAuthEvent, e);
    InMap(d.applications, ApplicationEvent, e);
    InMap(d.endpoints, EndpointEvent, e);
    InMap(d.connections, ConnectionEvent, e);
    InMap(gone, Announce, e);
  }

  // ---- the order of the events ----

  /** The kinds in the order in which their events are raised. */
  function Kind(e: Event): nat {
    match e
    case AppAuthDestroyed(_) => 0
    case ApplicationDestroyed(_) => 1
    case EndpointDestroyed(_) => 2
    case ConnectionDestroyed(_) => 3
    case SourceDestroyed(_) => 4
    case AuthenticationDestroyed(_) => 5
  }

  function OfKind(kind: nat): Event -> bool {
    (e: Event) => Kind(e) == kind
  }

  predicate InKindOrder(trace: seq<Event>) {
    forall i, j :: 0 <= i < j < |trace| ==> Kind(trace[i]) <= Kind(trace[j])
  }

  function SubjectOf(e: Event): int { e.id }
  function AppAuthId(x: AppAuth): int { x.id }
  function ApplicationId(a: Application): int { a.id }
  function EndpointId(e: Endpoint): int { e.id }
  function ConnectionId(c: Connection): int { c.id }
  function SourceId(s: Source): int { s.id }
  function AuthenticationId(t: Authentication): int { t.id }

  /** The ids in the events of one kind, in order. */
  function Subjects(trace: seq<Event>, kind: nat): seq<int> {
    Map(Filter(trace, OfKind(kind)), SubjectOf)
  }

  /** The events come kind by kind, and those of each kind name the returned rows, in order and once each. */
  predicate TellsInOrder(d: Deleted, gone: seq<Authentication>, trace: seq<Event>) {
    && InKindOrder(trace)
    && Subjects(trace, 0) == Map(d.appAuths, AppAuthId)
    && Subjects(trace, 1) == Map(d.applications, ApplicationId)
    && Subjects(trace, 2) == Map(d.endpoints, EndpointId)
    && Subjects(trace, 3) == Map(d.connections, ConnectionId)
    && Subjects(trace, 4) == Map(SourceRow(d), SourceId)
    && Subjects(trace, 5) == Map(gone, AuthenticationId)
  }

  lemma SubjectsOfPart<T>(rows: seq<T>, event: T -> Event, id: T -> int, mine: nat, kind: nat)
    requires forall x :: x in rows ==> Kind(event(x)) == mine && event(x).id == id(x)
    ensures Subjects(Map(rows, event), kind) == if kind == mine then Map(rows, id) else []
  {
    if kind == mine {
      FilterAll(Map(rows, event), OfKind(kind));
    } else {
      FilterNone(Map(rows, event), OfKind(kind));
    }
  }

  lemma SubjectsAppend(one: seq<Event>, two: seq<Event>, kind: nat)
    ensures Subjects(one + two, kind) == Subjects(one, kind) + Subjects(two, kind)
  {
    FilterAppend(one, two, OfKind(kind));
    MapAppend(Filter(one, OfKind(kind)), Filter(two, OfKind(kind)), SubjectOf);
  }

  /** The source, if there is one, as a list. */
  function SourceRow(d: Deleted): seq<Source> {
    if d.source.Some? then [d.source.value] else []
  }

  lemma SubjectsSplit(d: Deleted, gone: seq<Authentication>, kind: nat)
    ensures Subjects(PlanFor(d) + Map(gone, Announce), kind)
            == Subjects(Map(d.appAuths, AppAuthEvent), kind) + Subjects(Map(d.applications, ApplicationEvent), kind)
               + Subjects(Map(d.endpoints, EndpointEvent), kind) + Subjects(Map(d.connections, ConnectionEvent), kind)
               + Subjects(Map(SourceRow(d), SourceEvent), kind) + Subjects(Map(gone, Announce), kind)
  {
    var xs, aa := Map(d.appAuths, AppAuthEvent), Map(d.applications, ApplicationEvent);
    var ee := Map(d.endpoints, EndpointEvent);
    var cc, ss := Map(d.connections, ConnectionEvent), Map(SourceRow(d), SourceEvent);
    assert PlanFor(d) == xs + aa + ee + cc + ss;
    SubjectsAppend(PlanFor(d), Map(gone, Announce), kind);
    SubjectsAppend(xs + aa + ee + cc, ss, kind);
    SubjectsAppend(xs + aa + ee, cc, kind);
    SubjectsAppend(xs + aa, ee, kind);
    SubjectsAppend(xs, aa, kind);
  }

  lemma AppAuthSubjects(rows: seq<AppAuth>, kind: nat)
    ensures Subjects(Map(rows, AppAuthEvent), kind) == if kind == 0 then Map(rows, AppAuthId) else []
  {
    SubjectsOfPart(rows, AppAuthEvent, AppAuthId, 0, kind);
  }

  lemma ApplicationSubjects(rows: seq<Application>, kind: nat)
    ensures Subjects(Map(rows, ApplicationEvent), kind) == if kind == 1 then Map(rows, ApplicationId) else []
  {
    SubjectsOfPart(rows, ApplicationEvent, ApplicationId, 1, kind);
  }

  lemma EndpointSubjects(rows: seq<Endpoint>, kind: nat)
    ensures Subjects(Map(rows, EndpointEvent), kind) == if kind == 2 then Map(rows, EndpointId) else []
  {
    SubjectsOfPart(rows, EndpointEvent, EndpointId, 2, kind);
  }

  lemma ConnectionSubjects(rows: seq<Connection>, kind: nat)
    ensures Subjects(Map(rows, ConnectionEvent), kind) == if kind == 3 then Map(rows, ConnectionId) else []
  {
    SubjectsOfPart(rows, ConnectionEvent, ConnectionId, 3, kind);
  }

  lemma SourceSubjects(rows: seq<Source>, kind: nat)
    ensures Subjects(Map(rows, SourceEvent), kind) == if kind == 4 then Map(rows, SourceId) else []
  {
    SubjectsOfPart(rows, SourceEvent, SourceId, 4, kind);
  }

  lemma AuthenticationSubjects(rows: seq<Authentication>, kind: nat)
    ensures Subjects(Map(rows, Announce), kind) == if kind == 5 then Map(rows, AuthenticationId) else []
  {
    SubjectsOfPart(rows, Announce, AuthenticationId, 5, kind);
  }

  lemma PlanSubjects(d: Deleted, gone: seq<Authentication>, kind: nat)
    ensures Subjects(PlanFor(d) + Map(gone, Announce), kind)
            == (if kind == 0 then Map(d.appAuths, AppAuthId) else [])
               + (if kind == 1 then Map(d.applications, ApplicationId) else [])
               + (if kind == 2 then Map(d.endpoints, EndpointId) else [])
               + (if kind == 3 then Map(d.connections, ConnectionId) else [])
               + (if kind == 4 then Map(SourceRow(d), SourceId) else [])
               + (if kind == 5 then Map(gone, AuthenticationId) else [])
  {
    SubjectsSplit(d, gone, kind);
    AppAuthSubjects(d.appAuths, kind);
    ApplicationSubjects(d.applications, kind);
    EndpointSubjects(d.endpoints, kind);
    ConnectionSubjects(d.connections, kind);
    SourceSubjects(SourceRow(d), kind);
    AuthenticationSubjects(gone, kind);
  }

  predicate KindsWithin(trace: seq<Event>, low: nat, high: nat) {
    forall i :: 0 <= i < |trace| ==> low <= Kind(trace[i]) <= high
  }

  lemma OrderAppend(one: seq<Event>, two: seq<Event>, low: nat, middle: nat, high: nat)
    requires InKindOrder(one) && KindsWithin(one, low, middle) && InKindOrder(two) && KindsWithin(two, middle, high)
    requires low <= middle <= high
    ensures InKindOrder(one + two) && KindsWithin(one + two, low, high)
  {
  }

  lemma PlanIsInOrder(d: Deleted, gone: seq<Authentication>)
    ensures InKindOrder(PlanFor(d) + Map(gone, Announce))
  {
    var xs, aa := Map(d.appAuths, AppAuthEvent), Map(d.applications, ApplicationEvent);
    var ee := Map(d.endpoints, EndpointEvent);
    var cc, ss := Map(d.connections, ConnectionEvent), if d.source.Some? then [SourceEvent(d.source.value)] else [];
    OrderAppend(xs, aa, 0, 1, 1);
    OrderAppend(xs + aa, ee, 0, 2, 2);
    OrderAppend(xs + aa + ee, cc, 0, 3, 3);
    OrderAppend(xs + aa + ee + cc, ss, 0, 4, 4);
    OrderAppend(PlanFor(d), Map(gone, Announce), 0, 5, 5);
  }

  lemma PlanTellsInOrder(d: Deleted, gone: seq<Authentication>)
    ensures TellsInOrder(d, gone, PlanFor(d) + Map(gone, Announce))
  {
    PlanIsInOrder(d, gone);
    PlanSubjects(d, gone, 0);
    PlanSubjects(d, gone, 1);
    PlanSubjects(d, gone, 2);
    PlanSubjects(d, gone, 3);
    PlanSubjects(d, gone, 4);
    PlanSubjects(d, gone, 5);
  }

  lemma AnnouncedIffReturned<T(!new)>(before: seq<T>, after: seq<T>, returned: seq<T>, event: T -> Event,
                                      trace: seq<Event>)
    requires forall x :: x in returned ==> x in before
    requires forall x, y :: x in before && y in before && event(x) == event(y) ==> x == y
    requires forall x :: x in before ==> (event(x) in trace <==> exists y :: y in returned && event(y) == event(x))
    ensures Announced(before, after, event, trace) <==> RemovedAreIn(before, after, returned)
  {
    if Announced(before, after, event, trace) {
      forall x | x in before && x !in after ensures x in returned {
        assert event(x) in trace;
      }
    }
  }

  ghost predicate AllIdsUnique(db: Tables) {
    IdsUnique(db) && AuthenticationIdsUnique(db) && ConnectionIdsUnique(db)
  }

  lemma AppAuthsAnnouncedIff(db: Tables, after: seq<AppAuth>, d: Deleted, gone: seq<Authentication>)
    requires IdsUnique(db) && forall x :: x in d.appAuths ==> x in db.appAuths
    ensures Announced(db.appAuths, after, AppAuthEvent, PlanFor(d) + Map(gone, Announce))
            <==> RemovedAreIn(db.appAuths, after, d.appAuths)
  {
    var trace := PlanFor(d) + Map(gone, Announce);
    forall x | x in db.appAuths
      ensures AppAuthEvent(x) in trace <==> exists y :: y in d.appAuths && AppAuthEvent(y) == AppAuthEvent(x)
    {
      InTraceIff(d, gone, AppAuthEvent(x));
      if y :| y in d.appAuths && y.id == x.id {
        assert AppAuthEvent(y) == AppAuthEvent(x);
      }
    }
    AnnouncedIffReturned(db.appAuths, after, d.appAuths, AppAuthEvent, trace);
  }

  lemma ApplicationsAnnouncedIff(db: Tables, after: seq<Application>, d: Deleted, gone: seq<Authentication>)
    requires IdsUnique(db) && forall a :: a in d.applications ==> a in db.applications
    ensures Announced(db.applications, after, ApplicationEvent, PlanFor(d) + Map(gone, Announce))
            <==> RemovedAreIn(db.applications, after, d.applications)
  {
    var trace := PlanFor(d) + Map(gone, Announce);
    forall x | x in db.applications
      ensures ApplicationEvent(x) in trace
              <==> exists y :: y in d.applications && ApplicationEvent(y) == ApplicationEvent(x)
    {
      InTraceIff(d, gone, ApplicationEvent(x));
      if y :| y in d.applications && y.id == x.id {
        assert ApplicationEvent(y) == ApplicationEvent(x);
      }
    }
    AnnouncedIffReturned(db.applications, after, d.applications, ApplicationEvent, trace);
  }

  lemma EndpointsAnnouncedIff(db: Tables, after: seq<Endpoint>, d: Deleted, gone: seq<Authentication>)
    requires IdsUnique(db) && forall e :: e in d.endpoints ==> e in db.endpoints
    ensures Announced(db.endpoints, after, EndpointEvent, PlanFor(d) + Map(gone, Announce))
            <==> RemovedAreIn(db.endpoints, after, d.endpoints)
  {
    var trace := PlanFor(d) + Map(gone, Announce);
    forall x | x in db.endpoints
      ensures EndpointEvent(x) in trace <==> exists y :: y in d.endpoints && EndpointEvent(y) == EndpointEvent(x)
    {
      InTraceIff(d, gone, EndpointEvent(x));
      if y :| y in d.endpoints && y.id == x.id {
        assert EndpointEvent(y) == EndpointEvent(x);
      }
    }
    AnnouncedIffReturned(db.endpoints, after, d.endpoints, EndpointEvent, trace);
  }

  lemma ConnectionsAnnouncedIff(db: Tables, after: seq<Connection>, d: Deleted, gone: seq<Authentication>)
    requires ConnectionIdsUnique(db) && forall c :: c in d.connections ==> c in db.connections
    ensures Announced(db.connections, after, ConnectionEvent, PlanFor(d) + Map(gone, Announce))
            <==> RemovedAreIn(db.connections, after, d.connections)
  {
    var trace := PlanFor(d) + Map(gone, Announce);
    forall x | x in db.connections
      ensures ConnectionEvent(x) in trace
              <==> exists y :: y in d.connections && ConnectionEvent(y) == ConnectionEvent(x)
    {
      InTraceIff(d, gone, ConnectionEvent(x));
      if y :| y in d.connections && y.id == x.id {
        assert ConnectionEvent(y) == ConnectionEvent(x);
      }
    }
    AnnouncedIffReturned(db.connections, after, d.connections, ConnectionEvent, trace);
  }

  lemma SourcesAnnouncedIff(db: Tables, after: seq<Source>, d: Deleted, gone: seq<Authentication>)
    requires IdsUnique(db) && (d.source.Some? ==> d.source.value in db.sources)
    ensures Announced(db.sources, after, SourceEvent, PlanFor(d) + Map(gone, Announce))
            <==> RemovedAreIn(db.sources, after, if d.source.Some? then [d.source.value] else [])
  {
    var trace, returned := PlanFor(d) + Map(gone, Announce), if d.source.Some? then [d.source.value] else [];
    forall x | x in db.sources
      ensures SourceEvent(x) in trace <==> exists y :: y in returned && SourceEvent(y) == SourceEvent(x)
    {
      InTraceIff(d, gone, SourceEvent(x));
      if d.source.Some? {
        assert d.source.value in returned;
      }
    }
    AnnouncedIffReturned(db.sources, after, returned, SourceEvent, trace);
  }

  lemma AuthenticationsAreAnnounced(db: Tables, d: Deleted, gone: Authentication -> bool)
    ensures Announced(db.authentications, Filter(db.authentications, Other(gone)), Announce,
                      PlanFor(d) + Map(Filter(db.authentications, gone), Announce))
  {
    var found := Filter(db.authentications, gone);
    forall t | t in db.authentications && t !in Filter(db.authentications, Other(gone))
      ensures Announce(t) in PlanFor(d) + Map(found, Announce)
    {
      assert t in found;
      InTraceIff(d, found, Announce(t));
    }
  }

  /** No app-authentication that the transaction left names an authentication about to be deleted. */
  ghost predicate NoneLeftNames(db: Tables, after: Tables, gone: Authentication -> bool) {
    forall x :: x in db.appAuths && x in after.appAuths ==> !Names(db, gone)(x)
  }

  lemma AppAuthsTakenAlong(db: Tables, after: Tables, d: Deleted, gone: Authentication -> bool)
    requires after.authentications == db.authentications
    requires forall x :: x in d.appAuths ==> x in db.appAuths && x !in after.appAuths
    ensures RemovedAreIn(db.appAuths, DeleteAuthentications(after, gone).appAuths, d.appAuths)
            <==> RemovedAreIn(db.appAuths, after.appAuths, d.appAuths) && NoneLeftNames(db, after, gone)
  {
    var kept := DeleteAuthentications(after, gone).appAuths;
    assert forall x :: x in kept <==> x in after.appAuths && !Names(db, gone)(x);
    if RemovedAreIn(db.appAuths, kept, d.appAuths) {
      forall x | x in db.appAuths && x in after.appAuths ensures !Names(db, gone)(x) {
        assert x in kept || x in d.appAuths;
      }
    }
  }

  /** For any deletion and every interleaving without failures: each row that is gone, links aside, has
      its event, if and only if the transaction returned all of them, and left no app-authentication that names an
      authentication of the deleted rows. */
  lemma AnnouncedIff(db: Tables, after: Tables, d: Deleted, job: Job, schedule: seq<Tick>)
    requires AllIdsUnique(db) && after.authentications == db.authentications && ReturnedAreRemoved(db, after, d)
    requires job.plan == PlanFor(d) && Healthy(job, after, schedule)
    ensures var end := Run(job, Init(true, after), schedule);
            && end.db == DeleteAuthentications(after, IsFetched(job))
            && end.trace == PlanFor(d) + Map(Filter(db.authentications, IsFetched(job)), Announce)
            && (AllAnnounced(db, end.db, end.trace)
                <==> RemovedAreReturned(db, after, d) && NoneLeftNames(db, after, IsFetched(job)))
  {
    var end, gone := DeleteAuthentications(after, IsFetched(job)), Filter(db.authentications, IsFetched(job));
    HealthyEnd(job, after, schedule);
    AppAuthsAnnouncedIff(db, end.appAuths, d, gone);
    AppAuthsTakenAlong(db, after, d, IsFetched(job));
    ApplicationsAnnouncedIff(db, end.applications, d, gone);
    EndpointsAnnouncedIff(db, end.endpoints, d, gone);
    ConnectionsAnnouncedIff(db, end.connections, d, gone);
    SourcesAnnouncedIff(db, end.sources, d, gone);
    AuthenticationsAreAnnounced(db, d, IsFetched(job));
  }

  /** The rows that are gone, as one deletion would return them. */
  function RemovedRows(db: Tables, after: Tables, source: Option<Source>): Deleted {
    Deleted(Removed(db.appAuths, after.appAuths), Removed(db.applications, after.applications),
            Removed(db.endpoints, after.endpoints), Removed(db.connections, after.connections), source)
  }

  lemma NothingTakenAlong(db: Tables, after: Tables, gone: Authentication -> bool)
    requires after.authentications == db.authentications && NoneLeftNames(db, after, gone)
    requires forall x :: x in after.appAuths ==> x in db.appAuths
    ensures DeleteAuthentications(after, gone) == after.(authentications := Filter(db.authentications, Other(gone)))
    ensures Removed(db.authentications, Filter(db.authentications, Other(gone))) == Filter(db.authentications, gone)
  {
    FilterAll(after.appAuths, AppAuthNamingOther(AuthenticationIds(Filter(db.authentications, gone))));
    RemovedIsFilter(db.authentications, Other(gone), gone);
  }

  lemma SameDeletion(db: Tables, after: Tables, p: Authentication -> bool, q: Authentication -> bool)
    requires forall t :: p(t) == q(t)
    requires after.authentications == db.authentications
    ensures DeleteAuthentications(after, p) == DeleteAuthentications(after, q)
    ensures Filter(db.authentications, p) == Filter(db.authentications, q)
    ensures NoneLeftNames(db, after, p) <==> NoneLeftNames(db, after, q)
  {
    FilterCongruent(db.authentications, p, q);
    FilterCongruent(db.authentications, Other(p), Other(q));
  }

  // ---- sources ----


  function JobForSource(tenant: int, source: int, d: Deleted): Job {
    Job(tenant, PlanFor(d), [Fetch(ApplicationType, Map(d.applications, ApplicationId)),
                             Fetch(EndpointType, Map(d.endpoints, EndpointId)),
                             Fetch(SourceType, [source])])
  }

  /** The authentication belongs to the source, or to an application or endpoint of it, all of the tenant. */
  predicate Orphaned(db: Tables, tenant: int, source: int, t: Authentication) {
    && t.tenantId == tenant
    && match t.resourceType
       case ApplicationType =>
         exists a :: a in db.applications && ApplicationUnder(tenant, source)(a) && a.id == t.resourceId
       case EndpointType =>
         exists e :: e in db.endpoints && EndpointUnder(tenant, source)(e) && e.id == t.resourceId
       case SourceType => t.resourceId == source
  }

  function IsOrphaned(db: Tables, tenant: int, source: int): Authentication -> bool {
    (t: Authentication) => Orphaned(db, tenant, source, t)
  }

  /** The three fetches collect exactly the orphaned authentications. */
  lemma CollectedAreOrphaned(db: Tables, tenant: int, source: int, t: Authentication)
    ensures IsFetched(JobForSource(tenant, source, SourceReturned(db, tenant, source)))(t)
            <==> Orphaned(db, tenant, source, t)
  {
    var d := SourceReturned(db, tenant, source);
    var job := JobForSource(tenant, source, d);
    InMap(d.applications, ApplicationId, t.resourceId);
    InMap(d.endpoints, EndpointId, t.resourceId);
    assert IsFetched(job)(t) <==>
           Listed(job, job.fetches[0])(t) || Listed(job, job.fetches[1])(t) || Listed(job, job.fetches[2])(t);
  }

  /** Every app-authentication that names an orphaned authentication hangs below the source. */
  ghost predicate NoStray(db: Tables, tenant: int, source: int) {
    forall x :: x in db.appAuths && Names(db, IsOrphaned(db, tenant, source))(x) ==>
        HangsBelow(db.applications, source)(x)
  }

  lemma SourceReturnedIsRemoved(db: Tables, tenant: int, source: int)
    requires KeysHold(db) && AllIdsUnique(db) && SourceExists(db, tenant, source)
    ensures var after := AfterSource(db, tenant, source);
            && ReturnedAreRemoved(db, after, SourceReturned(db, tenant, source))
            && (forall x :: x in after.appAuths <==> x in db.appAuths && !HangsBelow(db.applications, source)(x))
  {
    AfterSourceIs(db, tenant, source);
    ReturnedSource(db, tenant, source);
  }

  lemma ReturnedAllIsOneTenant(db: Tables, tenant: int, source: int)
    requires KeysHold(db) && AllIdsUnique(db) && SourceExists(db, tenant, source)
    requires RemovedAreReturned(db, AfterSource(db, tenant, source), SourceReturned(db, tenant, source))
    ensures OneTenant(db, tenant, source)
  {
    var after := AfterSource(db, tenant, source);
    AfterSourceIs(db, tenant, source);
    forall a | a in db.applications && a.sourceId == source ensures a.tenantId == tenant {
      assert a !in after.applications;
    }
    forall e | e in db.endpoints && e.sourceId == source ensures e.tenantId == tenant {
      assert e !in after.endpoints;
    }
  }

  lemma OneTenantReturnsAll(db: Tables, tenant: int, source: int)
    requires KeysHold(db) && AllIdsUnique(db) && SourceExists(db, tenant, source) && OneTenant(db, tenant, source)
    ensures RemovedAreReturned(db, AfterSource(db, tenant, source), SourceReturned(db, tenant, source))
  {
    ReturnedIsRemovedIff(db, tenant, source);
    ReturnedConnectionsAreRemoved(db, tenant, source);
  }

  lemma SourceRemovedIsReturned(db: Tables, tenant: int, source: int)
    requires KeysHold(db) && AllIdsUnique(db) && SourceExists(db, tenant, source)
    ensures RemovedAreReturned(db, AfterSource(db, tenant, source), SourceReturned(db, tenant, source))
            <==> OneTenant(db, tenant, source)
  {
    if OneTenant(db, tenant, source) {
      OneTenantReturnsAll(db, tenant, source);
    } else if RemovedAreReturned(db, AfterSource(db, tenant, source), SourceReturned(db, tenant, source)) {
      ReturnedAllIsOneTenant(db, tenant, source);
    }
  }

  /** Deleting a source, with no query failing, in every interleaving: exactly the orphaned authentications
      go, with the app-authentications that name them, and the keys hold.  Each row that is gone, links aside, has its
      destroy event, if and only if the source is of one tenant and no other app-authentication names an
      orphaned authentication; the events are then one for each row, in the order app-authentications,
      applications, endpoints, connections, source, authentications. */
  lemma SourceDeletionIsAnnounced(db: Tables, tenant: int, source: int, schedule: seq<Tick>)
    requires KeysHold(db) && AllIdsUnique(db) && SourceExists(db, tenant, source)
    requires Healthy(JobForSource(tenant, source, SourceReturned(db, tenant, source)),
                     AfterSource(db, tenant, source), schedule)
    ensures var after, d := AfterSource(db, tenant, source), SourceReturned(db, tenant, source);
            var end := Run(JobForSource(tenant, source, d), Init(true, after), schedule);
            && end.db == DeleteAuthentications(after, IsOrphaned(db, tenant, source))
            && KeysHold(end.db)
            && (AllAnnounced(db, end.db, end.trace) <==> OneTenant(db, tenant, source) && NoStray(db, tenant, source))
            && (AllAnnounced(db, end.db, end.trace) ==>
                  TellsInOrder(RemovedRows(db, end.db, d.source), Removed(db.authentications, end.db.authentications),
                               end.trace))
            && TellsInOrder(d, Filter(db.authentications, IsOrphaned(db, tenant, source)), end.trace)
  {
    var after, d := AfterSource(db, tenant, source), SourceReturned(db, tenant, source);
    var job, gone := JobForSource(tenant, source, d), IsOrphaned(db, tenant, source);
    AfterSourceIs(db, tenant, source);
    SourceReturnedIsRemoved(db, tenant, source);
    SourceRemovedIsReturned(db, tenant, source);
    AnnouncedIff(db, after, d, job, schedule);
    forall t ensures IsFetched(job)(t) == gone(t) {
      CollectedAreOrphaned(db, tenant, source, t);
    }
    SameDeletion(db, after, IsFetched(job), gone);
    DeleteAuthenticationsKeepsKeys(after, gone);
    PlanTellsInOrder(d, Filter(db.authentications, gone));
    if NoneLeftNames(db, after, gone) && OneTenant(db, tenant, source) {
      NothingTakenAlong(db, after, gone);
      ReturnedIsRemovedIff(db, tenant, source);
      ReturnedConnectionsAreRemoved(db, tenant, source);
    }
  }

  // ---- applications and endpoints ----

  /** The job of an application or an endpoint: one fetch, for its own authentications. */
  function JobForOne(tenant: int, resourceType: ResourceType, id: int, d: Deleted): Job {
    Job(tenant, PlanFor(d), [Fetch(resourceType, [id])])
  }

  function IsOf(tenant: int, resourceType: ResourceType, id: int): Authentication -> bool {
    (t: Authentication) => t.tenantId == tenant && t.resourceType == resourceType && t.resourceId == id
  }

  lemma CollectedForOne(tenant: int, resourceType: ResourceType, id: int, d: Deleted, t: Authentication)
    ensures IsFetched(JobForOne(tenant, resourceType, id, d))(t) <==> IsOf(tenant, resourceType, id)(t)
  {
    var job := JobForOne(tenant, resourceType, id, d);
    assert IsFetched(job)(t) <==> Listed(job, job.fetches[0])(t);
  }

  function ApplicationReturned(db: Tables, tenant: int, application: int): Deleted
    requires ApplicationFound(db, tenant, application).Some?
  {
    Deleted(AppAuthsFound(db, tenant, application), [ApplicationFound(db, tenant, application).value], [], [], None)
  }

  lemma ApplicationReturnedIsRemoved(db: Tables, tenant: int, application: int)
    requires KeysHold(db) && IdsUnique(db) && ApplicationFound(db, tenant, application).Some?
    ensures var after, d := AfterApplication(db, tenant, application), ApplicationReturned(db, tenant, application);
            && ReturnedAreRemoved(db, after, d)
            && (forall x :: x in after.appAuths <==> x in db.appAuths && x.applicationId != application)
  {
    AfterApplicationIs(db, tenant, application);
    var found := Filter(db.applications, ApplicationIs(tenant, application));
    assert found[0] in found;
  }

  lemma ApplicationRemovedIsReturned(db: Tables, tenant: int, application: int)
    requires KeysHold(db) && IdsUnique(db) && ApplicationFound(db, tenant, application).Some?
    ensures RemovedAreReturned(db, AfterApplication(db, tenant, application),
                               ApplicationReturned(db, tenant, application))
            <==> forall x :: x in db.appAuths && x.applicationId == application ==> x.tenantId == tenant
  {
    var after, found := AfterApplication(db, tenant, application), AppAuthsFound(db, tenant, application);
    AfterApplicationIs(db, tenant, application);
    ApplicationReturnedIsRemoved(db, tenant, application);
    OneApplicationGone(db, tenant, application, after.applications);
    if RemovedAreIn(db.appAuths, after.appAuths, found) {
      forall x | x in db.appAuths && x.applicationId == application ensures x.tenantId == tenant {
        assert x !in after.appAuths;
      }
    }
  }

  lemma OneApplicationGone(db: Tables, tenant: int, application: int, after: seq<Application>)
    requires IdsUnique(db) && ApplicationFound(db, tenant, application).Some?
    requires after == Filter(db.applications, ApplicationOutside({application}))
    ensures RemovedAreIn(db.applications, after, [ApplicationFound(db, tenant, application).value])
  {
    var found := Filter(db.applications, ApplicationIs(tenant, application));
    assert found[0] in found;
  }

  /** The same for an application: its transaction's rows, then its authentications.  Every row that is gone
      has its event, if and only if its app-authentications share its tenant and those of other applications
      name none of its authentications. */
  lemma ApplicationDeletionIsAnnounced(db: Tables, tenant: int, application: int, schedule: seq<Tick>)
    requires KeysHold(db) && AllIdsUnique(db) && ApplicationFound(db, tenant, application).Some?
    requires Healthy(JobForOne(tenant, ApplicationType, application, ApplicationReturned(db, tenant, application)),
                     AfterApplication(db, tenant, application), schedule)
    ensures var after, d := AfterApplication(db, tenant, application), ApplicationReturned(db, tenant, application);
            var end := Run(JobForOne(tenant, ApplicationType, application, d), Init(true, after), schedule);
            var gone := IsOf(tenant, ApplicationType, application);
            && end.db == DeleteAuthentications(after, gone)
            && TellsInOrder(d, Filter(db.authentications, gone), end.trace)
            && KeysHold(end.db)
            && (AllAnnounced(db, end.db, end.trace) <==>
                  && (forall x :: x in db.appAuths && x.applicationId == application ==> x.tenantId == tenant)
                  && (forall x :: x in db.appAuths && Names(db, gone)(x) ==> x.applicationId == application))
  {
    var after, d := AfterApplication(db, tenant, application), ApplicationReturned(db, tenant, application);
    var job, gone := JobForOne(tenant, ApplicationType, application, d), IsOf(tenant, ApplicationType, application);
    AfterApplicationIs(db, tenant, application);
    ApplicationReturnedIsRemoved(db, tenant, application);
    ApplicationRemovedIsReturned(db, tenant, application);
    AnnouncedIff(db, after, d, job, schedule);
    forall t ensures IsFetched(job)(t) == gone(t) {
      CollectedForOne(tenant, ApplicationType, application, d, t);
    }
    SameDeletion(db, after, IsFetched(job), gone);
    DeleteAuthenticationsKeepsKeys(after, gone);
    PlanTellsInOrder(d, Filter(db.authentications, gone));
  }

  lemma EndpointReturnedIsRemoved(db: Tables, endpoint: Endpoint)
    requires IdsUnique(db) && endpoint in db.endpoints
    ensures var after, d := DeleteEndpoints(db, {endpoint.id}), Deleted([], [], [endpoint], [], None);
            && ReturnedAreRemoved(db, after, d) && RemovedAreReturned(db, after, d)
            && PlanFor(d) == [EndpointDestroyed(endpoint.id)]
  {
    assert PlanFor(Deleted([], [], [endpoint], [], None)) == [EndpointEvent(endpoint)];
  }

  /** And for an endpoint: no app-authentication may name one of its authentications. */
  lemma EndpointDeletionIsAnnounced(db: Tables, tenant: int, endpoint: Endpoint, schedule: seq<Tick>)
    requires KeysHold(db) && AllIdsUnique(db) && endpoint in db.endpoints && endpoint.tenantId == tenant
    requires Healthy(JobForOne(tenant, EndpointType, endpoint.id, Deleted([], [], [endpoint], [], None)),
                     DeleteEndpoints(db, {endpoint.id}), schedule)
    ensures var after, d := DeleteEndpoints(db, {endpoint.id}), Deleted([], [], [endpoint], [], None);
            var end := Run(JobForOne(tenant, EndpointType, endpoint.id, d), Init(true, after), schedule);
            var gone := IsOf(tenant, EndpointType, endpoint.id);
            && end.db == DeleteAuthentications(after, gone)
            && end.trace == [EndpointDestroyed(endpoint.id)] + Map(Filter(db.authentications, gone), Announce)
            && KeysHold(end.db)
            && (AllAnnounced(db, end.db, end.trace) <==> forall x :: x in db.appAuths ==> !Names(db, gone)(x))
  {
    var after, d := DeleteEndpoints(db, {endpoint.id}), Deleted([], [], [endpoint], [], None);
    var job, gone := JobForOne(tenant, EndpointType, endpoint.id, d), IsOf(tenant, EndpointType, endpoint.id);
    DeleteEndpointsKeepsKeys(db, {endpoint.id});
    EndpointReturnedIsRemoved(db, endpoint);
    AnnouncedIff(db, after, d, job, schedule);
    forall t ensures IsFetched(job)(t) == gone(t) {
      CollectedForOne(tenant, EndpointType, endpoint.id, d, t);
    }
    SameDeletion(db, after, IsFetched(job), gone);
    DeleteAuthenticationsKeepsKeys(after, gone);
  }

  // ---- rows that go in silence ----

  /** An app-authentication of another source that names an orphaned authentication goes without an event. */
  lemma StrayGoesInSilence(db: Tables, tenant: int, source: int, schedule: seq<Tick>, x: AppAuth)
    requires KeysHold(db) && AllIdsUnique(db) && SourceExists(db, tenant, source)
    requires Healthy(JobForSource(tenant, source, SourceReturned(db, tenant, source)),
                     AfterSource(db, tenant, source), schedule)
    requires x in db.appAuths && Names(db, IsOrphaned(db, tenant, source))(x) && !HangsBelow(db.applications, source)(x)
    ensures var end := Run(JobForSource(tenant, source, SourceReturned(db, tenant, source)),
                           Init(true, AfterSource(db, tenant, source)), schedule);
            x !in end.db.appAuths && AppAuthDestroyed(x.id) !in end.trace
  {
    var after, d := AfterSource(db, tenant, source), SourceReturned(db, tenant, source);
    var job, gone := JobForSource(tenant, source, d), IsOrphaned(db, tenant, source);
    SourceDeletionIsAnnounced(db, tenant, source, schedule);
    HealthyEnd(job, after, schedule);
    AfterSourceIs(db, tenant, source);
    InTraceIff(d, Filter(after.authentications, IsFetched(job)), AppAuthDestroyed(x.id));
  }

  lemma LinksAfterSource(db: Tables, tenant: int, source: int, l: Link)
    requires KeysHold(db) && AllIdsUnique(db) && SourceExists(db, tenant, source) && l in db.links
    ensures l !in AfterSource(db, tenant, source).links
            <==> || l.sourceId == source
                 || exists k :: k in db.links && k.connectionId == l.connectionId && k.sourceId == source
                     && k.tenantId == tenant
  {
    var under := Filter(db.connections, ConnectionUnder(db.links, tenant, source));
    AfterSourceIs(db, tenant, source);
    var c :| c in db.connections && c.id == l.connectionId;
    assert l.connectionId in ConnectionIds(under) <==> c in under;
  }

  /** The links of the source go, and so do those of other sources to a connection that this source shares
      under the tenant; no event tells of either. */
  lemma LinksGoInSilence(db: Tables, tenant: int, source: int, schedule: seq<Tick>, l: Link)
    requires KeysHold(db) && AllIdsUnique(db) && SourceExists(db, tenant, source) && l in db.links
    requires Healthy(JobForSource(tenant, source, SourceReturned(db, tenant, source)),
                     AfterSource(db, tenant, source), schedule)
    ensures var end := Run(JobForSource(tenant, source, SourceReturned(db, tenant, source)),
                           Init(true, AfterSource(db, tenant, source)), schedule);
            l !in end.db.links
            <==> || l.sourceId == source
                 || exists k :: k in db.links && k.connectionId == l.connectionId && k.sourceId == source
                     && k.tenantId == tenant
  {
    SourceDeletionIsAnnounced(db, tenant, source, schedule);
    LinksAfterSource(db, tenant, source, l);
  }

  /** An application of source 2 uses an authentication of source 1. */
  const SHARED := Tables([AppAuth(5, 7, 20, 30)], [Application(20, 7, 2)], [], [], [], [Source(1, 7), Source(2, 7)],
                         [Authentication(30, 7, SourceType, 1)])

  lemma SharedIsSound()
    ensures KeysHold(SHARED) && AllIdsUnique(SHARED) && SourceExists(SHARED, 7, 1) && OneTenant(SHARED, 7, 1)
  {
    assert SHARED.applications[0] in SHARED.applications && SHARED.authentications[0] in SHARED.authentications;
    assert SHARED.sources[0] in SHARED.sources && SHARED.sources[1] in SHARED.sources;
  }

  lemma SharedHasStray(db: Tables)
    requires db.appAuths == [AppAuth(5, 7, 20, 30)] && db.applications == [Application(20, 7, 2)]
    requires db.authentications == [Authentication(30, 7, SourceType, 1)]
    ensures !NoStray(db, 7, 1)
  {
    var x, t := db.appAuths[0], db.authentications[0];
    assert x in db.appAuths && t in db.authentications && Orphaned(db, 7, 1, t);
    assert t in Filter(db.authentications, IsOrphaned(db, 7, 1));
    assert Names(db, IsOrphaned(db, 7, 1))(x) && !HangsBelow(db.applications, 1)(x);
  }

  lemma HealthyRunExists(job: Job, db: Tables) returns (schedule: seq<Tick>)
    ensures Healthy(job, db, schedule)
  {
    schedule := HealthyRunsComplete(job, db, []);
  }

  /** The case is real: all keys hold, source 1 is of one tenant, and its deletion runs to the end. */
  lemma StrayExists() returns (schedule: seq<Tick>)
    ensures KeysHold(SHARED) && AllIdsUnique(SHARED) && SourceExists(SHARED, 7, 1) && OneTenant(SHARED, 7, 1)
    ensures Healthy(JobForSource(7, 1, SourceReturned(SHARED, 7, 1)), AfterSource(SHARED, 7, 1), schedule)
    ensures !NoStray(SHARED, 7, 1)
  {
    SharedIsSound();
    SharedHasStray(SHARED);
    schedule := HealthyRunExists(JobForSource(7, 1, SourceReturned(SHARED, 7, 1)), AfterSource(SHARED, 7, 1));
  }
}
