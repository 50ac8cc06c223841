/** service/subresource_destroyer.go: after the transaction two goroutines hand over through a mutex that
    starts locked.  One raises the events of the deleted rows and collects their authentications, the
    other then deletes those and raises their events. */
module CascadeEvents {
  import opened Collections
  import opened CascadeTables

  datatype Event =
    | AppAuthDestroyed(id: int)
    | ApplicationDestroyed(id: int)
    | EndpointDestroyed(id: int)
    | ConnectionDestroyed(id: int)
    | SourceDestroyed(id: int)
    | AuthenticationDestroyed(id: int)

  /** One call of `ListIdsForResource`. */
  datatype Fetch = Fetch(resourceType: ResourceType, resourceIds: seq<int>)

  /** What the first goroutine has to do: events to attempt in order, then authentications to list. */
  datatype Job = Job(tenant: int, plan: seq<Event>, fetches: seq<Fetch>)

  datatype Raiser =
    | Raising(n: nat)
    | Fetching(n: nat)
    | Unlocking
    | RaiserDone
    | NeverStarted                 // the resource type matches no case of the switch

  datatype Deleter = Waiting | Deleting | Announcing(n: nat) | Releasing | DeleterDone

  datatype State = State(
    raiser: Raiser,
    deleter: Deleter,
    locked: bool,
    collected: seq<Authentication>,     // the slice both closures share
    failedFetches: set<nat>,
    db: Tables,
    deleted: seq<Authentication>,       // what BulkDelete returned
    trace: seq<Event>,                  // the events attempted, in order
    fault: bool)                        // an unlock of an unlocked mutex

  datatype Who = TheRaiser | TheDeleter
  datatype Tick = Tick(who: Who, fails: bool)

  function Init(known: bool, db: Tables): State {
    State(if known then Raising(0) else NeverStarted, Waiting, true, [], {}, db, [], [], false)
  }

  predicate Enabled(s: State, who: Who) {
    && !s.fault
    && match who
       case TheRaiser => !s.raiser.RaiserDone? && !s.raiser.NeverStarted?
       case TheDeleter => if s.deleter.Waiting? then !s.locked else !s.deleter.DeleterDone?
  }

  function Listed(job: Job, f: Fetch): Authentication -> bool {
    (t: Authentication) => t.resourceType == f.resourceType && t.resourceId in f.resourceIds && t.tenantId == job.tenant
  }

  function Doomed(job: Job, collected: seq<Authentication>): Authentication -> bool {
    (t: Authentication) => t.tenantId == job.tenant && exists c :: c in collected && c.id == t.id
  }

  function Announce(t: Authentication): Event {
    AuthenticationDestroyed(t.id)
  }

  /** A failed fetch is logged and contributes nothing. */
  function MoveRaiser(job: Job, s: State, fails: bool): State {
    match s.raiser
    case Raising(n) =>
      if n < |job.plan| then s.(raiser := Raising(n + 1), trace := s.trace + [job.plan[n]])
      else s.(raiser := Fetching(0))
    case Fetching(n) =>
      if n >= |job.fetches| then s.(raiser := Unlocking)
      else if fails then s.(raiser := Fetching(n + 1), failedFetches := s.failedFetches + {n})
      else s.(raiser := Fetching(n + 1),
              collected := s.collected + Filter(s.db.authentications, Listed(job, job.fetches[n])))
    case Unlocking => if s.locked then s.(raiser := RaiserDone, locked := false) else s.(fault := true)
    case _ => s
  }

  /** A failed BulkDelete is logged and deletes nothing; one that succeeds takes app-authentications along. */
  function MoveDeleter(job: Job, s: State, fails: bool): State {
    match s.deleter
    case Waiting => s.(deleter := Deleting, locked := true)
    case Deleting =>
      if fails then s.(deleter := Announcing(0))
      else s.(deleter := Announcing(0), deleted := Filter(s.db.authentications, Doomed(job, s.collected)),
              db := DeleteAuthentications(s.db, Doomed(job, s.collected)))
    case Announcing(n) =>
      if n < |s.deleted| then s.(deleter := Announcing(n + 1), trace := s.trace + [Announce(s.deleted[n])])
      else s.(deleter := Releasing)
    case Releasing => if s.locked then s.(deleter := DeleterDone, locked := false) else s.(fault := true)
    case DeleterDone => s
  }

  function Step(job: Job, s: State, tick: Tick): State {
    match tick.who
    case TheRaiser => MoveRaiser(job, s, tick.fails)
    case TheDeleter => MoveDeleter(job, s, tick.fails)
  }

  function Run(job: Job, s: State, schedule: seq<Tick>): State {
    if schedule == [] then s
    else Step(job, Run(job, s, schedule[..|schedule| - 1]), schedule[|schedule| - 1])
  }

  predicate Legal(job: Job, s: State, schedule: seq<Tick>) {
    schedule == [] ||
    var front := schedule[..|schedule| - 1];
    Legal(job, s, front) && Enabled(Run(job, s, front), schedule[|schedule| - 1].who)
  }

  predicate BothDone(s: State) {
    !s.fault && s.raiser.RaiserDone? && s.deleter.DeleterDone?
  }

  // ---- the invariant ----

  /** What the first `n` fetches contribute. */
  function Collected(job: Job, table: seq<Authentication>, failed: set<nat>, n: nat): seq<Authentication>
    requires n <= |job.fetches|
  {
    if n == 0 then []
    else Collected(job, table, failed, n - 1)
         + (if n - 1 in failed then [] else Filter(table, Listed(job, job.fetches[n - 1])))
  }

  predicate Untouched(s: State, db: Tables) {
    s.db == db && s.deleted == []
  }

  predicate HasDeleted(job: Job, s: State, db: Tables) {
    DeletedAre(db, Doomed(job, s.collected), s.deleted, s.db)
  }

  predicate DeletedAre(db: Tables, gone: Authentication -> bool, deleted: seq<Authentication>, after: Tables) {
    match after
    case Tables(_, _, _, _, _, _, _) =>
      deleted == Filter(db.authentications, gone) && after == DeleteAuthentications(db, gone)
  }

  ghost predicate Inv(job: Job, db: Tables, s: State) {
    && !s.fault
    && (forall i :: i in s.failedFetches ==>
          s.raiser.RaiserDone? || s.raiser.Unlocking? || (s.raiser.Fetching? && i < s.raiser.n))
    && (!s.raiser.RaiserDone? ==> s.deleter.Waiting? && s.locked && Untouched(s, db))
    && match s.raiser
       case NeverStarted => s.trace == []
       case Raising(n) => n <= |job.plan| && s.trace == job.plan[..n] && s.collected == []
       case Fetching(n) =>
         && n <= |job.fetches| && s.trace == job.plan
         && s.collected == Collected(job, db.authentications, s.failedFetches, n)
       case Unlocking =>
         s.trace == job.plan && s.collected == Collected(job, db.authentications, s.failedFetches, |job.fetches|)
       case RaiserDone =>
         && s.collected == Collected(job, db.authentications, s.failedFetches, |job.fetches|)
         && (s.locked <==> !s.deleter.Waiting? && !s.deleter.DeleterDone?)
         && (Untouched(s, db) || HasDeleted(job, s, db))
         && match s.deleter
            case Waiting => s.trace == job.plan && Untouched(s, db)
            case Deleting => s.trace == job.plan && Untouched(s, db)
            case Announcing(n) => n <= |s.deleted| && s.trace == job.plan + Map(s.deleted[..n], Announce)
            case _ => s.trace == job.plan + Map(s.deleted, Announce)
  }

  lemma {:induction false} CollectedIgnoresLater(job: Job, table: seq<Authentication>, failed: set<nat>, n: nat, m: nat)
    requires n <= m < |job.fetches|
    ensures Collected(job, table, failed + {m}, n) == Collected(job, table, failed, n)
  {
    if n > 0 {
      CollectedIgnoresLater(job, table, failed, n - 1, m);
    }
  }

  lemma RaisingKeepsInv(job: Job, db: Tables, s: State, fails: bool)
    requires Inv(job, db, s) && Enabled(s, TheRaiser) && s.raiser.Raising?
    ensures Inv(job, db, MoveRaiser(job, s, fails))
  {
    var n := s.raiser.n;
    if n < |job.plan| {
      assert job.plan[..n + 1] == job.plan[..n] + [job.plan[n]];
    } else {
      assert job.plan[..n] == job.plan;
    }
  }

  lemma CollectedNext(job: Job, table: seq<Authentication>, failed: set<nat>, n: nat)
    requires n < |job.fetches| && n !in failed
    ensures Collected(job, table, failed + {n}, n + 1) == Collected(job, table, failed, n)
    ensures Collected(job, table, failed, n + 1)
            == Collected(job, table, failed, n) + Filter(table, Listed(job, job.fetches[n]))
  {
    CollectedIgnoresLater(job, table, failed, n, n);
  }

  lemma FetchingKeepsInv(job: Job, db: Tables, s: State, fails: bool)
    requires Inv(job, db, s) && Enabled(s, TheRaiser) && s.raiser.Fetching?
    ensures Inv(job, db, MoveRaiser(job, s, fails))
  {
    var n := s.raiser.n;
    if n < |job.fetches| {
      assert n !in s.failedFetches;
      CollectedNext(job, db.authentications, s.failedFetches, n);
    }
  }

  lemma RaiserKeepsInv(job: Job, db: Tables, s: State, fails: bool)
    requires Inv(job, db, s) && Enabled(s, TheRaiser)
    ensures Inv(job, db, MoveRaiser(job, s, fails))
  {
    match s.raiser
    case Raising(n) => RaisingKeepsInv(job, db, s, fails);
    case Fetching(n) => FetchingKeepsInv(job, db, s, fails);
    case _ =>
  }

  lemma DeletingKeepsInv(job: Job, db: Tables, s: State, fails: bool)
    requires Inv(job, db, s) && Enabled(s, TheDeleter) && s.deleter.Deleting?
    ensures Inv(job, db, MoveDeleter(job, s, fails))
  {
    var next := MoveDeleter(job, s, fails);
    assert job.plan + Map(next.deleted[..0], Announce) == job.plan;
  }

  lemma OneMoreAnnounced(plan: seq<Event>, deleted: seq<Authentication>, n: nat)
    requires n <= |deleted|
    ensures n < |deleted| ==>
      plan + Map(deleted[..n], Announce) + [Announce(deleted[n])] == plan + Map(deleted[..n + 1], Announce)
    ensures n == |deleted| ==> deleted[..n] == deleted
  {
    if n < |deleted| {
      assert Map(deleted[..n + 1], Announce) == Map(deleted[..n], Announce) + [Announce(deleted[n])];
    }
  }

  lemma AnnouncingKeepsInv(job: Job, db: Tables, s: State, fails: bool)
    requires Inv(job, db, s) && Enabled(s, TheDeleter) && s.deleter.Announcing?
    ensures Inv(job, db, MoveDeleter(job, s, fails))
  {
    OneMoreAnnounced(job.plan, s.deleted, s.deleter.n);
  }

  lemma DeleterKeepsInv(job: Job, db: Tables, s: State, fails: bool)
    requires Inv(job, db, s) && Enabled(s, TheDeleter)
    ensures Inv(job, db, MoveDeleter(job, s, fails))
  {
    match s.deleter
    case Deleting => DeletingKeepsInv(job, db, s, fails);
    case Announcing(n) => AnnouncingKeepsInv(job, db, s, fails);
    case _ =>
  }

  /** Whatever the interleaving: the events come in the planned order, the deleter only ever acts on the
      complete list, and neither unlock faults: who is about to unlock holds the lock. */
  lemma {:induction false} EveryInterleavingIsOrdered(job: Job, known: bool, db: Tables,
                                                      schedule: seq<Tick>)
    requires Legal(job, Init(known, db), schedule)
    ensures Inv(job, db, Run(job, Init(known, db), schedule))
    ensures var s := Run(job, Init(known, db), schedule);
            s.raiser.Unlocking? || s.deleter.Releasing? ==> s.locked
    ensures !known ==> schedule == []
  {
    if schedule != [] {
      var front, tick := schedule[..|schedule| - 1], schedule[|schedule| - 1];
      EveryInterleavingIsOrdered(job, known, db, front);
      var before := Run(job, Init(known, db), front);
      match tick.who
      case TheRaiser => RaiserKeepsInv(job, db, before, tick.fails);
      case TheDeleter => DeleterKeepsInv(job, db, before, tick.fails);
    }
  }

  // ---- termination ----

  function Work(job: Job, s: State): int {
    (match s.raiser
     case Raising(n) => |job.plan| - n + |job.fetches| + 3
     case Fetching(n) => |job.fetches| - n + 2
     case Unlocking => 1
     case _ => 0)
    + |s.db.authentications| +
    (match s.deleter
     case Waiting => 4
     case Deleting => 3
     case Announcing(n) => |s.deleted| - n + 2
     case Releasing => 1
     case DeleterDone => 0)
  }

  lemma {:induction false} FilterPartition<T>(xs: seq<T>, p: T -> bool, q: T -> bool)
    requires forall x :: x in xs ==> q(x) == !p(x)
    ensures |Filter(xs, p)| + |Filter(xs, q)| == |xs|
  {
    if xs != [] {
      FilterPartition(xs[..|xs| - 1], p, q);
    }
  }

  lemma StepWorks(job: Job, db: Tables, s: State, tick: Tick)
    requires Inv(job, db, s) && Enabled(s, tick.who)
    ensures 0 <= Work(job, Step(job, s, tick)) < Work(job, s)
  {
    match tick.who
    case TheRaiser => RaiserWorks(job, db, s, tick.fails);
    case TheDeleter =>
      if s.deleter.Deleting? {
        FilterPartition(s.db.authentications, Doomed(job, s.collected), Other(Doomed(job, s.collected)));
      }
      assert s.raiser.RaiserDone?;
  }

  lemma RaiserWorks(job: Job, db: Tables, s: State, fails: bool)
    requires Inv(job, db, s) && Enabled(s, TheRaiser)
    ensures 0 <= Work(job, MoveRaiser(job, s, fails)) < Work(job, s)
  {
  }

  /** The hand-over cannot get stuck: until both goroutines are done one of them can move. */
  lemma SomebodyMoves(job: Job, db: Tables, s: State)
    requires Inv(job, db, s) && !s.raiser.NeverStarted? && !BothDone(s)
    ensures Enabled(s, TheRaiser) || Enabled(s, TheDeleter)
  {
  }

  lemma {:induction false} EveryRunEnds(job: Job, known: bool, db: Tables, schedule: seq<Tick>)
    requires Legal(job, Init(known, db), schedule)
    ensures |schedule| + Work(job, Run(job, Init(known, db), schedule)) 
            <= |job.plan| + |job.fetches| + |db.authentications| + 7
    ensures 0 <= Work(job, Run(job, Init(known, db), schedule))
  {
    if schedule != [] {
      var front := schedule[..|schedule| - 1];
      EveryRunEnds(job, known, db, front);
      EveryInterleavingIsOrdered(job, known, db, front);
      StepWorks(job, db, Run(job, Init(known, db), front), schedule[|schedule| - 1]);
    }
  }

  // ---- runs without failures ----

  predicate NothingFails(schedule: seq<Tick>) {
    forall tick :: tick in schedule ==> !tick.fails
  }

  /** When no query fails, nothing is missing from the list and its rows are deleted. */
  lemma {:induction false} HealthyRunDeletes(job: Job, db: Tables, schedule: seq<Tick>)
    requires Legal(job, Init(true, db), schedule) && NothingFails(schedule)
    ensures var s := Run(job, Init(true, db), schedule);
            && s.failedFetches == {}
            && (s.deleter.Announcing? || s.deleter.Releasing? || s.deleter.DeleterDone? ==> HasDeleted(job, s, db))
  {
    if schedule != [] {
      var front, tick := schedule[..|schedule| - 1], schedule[|schedule| - 1];
      HealthyRunDeletes(job, db, front);
      EveryInterleavingIsOrdered(job, true, db, front);
      assert tick in schedule;
    }
  }

  lemma RunSnoc(job: Job, s: State, schedule: seq<Tick>, tick: Tick)
    requires Legal(job, s, schedule) && Enabled(Run(job, s, schedule), tick.who)
    ensures Legal(job, s, schedule + [tick])
    ensures Run(job, s, schedule + [tick]) == Step(job, Run(job, s, schedule), tick)
  {
    assert (schedule + [tick])[..|schedule|] == schedule;
  }

  /** Every run that met no failure so far can be completed without one. */
  lemma {:induction false} HealthyRunsComplete(job: Job, db: Tables, schedule: seq<Tick>) returns (longer: seq<Tick>)
    requires Legal(job, Init(true, db), schedule) && NothingFails(schedule)
    ensures Legal(job, Init(true, db), longer) && NothingFails(longer)
    ensures schedule <= longer && BothDone(Run(job, Init(true, db), longer))
    decreases Work(job, Run(job, Init(true, db), schedule))
  {
    var s := Run(job, Init(true, db), schedule);
    EveryInterleavingIsOrdered(job, true, db, schedule);
    KnownStarts(job, db, schedule);
    if BothDone(s) {
      longer := schedule;
    } else {
      SomebodyMoves(job, db, s);
      var tick := Tick(if Enabled(s, TheRaiser) then TheRaiser else TheDeleter, false);
      RunSnoc(job, Init(true, db), schedule, tick);
      StepWorks(job, db, s, tick);
      longer := HealthyRunsComplete(job, db, schedule + [tick]);
    }
  }

  lemma {:induction false} KnownStarts(job: Job, db: Tables, schedule: seq<Tick>)
    requires Legal(job, Init(true, db), schedule)
    ensures !Run(job, Init(true, db), schedule).raiser.NeverStarted?
  {
    if schedule != [] {
      KnownStarts(job, db, schedule[..|schedule| - 1]);
    }
  }

  // ---- what is collected ----

  /** One of the first `n` fetches lists the authentication. */
  ghost predicate SomeFetchLists(job: Job, n: nat, t: Authentication)
    requires n <= |job.fetches|
  {
    exists i :: 0 <= i < n && Listed(job, job.fetches[i])(t)
  }

  lemma {:induction false} CollectedIff(job: Job, table: seq<Authentication>, n: nat, t: Authentication)
    requires n <= |job.fetches|
    ensures t in Collected(job, table, {}, n) <==> t in table && SomeFetchLists(job, n, t)
  {
    if n > 0 {
      CollectedIff(job, table, n - 1, t);
      assert SomeFetchLists(job, n, t) <==> SomeFetchLists(job, n - 1, t) || Listed(job, job.fetches[n - 1])(t) by {
        if Listed(job, job.fetches[n - 1])(t) {
          assert SomeFetchLists(job, n, t);
        }
      }
    }
  }
}
