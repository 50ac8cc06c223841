/** graph/types.go, graph/schema.resolvers.go and graphql_handlers.go: the resolver goroutines of one
    GraphQL request as a step relation.  Every shared access (a lock, an unlock, a channel operation, a
    read or write of a shared pointer, one query) is one step, and steps interleave freely. */
module RequestProtocol {
  import opened Collections
  import opened RequestIndex

  datatype Role =
    | SourcesRoot                      // the `sources` root resolver
    | TypesRoot                        // the `application_types` root resolver
    | MetaRoot                         // the `meta` root resolver
    | Sub(kind: Kind, ask: Ask)        // a subresource resolver

  datatype Outcome = Served(index: Index) | LoadFailed | Counted(count: int) | Listed

  datatype Pc =
    | Fast                                    // about to read the map pointer without a lock
    | WantKind                                // at the kind mutex
    | WantGate                                // holds the kind mutex, at SourceMutex
    | Inside                                  // holds both, about to check again and load
    | OpenGate(ok: bool)                      // deferred unlocks run in reverse order: SourceMutex first
    | OpenKind(ok: bool)
    | ReadMap                                 // about to read the map without a lock
    | Listing                                 // a root resolver, at its own query
    | Sending(ids: seq<int>, count: int)      // at the send into the count channel
    | Storing(ids: seq<int>)                  // at `rd.sourceIdList = &ids`
    | Opening                                 // at the unlock that opens the gate
    | Receiving                               // `meta`, at the receive
    | Finished(outcome: Outcome)

  datatype Thread = Thread(role: Role, pc: Pc)

  /** The database for the length of the request: what the source query lists, the two totals, and the
      map that loading a kind for some source ids builds. */
  datatype Env = Env(listing: seq<int>, sourceTotal: int, typeTotal: int, load: (Kind, seq<int>) -> Index)

  /** What the goroutines of the request share. */
  datatype Shared = Shared(
    kindLocked: set<Kind>,                   // the kind mutexes that are locked
    gateLocked: bool,                        // SourceMutex; a Go mutex has no owner
    sourceIds: Option<seq<int>>,
    indexes: map<Kind, Index>,               // the maps that have been set
    loads: multiset<Kind>,                   // the successful loads so far
    slot: Option<int>)                       // the one-slot count channel

  datatype State = State(threads: seq<Thread>, shared: Shared, fault: bool)

  function StartOf(role: Role): Thread {
    Thread(role, match role
                 case Sub(_, _) => Fast
                 case MetaRoot => Receiving
                 case _ => Listing)
  }

  /** `GraphQLQuery`: the gate starts locked and nothing is loaded. */
  function Init(roles: seq<Role>): State {
    State(Map(roles, StartOf), Shared({}, true, None, map[], multiset{}, None), false)
  }

  predicate CanMove(x: Shared, t: Thread) {
    match t.pc
    case WantKind => t.role.Sub? && t.role.kind !in x.kindLocked
    case WantGate => !x.gateLocked
    case Sending(_, _) => x.slot.None?
    case Receiving => x.slot.Some?
    case Finished(_) => false
    case _ => true
  }

  predicate Enabled(s: State, i: nat) {
    !s.fault && i < |s.threads| && CanMove(s.shared, s.threads[i])
  }

  /** What one step does: it moves its thread and the shared data, or it faults on a nil dereference or
      on the unlock of an unlocked mutex. */
  datatype Effect = Moved(shared: Shared, pc: Pc) | Faulted

  /** One step of a thread; `fails` says that a query issued by this step returns an error. */
  function Act(env: Env, x: Shared, t: Thread, fails: bool): Effect {
    match t.role
    case SourcesRoot => ActSources(env, x, t.pc, fails)
    case TypesRoot => ActTypes(env, x, t.pc, fails)
    case MetaRoot =>
      if t.pc.Receiving? && x.slot.Some? then Moved(x.(slot := None), Finished(Counted(x.slot.value))) else Faulted
    case Sub(kind, _) => ActSub(env, x, t.pc, kind, fails)
  }

  /** `queryResolver.Sources`: a failed query still sends a count and opens the gate on an empty list. */
  function ActSources(env: Env, x: Shared, pc: Pc, fails: bool): Effect {
    match pc
    case Listing => Moved(x, if fails then Sending([], 0) else Sending(env.listing, env.sourceTotal))
    case Sending(ids, count) => Moved(x.(slot := Some(count)), Storing(ids))
    case Storing(ids) => Moved(x.(sourceIds := Some(ids)), Opening)
    case Opening => if x.gateLocked then Moved(x.(gateLocked := false), Finished(Listed)) else Faulted
    case _ => Faulted
  }

  function ActTypes(env: Env, x: Shared, pc: Pc, fails: bool): Effect {
    match pc
    case Listing => Moved(x, Sending([], if fails then 0 else env.typeTotal))
    case Sending(_, count) => Moved(x.(slot := Some(count)), Finished(Listed))
    case _ => Faulted
  }

  /** `Ensure…AreLoaded` followed by the lookup.  An empty id list is rejected by the filter compiler
      ("bad filter, no value"), so that load always fails. */
  function ActSub(env: Env, x: Shared, pc: Pc, kind: Kind, fails: bool): Effect {
    match pc
    case Fast => Moved(x, if kind in x.indexes then ReadMap else WantKind)
    case WantKind => Moved(x.(kindLocked := x.kindLocked + {kind}), WantGate)
    case WantGate => Moved(x.(gateLocked := true), Inside)
    case Inside =>
      if kind in x.indexes then Moved(x, OpenGate(true))
      else if x.sourceIds.None? then Faulted
      else if fails || x.sourceIds.value == [] then Moved(x, OpenGate(false))
      else Moved(x.(indexes := x.indexes[kind := env.load(kind, x.sourceIds.value)],
                    loads := x.loads + multiset{kind}),
                 OpenGate(true))
    case OpenGate(ok) => if x.gateLocked then Moved(x.(gateLocked := false), OpenKind(ok)) else Faulted
    case OpenKind(ok) =>
      if kind in x.kindLocked
      then Moved(x.(kindLocked := x.kindLocked - {kind}), if ok then ReadMap else Finished(LoadFailed))
      else Faulted
    case ReadMap => if kind in x.indexes then Moved(x, Finished(Served(x.indexes[kind]))) else Faulted
    case _ => Faulted
  }

  function Step(env: Env, s: State, i: nat, fails: bool): (next: State)
    requires Enabled(s, i)
    ensures |next.threads| == |s.threads|
  {
    match Act(env, s.shared, s.threads[i], fails)
    case Faulted => s.(fault := true)
    case Moved(shared, pc) => State(s.threads[i := s.threads[i].(pc := pc)], shared, false)
  }

  // ---- runs ----

  datatype Tick = Tick(thread: nat, fails: bool)

  function Run(env: Env, s: State, schedule: seq<Tick>): State {
    if schedule == [] then s
    else
      var before := Run(env, s, schedule[..|schedule| - 1]);
      var tick := schedule[|schedule| - 1];
      if Enabled(before, tick.thread) then Step(env, before, tick.thread, tick.fails) else before
  }

  /** Every tick of the schedule was possible when it was taken. */
  predicate Legal(env: Env, s: State, schedule: seq<Tick>) {
    schedule == [] ||
    var front := schedule[..|schedule| - 1];
    Legal(env, s, front) && Enabled(Run(env, s, front), schedule[|schedule| - 1].thread)
  }

  predicate AllDone(s: State) {
    !s.fault && forall i :: 0 <= i < |s.threads| ==> s.threads[i].pc.Finished?
  }

  // ---- what every step keeps ----

  predicate IsSources(r: Role) { r.SourcesRoot? }
  predicate IsMeta(r: Role) { r.MetaRoot? }
  predicate IsSub(r: Role) { r.Sub? }

  predicate HoldsGate(t: Thread) { t.role.Sub? && (t.pc.Inside? || t.pc.OpenGate?) }

  predicate OpenedGate(t: Thread) { t.role.SourcesRoot? && t.pc.Finished? }

  predicate InKind(kind: Kind, t: Thread) {
    t.role.Sub? && t.role.kind == kind && (t.pc.WantGate? || t.pc.Inside? || t.pc.OpenGate? || t.pc.OpenKind?)
  }

  function HoldsKind(kind: Kind): Thread -> bool {
    (t: Thread) => InKind(kind, t)
  }

  predicate Sent(t: Thread) {
    || (t.role.SourcesRoot? && (t.pc.Storing? || t.pc.Opening? || t.pc.Finished?))
    || (t.role.TypesRoot? && t.pc.Finished?)
  }

  predicate Received(t: Thread) { t.role.MetaRoot? && t.pc.Finished? }

  function Bit(b: bool): int { if b then 1 else 0 }

  function RoleOf(t: Thread): Role { t.role }

  function ByRole(p: Role -> bool): Thread -> bool {
    (t: Thread) => p(t.role)
  }

  function Roles(s: State): seq<Role> { Map(s.threads, RoleOf) }

  /** The gate starts locked: it is locked now iff it was taken as often as it was opened. */
  ghost predicate GateBalances(s: State) {
    Bit(s.shared.gateLocked) == 1 + Count(s.threads, HoldsGate) - Count(s.threads, OpenedGate)
  }

  ghost predicate KindBalances(s: State, k: Kind) {
    Bit(k in s.shared.kindLocked) == Count(s.threads, HoldsKind(k))
  }

  /** What is buffered in the channel was sent and not yet received. */
  ghost predicate SlotBalances(s: State) {
    Bit(s.shared.slot.Some?) == Count(s.threads, Sent) - Count(s.threads, Received)
  }

  ghost predicate Conserved(s: State) {
    GateBalances(s) && SlotBalances(s) && forall k :: KindBalances(s, k)
  }

  /** A root resolver of the request produced this count. */
  predicate CountFrom(env: Env, roles: seq<Role>, count: int) {
    || (SourcesRoot in roles && (count == 0 || count == env.sourceTotal))
    || (TypesRoot in roles && (count == 0 || count == env.typeTotal))
  }

  /** What a thread knows at each program counter. */
  predicate ThreadOk(env: Env, x: Shared, roles: seq<Role>, t: Thread) {
    match t.role
    case SourcesRoot =>
      (match t.pc
       case Listing => true
       case Sending(ids, count) => (ids == env.listing || ids == []) && (count == 0 || count == env.sourceTotal)
       case Storing(ids) => ids == env.listing || ids == []
       case Opening => x.sourceIds.Some?
       case Finished(o) => x.sourceIds.Some? && o == Listed
       case _ => false)
    case TypesRoot =>
      (match t.pc
       case Listing => true
       case Sending(_, count) => count == 0 || count == env.typeTotal
       case Finished(o) => o == Listed
       case _ => false)
    case MetaRoot =>
      t.pc.Receiving? || (t.pc.Finished? && t.pc.outcome.Counted? && CountFrom(env, roles, t.pc.outcome.count))
    case Sub(kind, _) =>
      (match t.pc
       case Fast => true
       case WantKind => true
       case WantGate => true
       case Inside => true
       case OpenGate(ok) => x.sourceIds.Some? && (ok ==> kind in x.indexes)
       case OpenKind(ok) => x.sourceIds.Some? && (ok ==> kind in x.indexes)
       case ReadMap => x.sourceIds.Some? && kind in x.indexes
       case Finished(o) =>
         x.sourceIds.Some? && (o == LoadFailed || (kind in x.indexes && o == Served(x.indexes[kind])))
       case _ => false)
  }

  /** Each map is loaded at most once, from the one non-empty list a `sources` resolver stored. */
  ghost predicate SharedOk(env: Env, x: Shared, roles: seq<Role>) {
    && (x.sourceIds.Some? ==> SourcesRoot in roles && (x.sourceIds.value == env.listing || x.sourceIds.value == []))
    && (forall k :: x.loads[k] == if k in x.indexes then 1 else 0)
    && (forall k :: k in x.indexes ==>
          x.sourceIds.Some? && env.listing != [] && x.indexes[k] == env.load(k, env.listing))
    && (x.slot.Some? ==> CountFrom(env, roles, x.slot.value))
  }

  ghost predicate Inv(env: Env, s: State, roles: seq<Role>) {
    && Roles(s) == roles
    && Conserved(s)
    && SharedOk(env, s.shared, roles)
    && (forall i :: 0 <= i < |s.threads| ==> ThreadOk(env, s.shared, roles, s.threads[i]))
  }

  lemma InitConserved(roles: seq<Role>)
    ensures Conserved(Init(roles))
  {
    var s := Init(roles);
    assert forall t :: t in s.threads ==> exists i :: 0 <= i < |roles| && t == StartOf(roles[i]);
    CountNone(s.threads, HoldsGate);
    CountNone(s.threads, OpenedGate);
    CountNone(s.threads, Sent);
    CountNone(s.threads, Received);
    forall k ensures KindBalances(s, k) {
      CountNone(s.threads, HoldsKind(k));
    }
  }

  lemma InitInv(env: Env, roles: seq<Role>)
    ensures Inv(env, Init(roles), roles)
  {
    var s := Init(roles);
    assert forall i :: 0 <= i < |roles| ==> s.threads[i] == StartOf(roles[i]);
    assert Roles(s) == roles;
    InitConserved(roles);
  }

  /** Each step moves a lock or the channel slot exactly when it moves its thread across the matching
      program points. */
  lemma ActMovesGate(env: Env, x: Shared, roles: seq<Role>, t: Thread, fails: bool)
    requires ThreadOk(env, x, roles, t) && CanMove(x, t) && Act(env, x, t, fails).Moved?
    ensures var Moved(y, pc) := Act(env, x, t, fails);
            var u := t.(pc := pc);
            Bit(y.gateLocked) - Bit(x.gateLocked)
            == Bit(HoldsGate(u)) - Bit(HoldsGate(t)) - Bit(OpenedGate(u)) + Bit(OpenedGate(t))
  {
  }

  lemma ActMovesKind(env: Env, x: Shared, t: Thread, fails: bool, k: Kind)
    requires CanMove(x, t) && Act(env, x, t, fails).Moved?
    ensures var Moved(y, pc) := Act(env, x, t, fails);
            Bit(k in y.kindLocked) - Bit(k in x.kindLocked) == Bit(InKind(k, t.(pc := pc))) - Bit(InKind(k, t))
  {
  }

  lemma ActMovesSlot(env: Env, x: Shared, t: Thread, fails: bool)
    requires CanMove(x, t) && Act(env, x, t, fails).Moved?
    ensures var Moved(y, pc) := Act(env, x, t, fails);
            var u := t.(pc := pc);
            Bit(y.slot.Some?) - Bit(x.slot.Some?) == Bit(Sent(u)) - Bit(Sent(t)) - Bit(Received(u)) + Bit(Received(t))
  {
  }

  lemma StepKeepsConserved(env: Env, s: State, roles: seq<Role>, i: nat, fails: bool)
    requires Enabled(s, i) && Conserved(s) && ThreadOk(env, s.shared, roles, s.threads[i])
    requires !Step(env, s, i, fails).fault
    ensures Conserved(Step(env, s, i, fails))
  {
    var next := Step(env, s, i, fails);
    var after := next.threads[i];
    ActMovesGate(env, s.shared, roles, s.threads[i], fails);
    ActMovesSlot(env, s.shared, s.threads[i], fails);
    CountUpdate(s.threads, i, after, HoldsGate);
    CountUpdate(s.threads, i, after, OpenedGate);
    CountUpdate(s.threads, i, after, Sent);
    CountUpdate(s.threads, i, after, Received);
    forall k ensures KindBalances(next, k) {
      assert KindBalances(s, k);
      ActMovesKind(env, s.shared, s.threads[i], fails, k);
      CountUpdate(s.threads, i, after, HoldsKind(k));
    }
  }

  /** Nothing a thread relies on is taken back: the id list stays set and a loaded map never changes. */
  ghost predicate Grows(x: Shared, y: Shared) {
    && (x.sourceIds.Some? ==> y.sourceIds.Some?)
    && (forall k :: k in x.indexes ==> k in y.indexes && y.indexes[k] == x.indexes[k])
  }

  lemma ActGrows(env: Env, x: Shared, t: Thread, fails: bool)
    requires Act(env, x, t, fails).Moved?
    ensures Grows(x, Act(env, x, t, fails).shared)
  {
  }

  lemma ThreadOkGrows(env: Env, x: Shared, y: Shared, roles: seq<Role>, t: Thread)
    requires Grows(x, y) && ThreadOk(env, x, roles, t)
    ensures ThreadOk(env, y, roles, t)
  {
  }

  lemma ActSubKeepsShared(env: Env, x: Shared, roles: seq<Role>, pc: Pc, kind: Kind, fails: bool)
    requires SharedOk(env, x, roles) && ActSub(env, x, pc, kind, fails).Moved?
    ensures SharedOk(env, ActSub(env, x, pc, kind, fails).shared, roles)
  {
  }

  lemma ActKeepsShared(env: Env, x: Shared, roles: seq<Role>, t: Thread, fails: bool)
    requires SharedOk(env, x, roles) && ThreadOk(env, x, roles, t) && t.role in roles && CanMove(x, t)
    requires HoldsGate(t) ==> x.sourceIds.Some?
    requires Act(env, x, t, fails).Moved?
    ensures SharedOk(env, Act(env, x, t, fails).shared, roles)
  {
    match t.role
    case SourcesRoot =>
    case TypesRoot =>
    case MetaRoot =>
    case Sub(kind, ask) => ActSubKeepsShared(env, x, roles, t.pc, kind, fails);
  }

  lemma ActKeepsThread(env: Env, x: Shared, roles: seq<Role>, t: Thread, fails: bool)
    requires SharedOk(env, x, roles) && ThreadOk(env, x, roles, t) && t.role in roles && CanMove(x, t)
    requires HoldsGate(t) ==> x.sourceIds.Some?
    requires Act(env, x, t, fails).Moved?
    ensures ThreadOk(env, Act(env, x, t, fails).shared, roles, t.(pc := Act(env, x, t, fails).pc))
  {
    match t.role
    case SourcesRoot =>
    case TypesRoot =>
    case MetaRoot =>
    case Sub(kind, ask) =>
  }

  /** Whoever holds the gate runs after the source ids were stored: the gate starts locked, so a holder
      needs an opener before it. */
  lemma GateImpliesIds(env: Env, s: State, roles: seq<Role>, i: nat)
    requires Inv(env, s, roles)
    requires i < |s.threads| && HoldsGate(s.threads[i])
    ensures s.shared.sourceIds.Some?
  {
    CountMember(s.threads, i, HoldsGate);
    var opener := CountWitness(s.threads, OpenedGate);
    assert ThreadOk(env, s.shared, roles, s.threads[opener]);
  }

  lemma StepKeepsInv(env: Env, s: State, roles: seq<Role>, i: nat, fails: bool)
    requires Inv(env, s, roles) && Enabled(s, i)
    requires !Step(env, s, i, fails).fault
    ensures Inv(env, Step(env, s, i, fails), roles)
  {
    var next := Step(env, s, i, fails);
    assert Roles(next) == Roles(s);
    assert roles[i] == s.threads[i].role;
    StepKeepsConserved(env, s, roles, i, fails);
    ActGrows(env, s.shared, s.threads[i], fails);
    if HoldsGate(s.threads[i]) {
      GateImpliesIds(env, s, roles, i);
    }
    ActKeepsShared(env, s.shared, roles, s.threads[i], fails);
    ActKeepsThread(env, s.shared, roles, s.threads[i], fails);
    forall j | 0 <= j < |s.threads| ensures ThreadOk(env, next.shared, roles, next.threads[j]) {
      if j != i {
        ThreadOkGrows(env, s.shared, next.shared, roles, s.threads[j]);
      }
    }
  }

  /** With at most one `sources` root no step faults: no nil pointer is followed and every unlock finds
      its mutex locked. */
  lemma StepDoesNotFault(env: Env, s: State, roles: seq<Role>, i: nat, fails: bool)
    requires Inv(env, s, roles) && Enabled(s, i)
    requires Count(roles, IsSources) <= 1
    ensures !Step(env, s, i, fails).fault
  {
    var t := s.threads[i];
    assert ThreadOk(env, s.shared, roles, t);
    if HoldsGate(t) {
      GateImpliesIds(env, s, roles, i);
      CountMember(s.threads, i, HoldsGate);
      OpenersAreSources(s);
    } else if t.pc.OpenKind? {
      CountMember(s.threads, i, HoldsKind(t.role.kind));
      assert KindBalances(s, t.role.kind);
    } else if t.pc.Opening? {
      OtherOpeners(s, i);
    }
  }

  lemma OpenersAreSources(s: State)
    ensures Count(s.threads, OpenedGate) <= Count(Roles(s), IsSources)
  {
    forall t | t in s.threads && OpenedGate(t) ensures ByRole(IsSources)(t) {
    }
    CountImplied(s.threads, OpenedGate, ByRole(IsSources));
    CountOfRoles(s.threads, IsSources);
  }

  /** A `sources` root that has not opened the gate yet is not among those that have. */
  lemma OtherOpeners(s: State, i: nat)
    requires i < |s.threads| && s.threads[i].role.SourcesRoot? && !s.threads[i].pc.Finished?
    ensures Count(s.threads, OpenedGate) < Count(Roles(s), IsSources)
  {
    var after := s.threads[i].(pc := Finished(Listed));
    CountUpdate(s.threads, i, after, OpenedGate);
    var later := s.(threads := s.threads[i := after]);
    OpenersAreSources(later);
    assert Roles(later) == Roles(s);
  }

  lemma {:induction false} CountOfRoles(threads: seq<Thread>, p: Role -> bool)
    ensures Count(threads, ByRole(p)) == Count(Map(threads, RoleOf), p)
  {
    if threads != [] {
      var front := threads[..|threads| - 1];
      assert Map(threads, RoleOf)[..|threads| - 1] == Map(front, RoleOf);
      CountOfRoles(front, p);
    }
  }

  /** The invariant holds after any schedule that has not faulted. */
  lemma {:induction false} RunKeepsInv(env: Env, roles: seq<Role>, schedule: seq<Tick>)
    requires Legal(env, Init(roles), schedule)
    requires !Run(env, Init(roles), schedule).fault
    ensures Inv(env, Run(env, Init(roles), schedule), roles)
  {
    if schedule == [] {
      InitInv(env, roles);
    } else {
      var front, tick := schedule[..|schedule| - 1], schedule[|schedule| - 1];
      RunKeepsInv(env, roles, front);
      StepKeepsInv(env, Run(env, Init(roles), front), roles, tick.thread, tick.fails);
    }
  }

  /** With at most one `sources` root, no schedule whatsoever reaches a fault. */
  lemma {:induction false} NoRunFaults(env: Env, roles: seq<Role>, schedule: seq<Tick>)
    requires Count(roles, IsSources) <= 1
    requires Legal(env, Init(roles), schedule)
    ensures !Run(env, Init(roles), schedule).fault
  {
    if schedule != [] {
      var front, tick := schedule[..|schedule| - 1], schedule[|schedule| - 1];
      NoRunFaults(env, roles, front);
      RunKeepsInv(env, roles, front);
      StepDoesNotFault(env, Run(env, Init(roles), front), roles, tick.thread, tick.fails);
    }
  }
}
