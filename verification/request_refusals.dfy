/** Which subresource resolvers of a GraphQL request are refused, told from the queries that failed. */
module RequestRefusals {
  import opened Collections
  import opened RequestProtocol

  /** The query of the `sources` root returns an error. */
  predicate ListingFails(s: State, tick: Tick) {
    && tick.fails && tick.thread < |s.threads|
    && s.threads[tick.thread].role.SourcesRoot? && s.threads[tick.thread].pc.Listing?
  }

  /** Resolver `i` is the one to load its kind, and the load returns an error. */
  predicate LoadFails(i: nat, s: State, tick: Tick) {
    tick.fails && tick.thread == i && i < |s.threads| && IsLoading(s.shared, s.threads[i])
  }

  predicate IsLoading(x: Shared, t: Thread) {
    t.role.Sub? && t.pc.Inside? && t.role.kind !in x.indexes
  }

  /** Some tick of the schedule, taken in the state before it, is of this kind. */
  predicate Happened(env: Env, roles: seq<Role>, schedule: seq<Tick>, what: (State, Tick) -> bool) {
    schedule != [] &&
    var front := schedule[..|schedule| - 1];
    Happened(env, roles, front, what) || what(Run(env, Init(roles), front), schedule[|schedule| - 1])
  }

  function SourcesQuery(): (State, Tick) -> bool {
    (s: State, tick: Tick) => ListingFails(s, tick)
  }

  function LoadOf(i: nat): (State, Tick) -> bool {
    (s: State, tick: Tick) => LoadFails(i, s, tick)
  }

  // ---- what the shared data and the threads tell about the failures so far ----

  /** The list that the `sources` root stores. */
  function Stored(env: Env, listFailed: bool): seq<int> {
    if listFailed then [] else env.listing
  }

  ghost predicate SharedTells(env: Env, x: Shared, listFailed: bool) {
    && (x.sourceIds.Some? ==> x.sourceIds.value == Stored(env, listFailed))
    && (forall k :: k in x.indexes ==> x.sourceIds.Some? && x.sourceIds.value != [])
  }

  predicate RootTells(env: Env, x: Shared, t: Thread, listFailed: bool) {
    t.role.SourcesRoot? ==>
      match t.pc
      case Listing => x.sourceIds.None? && !listFailed
      case Sending(ids, _) => x.sourceIds.None? && ids == Stored(env, listFailed)
      case Storing(ids) => x.sourceIds.None? && ids == Stored(env, listFailed)
      case _ => true
  }

  predicate SubTells(x: Shared, t: Thread, loadFailed: bool) {
    t.role.Sub? ==>
      match t.pc
      case OpenGate(ok) => if ok then !loadFailed else loadFailed || x.sourceIds == Some([])
      case OpenKind(ok) => if ok then !loadFailed else loadFailed || x.sourceIds == Some([])
      case Finished(o) => if o.LoadFailed? then loadFailed || x.sourceIds == Some([]) else !loadFailed
      case _ => !loadFailed
  }

  lemma ActTells(env: Env, roles: seq<Role>, x: Shared, t: Thread, fails: bool, listFailed: bool)
    requires ThreadOk(env, x, roles, t) && SharedTells(env, x, listFailed) && RootTells(env, x, t, listFailed)
    requires Act(env, x, t, fails).Moved?
    ensures var Moved(y, pc) := Act(env, x, t, fails);
            var now := listFailed || (fails && t.role.SourcesRoot? && t.pc.Listing?);
            SharedTells(env, y, now) && RootTells(env, y, t.(pc := pc), now)
  {
  }

  lemma ActTellsSub(env: Env, roles: seq<Role>, x: Shared, t: Thread, fails: bool, loadFailed: bool)
    requires ThreadOk(env, x, roles, t) && SubTells(x, t, loadFailed) && Act(env, x, t, fails).Moved?
    ensures var Moved(y, pc) := Act(env, x, t, fails);
            SubTells(y, t.(pc := pc), loadFailed || (fails && IsLoading(x, t)))
  {
  }

  lemma ActTellsOthers(env: Env, roles: seq<Role>, x: Shared, t: Thread, fails: bool, listFailed: bool, u: Thread,
                       loadFailed: bool)
    requires ThreadOk(env, x, roles, t) && RootTells(env, x, t, listFailed) && Act(env, x, t, fails).Moved?
    ensures var y := Act(env, x, t, fails).shared;
            && (SubTells(x, u, loadFailed) && ThreadOk(env, x, roles, u) ==> SubTells(y, u, loadFailed))
            && (!t.role.SourcesRoot? && RootTells(env, x, u, listFailed) ==> RootTells(env, y, u, listFailed))
  {
  }

  ghost predicate RootsTell(env: Env, s: State, listFailed: bool) {
    && SharedTells(env, s.shared, listFailed)
    && forall j :: 0 <= j < |s.threads| ==> RootTells(env, s.shared, s.threads[j], listFailed)
  }

  lemma OneRoot(s: State, roles: seq<Role>, i: nat, j: nat)
    requires Roles(s) == roles && Count(roles, IsSources) <= 1
    requires i < |s.threads| && j < |s.threads| && s.threads[i].role.SourcesRoot? && s.threads[j].role.SourcesRoot?
    ensures i == j
  {
    assert IsSources(roles[i]) && IsSources(roles[j]);
    if i < j {
      CountTwo(roles, IsSources, i, j);
    } else if j < i {
      CountTwo(roles, IsSources, j, i);
    }
  }

  lemma StepTells(env: Env, s: State, roles: seq<Role>, tick: Tick, listFailed: bool)
    requires Inv(env, s, roles) && Count(roles, IsSources) <= 1 && RootsTell(env, s, listFailed)
    requires Enabled(s, tick.thread) && !Step(env, s, tick.thread, tick.fails).fault
    ensures RootsTell(env, Step(env, s, tick.thread, tick.fails), listFailed || ListingFails(s, tick))
  {
    var next, i := Step(env, s, tick.thread, tick.fails), tick.thread;
    ActTells(env, roles, s.shared, s.threads[i], tick.fails, listFailed);
    forall j | 0 <= j < |s.threads| && j != i
      ensures RootTells(env, next.shared, next.threads[j], listFailed || ListingFails(s, tick))
    {
      ActTellsOthers(env, roles, s.shared, s.threads[i], tick.fails, listFailed, s.threads[j], false);
      if s.threads[i].role.SourcesRoot? && s.threads[j].role.SourcesRoot? {
        OneRoot(s, roles, i, j);
      }
    }
  }

  lemma StepTellsSub(env: Env, s: State, roles: seq<Role>, tick: Tick, listFailed: bool, i: nat, loadFailed: bool)
    requires Inv(env, s, roles) && RootsTell(env, s, listFailed)
    requires Enabled(s, tick.thread) && !Step(env, s, tick.thread, tick.fails).fault
    requires i < |s.threads| && SubTells(s.shared, s.threads[i], loadFailed)
    ensures var next := Step(env, s, tick.thread, tick.fails);
            SubTells(next.shared, next.threads[i], loadFailed || LoadFails(i, s, tick))
  {
    var t := s.threads[tick.thread];
    assert ThreadOk(env, s.shared, roles, s.threads[i]);
    if tick.thread == i {
      ActTellsSub(env, roles, s.shared, t, tick.fails, loadFailed);
    } else {
      ActTellsOthers(env, roles, s.shared, t, tick.fails, listFailed, s.threads[i], loadFailed);
    }
  }

  lemma {:induction false} RunTells(env: Env, roles: seq<Role>, schedule: seq<Tick>, i: nat)
    requires Legal(env, Init(roles), schedule) && Count(roles, IsSources) <= 1 && i < |roles|
    ensures var s := Run(env, Init(roles), schedule);
            && |s.threads| == |roles|
            && RootsTell(env, s, Happened(env, roles, schedule, SourcesQuery()))
            && SubTells(s.shared, s.threads[i], Happened(env, roles, schedule, LoadOf(i)))
  {
    if schedule == [] {
      assert forall j :: 0 <= j < |roles| ==> Init(roles).threads[j] == StartOf(roles[j]);
    } else {
      var front, tick := schedule[..|schedule| - 1], schedule[|schedule| - 1];
      RunTells(env, roles, front, i);
      NoRunFaults(env, roles, front);
      RunKeepsInv(env, roles, front);
      NoRunFaults(env, roles, schedule);
      var before := Run(env, Init(roles), front);
      StepTells(env, before, roles, tick, Happened(env, roles, front, SourcesQuery()));
      StepTellsSub(env, before, roles, tick, Happened(env, roles, front, SourcesQuery()), i,
                   Happened(env, roles, front, LoadOf(i)));
    }
  }

  /** Over every interleaving of a request with one `sources` root: a subresource resolver that finished was
      refused if and only if that root listed nothing, or its query failed, or the resolver's own load did.
      A failure of another resolver's load never refuses it. */
  lemma RefusedIff(env: Env, roles: seq<Role>, schedule: seq<Tick>, i: nat)
    requires Legal(env, Init(roles), schedule) && Count(roles, IsSources) <= 1
    requires var threads := Run(env, Init(roles), schedule).threads;
             i < |threads| && threads[i].role.Sub? && threads[i].pc.Finished?
    ensures Run(env, Init(roles), schedule).threads[i].pc.outcome.LoadFailed?
            <==> || env.listing == []
                 || Happened(env, roles, schedule, SourcesQuery())
                 || Happened(env, roles, schedule, LoadOf(i))
  {
    var s := Run(env, Init(roles), schedule);
    NoRunFaults(env, roles, schedule);
    RunKeepsInv(env, roles, schedule);
    assert |s.threads| == |Roles(s)| == |roles|;
    RunTells(env, roles, schedule, i);
    assert ThreadOk(env, s.shared, roles, s.threads[i]);
  }
}
