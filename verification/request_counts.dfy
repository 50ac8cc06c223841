/** The counts that a GraphQL request's root resolvers produce and its `meta` resolvers return. */
module RequestCounts {
  import opened Collections
  import opened RequestProtocol
  import opened RequestRefusals

  /** The query of root resolver `j` returns an error. */
  function RootFails(j: nat): (State, Tick) -> bool {
    (s: State, tick: Tick) => tick.fails && tick.thread == j && j < |s.threads| && s.threads[j].pc.Listing?
  }

  /** What a root resolver counts: the total of its table, or nothing when its query failed. */
  function CountOf(env: Env, role: Role, failed: bool): int {
    match role
    case SourcesRoot => if failed then 0 else env.sourceTotal
    case TypesRoot => if failed then 0 else env.typeTotal
    case _ => 0
  }

  /** What a thread has given to the channel, and what it has taken from it. */
  function Given(env: Env, t: Thread, failed: bool): Option<int> {
    if Sent(t) then Some(CountOf(env, t.role, failed)) else None
  }

  function Taken(t: Thread): Option<int> {
    if Received(t) && t.pc.outcome.Counted? then Some(t.pc.outcome.count) else None
  }

  function Is(count: int): Option<int> -> bool {
    (x: Option<int>) => x == Some(count)
  }

  function AllGiven(env: Env, s: State, failed: seq<bool>): seq<Option<int>>
    requires |failed| == |s.threads|
  {
    seq(|s.threads|, i requires 0 <= i < |s.threads| => Given(env, s.threads[i], failed[i]))
  }

  function AllTaken(s: State): seq<Option<int>> {
    Map(s.threads, Taken)
  }

  /** Every count that was given has been taken once, or is in the channel. */
  ghost predicate CountsBalance(env: Env, s: State, failed: seq<bool>)
    requires |failed| == |s.threads|
  {
    forall count :: Balances(env, s, failed, count)
  }

  predicate Balances(env: Env, s: State, failed: seq<bool>, count: int)
    requires |failed| == |s.threads|
  {
    Count(AllGiven(env, s, failed), Is(count)) == Count(AllTaken(s), Is(count)) + Bit(s.shared.slot == Some(count))
  }

  /** What a thread at its query or its send knows of its count. */
  predicate Knows(env: Env, t: Thread, failed: bool) {
    t.role.SourcesRoot? || t.role.TypesRoot? ==>
      match t.pc
      case Listing => !failed
      case Sending(_, count) => count == CountOf(env, t.role, failed)
      case _ => true
  }

  ghost predicate CountInv(env: Env, s: State, failed: seq<bool>) {
    && |failed| == |s.threads|
    && (forall i :: 0 <= i < |s.threads| ==> Knows(env, s.threads[i], failed[i]))
    && CountsBalance(env, s, failed)
  }

  predicate Failing(t: Thread, fails: bool) {
    fails && t.pc.Listing?
  }

  lemma ActKnows(env: Env, x: Shared, roles: seq<Role>, t: Thread, fails: bool, failed: bool)
    requires ThreadOk(env, x, roles, t) && Knows(env, t, failed) && Act(env, x, t, fails).Moved?
    ensures Knows(env, t.(pc := Act(env, x, t, fails).pc), failed || Failing(t, fails))
  {
  }

  /** One step gives or takes exactly what it puts into the channel or finds there. */
  lemma ActBalances(env: Env, x: Shared, roles: seq<Role>, t: Thread, fails: bool, failed: bool, count: int)
    requires ThreadOk(env, x, roles, t) && Knows(env, t, failed) && CanMove(x, t) && Act(env, x, t, fails).Moved?
    ensures var Moved(y, pc) := Act(env, x, t, fails);
            var u := t.(pc := pc);
            Bit(Given(env, u, failed || Failing(t, fails)) == Some(count)) - Bit(Given(env, t, failed) == Some(count))
            == Bit(Taken(u) == Some(count)) - Bit(Taken(t) == Some(count))
               + Bit(y.slot == Some(count)) - Bit(x.slot == Some(count))
  {
  }

  /** The failures after a tick. */
  function Later(s: State, tick: Tick, failed: seq<bool>): seq<bool>
    requires |failed| == |s.threads| && tick.thread < |s.threads|
  {
    failed[tick.thread := failed[tick.thread] || Failing(s.threads[tick.thread], tick.fails)]
  }

  lemma GivenAfter(env: Env, s: State, tick: Tick, failed: seq<bool>, count: int)
    requires |failed| == |s.threads| && Enabled(s, tick.thread) && !Step(env, s, tick.thread, tick.fails).fault
    ensures var i, next, later := tick.thread, Step(env, s, tick.thread, tick.fails), Later(s, tick, failed);
            Count(AllGiven(env, next, later), Is(count))
            == Count(AllGiven(env, s, failed), Is(count)) - Bit(Given(env, s.threads[i], failed[i]) == Some(count))
               + Bit(Given(env, next.threads[i], later[i]) == Some(count))
  {
    var i, next, later := tick.thread, Step(env, s, tick.thread, tick.fails), Later(s, tick, failed);
    assert AllGiven(env, next, later) == AllGiven(env, s, failed)[i := Given(env, next.threads[i], later[i])];
    CountUpdate(AllGiven(env, s, failed), i, Given(env, next.threads[i], later[i]), Is(count));
  }

  lemma TakenAfter(env: Env, s: State, tick: Tick, count: int)
    requires Enabled(s, tick.thread) && !Step(env, s, tick.thread, tick.fails).fault
    ensures var i, next := tick.thread, Step(env, s, tick.thread, tick.fails);
            Count(AllTaken(next), Is(count))
            == Count(AllTaken(s), Is(count)) - Bit(Taken(s.threads[i]) == Some(count))
               + Bit(Taken(next.threads[i]) == Some(count))
  {
    var i, next := tick.thread, Step(env, s, tick.thread, tick.fails);
    assert AllTaken(next) == AllTaken(s)[i := Taken(next.threads[i])];
    CountUpdate(AllTaken(s), i, Taken(next.threads[i]), Is(count));
  }

  lemma StepBalances(env: Env, s: State, roles: seq<Role>, tick: Tick, failed: seq<bool>, count: int)
    requires Inv(env, s, roles) && |failed| == |s.threads| && Balances(env, s, failed, count)
    requires Enabled(s, tick.thread) && !Step(env, s, tick.thread, tick.fails).fault
    requires Knows(env, s.threads[tick.thread], failed[tick.thread])
    ensures Balances(env, Step(env, s, tick.thread, tick.fails), Later(s, tick, failed), count)
  {
    var i := tick.thread;
    ActBalances(env, s.shared, roles, s.threads[i], tick.fails, failed[i], count);
    GivenAfter(env, s, tick, failed, count);
    TakenAfter(env, s, tick, count);
  }

  lemma StepKeepsCounts(env: Env, s: State, roles: seq<Role>, tick: Tick, failed: seq<bool>)
    requires Inv(env, s, roles) && CountInv(env, s, failed)
    requires Enabled(s, tick.thread) && !Step(env, s, tick.thread, tick.fails).fault
    ensures CountInv(env, Step(env, s, tick.thread, tick.fails), Later(s, tick, failed))
  {
    var i, next, later := tick.thread, Step(env, s, tick.thread, tick.fails), Later(s, tick, failed);
    ActKnows(env, s.shared, roles, s.threads[i], tick.fails, failed[i]);
    forall count ensures Balances(env, next, later, count) {
      assert Balances(env, s, failed, count);
      StepBalances(env, s, roles, tick, failed, count);
    }
  }

  /** Which root queries failed along the schedule. */
  function Failures(env: Env, roles: seq<Role>, schedule: seq<Tick>): seq<bool> {
    seq(|roles|, j requires 0 <= j < |roles| => Happened(env, roles, schedule, RootFails(j)))
  }

  lemma InitCounts(env: Env, roles: seq<Role>)
    ensures CountInv(env, Init(roles), Failures(env, roles, []))
  {
    var s, failed := Init(roles), Failures(env, roles, []);
    forall count ensures Balances(env, s, failed, count) {
      CountNone(AllGiven(env, s, failed), Is(count));
      CountNone(AllTaken(s), Is(count));
    }
  }

  /** Over every schedule that has not faulted, each count is the total of its root, or 0 if that root's
      query failed, and is taken by at most one `meta` resolver. */
  lemma {:induction false} RunKeepsCounts(env: Env, roles: seq<Role>, schedule: seq<Tick>)
    requires Legal(env, Init(roles), schedule) && !Run(env, Init(roles), schedule).fault
    ensures CountInv(env, Run(env, Init(roles), schedule), Failures(env, roles, schedule))
  {
    if schedule == [] {
      InitCounts(env, roles);
    } else {
      var front, tick := schedule[..|schedule| - 1], schedule[|schedule| - 1];
      var before := Run(env, Init(roles), front);
      RunKeepsCounts(env, roles, front);
      RunKeepsInv(env, roles, front);
      var failed := Failures(env, roles, front);
      StepKeepsCounts(env, before, roles, tick, failed);
      assert Failures(env, roles, schedule) == Later(before, tick, failed);
    }
  }

  /** A finished `meta` returns the count of a root resolver of the request: that root's total, or 0 if its own
      query failed. */
  lemma MetaAnswers(env: Env, roles: seq<Role>, schedule: seq<Tick>, i: nat)
    requires Legal(env, Init(roles), schedule) && !Run(env, Init(roles), schedule).fault
    requires var threads := Run(env, Init(roles), schedule).threads;
             i < |threads| && threads[i].role.MetaRoot? && threads[i].pc.Finished?
    ensures exists j :: 0 <= j < |roles| && (roles[j].SourcesRoot? || roles[j].TypesRoot?)
                        && Run(env, Init(roles), schedule).threads[i].pc.outcome
                           == Counted(if Happened(env, roles, schedule, RootFails(j)) then 0
                                      else if roles[j].SourcesRoot? then env.sourceTotal else env.typeTotal)
  {
    var s, failed := Run(env, Init(roles), schedule), Failures(env, roles, schedule);
    RunKeepsInv(env, roles, schedule);
    RunKeepsCounts(env, roles, schedule);
    assert ThreadOk(env, s.shared, roles, s.threads[i]);
    var count := s.threads[i].pc.outcome.count;
    assert Balances(env, s, failed, count);
    assert AllTaken(s)[i] == Some(count);
    CountMember(AllTaken(s), i, Is(count));
    var j := CountWitness(AllGiven(env, s, failed), Is(count));
    assert Given(env, s.threads[j], failed[j]) == Some(count);
    assert s.threads[j].role == Roles(s)[j] == roles[j];
  }

  /** So with one `sources` root, no `application_types` root and no failing query, `meta` returns the total of
      the sources. */
  lemma MetaCountsSources(env: Env, roles: seq<Role>, schedule: seq<Tick>, i: nat)
    requires Legal(env, Init(roles), schedule) && !Run(env, Init(roles), schedule).fault
    requires TypesRoot !in roles && forall tick :: tick in schedule ==> !tick.fails
    requires var threads := Run(env, Init(roles), schedule).threads;
             i < |threads| && threads[i].role.MetaRoot? && threads[i].pc.Finished?
    ensures Run(env, Init(roles), schedule).threads[i].pc.outcome == Counted(env.sourceTotal)
  {
    MetaAnswers(env, roles, schedule, i);
    forall j | 0 <= j < |roles| ensures !Happened(env, roles, schedule, RootFails(j)) && roles[j] in roles {
      NothingHappened(env, roles, schedule, j);
    }
  }

  lemma {:induction false} NothingHappened(env: Env, roles: seq<Role>, schedule: seq<Tick>, j: nat)
    requires forall tick :: tick in schedule ==> !tick.fails
    ensures !Happened(env, roles, schedule, RootFails(j))
  {
    if schedule != [] {
      NothingHappened(env, roles, schedule[..|schedule| - 1], j);
      assert schedule[|schedule| - 1] in schedule;
    }
  }

  /** No count is returned twice: what the `meta` resolvers returned, with what the channel holds, is what the
      roots that finished their send have counted. */
  lemma CountsAreConserved(env: Env, roles: seq<Role>, schedule: seq<Tick>, count: int)
    requires Legal(env, Init(roles), schedule) && !Run(env, Init(roles), schedule).fault
    ensures var s := Run(env, Init(roles), schedule);
            && |s.threads| == |roles|
            && Count(AllGiven(env, s, Failures(env, roles, schedule)), Is(count))
               == Count(AllTaken(s), Is(count)) + Bit(s.shared.slot == Some(count))
  {
    RunKeepsCounts(env, roles, schedule);
    assert Balances(env, Run(env, Init(roles), schedule), Failures(env, roles, schedule), count);
  }
}
