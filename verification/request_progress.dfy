/** Which GraphQL requests complete: deadlock freedom, termination, and what the resolvers answer. */
module RequestProgress {
  import opened Collections
  import opened RequestIndex
  import opened RequestProtocol

  predicate IsSender(r: Role) { r.SourcesRoot? || r.TypesRoot? }

  /** The requests that can complete: at most one `sources` root, exactly one if anything waits on it,
      and a count channel on which everything sent is received, up to the one slot it has. */
  predicate Balanced(roles: seq<Role>) {
    && Count(roles, IsSources) <= 1
    && (Count(roles, IsSub) > 0 ==> Count(roles, IsSources) == 1)
    && Count(roles, IsMeta) <= Count(roles, IsSender) <= Count(roles, IsMeta) + 1
  }

  // ---- termination ----

  function Rank(pc: Pc): nat {
    match pc
    case Fast => 8
    case WantKind => 7
    case WantGate => 6
    case Inside => 5
    case OpenGate(_) => 4
    case OpenKind(_) => 3
    case ReadMap => 2
    case Listing => 4
    case Sending(_, _) => 3
    case Storing(_) => 2
    case Opening => 1
    case Receiving => 1
    case Finished(_) => 0
  }

  function Work(threads: seq<Thread>): nat {
    if threads == [] then 0
    else Work(threads[..|threads| - 1]) + Rank(threads[|threads| - 1].pc)
  }

  lemma {:induction false} WorkUpdate(threads: seq<Thread>, i: nat, t: Thread)
    requires i < |threads|
    ensures Work(threads[i := t]) == Work(threads) - Rank(threads[i].pc) + Rank(t.pc)
  {
    var n := |threads| - 1;
    if i == n {
      assert threads[i := t][..n] == threads[..n];
    } else {
      assert threads[i := t][..n] == threads[..n][i := t];
      WorkUpdate(threads[..n], i, t);
    }
  }

  lemma {:induction false} WorkBound(threads: seq<Thread>)
    ensures Work(threads) <= 8 * |threads|
  {
    if threads != [] {
      WorkBound(threads[..|threads| - 1]);
    }
  }

  lemma StepWorks(env: Env, s: State, i: nat, fails: bool)
    requires Enabled(s, i) && !Step(env, s, i, fails).fault
    ensures Work(Step(env, s, i, fails).threads) < Work(s.threads)
  {
    WorkUpdate(s.threads, i, Step(env, s, i, fails).threads[i]);
  }

  /** No request runs forever, whatever its resolvers and however they interleave: no legal schedule is
      longer than eight steps a resolver, plus the one that faults. */
  lemma {:induction false} EveryRunIsShort(env: Env, roles: seq<Role>, schedule: seq<Tick>)
    requires Legal(env, Init(roles), schedule)
    ensures var end := Run(env, Init(roles), schedule);
            |schedule| + (if end.fault then 0 else Work(end.threads)) <= 8 * |roles| + Bit(end.fault)
  {
    if schedule == [] {
      WorkBound(Init(roles).threads);
    } else {
      var front, tick := schedule[..|schedule| - 1], schedule[|schedule| - 1];
      EveryRunIsShort(env, roles, front);
      var before := Run(env, Init(roles), front);
      if !Step(env, before, tick.thread, tick.fails).fault {
        StepWorks(env, before, tick.thread, tick.fails);
      }
    }
  }

  // ---- deadlock freedom ----

  lemma SentIsSender(s: State)
    ensures Count(s.threads, Sent) <= Count(Roles(s), IsSender)
    ensures (forall t :: t in s.threads && IsSender(t.role) ==> Sent(t)) ==>
              Count(s.threads, Sent) == Count(Roles(s), IsSender)
    ensures (exists t :: t in s.threads && IsSender(t.role) && !Sent(t)) ==>
              Count(s.threads, Sent) < Count(Roles(s), IsSender)
  {
    CountOfRoles(s.threads, IsSender);
    forall t | t in s.threads && Sent(t) ensures ByRole(IsSender)(t) {
      assert IsSender(t.role);
    }
    CountImplied(s.threads, Sent, ByRole(IsSender));
    if forall t :: t in s.threads && IsSender(t.role) ==> Sent(t) {
      CountImplied(s.threads, ByRole(IsSender), Sent);
    } else {
      var i :| 0 <= i < |s.threads| && IsSender(s.threads[i].role) && !Sent(s.threads[i]);
      CountStrict(s.threads, Sent, ByRole(IsSender), i);
    }
  }

  lemma ReceivedIsMeta(s: State)
    ensures Count(s.threads, Received) <= Count(Roles(s), IsMeta)
    ensures (forall t :: t in s.threads && IsMeta(t.role) ==> Received(t)) ==>
              Count(s.threads, Received) == Count(Roles(s), IsMeta)
    ensures (exists t :: t in s.threads && IsMeta(t.role) && !Received(t)) ==>
              Count(s.threads, Received) < Count(Roles(s), IsMeta)
  {
    CountOfRoles(s.threads, IsMeta);
    forall t | t in s.threads && Received(t) ensures ByRole(IsMeta)(t) {
      assert IsMeta(t.role);
    }
    CountImplied(s.threads, Received, ByRole(IsMeta));
    if forall t :: t in s.threads && IsMeta(t.role) ==> Received(t) {
      CountImplied(s.threads, ByRole(IsMeta), Received);
    } else {
      var i :| 0 <= i < |s.threads| && IsMeta(s.threads[i].role) && !Received(s.threads[i]);
      CountStrict(s.threads, Received, ByRole(IsMeta), i);
    }
  }

  /** A root resolver that still has a count to send can send it, or its count is about to be received. */
  lemma SendersMove(env: Env, s: State, roles: seq<Role>, sender: nat) returns (i: nat)
    requires Inv(env, s, roles) && !s.fault && Balanced(roles)
    requires sender < |s.threads| && IsSender(s.threads[sender].role) && !s.threads[sender].pc.Finished?
    ensures Enabled(s, i)
  {
    assert ThreadOk(env, s.shared, roles, s.threads[sender]);
    if s.threads[sender].pc.Sending? && s.shared.slot.Some? {
      SentIsSender(s);
      ReceivedIsMeta(s);
      assert s.threads[sender] in s.threads;
      i :| 0 <= i < |s.threads| && IsMeta(s.threads[i].role) && !Received(s.threads[i]);
      assert ThreadOk(env, s.shared, roles, s.threads[i]);
    } else {
      i := sender;
    }
  }

  /** Once the gate is open, the subresource resolvers never block each other for good: kind mutexes are
      always taken before the gate. */
  lemma SubsMove(env: Env, s: State, roles: seq<Role>, sub: nat) returns (i: nat)
    requires Inv(env, s, roles) && !s.fault && Balanced(roles)
    requires forall j :: 0 <= j < |s.threads| && IsSources(s.threads[j].role) ==> s.threads[j].pc.Finished?
    requires sub < |s.threads| && IsSub(s.threads[sub].role) && !s.threads[sub].pc.Finished?
    ensures Enabled(s, i)
  {
    assert roles[sub] == s.threads[sub].role;
    CountMember(roles, sub, IsSub);
    CountOfRoles(s.threads, IsSources);
    forall t | t in s.threads && ByRole(IsSources)(t) ensures OpenedGate(t) {
      var j :| 0 <= j < |s.threads| && s.threads[j] == t;
      assert IsSources(s.threads[j].role);
    }
    CountImplied(s.threads, ByRole(IsSources), OpenedGate);
    OpenersAreSources(s);
    var t := s.threads[sub];
    assert ThreadOk(env, s.shared, roles, t);
    if s.shared.gateLocked {
      i := CountWitness(s.threads, HoldsGate);
    } else if t.pc.WantKind? && t.role.kind in s.shared.kindLocked {
      assert KindBalances(s, t.role.kind);
      i := CountWitness(s.threads, HoldsKind(t.role.kind));
    } else {
      i := sub;
    }
  }

  /** No deadlock: a balanced request that is not finished can always take a step. */
  lemma Progress(env: Env, s: State, roles: seq<Role>) returns (i: nat)
    requires Inv(env, s, roles) && !s.fault && Balanced(roles)
    requires !AllDone(s)
    ensures Enabled(s, i)
  {
    if sender :| 0 <= sender < |s.threads| && IsSender(s.threads[sender].role) && !s.threads[sender].pc.Finished? {
      i := SendersMove(env, s, roles, sender);
    } else if meta :| 0 <= meta < |s.threads| && IsMeta(s.threads[meta].role) && !s.threads[meta].pc.Finished? {
      SentIsSender(s);
      ReceivedIsMeta(s);
      assert s.threads[meta] in s.threads;
      assert ThreadOk(env, s.shared, roles, s.threads[meta]);
      i := meta;
    } else {
      var sub :| 0 <= sub < |s.threads| && !s.threads[sub].pc.Finished?;
      i := SubsMove(env, s, roles, sub);
    }
  }

  /** Every run of a balanced request, cut anywhere, can be driven to completion. */
  lemma {:induction false} RunsComplete(env: Env, roles: seq<Role>, schedule: seq<Tick>) returns (full: seq<Tick>)
    requires Balanced(roles) && Legal(env, Init(roles), schedule)
    ensures schedule <= full && Legal(env, Init(roles), full) && AllDone(Run(env, Init(roles), full))
    decreases Work(Run(env, Init(roles), schedule).threads)
  {
    var s := Run(env, Init(roles), schedule);
    NoRunFaults(env, roles, schedule);
    RunKeepsInv(env, roles, schedule);
    if AllDone(s) {
      full := schedule;
    } else {
      var i := Progress(env, s, roles);
      var longer := schedule + [Tick(i, false)];
      assert longer[..|longer| - 1] == schedule;
      NoRunFaults(env, roles, longer);
      StepWorks(env, s, i, false);
      full := RunsComplete(env, roles, longer);
    }
  }

  /** A run in which every resolver returned shows that the request was balanced: counting the unlocks of
      the gate and the traffic on the channel leaves no other way. */
  lemma CompletionNeedsBalance(env: Env, roles: seq<Role>, schedule: seq<Tick>)
    requires Legal(env, Init(roles), schedule) && AllDone(Run(env, Init(roles), schedule))
    ensures Balanced(roles)
  {
    var s := Run(env, Init(roles), schedule);
    RunKeepsInv(env, roles, schedule);
    DoneOpensOnce(env, s, roles);
    DoneDrainsChannel(env, s, roles);
    if Count(roles, IsSub) > 0 {
      var sub := CountWitness(roles, IsSub);
      assert s.threads[sub].role == roles[sub];
      assert ThreadOk(env, s.shared, roles, s.threads[sub]);
      var root :| 0 <= root < |roles| && roles[root] == SourcesRoot;
      CountMember(roles, root, IsSources);
    }
  }

  lemma DoneOpensOnce(env: Env, s: State, roles: seq<Role>)
    requires Inv(env, s, roles) && AllDone(s)
    ensures Count(roles, IsSources) <= 1
  {
    CountNone(s.threads, HoldsGate);
    CountOfRoles(s.threads, IsSources);
    forall t | t in s.threads && ByRole(IsSources)(t) ensures OpenedGate(t) {
      var i :| 0 <= i < |s.threads| && s.threads[i] == t;
      assert IsSources(t.role) && s.threads[i].pc.Finished?;
    }
    CountImplied(s.threads, ByRole(IsSources), OpenedGate);
  }

  lemma DoneDrainsChannel(env: Env, s: State, roles: seq<Role>)
    requires Inv(env, s, roles) && AllDone(s)
    ensures Count(roles, IsMeta) <= Count(roles, IsSender) <= Count(roles, IsMeta) + 1
  {
    SentIsSender(s);
    ReceivedIsMeta(s);
  }

  ghost predicate Completes(env: Env, roles: seq<Role>, schedule: seq<Tick>) {
    Legal(env, Init(roles), schedule) && AllDone(Run(env, Init(roles), schedule))
  }

  /** The loader's contract with its callers, exactly: a request can complete if and only if it is
      balanced.  No `sources` root leaves the gate shut, two of them unlock it twice, and an
      unmatched count blocks its sender or its receiver. */
  lemma CompletesIffBalanced(env: Env, roles: seq<Role>)
    ensures (exists schedule :: Completes(env, roles, schedule)) <==> Balanced(roles)
  {
    if Balanced(roles) {
      var schedule := RunsComplete(env, roles, []);
      assert Completes(env, roles, schedule);
    }
    if schedule :| Completes(env, roles, schedule) {
      CompletionNeedsBalance(env, roles, schedule);
    }
  }

  // ---- what the resolvers get ----

  function EnvOf(listing: seq<int>, sourceTotal: int, typeTotal: int, tables: Kind -> seq<Row>): Env {
    Env(listing, sourceTotal, typeTotal, (kind: Kind, ids: seq<int>) => LoadedIndex(kind, tables(kind), ids))
  }

  lemma ServedAlike(env: Env, s: State, roles: seq<Role>, i: nat, j: nat)
    requires Inv(env, s, roles) && i < |s.threads| && j < |s.threads|
    requires s.threads[i].role.Sub? && s.threads[i].pc.Finished? && s.threads[i].pc.outcome.Served?
    requires s.threads[j].role.Sub? && s.threads[j].pc.Finished? && s.threads[j].pc.outcome.Served?
    requires s.threads[i].role.kind == s.threads[j].role.kind
    ensures s.threads[i].pc.outcome == s.threads[j].pc.outcome && s.shared.loads[s.threads[i].role.kind] == 1
  {
    assert ThreadOk(env, s.shared, roles, s.threads[i]);
    assert ThreadOk(env, s.shared, roles, s.threads[j]);
  }

  /** Load once: whatever the interleaving, each kind is loaded successfully at most once, and all
      resolvers that were served got the map of that load. */
  lemma LoadedOnce(env: Env, roles: seq<Role>, schedule: seq<Tick>, i: nat, j: nat)
    requires Legal(env, Init(roles), schedule) && !Run(env, Init(roles), schedule).fault
    requires var threads := Run(env, Init(roles), schedule).threads;
             && i < |threads| && j < |threads|
             && threads[i].pc.Finished? && threads[i].pc.outcome.Served?
             && threads[j].pc.Finished? && threads[j].pc.outcome.Served?
             && threads[i].role.Sub? && threads[j].role.Sub? && threads[i].role.kind == threads[j].role.kind
    ensures var s := Run(env, Init(roles), schedule);
            && s.threads[i].pc.outcome == s.threads[j].pc.outcome
            && s.shared.loads[s.threads[i].role.kind] == 1
            && forall k :: s.shared.loads[k] <= 1
  {
    RunKeepsInv(env, roles, schedule);
    ServedAlike(env, Run(env, Init(roles), schedule), roles, i, j);
  }

  /** What a resolver read is the map of the one list that was stored. */
  lemma ServedFromListing(env: Env, s: State, roles: seq<Role>, i: nat)
    requires Inv(env, s, roles) && i < |s.threads|
    requires s.threads[i].role.Sub? && s.threads[i].pc.Finished? && s.threads[i].pc.outcome.Served?
    ensures s.threads[i].pc.outcome.index == env.load(s.threads[i].role.kind, env.listing)
  {
    assert ThreadOk(env, s.shared, roles, s.threads[i]);
  }

  /** End to end: over every interleaving, a resolver that was served reads exactly what its own query
      would have returned, if and only if the batch covers its question. */
  lemma ServedAnswersAreExact(listing: seq<int>, sourceTotal: int, typeTotal: int, tables: Kind -> seq<Row>,
                              roles: seq<Role>, schedule: seq<Tick>, i: nat)
    requires var env := EnvOf(listing, sourceTotal, typeTotal, tables);
             Legal(env, Init(roles), schedule) && !Run(env, Init(roles), schedule).fault
    requires var threads := Run(EnvOf(listing, sourceTotal, typeTotal, tables), Init(roles), schedule).threads;
             && i < |threads| && threads[i].role.Sub? && Fits(threads[i].role.kind, threads[i].role.ask)
             && threads[i].pc.Finished? && threads[i].pc.outcome.Served?
    ensures var t := Run(EnvOf(listing, sourceTotal, typeTotal, tables), Init(roles), schedule).threads[i];
            Lookup(t.pc.outcome.index, t.role.ask) == SeparateQuery(tables(t.role.kind), t.role.ask)
            <==> Covers(tables(t.role.kind), listing, t.role.ask)
  {
    var env := EnvOf(listing, sourceTotal, typeTotal, tables);
    var s := Run(env, Init(roles), schedule);
    RunKeepsInv(env, roles, schedule);
    ServedFromListing(env, s, roles, i);
    var t := s.threads[i];
    BatchAnswersIff(t.role.kind, tables(t.role.kind), listing, t.role.ask);
  }

  predicate HealthyThread(env: Env, t: Thread) {
    && (t.pc.OpenGate? || t.pc.OpenKind? ==> t.pc.ok)
    && (t.role.SourcesRoot? && (t.pc.Sending? || t.pc.Storing?) ==> t.pc.ids == env.listing)
    && (t.pc.Finished? ==> t.pc.outcome != LoadFailed)
  }

  ghost predicate Healthy(env: Env, s: State) {
    && (s.shared.sourceIds.Some? ==> s.shared.sourceIds.value == env.listing)
    && forall i :: 0 <= i < |s.threads| ==> HealthyThread(env, s.threads[i])
  }

  lemma ActStaysHealthy(env: Env, roles: seq<Role>, x: Shared, t: Thread)
    requires env.listing != []
    requires ThreadOk(env, x, roles, t) && HealthyThread(env, t)
    requires x.sourceIds.Some? ==> x.sourceIds.value == env.listing
    requires Act(env, x, t, false).Moved?
    ensures var Moved(y, pc) := Act(env, x, t, false);
            && (y.sourceIds.Some? ==> y.sourceIds.value == env.listing)
            && HealthyThread(env, t.(pc := pc))
  {
  }

  lemma {:induction false} RunStaysHealthy(env: Env, roles: seq<Role>, schedule: seq<Tick>)
    requires env.listing != [] && Count(roles, IsSources) <= 1
    requires Legal(env, Init(roles), schedule)
    requires forall tick :: tick in schedule ==> !tick.fails
    ensures Healthy(env, Run(env, Init(roles), schedule))
  {
    if schedule == [] {
      assert forall i :: 0 <= i < |roles| ==> Init(roles).threads[i] == StartOf(roles[i]);
    } else {
      var front, tick := schedule[..|schedule| - 1], schedule[|schedule| - 1];
      RunStaysHealthy(env, roles, front);
      NoRunFaults(env, roles, front);
      RunKeepsInv(env, roles, front);
      NoRunFaults(env, roles, schedule);
      var before := Run(env, Init(roles), front);
      assert tick in schedule;
      ActStaysHealthy(env, roles, before.shared, before.threads[tick.thread]);
    }
  }

  /** If no query fails and the request lists a source, nobody is refused: every subresource resolver
      that finished was served. */
  lemma NobodyIsRefused(env: Env, roles: seq<Role>, schedule: seq<Tick>)
    requires env.listing != [] && Count(roles, IsSources) <= 1
    requires Legal(env, Init(roles), schedule)
    requires forall tick :: tick in schedule ==> !tick.fails
    ensures forall t :: t in Run(env, Init(roles), schedule).threads && t.role.Sub? && t.pc.Finished? ==>
                          t.pc.outcome.Served?
  {
    var s := Run(env, Init(roles), schedule);
    RunStaysHealthy(env, roles, schedule);
    NoRunFaults(env, roles, schedule);
    RunKeepsInv(env, roles, schedule);
    forall i | 0 <= i < |s.threads| && s.threads[i].role.Sub? && s.threads[i].pc.Finished?
      ensures s.threads[i].pc.outcome.Served?
    {
      assert ThreadOk(env, s.shared, roles, s.threads[i]);
      assert HealthyThread(env, s.threads[i]);
    }
  }
}
