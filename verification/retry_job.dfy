/** jobs/retry_create.go: the scheduled job that resends the creation events of unavailable applications. */
module RetryJob {
  import opened Collections

  const RETRY_MAX := 5
  const AVAILABLE := "available"

  /** A NULL counter satisfies no comparison. */
  datatype App = App(id: nat, status: Option<string>, counter: Option<int>)

  predicate IsAvailable(a: App) {
    a.status == Some(AVAILABLE)
  }

  predicate BelowMax(a: App) {
    a.counter.Some? && a.counter.value < RETRY_MAX
  }

  /** `retry_counter + 1`. */
  function Incremented(a: App): App {
    if a.counter.Some? then a.(counter := Some(a.counter.value + 1)) else a
  }

  /** The first UPDATE: available applications are done with. */
  function Retired(a: App): App {
    if IsAvailable(a) && BelowMax(a) then a.(counter := Some(RETRY_MAX)) else a
  }

  /** The SELECT; `recent` says which applications were created within the age limit. */
  function Retryable(recent: nat -> bool): App -> bool {
    (a: App) => !IsAvailable(a) && recent(a.id) && BelowMax(a)
  }

  function IdOf(a: App): nat { a.id }

  /** The last UPDATE, `WHERE id IN …`. */
  function Bumped(ids: seq<nat>): App -> App {
    (a: App) => if a.id in ids then Incremented(a) else a
  }

  function Picked(apps: seq<App>, recent: nat -> bool): seq<nat> {
    Map(Filter(Map(apps, Retired), Retryable(recent)), IdOf)
  }

  function AfterTick(apps: seq<App>, recent: nat -> bool): seq<App> {
    Map(Map(apps, Retired), Bumped(Picked(apps, recent)))
  }

  /** Whether the transaction commits, and if not, whether the messages were already on their way. */
  datatype Outcome = Commits | FailsBeforeSending | FailsAfterSending

  method Resend(picked: seq<App>) returns (resent: seq<nat>)
    ensures resent == Map(picked, IdOf)
  {
    resent := [];
    for i := 0 to |picked|
      invariant |resent| == i && forall k :: 0 <= k < i ==> resent[k] == picked[k].id
    {
      resent := resent + [picked[i].id];
    }
  }

  class RetryTable {
    var apps: seq<App>

    /** `Run`: the resends start before the counters are incremented, and a rollback does not take them
        back. */
    method Run(recent: nat -> bool, outcome: Outcome) returns (resent: seq<nat>)
      modifies this
      ensures resent == if outcome.FailsBeforeSending? then [] else Picked(old(apps), recent)
      ensures apps == if outcome.Commits? then AfterTick(old(apps), recent) else old(apps)
      ensures var t, step := Table(old(apps), 0), Tick(recent, outcome);
              apps == Next(t, step).apps && forall id: nat :: id in resent <==> Resends(t, step, id)
    {
      var saved := apps;
      resent := [];
      apps := Map(apps, Retired);
      if outcome.FailsBeforeSending? {
        apps := saved;
      } else {
        var picked := Filter(apps, Retryable(recent));
        if picked == [] && outcome.Commits? {
          NothingToBump(apps);
        } else {
          resent := Resend(picked);
          apps := if outcome.Commits? then Map(apps, Bumped(resent)) else saved;
        }
      }
    }
  }

  lemma NothingToBump(apps: seq<App>)
    ensures Map(apps, Bumped([])) == apps
  {
  }

  // ---- one application ----

  ghost predicate Sane(apps: seq<App>, next: nat) {
    && (forall a :: a in apps ==> a.id < next && (a.counter.Some? ==> 0 <= a.counter.value <= RETRY_MAX))
    && (forall i, j :: 0 <= i < j < |apps| ==> apps[i].id != apps[j].id)
  }

  lemma PickedIff(apps: seq<App>, next: nat, recent: nat -> bool, a: App)
    requires Sane(apps, next) && a in apps
    ensures a.id in Picked(apps, recent) <==> Retryable(recent)(a)
  {
    var retired := Map(apps, Retired);
    var found := Filter(retired, Retryable(recent));
    var k :| 0 <= k < |apps| && apps[k] == a;
    assert retired[k] in retired;
    if a.id in Picked(apps, recent) {
      var i :| 0 <= i < |found| && Map(found, IdOf)[i] == a.id;
      assert found[i] in retired;
      var j :| 0 <= j < |retired| && retired[j] == found[i];
      assert apps[j].id == apps[k].id;
    }
    if Retryable(recent)(a) {
      assert retired[k] in found;
      var i :| 0 <= i < |found| && found[i] == retired[k];
      assert Map(found, IdOf)[i] == a.id;
    }
  }

  /** Who is resent: what is not available, recent, and has a counter below five. */
  lemma ResentIff(apps: seq<App>, next: nat, recent: nat -> bool, a: App)
    requires Sane(apps, next) && a in apps
    ensures a.id in Picked(apps, recent)
            <==> a.status != Some("available") && recent(a.id) && a.counter.Some? && a.counter.value < 5
  {
    PickedIff(apps, next, recent, a);
  }

  /** What a committed tick leaves of each application: five for those that became available, one more for
      those that are resent, and all else as it was. */
  lemma CountersAfterTick(apps: seq<App>, next: nat, recent: nat -> bool, i: nat)
    requires Sane(apps, next) && i < |apps|
    ensures |AfterTick(apps, recent)| == |apps|
    ensures var a, after := apps[i], AfterTick(apps, recent)[i];
            && after.id == a.id && after.status == a.status
            && after.counter == if a.counter.None? then None
                                else if a.status == Some("available") then Some(5)
                                else if recent(a.id) && a.counter.value < 5 then Some(a.counter.value + 1)
                                else a.counter
  {
    assert apps[i] in apps;
    TickIsPointwise(apps, next, recent);
  }

  lemma OnlyKnownArePicked(apps: seq<App>, recent: nat -> bool, id: nat)
    requires id in Picked(apps, recent)
    ensures exists a :: a in apps && a.id == id
  {
    var retired := Map(apps, Retired);
    var found := Filter(retired, Retryable(recent));
    var i :| 0 <= i < |found| && Map(found, IdOf)[i] == id;
    assert found[i] in retired;
    var j :| 0 <= j < |retired| && retired[j] == found[i];
    assert apps[j] in apps;
  }

  /** What one committed tick does to one application. */
  function Ticked(recent: nat -> bool): App -> App {
    (a: App) => if Retryable(recent)(a) then Incremented(a) else Retired(a)
  }

  lemma BumpOne(ids: seq<nat>, recent: nat -> bool, a: App)
    requires a.id in ids <==> Retryable(recent)(a)
    ensures Bumped(ids)(Retired(a)) == Ticked(recent)(a)
  {
  }

  lemma TickIsPointwise(apps: seq<App>, next: nat, recent: nat -> bool)
    requires Sane(apps, next)
    ensures AfterTick(apps, recent) == Map(apps, Ticked(recent))
  {
    var ids := Picked(apps, recent);
    forall i | 0 <= i < |apps| ensures Map(Map(apps, Retired), Bumped(ids))[i] == Map(apps, Ticked(recent))[i] {
      PickedIff(apps, next, recent, apps[i]);
      BumpOne(ids, recent, apps[i]);
    }
  }

  // ---- runs ----

  datatype Step =
    | Tick(recent: nat -> bool, outcome: Outcome)
    | Create(status: Option<string>)
    | SetStatus(id: nat, status: Option<string>)
    | Delete(id: nat)

  datatype Table = Table(apps: seq<App>, next: nat)

  function WithStatus(id: nat, status: Option<string>): App -> App {
    (a: App) => if a.id == id then a.(status := status) else a
  }

  function IsNot(id: nat): App -> bool {
    (a: App) => a.id != id
  }

  function Next(t: Table, step: Step): Table {
    match step
    case Tick(recent, outcome) => if outcome.Commits? then t.(apps := AfterTick(t.apps, recent)) else t
    case Create(status) => Table(t.apps + [App(t.next, status, Some(0))], t.next + 1)
    case SetStatus(id, status) => t.(apps := Map(t.apps, WithStatus(id, status)))
    case Delete(id) => t.(apps := Filter(t.apps, IsNot(id)))
  }

  function After(start: Table, steps: seq<Step>): Table {
    if steps == [] then start else Next(After(start, steps[..|steps| - 1]), steps[|steps| - 1])
  }

  /** Between ticks, applications are created with a counter of zero and a new id, change their status or are
      deleted; nothing else touches a counter. */
  lemma OthersKeepCounters(t: Table, step: Step, a: App)
    requires !step.Tick?
    ensures a in Next(t, step).apps <==>
              match step
              case Create(status) => a in t.apps || a == App(t.next, status, Some(0))
              case SetStatus(id, status) =>
                exists b :: b in t.apps && a == if b.id == id then b.(status := status) else b
              case Delete(id) => a in t.apps && a.id != id
              case _ => true
    ensures Next(t, step).next == if step.Create? then t.next + 1 else t.next
  {
    if step.SetStatus? {
      InMap(t.apps, WithStatus(step.id, step.status), a);
    }
  }

  /** Whether a step resends for `id`. */
  predicate Resends(t: Table, step: Step, id: nat) {
    step.Tick? && !step.outcome.FailsBeforeSending? && id in Picked(t.apps, step.recent)
  }

  function Resent(start: Table, steps: seq<Step>, id: nat): nat {
    if steps == [] then 0
    else
      var front := steps[..|steps| - 1];
      Resent(start, front, id) + if Resends(After(start, front), steps[|steps| - 1], id) then 1 else 0
  }

  /** The resends whose increment was rolled back. */
  function Uncounted(start: Table, steps: seq<Step>, id: nat): nat {
    if steps == [] then 0
    else
      var front, last := steps[..|steps| - 1], steps[|steps| - 1];
      Uncounted(start, front, id) + if Resends(After(start, front), last, id) && !last.outcome.Commits? then 1 else 0
  }

  lemma StepKeepsSane(t: Table, step: Step)
    requires Sane(t.apps, t.next)
    ensures Sane(Next(t, step).apps, Next(t, step).next) && Next(t, step).next >= t.next
  {
    match step
    case Tick(recent, outcome) => TickIsPointwise(t.apps, t.next, recent);
    case Create(status) =>
    case SetStatus(id, status) =>
    case Delete(id) => FilterKeepsSane(t.apps, t.next, IsNot(id));
  }

  lemma {:induction false} FilterKeepsSane(apps: seq<App>, next: nat, p: App -> bool)
    requires Sane(apps, next)
    ensures Sane(Filter(apps, p), next)
  {
    if apps != [] {
      var front, last := apps[..|apps| - 1], apps[|apps| - 1];
      assert forall a :: a in front ==> a in apps;
      FilterKeepsSane(front, next, p);
      assert forall a :: a in Filter(front, p) ==> a.id != last.id;
    }
  }

  /** The counter is where the counted resends left it, or at its maximum. */
  ghost predicate CounterTells(first: Option<int>, now: Option<int>, counted: int) {
    match now
    case None => counted == 0
    case Some(k) => 0 <= counted <= k <= RETRY_MAX && (first.Some? && k < RETRY_MAX ==> k == first.value + counted)
  }

  /** The counter `id` started with: that of the starting table, or 0 when it was created later. */
  function FirstCounter(start: Table, id: nat): Option<int> {
    var found := Filter(start.apps, (a: App) => a.id == id);
    if found == [] then Some(0) else found[0].counter
  }

  ghost predicate Tally(start: Table, t: Table, id: nat, counted: int) {
    && 0 <= counted <= RETRY_MAX
    && (forall a :: a in t.apps && a.id == id ==> CounterTells(FirstCounter(start, id), a.counter, counted))
    && (id >= t.next ==> counted == 0 && (id >= start.next ==> FirstCounter(start, id) == Some(0)))
    && t.next >= start.next
  }

  lemma TallyTick(start: Table, t: Table, recent: nat -> bool, id: nat, counted: int)
    requires Sane(t.apps, t.next) && Tally(start, t, id, counted)
    ensures Tally(start, t.(apps := AfterTick(t.apps, recent)), id,
                  counted + if id in Picked(t.apps, recent) then 1 else 0)
  {
    var picked := id in Picked(t.apps, recent);
    if picked {
      OnlyKnownArePicked(t.apps, recent, id);
    }
    forall a | a in t.apps && a.id == id ensures picked <==> Retryable(recent)(a) {
      PickedIff(t.apps, t.next, recent, a);
    }
    TickIsPointwise(t.apps, t.next, recent);
    TallyMap(start, t, Map(t.apps, Ticked(recent)), recent, id, counted, picked);
  }

  lemma TallyMap(start: Table, t: Table, ticked: seq<App>, recent: nat -> bool, id: nat, counted: int, picked: bool)
    requires Sane(t.apps, t.next) && Tally(start, t, id, counted)
    requires ticked == Map(t.apps, Ticked(recent))
    requires picked ==> exists a :: a in t.apps && a.id == id
    requires forall a :: a in t.apps && a.id == id ==> (picked <==> Retryable(recent)(a))
    ensures Tally(start, t.(apps := ticked), id, counted + if picked then 1 else 0)
  {
    forall b | b in ticked && b.id == id
      ensures CounterTells(FirstCounter(start, id), b.counter, counted + if picked then 1 else 0)
    {
      var k :| 0 <= k < |ticked| && ticked[k] == b;
      var a := t.apps[k];
      assert a in t.apps && b == Ticked(recent)(a);
      assert Retired(a).id == a.id && Incremented(a).id == a.id;
      CounterStep(FirstCounter(start, id), a, recent, counted);
    }
  }

  lemma CounterStep(first: Option<int>, a: App, recent: nat -> bool, counted: int)
    requires CounterTells(first, a.counter, counted)
    ensures Ticked(recent)(a).id == a.id
    ensures CounterTells(first, Ticked(recent)(a).counter, counted + if Retryable(recent)(a) then 1 else 0)
  {
    if Retryable(recent)(a) {
      assert BelowMax(a) && Incremented(a).counter == Some(a.counter.value + 1);
    }
  }

  lemma TallyStep(start: Table, t: Table, step: Step, id: nat, counted: int)
    requires Sane(t.apps, t.next) && Tally(start, t, id, counted)
    ensures Tally(start, Next(t, step), id, counted + if Resends(t, step, id) && step.outcome.Commits? then 1 else 0)
  {
    match step
    case Tick(recent, outcome) => if outcome.Commits? { TallyTick(start, t, recent, id, counted); }
    case Create(status) =>
    case SetStatus(other, status) =>
    case Delete(other) =>
  }

  lemma TallyStarts(start: Table, id: nat)
    requires Sane(start.apps, start.next)
    ensures Tally(start, start, id, 0)
  {
    var found := Filter(start.apps, (a: App) => a.id == id);
    if found != [] {
      assert found[0] in start.apps;
    }
  }

  /** Over any run, the counter of an application stays between 0 and 5 and counts its committed resends until
      it is at its maximum; so an application is resent at most five times plus once for every tick whose
      increment was rolled back. */
  lemma {:induction false} RetriesAreBounded(start: Table, steps: seq<Step>, id: nat)
    requires Sane(start.apps, start.next)
    ensures Sane(After(start, steps).apps, After(start, steps).next)
    ensures Tally(start, After(start, steps), id, Resent(start, steps, id) - Uncounted(start, steps, id))
    ensures Resent(start, steps, id) <= RETRY_MAX + Uncounted(start, steps, id)
  {
    if steps == [] {
      TallyStarts(start, id);
    } else {
      var front, last := steps[..|steps| - 1], steps[|steps| - 1];
      RetriesAreBounded(start, front, id);
      StepKeepsSane(After(start, front), last);
      TallyStep(start, After(start, front), last, id, Resent(start, front, id) - Uncounted(start, front, id));
    }
  }

  // ---- never again ----

  /** No later tick can pick the application. */
  ghost predicate Exhausted(t: Table, id: nat) {
    id < t.next && forall a :: a in t.apps && a.id == id ==> !BelowMax(a)
  }

  lemma ExhaustedStays(t: Table, step: Step, id: nat)
    requires Sane(t.apps, t.next) && Exhausted(t, id)
    ensures Exhausted(Next(t, step), id) && !Resends(t, step, id)
  {
    if step.Tick? {
      TickIsPointwise(t.apps, t.next, step.recent);
      if id in Picked(t.apps, step.recent) {
        OnlyKnownArePicked(t.apps, step.recent, id);
        var a :| a in t.apps && a.id == id;
        PickedIff(t.apps, t.next, step.recent, a);
      }
    }
  }

  lemma OneStepMore(start: Table, steps: seq<Step>, step: Step, id: nat)
    ensures After(start, steps + [step]) == Next(After(start, steps), step)
    ensures Resent(start, steps + [step], id)
            == Resent(start, steps, id) + if Resends(After(start, steps), step, id) then 1 else 0
  {
    assert (steps + [step])[..|steps|] == steps;
  }

  lemma {:induction false} ExhaustedForGood(start: Table, before: seq<Step>, later: seq<Step>, id: nat)
    requires Sane(start.apps, start.next) && Exhausted(After(start, before), id)
    ensures Exhausted(After(start, before + later), id)
    ensures Resent(start, before + later, id) == Resent(start, before, id)
  {
    if later == [] {
      assert before + later == before;
    } else {
      var most, last := before + later[..|later| - 1], later[|later| - 1];
      assert before + later == most + [last];
      ExhaustedForGood(start, before, later[..|later| - 1], id);
      RetriesAreBounded(start, most, id);
      OneStepMore(start, most, last, id);
      ExhaustedStays(After(start, most), last, id);
    }
  }

  /** Once a committed tick has seen an application available, no later tick resends for it, whatever its
      status becomes. */
  lemma AvailableIsNeverResent(start: Table, before: seq<Step>, recent: nat -> bool, later: seq<Step>, a: App)
    requires Sane(start.apps, start.next)
    requires a in After(start, before).apps && IsAvailable(a)
    ensures Resent(start, before + [Tick(recent, Commits)] + later, a.id) == Resent(start, before, a.id)
  {
    var seen, t := before + [Tick(recent, Commits)], After(start, before);
    RetriesAreBounded(start, before, a.id);
    assert seen[..|seen| - 1] == before;
    TickIsPointwise(t.apps, t.next, recent);
    PickedIff(t.apps, t.next, recent, a);
    forall b | b in After(start, seen).apps && b.id == a.id ensures !BelowMax(b) {
      var k :| 0 <= k < |t.apps| && Map(t.apps, Ticked(recent))[k] == b;
      SameApp(t.apps, t.next, t.apps[k], a);
    }
    ExhaustedForGood(start, seen, later, a.id);
  }

  lemma SameApp(apps: seq<App>, next: nat, a: App, b: App)
    requires Sane(apps, next) && a in apps && b in apps && a.id == b.id
    ensures a == b
  {
  }

  function Ticks(recent: nat -> bool, n: nat): seq<Step> {
    seq(n, _ => Tick(recent, Commits))
  }

  function Least(n: int, m: int): int { if n <= m then n else m }

  /** How often the application may still be picked. */
  function Room(a: App): int {
    if a.counter.Some? then RETRY_MAX - a.counter.value else 0
  }

  function Plus(a: App, k: int): App {
    if a.counter.Some? then a.(counter := Some(a.counter.value + k)) else a
  }

  lemma PlusOne(recent: nat -> bool, a: App, k: nat)
    requires Retryable(recent)(a) && k <= Room(a)
    ensures Retryable(recent)(Plus(a, k)) <==> k < Room(a)
    ensures Ticked(recent)(Plus(a, k)) == Plus(a, if k < Room(a) then k + 1 else k)
  {
    var now := Plus(a, k);
    assert BelowMax(a) && !IsAvailable(a) && now.counter == Some(a.counter.value + k) && now.status == a.status;
    assert Incremented(now) == Plus(a, k + 1);
    assert !IsAvailable(now) && (BelowMax(now) <==> k < Room(a));
    assert Retired(now) == now;
  }

  lemma TickOne(start: Table, steps: seq<Step>, recent: nat -> bool, a: App)
    requires Sane(start.apps, start.next) && a in After(start, steps).apps
    ensures var more := steps + [Tick(recent, Commits)];
            && Ticked(recent)(a) in After(start, more).apps
            && Resent(start, more, a.id) == Resent(start, steps, a.id) + if Retryable(recent)(a) then 1 else 0
  {
    var t, more := After(start, steps), steps + [Tick(recent, Commits)];
    assert more[..|more| - 1] == steps;
    RetriesAreBounded(start, steps, a.id);
    PickedIff(t.apps, t.next, recent, a);
    TickIsPointwise(t.apps, t.next, recent);
    var i :| 0 <= i < |t.apps| && t.apps[i] == a;
    assert Map(t.apps, Ticked(recent))[i] == Ticked(recent)(a);
  }

  /** The bound is met: an application that stays unavailable and recent is resent on every tick until its
      counter is used up. */
  lemma {:induction false} EveryTickResendsUntilTheBound(start: Table, recent: nat -> bool, n: nat, a: App)
    requires Sane(start.apps, start.next) && a in start.apps && Retryable(recent)(a)
    ensures var k := Least(n, Room(a));
            Resent(start, Ticks(recent, n), a.id) == k && Plus(a, k) in After(start, Ticks(recent, n)).apps
  {
    if n > 0 {
      EveryTickResendsUntilTheBound(start, recent, n - 1, a);
      var fewer, k := Ticks(recent, n - 1), Least(n - 1, Room(a));
      assert Ticks(recent, n) == fewer + [Tick(recent, Commits)];
      TickOne(start, fewer, recent, Plus(a, k));
      PlusOne(recent, a, k);
    }
  }
}
