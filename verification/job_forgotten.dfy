/** Which applications a source job forgets, and that their source goes all the same. */
module JobForgotten {
  import opened Collections
  import opened JobWorker
  import opened JobSafety
  import opened JobRuns

  ghost predicate DistinctIds(rows: seq<AppRow>) {
    forall i, j :: 0 <= i < j < |rows| ==> rows[i].id != rows[j].id
  }

  ghost predicate AllListed(rows: seq<AppRow>, source: int, tenant: int) {
    forall r :: r in rows && r.source == source ==> r.id in ListedApps(rows, source, tenant)
  }

  /** The applications of the source belong to the tenant and to no user, and there are not too many. */
  ghost predicate Listable(rows: seq<AppRow>, source: int, tenant: int) {
    && (forall r :: r in rows && r.source == source ==> r.tenant == tenant && r.owner.None?)
    && |Filter(rows, AtSource(source))| <= 100
  }

  lemma {:induction false} FilterKeepsIdsDistinct(rows: seq<AppRow>, p: AppRow -> bool)
    requires DistinctIds(rows)
    ensures DistinctIds(Filter(rows, p))
  {
    if rows != [] {
      var front, last := rows[..|rows| - 1], rows[|rows| - 1];
      FilterKeepsIdsDistinct(front, p);
      forall x | x in Filter(front, p) ensures x.id != last.id {
        assert x in front;
      }
    }
  }

  lemma SameId(rows: seq<AppRow>, x: AppRow, y: AppRow)
    requires DistinctIds(rows) && x in rows && y in rows && x.id == y.id
    ensures x == y
  {
  }

  lemma ListableIsListed(rows: seq<AppRow>, source: int, tenant: int)
    requires Listable(rows, source, tenant)
    ensures AllListed(rows, source, tenant)
  {
    FilterCongruent(rows, IsListed(source, tenant), AtSource(source));
    var found := Filter(rows, IsListed(source, tenant));
    forall r | r in rows && r.source == source ensures r.id in ListedApps(rows, source, tenant) {
      assert r in found;
      InMap(found, IdOf, r.id);
    }
  }

  lemma ListedAreVisible(rows: seq<AppRow>, source: int, tenant: int, r: AppRow)
    requires DistinctIds(rows) && r in rows && r.id in ListedApps(rows, source, tenant)
    ensures IsListed(source, tenant)(r)
  {
    var found := Filter(rows, IsListed(source, tenant));
    assert r.id in Map(found, IdOf);
    InMap(found, IdOf, r.id);
    var x :| x in found && IdOf(x) == r.id;
    SameId(rows, x, r);
  }

  lemma BeyondTheLimit(rows: seq<AppRow>, source: int, tenant: int)
    requires DistinctIds(rows) && |Filter(rows, IsListed(source, tenant))| > LIST_LIMIT
    ensures !AllListed(rows, source, tenant)
  {
    var found := Filter(rows, IsListed(source, tenant));
    var r := found[LIST_LIMIT];
    FilterKeepsIdsDistinct(rows, IsListed(source, tenant));
    assert r in found;
    forall j | 0 <= j < LIST_LIMIT ensures ListedApps(rows, source, tenant)[j] != r.id {
      assert found[j].id != found[LIST_LIMIT].id;
    }
  }

  /** The listing returns all applications of a source, if and only if they are all of the tenant, owned by
      nobody and at most 100. */
  lemma AllListedIff(rows: seq<AppRow>, source: int, tenant: int)
    requires DistinctIds(rows)
    ensures AllListed(rows, source, tenant) <==> Listable(rows, source, tenant)
  {
    if Listable(rows, source, tenant) {
      ListableIsListed(rows, source, tenant);
    } else if AllListed(rows, source, tenant) {
      forall r | r in rows && r.source == source ensures IsListed(source, tenant)(r) {
        ListedAreVisible(rows, source, tenant, r);
      }
      FilterCongruent(rows, IsListed(source, tenant), AtSource(source));
      BeyondTheLimit(rows, source, tenant);
    }
  }

  // ---- whatever happens ----

  /** The job of `parent` hands the destruction of the source to the queue, whether or not the push succeeds. */
  predicate FilesDestruction(what: What, parent: nat, id: int) {
    (what.Submitted? || what.PushFailed?) && what.from == Some(parent) && what.job == Destroy(SourceModel, id)
  }

  lemma FilingSawList(log: seq<Event>, q: nat, parent: nat, id: int) returns (tenant: int, rows: seq<AppRow>)
    requires LogJustified(log) && q < |log| && FilesDestruction(log[q].what, parent, id)
    ensures Has(log[..q], Listed(parent, id, tenant, rows), log[q].at)
    ensures AllHandled(log[..q], parent, ListedApps(rows, id, tenant), log[q].at)
  {
    assert Justified(log[..q], log[q]);
    tenant, rows :| && Has(log[..q], Listed(parent, id, tenant, rows), log[q].at)
                    && AllHandled(log[..q], parent, ListedApps(rows, id, tenant), log[q].at);
  }

  lemma ListedOnce(log: seq<Event>, i: nat, j: nat)
    requires LogJustified(log) && i < j < |log| && log[i].what.Listed? && log[j].what.Listed?
    ensures log[i].what.ticket != log[j].what.ticket
  {
    assert Justified(log[..j], log[j]);
    var d := log[i].what;
    assert log[..j][i] == Event(log[i].at, Listed(d.ticket, d.source, d.tenant, d.rows));
    assert WasListed(log[..j], d.ticket);
  }

  lemma OneListing(log: seq<Event>, one: Event, other: Event)
    requires LogJustified(log) && one in log && other in log
    requires one.what.Listed? && other.what.Listed? && one.what.ticket == other.what.ticket
    ensures one == other
  {
    var i := IndexOf(log, one);
    var j := IndexOf(log, other);
    if i < j {
      ListedOnce(log, i, j);
    } else if j < i {
      ListedOnce(log, j, i);
    }
  }

  /** A source job sends only for applications that its listing returned. */
  lemma RequestWasListed(log: seq<Event>, listing: Event, request: Event)
    requires LogJustified(log) && listing in log && request in log
    requires listing.what.Listed? && request.what.Requested? && listing.what.ticket == request.what.ticket
    ensures request.what.app in ListedApps(listing.what.rows, listing.what.source, listing.what.tenant)
  {
    var k := IndexOf(log, request);
    var i := IndexOf(log, listing);
    var parent, l := request.what.ticket, listing.what;
    assert Justified(log[..k], log[k]) && Justified(log[..i], log[i]);
    var job, apps :| && WasSubmitted(log[..k], parent, job, request.at)
                     && AppsOf(log[..k], parent, job, apps, request.at)
                     && request.what.app in apps;
    SubmittedStays(log[..i], log, parent, Superkey(SourceModel, l.source, l.tenant), listing.at, listing.at);
    SubmittedStays(log[..k], log, parent, job, request.at, request.at);
    TicketsAreUnique(log, parent, job, request.at);
    assert job == Superkey(SourceModel, l.source, l.tenant);
    var rows :| && Has(log[..k], Listed(parent, l.source, l.tenant, rows), request.at)
                && apps == ListedApps(rows, l.source, l.tenant);
    var at: nat :| Event(at, Listed(parent, l.source, l.tenant, rows)) in log[..k];
    OneListing(log, listing, Event(at, Listed(parent, l.source, l.tenant, rows)));
  }

  /** Every application the source had when it was listed has had its delete request accepted by the time the
      source's destroy job is filed, if and only if they are all of the tenant, owned by nobody and at most
      100. */
  lemma NobodyIsForgottenIff(s: State, listing: Event, q: nat)
    requires Reachable(s) && listing in s.log && listing.what.Listed? && DistinctIds(listing.what.rows)
    requires q < |s.log| && FilesDestruction(s.log[q].what, listing.what.ticket, listing.what.source)
    ensures var l := listing.what;
            (forall r :: r in l.rows && r.source == l.source ==> Accepted(s.log[..q], l.ticket, r.id))
            <==> Listable(l.rows, l.source, l.tenant)
  {
    var l := listing.what;
    ReachableInv(s);
    AllListedIff(l.rows, l.source, l.tenant);
    if Listable(l.rows, l.source, l.tenant) {
      ListedAreAccepted(s.log, listing, q);
    } else {
      var r :| r in l.rows && r.source == l.source && r.id !in ListedApps(l.rows, l.source, l.tenant);
      if at :| Event(at, Requested(l.ticket, r.id, true)) in s.log[..q] {
        RequestWasListed(s.log, listing, Event(at, Requested(l.ticket, r.id, true)));
      }
    }
  }

  lemma ListedAreAccepted(log: seq<Event>, listing: Event, q: nat)
    requires LogJustified(log) && listing in log && listing.what.Listed?
    requires q < |log| && FilesDestruction(log[q].what, listing.what.ticket, listing.what.source)
    ensures forall app :: app in ListedApps(listing.what.rows, listing.what.source, listing.what.tenant) ==>
              Accepted(log[..q], listing.what.ticket, app)
  {
    var l := listing.what;
    var tenant, rows := FilingSawList(log, q, l.ticket, l.source);
    var a: nat :| Event(a, Listed(l.ticket, l.source, tenant, rows)) in log[..q];
    OneListing(log, listing, Event(a, Listed(l.ticket, l.source, tenant, rows)));
    forall app | app in ListedApps(rows, l.source, tenant) ensures Accepted(log[..q], l.ticket, app) {
      assert Handled(log[..q], l.ticket, app, log[q].at);
      var at: nat :| at <= log[q].at && Event(at, Requested(l.ticket, app, true)) in log[..q];
    }
  }

  // ---- a run for any rows ----

  lemma ReachStep(s: State, a: Action)
    requires Reachable(s) && Next(s, a).Some?
    ensures Reachable(Next(s, a).value)
  {
    var actions :| After(actions) == Some(s);
    assert (actions + [a])[..|actions|] == actions;
    assert After(actions + [a]) == Some(Next(s, a).value);
  }

  ghost predicate OnlyAsked(log: seq<Event>, apps: seq<int>) {
    forall e :: e in log && e.what.Requested? ==> e.what.app in apps
  }

  /** A reachable state whose log holds some events and asks for no application but these. */
  ghost predicate Going(s: State, events: seq<Event>, apps: seq<int>) {
    Reachable(s) && Extends(events, s.log) && OnlyAsked(s.log, apps)
  }

  ghost predicate IsAt(s: State, ticket: nat, job: Job, pc: Pc) {
    ticket in s.threads && s.threads[ticket].job == job && s.threads[ticket].pc == pc
  }

  lemma TakesTurn(s: State, ticket: nat, choice: Choice, events: seq<Event>, apps: seq<int>) returns (s': State)
    requires Going(s, events, apps) && ticket in s.threads && Act(s.threads[ticket], choice, s.now).Turn?
    requires var effect := Act(s.threads[ticket], choice, s.now).effect; effect.Request? ==> effect.app in apps
    ensures Some(s') == Next(s, Run(ticket, choice)) && Going(s', events, apps)
  {
    ReachStep(s, Run(ticket, choice));
    s' := Next(s, Run(ticket, choice)).value;
  }

  lemma Begins(id: int, tenant: int, rows: seq<AppRow>) returns (s: State)
    ensures var apps := ListedApps(rows, id, tenant);
            && Going(s, [Event(0, Listed(0, id, tenant, rows))], apps)
            && IsAt(s, 0, Superkey(SourceModel, id, tenant), Sending(apps, 0, false))
  {
    var apps, none: seq<Event> := ListedApps(rows, id, tenant), [];
    assert After([]) == Some(INIT);
    ReachStep(INIT, Submit(SourceModel, id, tenant, true));
    s := Next(INIT, Submit(SourceModel, id, tenant, true)).value;
    ReachStep(s, Pop(true));
    s := Next(s, Pop(true)).value;
    s := TakesTurn(s, 0, Go, none, apps);
    s := TakesTurn(s, 0, Lists(rows), none, apps);
  }

  lemma {:induction false} SendsForAll(s: State, job: Job, apps: seq<int>, i: nat, events: seq<Event>)
      returns (s': State)
    requires Going(s, events, apps) && i <= |apps| && IsAt(s, 0, job, Sending(apps, i, false))
    ensures Going(s', events, apps) && IsAt(s', 0, job, Sending(apps, |apps|, false))
    decreases |apps| - i
  {
    if i == |apps| {
      s' := s;
    } else {
      s' := TakesTurn(s, 0, Replies(true), events, apps);
      s' := TakesTurn(s', 0, Pushes(true), events, apps);
      s' := SendsForAll(s', job, apps, i + 1, events);
    }
  }

  lemma FilesSource(s: State, job: Job, apps: seq<int>, events: seq<Event>) returns (s': State, filing: Event)
    requires Going(s, events, apps) && job.Superkey? && job.model.SourceModel?
             && IsAt(s, 0, job, Sending(apps, |apps|, false))
    ensures filing.what.Submitted?
            && filing.what == Submitted(filing.what.ticket, Destroy(SourceModel, job.id), Some(0))
    ensures Going(s', events + [filing], apps)
    ensures s'.queue != [] && s'.queue[|s'.queue| - 1] == Entry(filing.what.ticket, Destroy(SourceModel, job.id))
  {
    s' := TakesTurn(s, 0, Go, events, apps);
    filing := Event(s'.now, Submitted(s'.next, Destroy(SourceModel, job.id), Some(0)));
    s' := TakesTurn(s', 0, Pushes(true), events, apps);
  }

  lemma {:induction false} PopsUpTo(s: State, last: Entry, events: seq<Event>, apps: seq<int>) returns (s': State)
    requires Going(s, events, apps) && s.queue != [] && s.queue[|s.queue| - 1] == last
    ensures Going(s', events, apps) && last.ticket in s'.threads
    ensures IsAt(s', last.ticket, last.job, Sleeping(s'.now + Delay(last.job)))
    decreases |s.queue|
  {
    ReachStep(s, Pop(true));
    s' := Next(s, Pop(true)).value;
    if |s.queue| > 1 {
      s' := PopsUpTo(s', last, events, apps);
    }
  }

  lemma {:induction false} Waits(s: State, ticket: nat, job: Job, due: nat, events: seq<Event>, apps: seq<int>)
      returns (s': State)
    requires Going(s, events, apps) && IsAt(s, ticket, job, Sleeping(due))
    ensures Going(s', events, apps) && IsAt(s', ticket, job, Sleeping(due)) && s'.now >= due
    decreases due - s.now
  {
    s' := s;
    if s.now < due {
      ReachStep(s, Tick);
      s' := Waits(Next(s, Tick).value, ticket, job, due, events, apps);
    }
  }

  lemma Destroys(s: State, ticket: nat, id: int, due: nat, events: seq<Event>, apps: seq<int>)
      returns (s': State, gone: Event)
    requires Going(s, events, apps) && IsAt(s, ticket, Destroy(SourceModel, id), Sleeping(due)) && s.now >= due
    ensures gone.what == Destroyed(ticket, SourceModel, id, true) && Going(s', events + [gone], apps)
  {
    s' := TakesTurn(s, ticket, Go, events, apps);
    gone := Event(s'.now, Destroyed(ticket, SourceModel, id, true));
    s' := TakesTurn(s', ticket, Cascades(true), events, apps);
  }

  /** The job of `parent` listed these rows for the source and filed its destruction, which took place. */
  ghost predicate ListedAndGone(log: seq<Event>, id: int, tenant: int, rows: seq<AppRow>, parent: nat, n: nat) {
    && (exists at :: Event(at, Listed(parent, id, tenant, rows)) in log)
    && (exists at :: Event(at, Submitted(n, Destroy(SourceModel, id), Some(parent))) in log)
    && (exists at :: Event(at, Destroyed(n, SourceModel, id, true)) in log)
  }

  ghost predicate NeverAccepted(log: seq<Event>, app: int) {
    forall e :: e in log && e.what.Requested? ==> e.what.app != app || !e.what.ok
  }

  /** For any rows, a run in which the source is listed and destroyed and nobody ever asks for an application
      that the listing left out. */
  lemma SourceGoesAnyway(id: int, tenant: int, rows: seq<AppRow>) returns (s: State, n: nat)
    ensures Reachable(s) && OnlyAsked(s.log, ListedApps(rows, id, tenant))
            && ListedAndGone(s.log, id, tenant, rows, 0, n)
  {
    var apps, listing := ListedApps(rows, id, tenant), Event(0, Listed(0, id, tenant, rows));
    s := Begins(id, tenant, rows);
    s := SendsForAll(s, Superkey(SourceModel, id, tenant), apps, 0, [listing]);
    var filing: Event, gone: Event;
    s, filing := FilesSource(s, Superkey(SourceModel, id, tenant), apps, [listing]);
    n := filing.what.ticket;
    s := PopsUpTo(s, Entry(n, Destroy(SourceModel, id)), [listing, filing], apps);
    var due := s.now + Delay(Destroy(SourceModel, id));
    s := Waits(s, n, Destroy(SourceModel, id), due, [listing, filing], apps);
    s, gone := Destroys(s, n, id, due, [listing, filing], apps);
    assert listing in [listing, filing] + [gone] && filing in [listing, filing] + [gone]
        && gone in [listing, filing] + [gone];
  }

  lemma ListedIsAsked(s: State, id: int, tenant: int, rows: seq<AppRow>, parent: nat, n: nat, r: AppRow)
    requires Reachable(s) && ListedAndGone(s.log, id, tenant, rows, parent, n)
    requires r in rows && r.source == id && AllListed(rows, id, tenant)
    ensures !NeverAccepted(s.log, r.id)
  {
    ReachableInv(s);
    var a :| Event(a, Listed(parent, id, tenant, rows)) in s.log;
    var b :| Event(b, Submitted(n, Destroy(SourceModel, id), Some(parent))) in s.log;
    var q := IndexOf(s.log, Event(b, Submitted(n, Destroy(SourceModel, id), Some(parent))));
    ListedAreAccepted(s.log, Event(a, Listed(parent, id, tenant, rows)), q);
    assert Accepted(s.log[..q], parent, r.id);
    var at :| Event(at, Requested(parent, r.id, true)) in s.log[..q];
    assert Event(at, Requested(parent, r.id, true)) in s.log;
  }

  /** A source can go while nobody ever sent the delete request of one of its applications, if and only if
      its applications are not all of the tenant, owned by nobody and at most 100. */
  lemma SomebodyIsForgottenIff(id: int, tenant: int, rows: seq<AppRow>)
    requires DistinctIds(rows)
    ensures (exists s, parent, n, r :: Reachable(s) && ListedAndGone(s.log, id, tenant, rows, parent, n)
                                       && r in rows && r.source == id && NeverAccepted(s.log, r.id))
            <==> !Listable(rows, id, tenant)
  {
    AllListedIff(rows, id, tenant);
    if Listable(rows, id, tenant) {
      forall s, parent, n, r | && Reachable(s) && ListedAndGone(s.log, id, tenant, rows, parent, n)
                               && r in rows && r.source == id
        ensures !NeverAccepted(s.log, r.id)
      {
        ListedIsAsked(s, id, tenant, rows, parent, n, r);
      }
    } else {
      var r :| r in rows && r.source == id && r.id !in ListedApps(rows, id, tenant);
      var s, n := SourceGoesAnyway(id, tenant, rows);
      assert NeverAccepted(s.log, r.id);
    }
  }
}
