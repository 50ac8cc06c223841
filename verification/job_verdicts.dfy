/** What a job has done by the time it ends. */
module JobVerdicts {
  import opened Collections
  import opened JobWorker
  import opened JobSafety
  import opened JobRuns
  import opened JobForgotten

  predicate DestroysFor(what: What, ticket: nat) {
    what.Destroyed? && what.ticket == ticket
  }

  /** Event `i` is the one cascade of the job. */
  ghost predicate OnlyCascade(log: seq<Event>, ticket: nat, i: nat) {
    && i < |log| && DestroysFor(log[i].what, ticket)
    && forall j :: 0 <= j < |log| && DestroysFor(log[j].what, ticket) ==> j == i
  }

  /** A job to destroy a source or an application that ended ran the cascade of that row, once; one with an
      unknown model ran none. */
  lemma DestroyJobsCascade(s: State, k: nat, model: Model, id: int)
    requires Reachable(s) && k < |s.log| && s.log[k].what.Finished?
    requires WasSubmitted(s.log[..k], s.log[k].what.ticket, Destroy(model, id), s.log[k].at)
    ensures if model.OtherModel?
            then forall e :: e in s.log[..k] ==> !DestroysFor(e.what, s.log[k].what.ticket)
            else exists i: nat :: OnlyCascade(s.log[..k], s.log[k].what.ticket, i)
                             && s.log[i].what.model == model && s.log[i].what.id == id
  {
    var ticket, before := s.log[k].what.ticket, s.log[..k];
    ReachableInv(s);
    assert Justified(before, s.log[k]);
    assert JobDone(before, ticket, Destroy(model, id), s.log[k].at);
    if !model.OtherModel? {
      var d, ok :| Event(d, Destroyed(ticket, model, id, ok)) in before;
      var i := IndexOf(before, Event(d, Destroyed(ticket, model, id, ok)));
      PrefixJustified(s.log, k);
      forall j | 0 <= j < |before| && DestroysFor(before[j].what, ticket) ensures j == i {
        if i < j {
          DestroyedOnce(before, i, j);
        } else if j < i {
          DestroyedOnce(before, j, i);
        }
      }
      assert OnlyCascade(before, ticket, i);
    }
  }

  /** A job to delete the superkey of an application that ended sent the request, and filed the destruction of
      that application if and only if the request was accepted. */
  lemma ApplicationJobsFileIff(s: State, k: nat, id: int, tenant: int)
    requires Reachable(s) && k < |s.log| && s.log[k].what.Finished?
    requires WasSubmitted(s.log[..k], s.log[k].what.ticket, Superkey(ApplicationModel, id, tenant), s.log[k].at)
    ensures var ticket, before := s.log[k].what.ticket, s.log[..k];
            && Answered(before, ticket, id)
            && (FiledApp(before, ticket, id) <==> Accepted(before, ticket, id))
            && forall app :: app != id ==> !Answered(before, ticket, app) && !FiledApp(before, ticket, app)
  {
    var ticket, before := s.log[k].what.ticket, s.log[..k];
    var job := Superkey(ApplicationModel, id, tenant);
    ReachableInv(s);
    PrefixJustified(s.log, k);
    assert Justified(before, s.log[k]);
    assert JobDone(before, ticket, job, s.log[k].at) && id in [id];
    forall app | app != id ensures !Answered(before, ticket, app) && !FiledApp(before, ticket, app) {
      if at, ok :| Event(at, Requested(ticket, app, ok)) in before {
        RequestIsOwn(before, ticket, job, s.log[k].at, Event(at, Requested(ticket, app, ok)));
      }
    }
  }

  lemma RequestIsOwn(log: seq<Event>, ticket: nat, job: Job, latest: nat, request: Event)
    requires LogJustified(log) && WasSubmitted(log, ticket, job, latest)
    requires request in log && request.what.Requested? && request.what.ticket == ticket
    ensures exists apps, later :: AppsOf(log, ticket, job, apps, later) && request.what.app in apps
  {
    var i := IndexOf(log, request);
    assert Justified(log[..i], log[i]);
    var own, apps :| && WasSubmitted(log[..i], ticket, own, request.at)
                     && AppsOf(log[..i], ticket, own, apps, request.at) && request.what.app in apps;
    SubmittedStays(log[..i], log, ticket, own, request.at, request.at);
    TicketsAreUnique(log, ticket, job, latest);
    AppsOfStays(log[..i], log, ticket, own, apps, request.at, request.at);
  }

  /** A source job that ended sent the request of every application it listed, whatever became of the others,
      and filed the destruction of exactly those whose request was accepted. */
  lemma SourceJobsFileIff(s: State, k: nat, listing: Event, app: int)
    requires Reachable(s) && k < |s.log| && s.log[k].what.Finished?
    requires listing in s.log[..k] && listing.what.Listed? && listing.what.ticket == s.log[k].what.ticket
    requires WasSubmitted(s.log[..k], s.log[k].what.ticket,
                          Superkey(SourceModel, listing.what.source, listing.what.tenant), s.log[k].at)
    requires app in ListedApps(listing.what.rows, listing.what.source, listing.what.tenant)
    ensures var ticket, before := s.log[k].what.ticket, s.log[..k];
            Answered(before, ticket, app) && (FiledApp(before, ticket, app) <==> Accepted(before, ticket, app))
  {
    var l, before := listing.what, s.log[..k];
    ReachableInv(s);
    PrefixJustified(s.log, k);
    assert Justified(before, s.log[k]);
    assert listing == Event(listing.at, Listed(l.ticket, l.source, l.tenant, l.rows));
    assert WasListed(before, l.ticket);
    assert JobDone(before, l.ticket, Superkey(SourceModel, l.source, l.tenant), s.log[k].at);
    var apps :| && AppsOf(before, l.ticket, Superkey(SourceModel, l.source, l.tenant), apps, s.log[k].at)
                && Tally(before, l.ticket, apps, None);
    var rows :| && Has(before, Listed(l.ticket, l.source, l.tenant, rows), s.log[k].at)
                && apps == ListedApps(rows, l.source, l.tenant);
    var at: nat :| Event(at, Listed(l.ticket, l.source, l.tenant, rows)) in before;
    OneListing(before, listing, Event(at, Listed(l.ticket, l.source, l.tenant, rows)));
  }

  /** Nothing ends that was not pushed. */
  lemma FinishedWasSubmitted(s: State, k: nat)
    requires Reachable(s) && k < |s.log| && s.log[k].what.Finished?
    ensures exists job :: WasSubmitted(s.log[..k], s.log[k].what.ticket, job, s.log[k].at)
  {
    ReachableInv(s);
    assert Justified(s.log[..k], s.log[k]);
  }
}
