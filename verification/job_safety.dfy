/** What every run of the job system keeps. */
module JobSafety {
  import opened Collections
  import opened JobWorker

  // ---- evidence in a log ----

  ghost predicate Has(log: seq<Event>, what: What, latest: nat) {
    exists at: nat :: at <= latest && Event(at, what) in log
  }

  ghost predicate WasSubmitted(log: seq<Event>, ticket: nat, job: Job, latest: nat) {
    exists from :: Has(log, Submitted(ticket, job, from), latest)
  }

  /** The job of `ticket` called `Enqueue` on `job`, whether or not the push succeeded. */
  ghost predicate Filed(log: seq<Event>, ticket: nat, job: Job, latest: nat) {
    || Has(log, PushFailed(job, Some(ticket)), latest)
    || exists n :: Has(log, Submitted(n, job, Some(ticket)), latest)
  }

  ghost predicate SomeRequestFailed(log: seq<Event>, ticket: nat) {
    exists at, app :: Event(at, Requested(ticket, app, false)) in log
  }

  ghost predicate Accepted(log: seq<Event>, ticket: nat, app: int) {
    exists at :: Event(at, Requested(ticket, app, true)) in log
  }

  /** The delete request of `app` was sent, and accepted or refused. */
  ghost predicate Answered(log: seq<Event>, ticket: nat, app: int) {
    exists at, ok :: Event(at, Requested(ticket, app, ok)) in log
  }

  ghost predicate AllAnswered(log: seq<Event>, ticket: nat, apps: seq<int>) {
    forall app :: app in apps ==> Answered(log, ticket, app)
  }

  predicate FilesApp(what: What, ticket: nat, app: int) {
    (what.Submitted? || what.PushFailed?) && what.from == Some(ticket) && what.job == Destroy(ApplicationModel, app)
  }

  /** The job of `ticket` handed the destruction of `app` to the queue, whether or not the push succeeded. */
  ghost predicate FiledApp(log: seq<Event>, ticket: nat, app: int) {
    exists e :: e in log && FilesApp(e.what, ticket, app)
  }

  /** Exactly the accepted applications were filed. */
  ghost predicate Paired(log: seq<Event>, ticket: nat, unless: Option<int>) {
    forall app :: Some(app) != unless ==> (Accepted(log, ticket, app) <==> FiledApp(log, ticket, app))
  }

  /** These applications have been sent for, and the accepted ones filed. */
  ghost predicate Tally(log: seq<Event>, ticket: nat, asked: seq<int>, unless: Option<int>) {
    match unless
    case None => Paired(log, ticket, None) && AllAnswered(log, ticket, asked)
    case Some(app) => Paired(log, ticket, Some(app)) && AllAnswered(log, ticket, asked)
  }

  /** The job of `ticket` has done nothing yet. */
  ghost predicate Quiet(log: seq<Event>, ticket: nat) {
    forall e :: e in log ==> Actor(e.what) != Some(ticket)
  }

  ghost predicate WasListed(log: seq<Event>, ticket: nat) {
    exists at, source, tenant, rows :: Event(at, Listed(ticket, source, tenant, rows)) in log
  }

  ghost predicate WasDestroyed(log: seq<Event>, ticket: nat) {
    exists at, model, id, ok :: Event(at, Destroyed(ticket, model, id, ok)) in log
  }

  ghost predicate FiledSource(log: seq<Event>, ticket: nat) {
    exists id, latest :: Filed(log, ticket, Destroy(SourceModel, id), latest)
  }

  /** The delete request of `app` was accepted, and its destroy job handed to the queue. */
  ghost predicate Handled(log: seq<Event>, ticket: nat, app: int, latest: nat) {
    Has(log, Requested(ticket, app, true), latest) && Filed(log, ticket, Destroy(ApplicationModel, app), latest)
  }

  ghost predicate AllHandled(log: seq<Event>, ticket: nat, apps: seq<int>, latest: nat) {
    forall app :: app in apps ==> Handled(log, ticket, app, latest)
  }

  /** `apps` is what the job has to send for. */
  ghost predicate AppsOf(log: seq<Event>, ticket: nat, job: Job, apps: seq<int>, latest: nat) {
    match job
    case Superkey(SourceModel, id, tenant) =>
      exists rows :: Has(log, Listed(ticket, id, tenant, rows), latest) && apps == ListedApps(rows, id, tenant)
    case Superkey(ApplicationModel, id, tenant) => apps == [id]
    case _ => false
  }

  // ---- what an event takes for granted ----

  ghost predicate PushJustified(log: seq<Event>, ticket: nat, job: Job, at: nat) {
    match job
    case Destroy(ApplicationModel, app) => Has(log, Requested(ticket, app, true), at)
    case Destroy(SourceModel, id) =>
      && !SomeRequestFailed(log, ticket)
      && exists tenant, rows :: Has(log, Listed(ticket, id, tenant, rows), at)
                                && AllHandled(log, ticket, ListedApps(rows, id, tenant), at)
    case _ => false
  }

  ghost predicate RequestJustified(log: seq<Event>, ticket: nat, app: int, at: nat) {
    exists job, apps :: WasSubmitted(log, ticket, job, at) && AppsOf(log, ticket, job, apps, at) && app in apps
  }

  /** What a job that ended has done. */
  ghost predicate JobDone(log: seq<Event>, ticket: nat, job: Job, at: nat) {
    match job
    case Superkey(SourceModel, _, _) =>
      && Tally(log, ticket, [], None)
      && (WasListed(log, ticket) ==>
            exists apps :: AppsOf(log, ticket, job, apps, at) && Tally(log, ticket, apps, None))
    case Superkey(ApplicationModel, id, _) => Tally(log, ticket, [id], None)
    case Destroy(OtherModel, _) => Quiet(log, ticket)
    case Destroy(model, id) => exists d, ok :: Event(d, Destroyed(ticket, model, id, ok)) in log
    case Superkey(OtherModel, _, _) => Quiet(log, ticket)
  }

  ghost predicate Verdict(log: seq<Event>, ticket: nat, at: nat) {
    && SourceVerdict(log, ticket, at)
    && (exists job :: WasSubmitted(log, ticket, job, at))
    && forall job :: WasSubmitted(log, ticket, job, at) ==> JobDone(log, ticket, job, at)
  }

  /** A source job that ended has filed the source's destruction exactly when it got the list and no request
      failed. */
  ghost predicate SourceVerdict(log: seq<Event>, ticket: nat, at: nat) {
    forall id, tenant :: WasSubmitted(log, ticket, Superkey(SourceModel, id, tenant), at) ==>
      (Filed(log, ticket, Destroy(SourceModel, id), at) <==> WasListed(log, ticket) && !SomeRequestFailed(log, ticket))
  }

  ghost predicate Justified(log: seq<Event>, e: Event) {
    match e.what
    case Submitted(ticket, job, from) =>
      && (forall d :: d in log && d.what.Submitted? ==> d.what.ticket < ticket)
      && (if from.None? then job.Superkey? else PushJustified(log, from.value, job, e.at))
    case PushFailed(job, from) => if from.None? then job.Superkey? else PushJustified(log, from.value, job, e.at)
    case Popped(ticket) => exists job :: WasSubmitted(log, ticket, job, e.at)
    case Listed(ticket, source, tenant, rows) =>
      WasSubmitted(log, ticket, Superkey(SourceModel, source, tenant), e.at) && !WasListed(log, ticket)
    case Requested(ticket, app, ok) => RequestJustified(log, ticket, app, e.at)
    case Destroyed(ticket, model, id, ok) =>
      && !WasDestroyed(log, ticket)
      && WasSubmitted(log, ticket, Destroy(model, id), e.at)
      && exists popped: nat :: popped + WAIT_SECONDS <= e.at && Event(popped, Popped(ticket)) in log
    case Finished(ticket) => Verdict(log, ticket, e.at)
    case _ => true
  }

  ghost predicate LogJustified(log: seq<Event>) {
    forall k :: 0 <= k < |log| ==> Justified(log[..k], log[k])
  }

  // ---- what a running job takes for granted ----

  ghost predicate PcInv(log: seq<Event>, ticket: nat, th: Thread, now: nat) {
    match th.pc
    case Sleeping(due) => due == th.popped + Delay(th.job) && Quiet(log, ticket)
    case Start => th.popped + Delay(th.job) <= now && Quiet(log, ticket)
    case Sending(apps, i, failed) =>
      && th.job.Superkey? && i <= |apps| && AppsOf(log, ticket, th.job, apps, now)
      && Tally(log, ticket, apps[..i], None)
      && (failed <==> SomeRequestFailed(log, ticket))
      && (!failed ==> AllHandled(log, ticket, apps[..i], now))
    case Filing(apps, i, failed) =>
      && th.job.Superkey? && i < |apps| && AppsOf(log, ticket, th.job, apps, now)
      && Tally(log, ticket, apps[..i], Some(apps[i]))
      && (failed <==> SomeRequestFailed(log, ticket))
      && (!failed ==> AllHandled(log, ticket, apps[..i], now))
      && Has(log, Requested(ticket, apps[i], true), now)
    case FilingSource(apps) =>
      && th.job.Superkey? && th.job.model.SourceModel? && AppsOf(log, ticket, th.job, apps, now)
      && Tally(log, ticket, apps, None)
      && !SomeRequestFailed(log, ticket) && AllHandled(log, ticket, apps, now)
    case Done => false
  }

  ghost predicate ThreadInv(log: seq<Event>, ticket: nat, th: Thread, now: nat) {
    match th
    case Thread(job, popped, pc) =>
      && popped <= now && Event(popped, Popped(ticket)) in log
      && WasSubmitted(log, ticket, job, now)
      && !FiledSource(log, ticket) && !WasDestroyed(log, ticket)
      && PcInv(log, ticket, th, now)
  }

  // ---- where a ticket is ----

  function EndOf(ticket: nat): Event -> bool {
    (e: Event) => e.what == Unparsed(ticket) || e.what == Finished(ticket) || e.what == Abandoned(ticket)
  }

  function TakenOf(ticket: nat): Event -> bool {
    (e: Event) => e.what == Unparsed(ticket) || e.what == Popped(ticket)
  }

  ghost predicate InQueue(queue: seq<Entry>, ticket: nat) {
    exists i :: 0 <= i < |queue| && queue[i].ticket == ticket
  }

  function One(b: bool): nat { if b then 1 else 0 }

  /** Every ticket handed out is in exactly one place: queued, in flight, or ended once; and was taken from the
      queue exactly once unless it is still there. */
  ghost predicate InOnePlace(s: State, ticket: nat) {
    && One(InQueue(s.queue, ticket)) + One(ticket in s.threads) + Count(s.log, EndOf(ticket)) == One(ticket < s.next)
    && One(InQueue(s.queue, ticket)) + Count(s.log, TakenOf(ticket)) == One(ticket < s.next)
  }

  /** First in, first out: the queue is in ticket order, and everything taken is older than everything queued. */
  ghost predicate QueueInv(s: State) {
    && (forall i, j :: 0 <= i < j < |s.queue| ==> s.queue[i].ticket < s.queue[j].ticket)
    && (forall e, i :: e in s.log && 0 <= i < |s.queue| && (e.what.Popped? || e.what.Unparsed?) ==>
          e.what.ticket < s.queue[i].ticket)
    && (forall i :: 0 <= i < |s.queue| ==> s.queue[i].ticket < s.next)
    && (forall e :: e in s.log && e.what.Submitted? ==> e.what.ticket < s.next)
    && (forall e :: e in s.log && (e.what.Popped? || e.what.Unparsed?) ==> e.what.ticket < s.next)
  }

  ghost predicate Placed(s: State) {
    forall t: nat :: InOnePlace(s, t)
  }

  ghost predicate LogInv(s: State) {
    (forall e :: e in s.log ==> e.at <= s.now) && LogJustified(s.log)
  }

  ghost predicate QueueSubmitted(s: State) {
    forall i :: 0 <= i < |s.queue| ==> WasSubmitted(s.log, s.queue[i].ticket, s.queue[i].job, s.now)
  }

  /** A job acts only after it left the queue. */
  ghost predicate ActorsOut(s: State) {
    forall e :: e in s.log && Actor(e.what).Some? ==>
          Actor(e.what).value < s.next && !InQueue(s.queue, Actor(e.what).value)
  }

  /** Everything but what the goroutines hold on to. */
  ghost predicate Base(s: State) {
    match s
    case State(now, next, queue, threads, log) =>
      LogInv(s) && QueueSubmitted(s) && Placed(s) && QueueInv(s) && ActorsOut(s)
  }

  ghost predicate ThreadsInv(s: State) {
    match s
    case State(now, next, queue, threads, log) => forall t :: t in threads ==> ThreadInv(log, t, threads[t], now)
  }

  ghost predicate Inv(s: State) {
    match s
    case State(now, next, queue, threads, log) => Base(s) && ThreadsInv(s)
  }

  /** The job whose goroutine made the event happen. */
  function Actor(what: What): Option<nat> {
    match what
    case Submitted(ticket, job, from) => from
    case PushFailed(job, from) => from
    case ListFailed(ticket) => Some(ticket)
    case Listed(ticket, source, tenant, rows) => Some(ticket)
    case Requested(ticket, app, ok) => Some(ticket)
    case Destroyed(ticket, model, id, ok) => Some(ticket)
    case _ => None
  }

  // ---- evidence stays ----

  ghost predicate Extends(log: seq<Event>, longer: seq<Event>) {
    forall e :: e in log ==> e in longer
  }

  /** What is new in `longer` was not done by the job of `ticket`. */
  ghost predicate Silent(log: seq<Event>, longer: seq<Event>, ticket: nat) {
    forall e :: e in longer ==> e in log || Actor(e.what) != Some(ticket)
  }

  lemma HasStays(log: seq<Event>, longer: seq<Event>, what: What, latest: nat, later: nat)
    requires Has(log, what, latest) && latest <= later && Extends(log, longer)
    ensures Has(longer, what, later)
  {
    var at: nat :| at <= latest && Event(at, what) in log;
    assert Event(at, what) in longer;
  }

  lemma FiledStays(log: seq<Event>, longer: seq<Event>, ticket: nat, job: Job, latest: nat, later: nat)
    requires Filed(log, ticket, job, latest) && latest <= later && Extends(log, longer)
    ensures Filed(longer, ticket, job, later)
  {
    if Has(log, PushFailed(job, Some(ticket)), latest) {
      HasStays(log, longer, PushFailed(job, Some(ticket)), latest, later);
    } else {
      var n :| Has(log, Submitted(n, job, Some(ticket)), latest);
      HasStays(log, longer, Submitted(n, job, Some(ticket)), latest, later);
    }
  }

  lemma AllHandledStays(log: seq<Event>, longer: seq<Event>, ticket: nat, apps: seq<int>, latest: nat, later: nat)
    requires AllHandled(log, ticket, apps, latest) && latest <= later && Extends(log, longer)
    ensures AllHandled(longer, ticket, apps, later)
  {
    forall app | app in apps ensures Handled(longer, ticket, app, later) {
      assert Handled(log, ticket, app, latest);
      HasStays(log, longer, Requested(ticket, app, true), latest, later);
      FiledStays(log, longer, ticket, Destroy(ApplicationModel, app), latest, later);
    }
  }

  lemma SubmittedStays(log: seq<Event>, longer: seq<Event>, ticket: nat, job: Job, latest: nat, later: nat)
    requires WasSubmitted(log, ticket, job, latest) && latest <= later && Extends(log, longer)
    ensures WasSubmitted(longer, ticket, job, later)
  {
    var from :| Has(log, Submitted(ticket, job, from), latest);
    HasStays(log, longer, Submitted(ticket, job, from), latest, later);
  }

  lemma AppsOfStays(log: seq<Event>, longer: seq<Event>, ticket: nat, job: Job, apps: seq<int>, latest: nat, later: nat)
    requires AppsOf(log, ticket, job, apps, latest) && latest <= later && Extends(log, longer)
    ensures AppsOf(longer, ticket, job, apps, later)
  {
    if job.model.SourceModel? {
      var rows :| Has(log, Listed(ticket, job.id, job.tenant, rows), latest)
          && apps == ListedApps(rows, job.id, job.tenant);
      HasStays(log, longer, Listed(ticket, job.id, job.tenant, rows), latest, later);
    }
  }

  /** Events that are neither requests nor filings of the job leave its tally. */
  lemma TallyStays(log: seq<Event>, longer: seq<Event>, ticket: nat, asked: seq<int>, unless: Option<int>)
    requires Tally(log, ticket, asked, unless) && Extends(log, longer)
    requires forall e :: e in longer && e !in log ==>
               && (e.what.Requested? ==> e.what.ticket != ticket)
               && forall app :: !FilesApp(e.what, ticket, app)
    ensures Tally(longer, ticket, asked, unless)
  {
    forall app ensures Accepted(longer, ticket, app) <==> Accepted(log, ticket, app)
      ensures FiledApp(longer, ticket, app) <==> FiledApp(log, ticket, app)
      ensures Answered(log, ticket, app) ==> Answered(longer, ticket, app)
    {
      EvidenceStays(log, longer, ticket, app);
    }
  }

  lemma EvidenceStays(log: seq<Event>, longer: seq<Event>, ticket: nat, app: int)
    requires Extends(log, longer)
    requires forall e :: e in longer && e !in log ==>
               && (e.what.Requested? ==> e.what.ticket != ticket || e.what.app != app)
               && !FilesApp(e.what, ticket, app)
    ensures Accepted(longer, ticket, app) <==> Accepted(log, ticket, app)
    ensures FiledApp(longer, ticket, app) <==> FiledApp(log, ticket, app)
    ensures Answered(log, ticket, app) ==> Answered(longer, ticket, app)
  {
    if at :| Event(at, Requested(ticket, app, true)) in log {
      assert Event(at, Requested(ticket, app, true)) in longer;
    }
    if at, ok :| Event(at, Requested(ticket, app, ok)) in log {
      assert Event(at, Requested(ticket, app, ok)) in longer;
    }
    if e :| e in log && FilesApp(e.what, ticket, app) {
      assert e in longer;
    }
  }

  lemma QuietTally(log: seq<Event>, ticket: nat)
    requires Quiet(log, ticket)
    ensures Tally(log, ticket, [], None)
  {
  }

  lemma TallyRequest(log: seq<Event>, e: Event, ticket: nat, apps: seq<int>, i: nat)
    requires i < |apps| && Tally(log, ticket, apps[..i], None)
    requires e.what.Requested? && e.what.ticket == ticket && e.what.app == apps[i]
    ensures if e.what.ok then Tally(log + [e], ticket, apps[..i], Some(apps[i]))
            else Tally(log + [e], ticket, apps[..i + 1], None)
  {
    var longer := log + [e];
    forall app | app != apps[i] || !e.what.ok
      ensures Accepted(longer, ticket, app) <==> Accepted(log, ticket, app)
      ensures FiledApp(longer, ticket, app) <==> FiledApp(log, ticket, app)
    {
      OtherEvidence(log, e, ticket, app);
    }
    assert e == Event(e.at, Requested(ticket, apps[i], e.what.ok)) && e in longer;
    AnsweredStays(log, e, ticket, apps[..i]);
    assert apps[..i + 1] == apps[..i] + [apps[i]];
  }

  lemma OtherEvidence(log: seq<Event>, e: Event, ticket: nat, app: int)
    requires e.what.Requested? ==> e.what.ticket != ticket || e.what.app != app || !e.what.ok
    requires !FilesApp(e.what, ticket, app)
    ensures Accepted(log + [e], ticket, app) <==> Accepted(log, ticket, app)
    ensures FiledApp(log + [e], ticket, app) <==> FiledApp(log, ticket, app)
  {
    if at :| Event(at, Requested(ticket, app, true)) in log {
      assert Event(at, Requested(ticket, app, true)) in log + [e];
    }
    if d :| d in log && FilesApp(d.what, ticket, app) {
      assert d in log + [e];
    }
  }

  lemma AnsweredStays(log: seq<Event>, e: Event, ticket: nat, apps: seq<int>)
    requires AllAnswered(log, ticket, apps)
    ensures AllAnswered(log + [e], ticket, apps)
  {
    forall app | app in apps ensures Answered(log + [e], ticket, app) {
      var at, ok :| Event(at, Requested(ticket, app, ok)) in log;
      assert Event(at, Requested(ticket, app, ok)) in log + [e];
    }
  }

  lemma TallyFiling(log: seq<Event>, e: Event, ticket: nat, apps: seq<int>, i: nat)
    requires i < |apps| && Tally(log, ticket, apps[..i], Some(apps[i])) && Accepted(log, ticket, apps[i])
    requires FilesApp(e.what, ticket, apps[i])
    ensures Tally(log + [e], ticket, apps[..i + 1], None)
  {
    var longer := log + [e];
    forall app | app != apps[i]
      ensures Accepted(longer, ticket, app) <==> Accepted(log, ticket, app)
      ensures FiledApp(longer, ticket, app) <==> FiledApp(log, ticket, app)
    {
      OtherEvidence(log, e, ticket, app);
    }
    var at :| Event(at, Requested(ticket, apps[i], true)) in log;
    assert Event(at, Requested(ticket, apps[i], true)) in longer && e in longer;
    AnsweredStays(log, e, ticket, apps[..i]);
    assert apps[..i + 1] == apps[..i] + [apps[i]];
  }

  /** What other jobs and the handlers do takes nothing away from a running job. */
  lemma ThreadInvStays(log: seq<Event>, longer: seq<Event>, ticket: nat, th: Thread, now: nat, later: nat)
    requires ThreadInv(log, ticket, th, now) && now <= later && Extends(log, longer) && Silent(log, longer, ticket)
    ensures ThreadInv(longer, ticket, th, later)
  {
    SubmittedStays(log, longer, ticket, th.job, now, later);
    NotFiled(log, longer, ticket);
    NothingNew(log, longer, ticket);
    match th.pc
    case Sleeping(due) =>
    case Start =>
    case Sending(apps, i, failed) =>
      TallyStays(log, longer, ticket, apps[..i], None);
      AppsOfStays(log, longer, ticket, th.job, apps, now, later);
      if !failed { AllHandledStays(log, longer, ticket, apps[..i], now, later); }
    case Filing(apps, i, failed) =>
      TallyStays(log, longer, ticket, apps[..i], Some(apps[i]));
      AppsOfStays(log, longer, ticket, th.job, apps, now, later);
      HasStays(log, longer, Requested(ticket, apps[i], true), now, later);
      if !failed { AllHandledStays(log, longer, ticket, apps[..i], now, later); }
    case FilingSource(apps) =>
      TallyStays(log, longer, ticket, apps, None);
      AppsOfStays(log, longer, ticket, th.job, apps, now, later);
      AllHandledStays(log, longer, ticket, apps, now, later);
  }

  predicate FilesSource(what: What, ticket: nat) {
    (what.Submitted? || what.PushFailed?) && what.from == Some(ticket) && what.job.Destroy?
        && what.job.model.SourceModel?
  }

  lemma NotFiled(log: seq<Event>, longer: seq<Event>, ticket: nat)
    requires !FiledSource(log, ticket)
    requires forall e :: e in longer ==> e in log || !FilesSource(e.what, ticket)
    ensures !FiledSource(longer, ticket)
  {
    if FiledSource(longer, ticket) {
      var id, latest :| Filed(longer, ticket, Destroy(SourceModel, id), latest);
      assert Filed(log, ticket, Destroy(SourceModel, id), latest) by {
        if Has(longer, PushFailed(Destroy(SourceModel, id), Some(ticket)), latest) {
          var at: nat :| at <= latest && Event(at, PushFailed(Destroy(SourceModel, id), Some(ticket))) in longer;
          assert Event(at, PushFailed(Destroy(SourceModel, id), Some(ticket))) in log;
        } else {
          var n :| Has(longer, Submitted(n, Destroy(SourceModel, id), Some(ticket)), latest);
          var at: nat :| at <= latest && Event(at, Submitted(n, Destroy(SourceModel, id), Some(ticket))) in longer;
          assert Event(at, Submitted(n, Destroy(SourceModel, id), Some(ticket))) in log;
        }
      }
    }
  }

  lemma NothingNew(log: seq<Event>, longer: seq<Event>, ticket: nat)
    requires Extends(log, longer)
    ensures (forall e :: e in longer ==> e in log || !e.what.Listed? || e.what.ticket != ticket) ==>
              (WasListed(longer, ticket) <==> WasListed(log, ticket))
    ensures (forall e :: e in longer ==> e in log || !e.what.Requested? || e.what.ticket != ticket || e.what.ok) ==>
              (SomeRequestFailed(longer, ticket) <==> SomeRequestFailed(log, ticket))
    ensures (forall e :: e in longer ==> e in log || !e.what.Destroyed? || e.what.ticket != ticket) ==>
              (WasDestroyed(longer, ticket) <==> WasDestroyed(log, ticket))
  {
    if WasListed(log, ticket) {
      var at, source, tenant, rows :| Event(at, Listed(ticket, source, tenant, rows)) in log;
      assert Event(at, Listed(ticket, source, tenant, rows)) in longer;
    }
    if SomeRequestFailed(log, ticket) {
      var at, app :| Event(at, Requested(ticket, app, false)) in log;
      assert Event(at, Requested(ticket, app, false)) in longer;
    }
    if WasDestroyed(log, ticket) {
      var at, model, id, ok :| Event(at, Destroyed(ticket, model, id, ok)) in log;
      assert Event(at, Destroyed(ticket, model, id, ok)) in longer;
    }
  }

  // ---- one turn of a job ----

  function EventOf(ticket: nat, next: nat, effect: Effect): Option<What> {
    match effect
    case Nothing => None
    case ListFailure => Some(ListFailed(ticket))
    case Listing(source, tenant, rows) => Some(Listed(ticket, source, tenant, rows))
    case Request(app, ok) => Some(Requested(ticket, app, ok))
    case Push(job, ok) => Some(if ok then Submitted(next, job, Some(ticket)) else PushFailed(job, Some(ticket)))
    case Cascade(model, id, ok) => Some(Destroyed(ticket, model, id, ok))
  }

  function Grown(log: seq<Event>, now: nat, what: Option<What>): seq<Event> {
    if what.None? then log else log + [Event(now, what.value)]
  }

  ghost predicate OnlyJob(log: seq<Event>, ticket: nat, job: Job) {
    forall other, latest :: WasSubmitted(log, ticket, other, latest) ==> other == job
  }

  ghost predicate TicketsBelow(log: seq<Event>, next: nat) {
    forall d :: d in log && d.what.Submitted? ==> d.what.ticket < next
  }

  lemma TurnIsJustified(log: seq<Event>, ticket: nat, th: Thread, choice: Choice, now: nat, next: nat)
    requires ThreadInv(log, ticket, th, now) && TicketsBelow(log, next)
    requires Act(th, choice, now).Turn?
    ensures var what := EventOf(ticket, next, Act(th, choice, now).effect);
            what.Some? ==> Justified(log, Event(now, what.value))
  {
    match th.pc
    case Sleeping(due) =>
    case Start =>
    case Sending(apps, i, failed) =>
      if i < |apps| {
        assert apps[i] in apps;
      }
    case Filing(apps, i, failed) =>
    case FilingSource(apps) =>
  }

  /** What a job reports and where it goes next fit together. */
  lemma TurnKeepsThread(log: seq<Event>, ticket: nat, th: Thread, choice: Choice, now: nat, next: nat)
    requires ThreadInv(log, ticket, th, now)
    requires Act(th, choice, now).Turn? && !Act(th, choice, now).pc.Done?
    ensures var turn := Act(th, choice, now);
            ThreadInv(Grown(log, now, EventOf(ticket, next, turn.effect)), ticket, th.(pc := turn.pc), now)
  {
    var turn := Act(th, choice, now);
    if turn.effect.Nothing? {
      SilentTurn(log, ticket, th, choice, now);
    } else {
      var e := Event(now, EventOf(ticket, next, turn.effect).value);
      SubmittedStays(log, log + [e], ticket, th.job, now, now);
      NotFiled(log, log + [e], ticket);
      NothingNew(log, log + [e], ticket);
      LoudTurn(log, e, ticket, th, choice, now, next);
    }
  }

  lemma SilentTurn(log: seq<Event>, ticket: nat, th: Thread, choice: Choice, now: nat)
    requires ThreadInv(log, ticket, th, now)
    requires Act(th, choice, now).Turn? && !Act(th, choice, now).pc.Done? && Act(th, choice, now).effect.Nothing?
    ensures ThreadInv(log, ticket, th.(pc := Act(th, choice, now).pc), now)
  {
    if th.pc.Sending? {
      assert th.pc.apps[..th.pc.i] == th.pc.apps;
    }
  }

  lemma LoudTurn(log: seq<Event>, e: Event, ticket: nat, th: Thread, choice: Choice, now: nat, next: nat)
    requires ThreadInv(log, ticket, th, now)
    requires Act(th, choice, now).Turn? && !Act(th, choice, now).pc.Done? && !Act(th, choice, now).effect.Nothing?
    requires e == Event(now, EventOf(ticket, next, Act(th, choice, now).effect).value)
    ensures PcInv(log + [e], ticket, th.(pc := Act(th, choice, now).pc), now)
  {
    NothingNew(log, log + [e], ticket);
    match th.pc
    case Start =>
      assert e in log + [e];
      QuietTally(log, ticket);
      TallyStays(log, log + [e], ticket, [], None);
      assert Has(log + [e], Listed(ticket, th.job.id, th.job.tenant, choice.rows), now);
    case Sending(apps, i, failed) =>
      TallyRequest(log, e, ticket, apps, i);
      AppsOfStays(log, log + [e], ticket, th.job, apps, now, now);
      assert e in log + [e];
      if choice.ok {
        assert Has(log + [e], Requested(ticket, apps[i], true), now);
        if !failed { AllHandledStays(log, log + [e], ticket, apps[..i], now, now); }
      }
    case Filing(apps, i, failed) =>
      TallyFiling(log, e, ticket, apps, i);
      AppsOfStays(log, log + [e], ticket, th.job, apps, now, now);
      if !failed { OneMoreHandled(log, e, ticket, apps, i, now); }
    case _ =>
  }

  lemma OneMoreHandled(log: seq<Event>, e: Event, ticket: nat, apps: seq<int>, i: nat, now: nat)
    requires i < |apps| && AllHandled(log, ticket, apps[..i], now)
    requires Has(log, Requested(ticket, apps[i], true), now)
    requires e.at == now && (e.what.Submitted? || e.what.PushFailed?)
    requires e.what.job == Destroy(ApplicationModel, apps[i]) && e.what.from == Some(ticket)
    ensures AllHandled(log + [e], ticket, apps[..i + 1], now)
  {
    AllHandledStays(log, log + [e], ticket, apps[..i], now, now);
    HasStays(log, log + [e], Requested(ticket, apps[i], true), now, now);
    assert e in log + [e] && Has(log + [e], e.what, now);
    assert Handled(log + [e], ticket, apps[i], now);
    assert apps[..i + 1] == apps[..i] + [apps[i]];
  }

  lemma OwnJob(log: seq<Event>, ticket: nat, th: Thread, now: nat, what: Option<What>, job: Job)
    requires OnlyJob(log, ticket, th.job)
    requires what.Some? && what.value.Submitted? ==> what.value.ticket != ticket
    requires WasSubmitted(Grown(log, now, what), ticket, job, now)
    ensures job == th.job
  {
    var longer := Grown(log, now, what);
    var from :| Has(longer, Submitted(ticket, job, from), now);
    var at: nat :| at <= now && Event(at, Submitted(ticket, job, from)) in longer;
    assert Event(at, Submitted(ticket, job, from)) in log;
    assert Has(log, Submitted(ticket, job, from), now);
    assert WasSubmitted(log, ticket, job, now);
  }

  lemma QuietNothing(log: seq<Event>, ticket: nat)
    requires Quiet(log, ticket)
    ensures !WasListed(log, ticket) && !SomeRequestFailed(log, ticket) && !WasDestroyed(log, ticket)
  {
  }

  lemma LastTurnAtStart(log: seq<Event>, ticket: nat, th: Thread, choice: Choice, now: nat, next: nat)
    requires ThreadInv(log, ticket, th, now) && th.pc.Start?
    requires Act(th, choice, now).Turn? && Act(th, choice, now).pc.Done?
    ensures JobDone(Grown(log, now, EventOf(ticket, next, Act(th, choice, now).effect)), ticket, th.job, now)
  {
    var effect := Act(th, choice, now).effect;
    if !effect.Nothing? {
      var e := Event(now, EventOf(ticket, next, effect).value);
      assert e in log + [e];
      QuietNothing(log, ticket);
      NothingNew(log, log + [e], ticket);
      QuietTally(log, ticket);
      if effect.ListFailure? {
        TallyStays(log, log + [e], ticket, [], None);
      }
    }
  }

  lemma LastTurnOfRequests(log: seq<Event>, ticket: nat, th: Thread, choice: Choice, now: nat, next: nat)
    requires ThreadInv(log, ticket, th, now) && (th.pc.Sending? || th.pc.FilingSource?)
    requires Act(th, choice, now).Turn? && Act(th, choice, now).pc.Done?
    ensures JobDone(Grown(log, now, EventOf(ticket, next, Act(th, choice, now).effect)), ticket, th.job, now)
  {
    var apps, what := th.pc.apps, EventOf(ticket, next, Act(th, choice, now).effect);
    var longer := Grown(log, now, what);
    assert th.pc.Sending? ==> apps[..th.pc.i] == apps;
    if what.Some? {
      TallyStays(log, longer, ticket, apps, None);
    }
    AppsOfStays(log, longer, ticket, th.job, apps, now, now);
    assert Tally(longer, ticket, apps, None) && Tally(longer, ticket, [], None);
  }

  /** The last turn leaves behind what the job was for. */
  lemma LastTurnIsDone(log: seq<Event>, ticket: nat, th: Thread, choice: Choice, now: nat, next: nat)
    requires ThreadInv(log, ticket, th, now)
    requires Act(th, choice, now).Turn? && Act(th, choice, now).pc.Done?
    ensures JobDone(Grown(log, now, EventOf(ticket, next, Act(th, choice, now).effect)), ticket, th.job, now)
  {
    if th.pc.Start? {
      LastTurnAtStart(log, ticket, th, choice, now, next);
    } else {
      LastTurnOfRequests(log, ticket, th, choice, now, next);
    }
  }

  lemma LastTurnGivesVerdict(log: seq<Event>, ticket: nat, th: Thread, choice: Choice, now: nat, next: nat)
    requires ThreadInv(log, ticket, th, now) && OnlyJob(log, ticket, th.job) && TicketsBelow(log, next)
    requires Act(th, choice, now).Turn? && Act(th, choice, now).pc.Done?
    ensures Verdict(Grown(log, now, EventOf(ticket, next, Act(th, choice, now).effect)), ticket, now)
  {
    var what := EventOf(ticket, next, Act(th, choice, now).effect);
    LastTurnGivesSourceVerdict(log, ticket, th, choice, now, next);
    SubmittedStays(log, Grown(log, now, what), ticket, th.job, now, now);
    forall job | WasSubmitted(Grown(log, now, what), ticket, job, now)
      ensures JobDone(Grown(log, now, what), ticket, job, now)
    {
      OwnTicketIsBelow(log, ticket, th.job, now, next);
      OwnJob(log, ticket, th, now, what, job);
      LastTurnIsDone(log, ticket, th, choice, now, next);
    }
  }

  lemma OwnTicketIsBelow(log: seq<Event>, ticket: nat, job: Job, now: nat, next: nat)
    requires WasSubmitted(log, ticket, job, now) && TicketsBelow(log, next)
    ensures ticket < next
  {
  }

  lemma LastTurnGivesSourceVerdict(log: seq<Event>, ticket: nat, th: Thread, choice: Choice, now: nat, next: nat)
    requires ThreadInv(log, ticket, th, now) && OnlyJob(log, ticket, th.job) && TicketsBelow(log, next)
    requires Act(th, choice, now).Turn? && Act(th, choice, now).pc.Done?
    ensures SourceVerdict(Grown(log, now, EventOf(ticket, next, Act(th, choice, now).effect)), ticket, now)
  {
    var turn := Act(th, choice, now);
    var what := EventOf(ticket, next, turn.effect);
    var longer := Grown(log, now, what);
    forall id, tenant | WasSubmitted(longer, ticket, Superkey(SourceModel, id, tenant), now)
      ensures Filed(longer, ticket, Destroy(SourceModel, id), now) <==>
            WasListed(longer, ticket) && !SomeRequestFailed(longer, ticket)
    {
      SameJob(log, longer, ticket, th, id, tenant, now, what);
      if what.Some? {
        var e := Event(now, what.value);
        NothingNew(log, log + [e], ticket);
        if th.pc.FilingSource? {
          assert e in log + [e] && Has(log + [e], e.what, now);
        } else {
          NotFiled(log, log + [e], ticket);
        }
      }
    }
  }

  lemma SameJob(log: seq<Event>, longer: seq<Event>, ticket: nat, th: Thread, id: int, tenant: int, now: nat,
                what: Option<What>)
    requires longer == Grown(log, now, what) && OnlyJob(log, ticket, th.job)
    requires WasSubmitted(log, ticket, th.job, now)
    requires what.Some? && what.value.Submitted? ==> what.value.ticket != ticket || what.value.job.Destroy?
    requires WasSubmitted(longer, ticket, Superkey(SourceModel, id, tenant), now)
    ensures th.job == Superkey(SourceModel, id, tenant)
  {
    var from :| Has(longer, Submitted(ticket, Superkey(SourceModel, id, tenant), from), now);
    var at: nat :| at <= now && Event(at, Submitted(ticket, Superkey(SourceModel, id, tenant), from)) in longer;
    assert Event(at, Submitted(ticket, Superkey(SourceModel, id, tenant), from)) in log;
    assert Has(log, Submitted(ticket, Superkey(SourceModel, id, tenant), from), now);
    assert WasSubmitted(log, ticket, Superkey(SourceModel, id, tenant), now);
  }

  lemma TicketsIncrease(log: seq<Event>, k: nat, l: nat)
    requires LogJustified(log) && k < l < |log| && log[k].what.Submitted? && log[l].what.Submitted?
    ensures log[k].what.ticket < log[l].what.ticket
  {
    assert Justified(log[..l], log[l]);
    assert log[..l][k] in log[..l];
  }

  /** A ticket names one job. */
  lemma TicketsAreUnique(log: seq<Event>, ticket: nat, job: Job, latest: nat)
    requires LogJustified(log) && WasSubmitted(log, ticket, job, latest)
    ensures OnlyJob(log, ticket, job)
  {
    forall other, later | WasSubmitted(log, ticket, other, later) ensures other == job {
      var k, from := SubmissionIndex(log, ticket, job, latest);
      var l, sender := SubmissionIndex(log, ticket, other, later);
      if k < l {
        TicketsIncrease(log, k, l);
      } else if l < k {
        TicketsIncrease(log, l, k);
      }
    }
  }

  lemma SubmissionIndex(log: seq<Event>, ticket: nat, job: Job, latest: nat) returns (k: nat, from: Option<nat>)
    requires WasSubmitted(log, ticket, job, latest)
    ensures k < |log| && log[k].what == Submitted(ticket, job, from) && log[k].at <= latest
  {
    from :| Has(log, Submitted(ticket, job, from), latest);
    var at: nat :| at <= latest && Event(at, Submitted(ticket, job, from)) in log;
    k :| 0 <= k < |log| && log[k] == Event(at, Submitted(ticket, job, from));
  }

  lemma JustifiedAppend(log: seq<Event>, e: Event)
    requires LogJustified(log) && Justified(log, e)
    ensures LogJustified(log + [e])
  {
    forall k | 0 <= k < |log + [e]| ensures Justified((log + [e])[..k], (log + [e])[k]) {
      assert (log + [e])[..k] == if k < |log| then log[..k] else log;
    }
  }
}
