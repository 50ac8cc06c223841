/** Every run of the job system: what holds in each reachable state, and what the log of a run tells. */
module JobRuns {
  import opened Collections
  import opened JobWorker
  import opened JobSafety

  lemma InitHolds()
    ensures Inv(INIT)
  {
  }

  // ---- one more event ----

  lemma CountSnoc(log: seq<Event>, e: Event, p: Event -> bool)
    ensures Count(log + [e], p) == Count(log, p) + One(p(e))
  {
    assert (log + [e])[..|log|] == log;
  }

  /** Events that neither hand out, take nor end a ticket. */
  predicate Neutral(what: What) {
    !what.Submitted? && !what.Popped? && !what.Unparsed? && !what.Finished? && !what.Abandoned?
  }

  lemma LogKeeps(s: State, what: What)
    requires LogInv(s) && Justified(s.log, Event(s.now, what))
    ensures LogInv(Log(s, what))
  {
    JustifiedAppend(s.log, Event(s.now, what));
  }

  lemma QueuedStaySubmitted(s: State, s': State)
    requires QueueSubmitted(s) && Extends(s.log, s'.log) && s.now <= s'.now
    requires forall i :: 0 <= i < |s'.queue| ==> s'.queue[i] in s.queue
    ensures QueueSubmitted(s')
  {
    forall i | 0 <= i < |s'.queue| ensures WasSubmitted(s'.log, s'.queue[i].ticket, s'.queue[i].job, s'.now) {
      var j :| 0 <= j < |s.queue| && s.queue[j] == s'.queue[i];
      SubmittedStays(s.log, s'.log, s.queue[j].ticket, s.queue[j].job, s.now, s'.now);
    }
  }

  lemma PlacesAfterEvent(s: State, s': State, e: Event, ticket: Option<nat>)
    requires Placed(s) && s'.log == s.log + [e]
    requires forall t: nat :: Some(t) != ticket ==>
               && InQueue(s'.queue, t) == InQueue(s.queue, t) && (t in s'.threads <==>
                     t in s.threads) && (t < s'.next <==> t < s.next)
               && !EndOf(t)(e) && !TakenOf(t)(e)
    requires ticket.Some? ==>
               && One(InQueue(s'.queue, ticket.value)) + One(ticket.value in s'.threads) + One(EndOf(ticket.value)(e))
                  - One(ticket.value < s'.next)
                  == One(InQueue(s.queue, ticket.value)) + One(ticket.value in s.threads) - One(ticket.value < s.next)
               && One(InQueue(s'.queue, ticket.value)) + One(TakenOf(ticket.value)(e)) - One(ticket.value < s'.next)
                  == One(InQueue(s.queue, ticket.value)) - One(ticket.value < s.next)
    ensures Placed(s')
  {
    forall t: nat ensures InOnePlace(s', t) {
      assert InOnePlace(s, t);
      CountSnoc(s.log, e, EndOf(t));
      CountSnoc(s.log, e, TakenOf(t));
    }
  }

  /** An event that takes no ticket leaves the queue invariants alone. */
  lemma EventKeepsQueue(s: State, s': State, what: What)
    requires QueueInv(s) && ActorsOut(s)
    requires s'.log == s.log + [Event(s.now, what)] && s'.queue == s.queue && s'.next == s.next
    requires !what.Submitted? && !what.Popped? && !what.Unparsed?
    requires Actor(what).Some? ==> Actor(what).value < s.next && !InQueue(s.queue, Actor(what).value)
    ensures QueueInv(s') && ActorsOut(s')
  {
  }

  lemma NeutralKeepsBase(s: State, what: What)
    requires Base(s) && Neutral(what) && Justified(s.log, Event(s.now, what))
    requires Actor(what).Some? ==> Actor(what).value < s.next && !InQueue(s.queue, Actor(what).value)
    ensures Base(Log(s, what))
  {
    LogKeeps(s, what);
    QueuedStaySubmitted(s, Log(s, what));
    EventKeepsQueue(s, Log(s, what), what);
    PlacesAfterEvent(s, Log(s, what), Event(s.now, what), None);
  }

  lemma PushKeepsPlaces(s: State, job: Job, from: Option<nat>)
    requires Placed(s) && QueueInv(s)
    ensures Placed(Enqueue(s, job, from, true))
  {
    var s' := Enqueue(s, job, from, true);
    forall t: nat ensures InQueue(s'.queue, t) <==> InQueue(s.queue, t) || t == s.next {
      QueueSnoc(s, job, t);
    }
    QueueSnoc(s, job, s.next);
    assert InOnePlace(s, s.next);
    PlacesAfterEvent(s, s', Event(s.now, Submitted(s.next, job, from)), Some(s.next));
  }

  lemma PushKeepsActors(s: State, job: Job, from: Option<nat>)
    requires ActorsOut(s) && QueueInv(s)
    requires from.Some? ==> from.value < s.next && !InQueue(s.queue, from.value)
    ensures ActorsOut(Enqueue(s, job, from, true))
  {
    var s' := Enqueue(s, job, from, true);
    forall d | d in s'.log && Actor(d.what).Some?
      ensures Actor(d.what).value < s'.next && !InQueue(s'.queue, Actor(d.what).value) {
      QueueSnoc(s, job, Actor(d.what).value);
    }
  }

  lemma PushKeepsSubmitted(s: State, job: Job, from: Option<nat>)
    requires QueueSubmitted(s)
    ensures QueueSubmitted(Enqueue(s, job, from, true))
  {
    var s', e := Enqueue(s, job, from, true), Event(s.now, Submitted(s.next, job, from));
    QueuedStaySubmitted(s, s'.(queue := s.queue));
    assert e in s'.log && Has(s'.log, e.what, s.now);
  }

  lemma PushKeepsQueue(s: State, job: Job, from: Option<nat>)
    requires QueueInv(s)
    ensures QueueInv(Enqueue(s, job, from, true))
  {
  }

  lemma PushKeepsBase(s: State, job: Job, from: Option<nat>)
    requires Base(s) && Justified(s.log, Event(s.now, Submitted(s.next, job, from)))
    requires from.Some? ==> from.value < s.next && !InQueue(s.queue, from.value)
    ensures Base(Enqueue(s, job, from, true))
  {
    LogKeeps(s, Submitted(s.next, job, from));
    PushKeepsPlaces(s, job, from);
    PushKeepsQueue(s, job, from);
    PushKeepsActors(s, job, from);
    PushKeepsSubmitted(s, job, from);
  }

  lemma EnqueueKeepsBase(s: State, job: Job, from: Option<nat>, ok: bool)
    requires Base(s)
    requires Justified(s.log, Event(s.now, if ok then Submitted(s.next, job, from) else PushFailed(job, from)))
    requires from.Some? ==> from.value < s.next && !InQueue(s.queue, from.value)
    ensures Base(Enqueue(s, job, from, ok))
  {
    if ok {
      PushKeepsBase(s, job, from);
    } else {
      NeutralKeepsBase(s, PushFailed(job, from));
    }
  }

  lemma QueueSnoc(s: State, job: Job, t: nat)
    requires QueueInv(s)
    ensures InQueue(s.queue + [Entry(s.next, job)], t) <==> InQueue(s.queue, t) || t == s.next
    ensures InQueue(s.queue, t) ==> t < s.next
  {
    var longer := s.queue + [Entry(s.next, job)];
    if InQueue(s.queue, t) {
      var i :| 0 <= i < |s.queue| && s.queue[i].ticket == t;
      assert longer[i].ticket == t;
    }
    assert longer[|s.queue|].ticket == s.next;
  }

  lemma HeadLeaves(s: State, t: nat)
    requires QueueInv(s) && s.queue != []
    ensures InQueue(s.queue, t) <==> InQueue(s.queue[1..], t) || t == s.queue[0].ticket
    ensures !InQueue(s.queue[1..], s.queue[0].ticket)
  {
    if InQueue(s.queue, t) && t != s.queue[0].ticket {
      var i :| 0 <= i < |s.queue| && s.queue[i].ticket == t;
      assert s.queue[1..][i - 1].ticket == t;
    }
    if InQueue(s.queue[1..], t) {
      var i :| 0 <= i < |s.queue[1..]| && s.queue[1..][i].ticket == t;
      assert s.queue[i + 1].ticket == t;
    }
  }

  function Taken(s: State, parsed: bool): State
    requires s.queue != []
  {
    Next(s, Pop(parsed)).value
  }

  lemma PopKeepsPlaces(s: State, parsed: bool)
    requires Placed(s) && QueueInv(s) && s.queue != []
    ensures Placed(Taken(s, parsed))
  {
    var ticket, s' := s.queue[0].ticket, Taken(s, parsed);
    forall t: nat | t != ticket ensures InQueue(s'.queue, t) == InQueue(s.queue, t) {
      HeadLeaves(s, t);
    }
    HeadLeaves(s, ticket);
    assert InOnePlace(s, ticket);
    PlacesAfterEvent(s, s', Event(s.now, if parsed then Popped(ticket) else Unparsed(ticket)), Some(ticket));
  }

  lemma PopKeepsQueue(s: State, parsed: bool)
    requires QueueInv(s) && s.queue != []
    ensures QueueInv(Taken(s, parsed))
  {
    var s', rest := Taken(s, parsed), s.queue[1..];
    assert s'.queue == rest && forall i :: 0 <= i < |rest| ==> rest[i] == s.queue[i + 1];
  }

  lemma PopKeepsActors(s: State, parsed: bool)
    requires ActorsOut(s) && QueueInv(s) && s.queue != []
    ensures ActorsOut(Taken(s, parsed))
  {
    var s' := Taken(s, parsed);
    forall d | d in s'.log && Actor(d.what).Some?
      ensures Actor(d.what).value < s'.next && !InQueue(s'.queue, Actor(d.what).value) {
      HeadLeaves(s, Actor(d.what).value);
    }
  }

  lemma PopKeepsBase(s: State, parsed: bool)
    requires Base(s) && s.queue != []
    ensures Base(Taken(s, parsed))
  {
    PopKeepsPlaces(s, parsed);
    PopKeepsQueue(s, parsed);
    PopKeepsActors(s, parsed);
    LogKeeps(s, if parsed then Popped(s.queue[0].ticket) else Unparsed(s.queue[0].ticket));
    QueuedStaySubmitted(s, Taken(s, parsed));
  }

  lemma EndKeepsPlaces(s: State, ticket: nat, what: What)
    requires Placed(s) && ticket in s.threads
    requires what == Finished(ticket) || what == Abandoned(ticket)
    ensures Placed(Log(s.(threads := s.threads - {ticket}), what))
  {
    PlacesAfterEvent(s, Log(s.(threads := s.threads - {ticket}), what), Event(s.now, what), Some(ticket));
  }

  lemma EndKeepsBase(s: State, ticket: nat, what: What)
    requires Base(s) && ticket in s.threads
    requires what == Finished(ticket) || what == Abandoned(ticket)
    requires Justified(s.log, Event(s.now, what))
    ensures Base(Log(s.(threads := s.threads - {ticket}), what))
  {
    var s' := Log(s.(threads := s.threads - {ticket}), what);
    LogKeeps(s, what);
    QueuedStaySubmitted(s, s');
    EventKeepsQueue(s, s', what);
    EndKeepsPlaces(s, ticket, what);
  }

  lemma MoveKeepsBase(s: State, ticket: nat, pc: Pc)
    requires Base(s) && ticket in s.threads
    requires pc.Done? ==> Verdict(s.log, ticket, s.now)
    ensures Base(Move(s, ticket, pc))
  {
    if pc.Done? {
      EndKeepsBase(s, ticket, Finished(ticket));
    } else {
      forall t: nat ensures InOnePlace(Move(s, ticket, pc), t) {
        assert InOnePlace(s, t);
      }
    }
  }

  // ---- one step ----

  lemma OthersKeep(s: State, s': State, except: Option<nat>)
    requires ThreadsInv(s) && s.now <= s'.now && Extends(s.log, s'.log)
    requires forall t :: t in s'.threads && Some(t) != except ==> t in s.threads && s'.threads[t] == s.threads[t]
    requires forall e :: e in s'.log ==> e in s.log || Actor(e.what).None? || Actor(e.what) == except
    ensures forall t :: t in s'.threads && Some(t) != except ==> ThreadInv(s'.log, t, s'.threads[t], s'.now)
  {
    forall t | t in s'.threads && Some(t) != except ensures ThreadInv(s'.log, t, s'.threads[t], s'.now) {
      ThreadInvStays(s.log, s'.log, t, s.threads[t], s.now, s'.now);
    }
  }

  lemma ThreadIsNotQueued(s: State, ticket: nat)
    requires Base(s) && ticket in s.threads
    ensures ticket < s.next && !InQueue(s.queue, ticket)
  {
    assert InOnePlace(s, ticket);
  }

  lemma ApplyIs(s: State, ticket: nat, effect: Effect)
    ensures var s1, what := Apply(s, ticket, effect), EventOf(ticket, s.next, effect);
            && s1.log == Grown(s.log, s.now, what)
            && (what.Some? ==> Actor(what.value) == Some(ticket))
            && (!effect.Push? && !effect.Nothing? ==> s1 == Log(s, what.value))
  {
  }

  lemma ApplyKeepsBase(s: State, ticket: nat, effect: Effect)
    requires Base(s) && ticket < s.next && !InQueue(s.queue, ticket)
    requires var what := EventOf(ticket, s.next, effect); what.Some? ==> Justified(s.log, Event(s.now, what.value))
    ensures Base(Apply(s, ticket, effect))
  {
    ApplyIs(s, ticket, effect);
    if effect.Push? {
      EnqueueKeepsBase(s, effect.job, Some(ticket), effect.ok);
    } else if !effect.Nothing? {
      NeutralKeepsBase(s, EventOf(ticket, s.next, effect).value);
    }
  }

  /** What a turn may report, and where its job may be afterwards. */
  ghost predicate Sound(s: State, ticket: nat, pc: Pc, effect: Effect)
    requires ticket in s.threads
  {
    var what := EventOf(ticket, s.next, effect);
    && (what.Some? ==> Justified(s.log, Event(s.now, what.value)))
    && Follows(Grown(s.log, s.now, what), s.now, ticket, s.threads[ticket], pc)
  }

  ghost predicate Follows(log: seq<Event>, now: nat, ticket: nat, th: Thread, pc: Pc) {
    match pc
    case Done => Verdict(log, ticket, now)
    case _ => ThreadInv(log, ticket, th.(pc := pc), now)
  }

  lemma TurnIsSound(s: State, ticket: nat, choice: Choice)
    requires Inv(s) && ticket in s.threads && Act(s.threads[ticket], choice, s.now).Turn?
    ensures var turn := Act(s.threads[ticket], choice, s.now);
            Sound(s, ticket, turn.pc, turn.effect)
  {
    var th := s.threads[ticket];
    assert ThreadInv(s.log, ticket, th, s.now);
    TurnIsJustified(s.log, ticket, th, choice, s.now, s.next);
    if Act(th, choice, s.now).pc.Done? {
      TicketsAreUnique(s.log, ticket, th.job, s.now);
      LastTurnGivesVerdict(s.log, ticket, th, choice, s.now, s.next);
    } else {
      TurnKeepsThread(s.log, ticket, th, choice, s.now, s.next);
    }
  }

  lemma MoveKeepsThreads(s: State, s1: State, ticket: nat, pc: Pc, what: Option<What>)
    requires ThreadsInv(s) && ticket in s.threads
    requires s1.threads == s.threads && s1.now == s.now && s1.log == Grown(s.log, s.now, what)
    requires what.Some? ==> Actor(what.value) == Some(ticket)
    requires Follows(s1.log, s.now, ticket, s.threads[ticket], pc)
    ensures ThreadsInv(Move(s1, ticket, pc))
  {
    OthersKeep(s, Move(s1, ticket, pc), Some(ticket));
  }

  lemma MoveKeepsInv(s: State, s1: State, ticket: nat, pc: Pc, what: Option<What>)
    requires ThreadsInv(s) && ticket in s.threads && Base(s1)
    requires s1.threads == s.threads && s1.now == s.now && s1.log == Grown(s.log, s.now, what)
    requires what.Some? ==> Actor(what.value) == Some(ticket)
    requires Follows(s1.log, s.now, ticket, s.threads[ticket], pc)
    ensures Inv(Move(s1, ticket, pc))
  {
    MoveKeepsBase(s1, ticket, pc);
    MoveKeepsThreads(s, s1, ticket, pc, what);
  }

  lemma SoundTurnKeepsInv(s: State, ticket: nat, pc: Pc, effect: Effect)
    requires Base(s) && ThreadsInv(s) && ticket in s.threads && Sound(s, ticket, pc, effect)
    ensures Inv(Move(Apply(s, ticket, effect), ticket, pc))
  {
    ThreadIsNotQueued(s, ticket);
    ApplyIs(s, ticket, effect);
    ApplyKeepsBase(s, ticket, effect);
    MoveKeepsInv(s, Apply(s, ticket, effect), ticket, pc, EventOf(ticket, s.next, effect));
  }

  lemma RunKeepsInv(s: State, ticket: nat, choice: Choice)
    requires Inv(s) && ticket in s.threads && Act(s.threads[ticket], choice, s.now).Turn?
    ensures var turn := Act(s.threads[ticket], choice, s.now);
            Inv(Move(Apply(s, ticket, turn.effect), ticket, turn.pc))
  {
    var turn := Act(s.threads[ticket], choice, s.now);
    TurnIsSound(s, ticket, choice);
    SoundTurnKeepsInv(s, ticket, turn.pc, turn.effect);
  }

  lemma HeadIsQueued(s: State)
    requires s.queue != []
    ensures InQueue(s.queue, s.queue[0].ticket)
  {
  }

  lemma PopKeepsInv(s: State, parsed: bool)
    requires Inv(s) && s.queue != []
    ensures Inv(Taken(s, parsed))
  {
    PopKeepsBase(s, parsed);
    PopKeepsThreads(s, parsed);
  }

  lemma PopKeepsThreads(s: State, parsed: bool)
    requires Inv(s) && s.queue != []
    ensures ThreadsInv(Taken(s, parsed))
  {
    if parsed {
      NewThreadHolds(s, s.queue[0]);
    }
    HeadIsNotRunning(s);
    OldThreadsHold(s, parsed);
  }

  lemma HeadIsNotRunning(s: State)
    requires Placed(s) && s.queue != []
    ensures s.queue[0].ticket !in s.threads
  {
    HeadIsQueued(s);
    assert InOnePlace(s, s.queue[0].ticket);
  }

  lemma OldThreadsHold(s: State, parsed: bool)
    requires ThreadsInv(s) && s.queue != []
    ensures var s', head := Taken(s, parsed), s.queue[0].ticket;
            forall t :: t in s'.threads && t != head ==> ThreadInv(s'.log, t, s'.threads[t], s'.now)
  {
    OthersKeep(s, Taken(s, parsed), Some(s.queue[0].ticket));
  }

  /** A job that was still queued has done nothing yet. */
  lemma NewThreadHolds(s: State, head: Entry)
    requires Inv(s) && s.queue != [] && head == s.queue[0]
    ensures ThreadInv(Taken(s, true).log, head.ticket, Taken(s, true).threads[head.ticket], s.now)
  {
    var s' := Taken(s, true);
    assert InQueue(s.queue, head.ticket);
    assert s'.log == s.log + [Event(s.now, Popped(head.ticket))];
    assert Event(s.now, Popped(head.ticket)) in s'.log;
    SubmittedStays(s.log, s'.log, head.ticket, head.job, s.now, s.now);
    assert forall e :: e in s'.log ==> Actor(e.what) != Some(head.ticket);
    NoActsNoEvidence(s'.log, head.ticket);
  }

  lemma NoActsNoEvidence(log: seq<Event>, ticket: nat)
    requires forall e :: e in log ==> Actor(e.what) != Some(ticket)
    ensures !WasListed(log, ticket) && !SomeRequestFailed(log, ticket) && !FiledSource(log, ticket)
            && !WasDestroyed(log, ticket)
  {
    var none: seq<Event> := [];
    NothingNew(none, log, ticket);
    NotFiled(none, log, ticket);
  }

  lemma SubmitKeepsInv(s: State, job: Job, ok: bool)
    requires Inv(s) && job.Superkey?
    ensures Inv(Enqueue(s, job, None, ok))
  {
    assert TicketsBelow(s.log, s.next);
    EnqueueKeepsBase(s, job, None, ok);
    OthersKeep(s, Enqueue(s, job, None, ok), None);
  }

  lemma CrashKeepsInv(s: State, ticket: nat)
    requires Inv(s) && ticket in s.threads
    ensures Inv(Log(s.(threads := s.threads - {ticket}), Abandoned(ticket)))
  {
    EndKeepsBase(s, ticket, Abandoned(ticket));
    OthersKeep(s, Log(s.(threads := s.threads - {ticket}), Abandoned(ticket)), None);
  }

  lemma TickKeepsInv(s: State)
    requires Inv(s)
    ensures Inv(s.(now := s.now + 1))
  {
    TickKeepsBase(s);
    OthersKeep(s, s.(now := s.now + 1), None);
  }

  lemma StepKeepsInv(s: State, a: Action)
    requires Inv(s) && Next(s, a).Some?
    ensures Inv(Next(s, a).value)
  {
    match a
    case Submit(model, id, tenant, ok) => SubmitKeepsInv(s, Superkey(model, id, tenant), ok);
    case Pop(parsed) => PopKeepsInv(s, parsed);
    case Run(ticket, choice) => RunKeepsInv(s, ticket, choice);
    case Tick => TickKeepsInv(s);
    case Crash(ticket) => CrashKeepsInv(s, ticket);
  }

  lemma TickKeepsBase(s: State)
    requires Base(s)
    ensures Base(s.(now := s.now + 1))
  {
    var s' := s.(now := s.now + 1);
    QueuedStaySubmitted(s, s');
    forall t: nat ensures InOnePlace(s', t) {
      assert InOnePlace(s, t);
    }
  }

  lemma {:induction false} EveryRunKeepsInv(actions: seq<Action>)
    requires After(actions).Some?
    ensures Inv(After(actions).value)
  {
    if actions == [] {
      InitHolds();
    } else {
      EveryRunKeepsInv(actions[..|actions| - 1]);
      StepKeepsInv(After(actions[..|actions| - 1]).value, actions[|actions| - 1]);
    }
  }

  // ---- what the log of a run tells ----

  ghost predicate Reachable(s: State) {
    exists actions :: After(actions) == Some(s)
  }

  lemma ReachableInv(s: State)
    requires Reachable(s)
    ensures Inv(s)
  {
    var actions :| After(actions) == Some(s);
    EveryRunKeepsInv(actions);
  }

  lemma IndexOf(log: seq<Event>, e: Event) returns (k: nat)
    requires e in log
    ensures k < |log| && log[k] == e
  {
    k :| 0 <= k < |log| && log[k] == e;
  }

  /** Every ticket that was handed out is queued, in flight or ended, in exactly one of the three, and ended
      once; it is popped at most once, and its cascade runs at most once. */
  lemma JobsAreConserved(s: State, ticket: nat)
    requires Reachable(s)
    ensures One(InQueue(s.queue, ticket)) + One(ticket in s.threads) + Count(s.log, EndOf(ticket))
            == One(ticket < s.next)
    ensures One(InQueue(s.queue, ticket)) + Count(s.log, TakenOf(ticket)) == One(ticket < s.next)
    ensures forall i, j :: 0 <= i < j < |s.log| && s.log[i].what.Destroyed? && s.log[j].what.Destroyed? ==>
              s.log[i].what.ticket != s.log[j].what.ticket
  {
    ReachableInv(s);
    assert InOnePlace(s, ticket);
    forall i, j | 0 <= i < j < |s.log| && s.log[i].what.Destroyed? && s.log[j].what.Destroyed?
      ensures s.log[i].what.ticket != s.log[j].what.ticket
    {
      DestroyedOnce(s.log, i, j);
    }
  }

  lemma DestroyedOnce(log: seq<Event>, i: nat, j: nat)
    requires LogJustified(log) && i < j < |log| && log[i].what.Destroyed? && log[j].what.Destroyed?
    ensures log[i].what.ticket != log[j].what.ticket
  {
    assert Justified(log[..j], log[j]);
    assert log[..j][i] in log[..j];
    var d := log[i].what;
    assert Event(log[i].at, Destroyed(d.ticket, d.model, d.id, d.ok)) in log[..j];
    assert WasDestroyed(log[..j], d.ticket);
  }

  lemma PrefixJustified(log: seq<Event>, k: nat)
    requires LogJustified(log) && k <= |log|
    ensures LogJustified(log[..k])
  {
    forall i | 0 <= i < k ensures Justified(log[..k][..i], log[..k][i]) {
      assert log[..k][..i] == log[..i];
    }
  }

  /** The submission behind a cascade: it was pushed by a job at least the wait before. */
  lemma CascadeWasFiled(log: seq<Event>, k: nat) returns (q: nat, parent: nat)
    requires LogJustified(log) && k < |log| && log[k].what.Destroyed?
    ensures q < k && log[q].at + WAIT_SECONDS <= log[k].at
    ensures PushJustified(log[..q], parent, Destroy(log[k].what.model, log[k].what.id), log[q].at)
    ensures log[q].what.Submitted? && log[q].what.from == Some(parent)
    ensures log[q].what.job == Destroy(log[k].what.model, log[k].what.id)
  {
    var d, before := log[k].what, log[..k];
    assert Justified(before, log[k]);
    var popped: nat :| popped + WAIT_SECONDS <= log[k].at && Event(popped, Popped(d.ticket)) in before;
    var p := IndexOf(before, Event(popped, Popped(d.ticket)));
    assert Justified(log[..p], log[p]);
    var job :| WasSubmitted(log[..p], d.ticket, job, popped);
    PrefixJustified(log, k);
    SubmittedStays(log[..p], before, d.ticket, job, popped, popped);
    TicketsAreUnique(before, d.ticket, job, popped);
    var from: Option<nat>;
    q, from := SubmissionIndex(log[..p], d.ticket, job, popped);
    assert log[..p][q] == log[q] && Justified(log[..q], log[q]);
    parent := from.value;
  }

  /** An application is destroyed only if its delete request was accepted, at least the wait before. */
  lemma ApplicationsGoAfterTheirRequest(s: State, k: nat)
    requires Reachable(s) && k < |s.log| && s.log[k].what.Destroyed? && s.log[k].what.model.ApplicationModel?
    ensures exists parent, at: nat :: at + 15 <= s.log[k].at
                                      && Event(at, Requested(parent, s.log[k].what.id, true)) in s.log[..k]
  {
    ReachableInv(s);
    var q, parent := CascadeWasFiled(s.log, k);
    var app := s.log[k].what.id;
    var at: nat :| at <= s.log[q].at && Event(at, Requested(parent, app, true)) in s.log[..q];
    var i := IndexOf(s.log[..q], Event(at, Requested(parent, app, true)));
    assert s.log[..k][i] == s.log[..q][i];
    assert Event(at, Requested(parent, app, true)) in s.log[..k];
  }

  /** A source is destroyed only if, at least the wait before, the delete request of every listed application
      had been accepted and its destroy job handed to the queue. */
  lemma SourcesGoAfterTheirApplications(s: State, k: nat)
    requires Reachable(s) && k < |s.log| && s.log[k].what.Destroyed? && s.log[k].what.model.SourceModel?
    ensures exists parent, tenant, rows, latest: nat ::
              && latest + 15 <= s.log[k].at
              && Has(s.log, Listed(parent, s.log[k].what.id, tenant, rows), latest)
              && AllHandled(s.log, parent, ListedApps(rows, s.log[k].what.id, tenant), latest)
  {
    ReachableInv(s);
    var q, parent := CascadeWasFiled(s.log, k);
    var latest, id := s.log[q].at, s.log[k].what.id;
    var tenant, rows :| && Has(s.log[..q], Listed(parent, id, tenant, rows), latest)
                        && AllHandled(s.log[..q], parent, ListedApps(rows, id, tenant), latest);
    HasStays(s.log[..q], s.log, Listed(parent, id, tenant, rows), latest, latest);
    AllHandledStays(s.log[..q], s.log, parent, ListedApps(rows, id, tenant), latest, latest);
  }

  /** The destroy job of a source sits behind those of its applications: once it left the queue they have all
      left it, except for those whose push failed. */
  lemma ApplicationsLeaveTheQueueFirst(s: State, parent: nat, id: int, n: nat)
    requires Reachable(s)
    requires exists at :: Event(at, Submitted(n, Destroy(SourceModel, id), Some(parent))) in s.log
    requires !InQueue(s.queue, n)
    ensures exists tenant, rows, latest ::
              && Has(s.log, Listed(parent, id, tenant, rows), latest)
              && forall app :: app in ListedApps(rows, id, tenant) ==> GoneOrLost(s, parent, app)
  {
    ReachableInv(s);
    var at :| Event(at, Submitted(n, Destroy(SourceModel, id), Some(parent))) in s.log;
    var q := IndexOf(s.log, Event(at, Submitted(n, Destroy(SourceModel, id), Some(parent))));
    var before := s.log[..q];
    assert Justified(before, s.log[q]);
    var tenant, rows :| && Has(before, Listed(parent, id, tenant, rows), at)
                        && AllHandled(before, parent, ListedApps(rows, id, tenant), at);
    HasStays(before, s.log, Listed(parent, id, tenant, rows), at, at);
    forall app | app in ListedApps(rows, id, tenant) ensures GoneOrLost(s, parent, app) {
      FiledBefore(s, n, parent, app, q, at);
    }
  }

  /** The push of the application's destroy job failed, or the job has left the queue. */
  ghost predicate GoneOrLost(s: State, parent: nat, app: int) {
    || (exists at :: Event(at, PushFailed(Destroy(ApplicationModel, app), Some(parent))) in s.log)
    || (exists at, m ::
          Event(at, Submitted(m, Destroy(ApplicationModel, app), Some(parent))) in s.log && !InQueue(s.queue, m))
  }

  lemma FiledBefore(s: State, n: nat, parent: nat, app: int, q: nat, latest: nat)
    requires Inv(s) && q < |s.log| && s.log[q].what.Submitted? && s.log[q].what.ticket == n && !InQueue(s.queue, n)
    requires Filed(s.log[..q], parent, Destroy(ApplicationModel, app), latest)
    ensures GoneOrLost(s, parent, app)
  {
    var job, before := Destroy(ApplicationModel, app), s.log[..q];
    if Has(before, PushFailed(job, Some(parent)), latest) {
      var at: nat :| at <= latest && Event(at, PushFailed(job, Some(parent))) in before;
      assert Event(at, PushFailed(job, Some(parent))) in s.log;
    } else {
      var m :| Has(before, Submitted(m, job, Some(parent)), latest);
      var at: nat :| at <= latest && Event(at, Submitted(m, job, Some(parent))) in before;
      var i := IndexOf(before, Event(at, Submitted(m, job, Some(parent))));
      TicketsIncrease(s.log, i, q);
      OlderLeavesFirst(s, m, n);
      assert Event(at, Submitted(m, job, Some(parent))) in s.log;
    }
  }

  lemma OlderLeavesFirst(s: State, m: nat, n: nat)
    requires Inv(s) && m < n < s.next && !InQueue(s.queue, n)
    ensures !InQueue(s.queue, m)
  {
    if InQueue(s.queue, m) {
      var i :| 0 <= i < |s.queue| && s.queue[i].ticket == m;
      assert InOnePlace(s, n);
      var k := CountWitness(s.log, TakenOf(n));
    }
  }

  // ---- jobs end ----

  function Rank(pc: Pc): int {
    match pc
    case Sleeping(due) => 2 * LIST_LIMIT + 4
    case Start => 2 * LIST_LIMIT + 3
    case Sending(apps, i, failed) => 2 * (|apps| - i) + 2
    case Filing(apps, i, failed) => 2 * (|apps| - i) + 1
    case FilingSource(apps) => 1
    case Done => 0
  }

  predicate InBounds(pc: Pc) {
    match pc
    case Sending(apps, i, failed) => i <= |apps| <= LIST_LIMIT
    case Filing(apps, i, failed) => i < |apps| <= LIST_LIMIT
    case _ => true
  }

  lemma TurnDecreases(th: Thread, choice: Choice, now: nat)
    requires Act(th, choice, now).Turn? && InBounds(th.pc)
    ensures var pc := Act(th, choice, now).pc; InBounds(pc) && 0 <= Rank(pc) < Rank(th.pc)
  {
  }

  predicate IsReady(pc: Pc, now: nat) {
    match pc
    case Sleeping(due) => due <= now
    case Filing(apps, i, failed) => i < |apps|
    case Done => false
    case _ => true
  }

  lemma CanTurn(th: Thread, now: nat) returns (choice: Choice)
    requires IsReady(th.pc, now)
    ensures Act(th, choice, now).Turn?
  {
    match th.pc
    case Sleeping(due) => choice := Go;
    case Start =>
      choice := if th.job.Superkey? && th.job.model.SourceModel? then ListFails
                else if th.job.Destroy? && !th.job.model.OtherModel? then Cascades(true)
                else Go;
    case Sending(apps, i, failed) => choice := if i < |apps| then Replies(true) else Go;
    case _ => choice := Pushes(true);
  }

  lemma ThreadIsReady(log: seq<Event>, ticket: nat, th: Thread, now: nat)
    requires ThreadInv(log, ticket, th, now) && (th.pc.Sleeping? ==> th.pc.due <= now)
    ensures IsReady(th.pc, now)
  {
  }

  ghost predicate HasStep(s: State, ticket: nat) {
    exists choice :: Next(s, Run(ticket, choice)).Some?
  }

  lemma TurnIsStep(s: State, ticket: nat, choice: Choice)
    requires ticket in s.threads && Act(s.threads[ticket], choice, s.now).Turn?
    ensures HasStep(s, ticket)
  {
    assert Next(s, Run(ticket, choice)).Some?;
  }

  /** A job always has a next step, from the moment it was popped or, to destroy something, 15 seconds later. */
  lemma NoJobIsStuck(s: State, ticket: nat)
    requires Reachable(s) && ticket in s.threads
    requires s.now >= s.threads[ticket].popped + if s.threads[ticket].job.Destroy? then 15 else 0
    ensures HasStep(s, ticket)
  {
    ReachableInv(s);
    assert ThreadInv(s.log, ticket, s.threads[ticket], s.now);
    ThreadIsReady(s.log, ticket, s.threads[ticket], s.now);
    var choice := CanTurn(s.threads[ticket], s.now);
    TurnIsStep(s, ticket, choice);
  }

  function RunsOf(ticket: nat): Action -> bool {
    (a: Action) => a.Run? && a.ticket == ticket
  }

  /** Turns taken so far plus turns left never exceed the first rank. */
  ghost predicate TurnBudget(s: State, ticket: nat, turns: nat) {
    if ticket in s.threads
    then InBounds(s.threads[ticket].pc) && turns + Rank(s.threads[ticket].pc) <= 2 * LIST_LIMIT + 4
    else turns <= 2 * LIST_LIMIT + 4 && (InQueue(s.queue, ticket) || ticket >= s.next ==> turns == 0)
  }

  lemma BudgetTurn(s: State, other: nat, choice: Choice, ticket: nat, turns: nat)
    requires Base(s) && Next(s, Run(other, choice)).Some? && TurnBudget(s, ticket, turns)
    ensures TurnBudget(Next(s, Run(other, choice)).value, ticket, turns + One(other == ticket))
  {
    TurnLeavesOthers(s, other, choice, ticket);
    if other == ticket {
      TurnDecreases(s.threads[ticket], choice, s.now);
    }
  }

  lemma BudgetPop(s: State, parsed: bool, ticket: nat, turns: nat)
    requires QueueInv(s) && Placed(s) && s.queue != [] && TurnBudget(s, ticket, turns)
    ensures TurnBudget(Taken(s, parsed), ticket, turns)
  {
    HeadLeaves(s, ticket);
    HeadIsQueued(s);
    assert InOnePlace(s, s.queue[0].ticket);
  }

  lemma BudgetStep(s: State, a: Action, ticket: nat, turns: nat)
    requires Base(s) && Next(s, a).Some? && TurnBudget(s, ticket, turns)
    ensures TurnBudget(Next(s, a).value, ticket, turns + One(RunsOf(ticket)(a)))
  {
    match a
    case Submit(model, id, tenant, ok) => QueueSnoc(s, Superkey(model, id, tenant), ticket);
    case Pop(parsed) => BudgetPop(s, parsed, ticket, turns);
    case Run(other, choice) => BudgetTurn(s, other, choice, ticket, turns);
    case Tick =>
    case Crash(other) => ThreadIsNotQueued(s, other);
  }

  lemma ApplyLeavesQueue(s: State, ticket: nat, effect: Effect, other: nat)
    requires QueueInv(s)
    ensures var s1 := Apply(s, ticket, effect);
            && (InQueue(s1.queue, other) ==> InQueue(s.queue, other) || other >= s.next)
            && s.next <= s1.next
  {
    if effect.Push? {
      QueueSnoc(s, effect.job, other);
    }
  }

  lemma TurnLeavesOthers(s: State, ticket: nat, choice: Choice, other: nat)
    requires Base(s) && Next(s, Run(ticket, choice)).Some?
    ensures var s' := Next(s, Run(ticket, choice)).value;
            && (other != ticket ==> (other in s'.threads <==> other in s.threads))
            && (other != ticket && other in s.threads ==> s'.threads[other] == s.threads[other])
            && (InQueue(s'.queue, other) || other >= s'.next ==> InQueue(s.queue, other) || other >= s.next)
            && !InQueue(s'.queue, ticket) && ticket < s'.next
  {
    var effect := Act(s.threads[ticket], choice, s.now).effect;
    ThreadIsNotQueued(s, ticket);
    ApplyLeavesQueue(s, ticket, effect, other);
    ApplyLeavesQueue(s, ticket, effect, ticket);
  }

  /** The goroutine of a job takes a bounded number of steps in any run. */
  lemma {:induction false} EveryJobEnds(actions: seq<Action>, ticket: nat)
    requires After(actions).Some?
    ensures TurnBudget(After(actions).value, ticket, Count(actions, RunsOf(ticket)))
    ensures Count(actions, RunsOf(ticket)) <= 204
  {
    if actions != [] {
      var front := actions[..|actions| - 1];
      EveryJobEnds(front, ticket);
      EveryRunKeepsInv(front);
      BudgetStep(After(front).value, actions[|actions| - 1], ticket, Count(front, RunsOf(ticket)));
    }
  }
}
