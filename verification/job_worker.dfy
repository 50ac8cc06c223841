/** jobs/worker.go, superkey.go, async_destroy.go and runner.go as a state machine: a queue, one goroutine for
    each popped job, a clock in seconds, and the log of everything that happened. */
module JobWorker {
  import opened Collections

  datatype Model = SourceModel | ApplicationModel | OtherModel
  datatype Job = Superkey(model: Model, id: int, tenant: int) | Destroy(model: Model, id: int)

  /** A row of the applications table; a user may own it. */
  datatype AppRow = AppRow(id: int, source: int, tenant: int, owner: Option<int>)

  const LIST_LIMIT := 100
  const WAIT_SECONDS := 15

  function AtSource(source: int): AppRow -> bool {
    (r: AppRow) => r.source == source
  }

  /** The listing knows no user, so it sees only the rows that nobody owns. */
  function IsListed(source: int, tenant: int): AppRow -> bool {
    (r: AppRow) => r.source == source && r.tenant == tenant && r.owner.None?
  }

  function IdOf(r: AppRow): int { r.id }

  /** The applications the listing of a source returns, with the rows in the order of the query. */
  function ListedApps(rows: seq<AppRow>, source: int, tenant: int): seq<int> {
    Take(Map(Filter(rows, IsListed(source, tenant)), IdOf), LIST_LIMIT)
  }

  function Delay(job: Job): nat {
    if job.Destroy? then WAIT_SECONDS else 0
  }

  /** Where the goroutine of a job stands.  An application job sends for a list of one. */
  datatype Pc =
    | Sleeping(due: nat)
    | Start
    | Sending(apps: seq<int>, i: nat, failed: bool)
    | Filing(apps: seq<int>, i: nat, failed: bool)
    | FilingSource(apps: seq<int>)
    | Done

  datatype Thread = Thread(job: Job, popped: nat, pc: Pc)

  /** What the outside world answers; a listing reads the applications table as it then is. */
  datatype Choice =
    | Go
    | ListFails
    | Lists(rows: seq<AppRow>)
    | Replies(ok: bool)
    | Pushes(ok: bool)
    | Cascades(ok: bool)

  datatype Effect =
    | Nothing
    | ListFailure
    | Listing(source: int, tenant: int, rows: seq<AppRow>)
    | Request(app: int, ok: bool)
    | Push(job: Job, ok: bool)
    | Cascade(model: Model, id: int, ok: bool)

  datatype Turn = Stuck | Turn(pc: Pc, effect: Effect)

  /** One step of a job's goroutine. */
  function Act(th: Thread, choice: Choice, now: nat): Turn {
    match th.pc
    case Sleeping(due) => if choice.Go? && now >= due then Turn(Start, Nothing) else Stuck
    case Start => Begin(th.job, choice)
    case Sending(apps, i, failed) =>
      if i < |apps| then
        if !choice.Replies? then Stuck
        else if choice.ok then Turn(Filing(apps, i, failed), Request(apps[i], true))
        else Turn(Sending(apps, i + 1, true), Request(apps[i], false))
      else if !choice.Go? then Stuck
      else if th.job.model.SourceModel? && !failed then Turn(FilingSource(apps), Nothing)
      else Turn(Done, Nothing)
    case Filing(apps, i, failed) =>
      if choice.Pushes? && i < |apps|
      then Turn(Sending(apps, i + 1, failed), Push(Destroy(ApplicationModel, apps[i]), choice.ok))
      else Stuck
    case FilingSource(apps) =>
      if choice.Pushes? then Turn(Done, Push(Destroy(SourceModel, th.job.id), choice.ok)) else Stuck
    case Done => Stuck
  }

  function Begin(job: Job, choice: Choice): Turn {
    match job
    case Superkey(SourceModel, id, tenant) =>
      if choice.ListFails? then Turn(Done, ListFailure)
      else if choice.Lists?
      then Turn(Sending(ListedApps(choice.rows, id, tenant), 0, false), Listing(id, tenant, choice.rows))
      else Stuck
    case Superkey(ApplicationModel, id, tenant) => if choice.Go? then Turn(Sending([id], 0, false), Nothing) else Stuck
    case Destroy(OtherModel, id) => if choice.Go? then Turn(Done, Nothing) else Stuck
    case Destroy(model, id) => if choice.Cascades? then Turn(Done, Cascade(model, id, choice.ok)) else Stuck
    case Superkey(OtherModel, id, tenant) => if choice.Go? then Turn(Done, Nothing) else Stuck
  }

  /** Every push gets a ticket; `from` is the job that pushed, none for a request handler. */
  datatype What =
    | Submitted(ticket: nat, job: Job, from: Option<nat>)
    | PushFailed(job: Job, from: Option<nat>)
    | Popped(ticket: nat)
    | Unparsed(ticket: nat)
    | ListFailed(ticket: nat)
    | Listed(ticket: nat, source: int, tenant: int, rows: seq<AppRow>)
    | Requested(ticket: nat, app: int, ok: bool)
    | Destroyed(ticket: nat, model: Model, id: int, ok: bool)
    | Finished(ticket: nat)
    | Abandoned(ticket: nat)

  datatype Event = Event(at: nat, what: What)

  datatype Entry = Entry(ticket: nat, job: Job)

  datatype State = State(now: nat, next: nat, queue: seq<Entry>, threads: map<nat, Thread>, log: seq<Event>)

  const INIT := State(0, 0, [], map[], [])

  datatype Action =
    | Submit(model: Model, id: int, tenant: int, ok: bool)
    | Pop(parsed: bool)
    | Run(ticket: nat, choice: Choice)
    | Tick
    | Crash(ticket: nat)

  function Log(s: State, what: What): State {
    s.(log := s.log + [Event(s.now, what)])
  }

  /** `Enqueue`: a failed push is logged and forgotten. */
  function Enqueue(s: State, job: Job, from: Option<nat>, ok: bool): State {
    if ok then Log(s.(next := s.next + 1, queue := s.queue + [Entry(s.next, job)]), Submitted(s.next, job, from))
    else Log(s, PushFailed(job, from))
  }

  function Apply(s: State, ticket: nat, effect: Effect): (s1: State)
    ensures s1.threads == s.threads && s1.now == s.now
  {
    match effect
    case Nothing => s
    case ListFailure => Log(s, ListFailed(ticket))
    case Listing(source, tenant, rows) => Log(s, Listed(ticket, source, tenant, rows))
    case Request(app, ok) => Log(s, Requested(ticket, app, ok))
    case Push(job, ok) => Enqueue(s, job, Some(ticket), ok)
    case Cascade(model, id, ok) => Log(s, Destroyed(ticket, model, id, ok))
  }

  function Move(s: State, ticket: nat, pc: Pc): State
    requires ticket in s.threads
  {
    if pc.Done? then Log(s.(threads := s.threads - {ticket}), Finished(ticket))
    else s.(threads := s.threads[ticket := s.threads[ticket].(pc := pc)])
  }

  /** One step of the whole system; `None` when the action is not enabled. */
  function Next(s: State, a: Action): Option<State> {
    match a
    case Submit(model, id, tenant, ok) => Some(Enqueue(s, Superkey(model, id, tenant), None, ok))
    case Pop(parsed) =>
      if s.queue == [] then None
      else
        var head, rest := s.queue[0], s.(queue := s.queue[1..]);
        if parsed then
          Some(Log(rest.(threads := rest.threads[head.ticket :=
              Thread(head.job, s.now, Sleeping(s.now + Delay(head.job)))]),
                   Popped(head.ticket)))
        else Some(Log(rest, Unparsed(head.ticket)))
    case Run(ticket, choice) =>
      if ticket !in s.threads then None
      else (match Act(s.threads[ticket], choice, s.now)
            case Stuck => None
            case Turn(pc, effect) => Some(Move(Apply(s, ticket, effect), ticket, pc)))
    case Tick => Some(s.(now := s.now + 1))
    case Crash(ticket) =>
      if ticket in s.threads then Some(Log(s.(threads := s.threads - {ticket}), Abandoned(ticket))) else None
  }

  /** A crash can hit any running job at any step; the job is gone and everything else stays. */
  lemma CrashTakesAny(s: State, ticket: nat)
    requires ticket in s.threads
    ensures Next(s, Crash(ticket))
            == Some(State(s.now, s.next, s.queue, s.threads - {ticket}, s.log + [Event(s.now, Abandoned(ticket))]))
  {
  }

  /** The state after a sequence of actions; `None` if one of them was not enabled. */
  function After(actions: seq<Action>): Option<State> {
    if actions == [] then Some(INIT)
    else
      var before := After(actions[..|actions| - 1]);
      if before.None? then None else Next(before.value, actions[|actions| - 1])
  }
}
