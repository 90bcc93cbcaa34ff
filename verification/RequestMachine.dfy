// Send requests, concurrent ones included, over the idempotency cache, the lock store and the
// table of messages, each message with its own machine.
//
// Each request walks through `sendSmsRequest` one cache, lock, table or queue operation at a
// time; locks and cache entries may expire at any moment, any operation may throw, and any
// process may die between two of them.  Everything else that happens to a message, dispatch,
// requeue and callbacks, is a step of that message's machine.

module RequestMachine {
  import opened SmsMessage
  import opened DispatchPlan
  import opened MessageMachine

  type Key = string
  type Id = string
  type Token = string

  datatype Outcome = Replied(id: Id) | Conflict | QueuePublishFailed | Error | Died

  datatype RequestState =
    | ReadingCache
    | FindingCached(id: Id)
    | ForgettingCached
    | FindingByKey
    | Storing(id: Id)              // caches the id, then replies
    | AcquiringLock
    | WaitingForRow(attempt: nat)  // lost the lock; looks the row up every 50 ms, 20 times
    | FindingUnderLock
    | Inserting
    | FindingAfterViolation
    | AddingJob(id: Id)
    | MarkingFailed(id: Id)        // the add failed; about to write FAILED
    | StoringUnderLock(id: Id)
    | Releasing(outcome: Outcome)
    | Ended(outcome: Outcome)

  /**
   * `token` is the request's lock token, `inserted` the row it created, `addedJob` whether it
   * called the queue, and `leaked` whether it ended without having released its lock.
   */
  datatype Request = Request(key: Key, state: RequestState, token: Option<Token>, inserted: Option<Id>,
                             addedJob: bool, leaked: bool)

  /** A row of the table, the request that inserted it, and all that acts on it since. */
  datatype Entry = Entry(key: Key, inserter: nat, message: Message)

  datatype System = System(table: map<Id, Entry>, cache: map<Key, Id>, locks: map<Key, Token>, requests: seq<Request>)

  const WAIT_ATTEMPTS := 20

  datatype Action =
    | Arrive(key: Key)
    | Proceed(r: nat)                                   // an operation with a single outcome
    | Select(r: nat, id: Id)                            // a lookup by key; `id` is the row, if there is one
    | Acquire(r: nat, token: Token)
    | AcquireUnheard(r: nat, token: Token)              // the lock was set, but the reply was lost
    | InsertRow(r: nat, id: Id)
    | InsertUnheard(r: nat, id: Id)                     // committed, but the reply was lost
    | AddJob(r: nat)
    | FailToAddJob(r: nat, addedAnyway: bool)
    | MarkFailed(r: nat, now: Time)
    | Throw(r: nat)                                     // the operation failed and did nothing
    | Die(r: nat)
    | ExpireLock(key: Key)
    | ExpireCache(key: Key)
    | OnMessage(id: Id, step: Step)

  /** Whether a row with this key exists. */
  predicate KeyTaken(table: map<Id, Entry>, key: Key) {
    exists id | id in table :: table[id].key == key
  }

  predicate FreshToken(s: System, token: Token) {
    forall r | 0 <= r < |s.requests| :: s.requests[r].token != Some(token)
  }

  /** Between acquiring the lock and releasing it. */
  predicate UnderLock(state: RequestState) {
    || state.FindingUnderLock? || state.Inserting? || state.FindingAfterViolation? || state.AddingJob?
    || state.MarkingFailed? || state.StoringUnderLock? || state.Releasing?
  }

  predicate SelectsByKey(state: RequestState) {
    state.FindingByKey? || state.WaitingForRow? || state.FindingUnderLock? || state.FindingAfterViolation?
  }

  predicate Proceeds(state: RequestState) {
    || state.ReadingCache? || state.FindingCached? || state.ForgettingCached? || state.Storing?
    || state.StoringUnderLock? || state.Releasing?
  }

  /** The publisher of a message's first epoch is the request that inserted it. */
  predicate BelongsToRequest(step: Step) {
    || (step.Publish? && step.epoch == 0) || (step.FailPublish? && step.epoch == 0)
    || (step.Compensate? && step.epoch == 0) || (step.Abandon? && step.epoch == 0)
  }

  /** The step that an action takes in the machine of one message, if it takes any. */
  function MessageStep(s: System, action: Action): Option<(Id, Step)> {
    match action
    case AddJob(r) =>
      if r < |s.requests| && s.requests[r].state.AddingJob? then Some((s.requests[r].state.id, Publish(0))) else None
    case FailToAddJob(r, anyway) =>
      if r < |s.requests| && s.requests[r].state.AddingJob? then Some((s.requests[r].state.id, FailPublish(0, anyway))) else None
    case MarkFailed(r, now) =>
      if r < |s.requests| && s.requests[r].state.MarkingFailed? then Some((s.requests[r].state.id, Compensate(0, "", now))) else None
    case Throw(r) =>
      if r < |s.requests| && s.requests[r].state.MarkingFailed? then Some((s.requests[r].state.id, Abandon(0))) else None
    case Die(r) =>
      if r < |s.requests| && (s.requests[r].state.MarkingFailed? || s.requests[r].state.AddingJob?)
      then Some((s.requests[r].state.id, Abandon(0))) else None
    case OnMessage(id, step) => Some((id, step))
    case _ => None
  }

  predicate RequestReady(s: System, action: Action) {
    match action
    case Proceed(r) => r < |s.requests| && Proceeds(s.requests[r].state)
    case Select(r, id) =>
      && r < |s.requests| && SelectsByKey(s.requests[r].state)
      && (KeyTaken(s.table, s.requests[r].key) ==> id in s.table && s.table[id].key == s.requests[r].key)
    case Acquire(r, token) => r < |s.requests| && s.requests[r].state.AcquiringLock? && FreshToken(s, token)
    case AcquireUnheard(r, token) =>
      r < |s.requests| && s.requests[r].state.AcquiringLock? && FreshToken(s, token) && s.requests[r].key !in s.locks
    case InsertRow(r, id) => r < |s.requests| && s.requests[r].state.Inserting? && id !in s.table
    case InsertUnheard(r, id) =>
      && r < |s.requests| && s.requests[r].state.Inserting? && id !in s.table
      && !KeyTaken(s.table, s.requests[r].key)
    case AddJob(r) => r < |s.requests| && s.requests[r].state.AddingJob?
    case FailToAddJob(r, _) => r < |s.requests| && s.requests[r].state.AddingJob?
    case MarkFailed(r, _) => r < |s.requests| && s.requests[r].state.MarkingFailed?
    case Throw(r) => r < |s.requests| && !s.requests[r].state.Ended? && !s.requests[r].state.AddingJob?
    case Die(r) => r < |s.requests| && !s.requests[r].state.Ended?
    case OnMessage(_, step) => !BelongsToRequest(step)
    case _ => true
  }

  predicate Possible(cfg: Config, s: System, action: Action) {
    && RequestReady(s, action)
    && var taken := MessageStep(s, action);
       taken.Some? ==> taken.value.0 in s.table && Enabled(cfg, s.table[taken.value.0].message, taken.value.1)
  }

  function Move(request: Request, state: RequestState): Request {
    request.(state := state)
  }

  /** A lookup by key came back, with the row's id or with nothing. */
  function AfterSelect(request: Request, found: bool, id: Id): RequestState
    requires SelectsByKey(request.state)
  {
    match request.state
    case FindingByKey => if found then Storing(id) else AcquiringLock
    case WaitingForRow(attempt) =>
      if found then Storing(id)
      else if attempt + 1 < WAIT_ATTEMPTS then WaitingForRow(attempt + 1)
      else Ended(Conflict)
    case FindingUnderLock => if found then StoringUnderLock(id) else Inserting
    case FindingAfterViolation => if found then StoringUnderLock(id) else Releasing(Error)
  }

  /** An operation with a single outcome came back. */
  function AfterProceed(s: System, request: Request): Request {
    match request.state
    case ReadingCache =>
      Move(request, if request.key in s.cache then FindingCached(s.cache[request.key]) else FindingByKey)
    case FindingCached(id) => Move(request, if id in s.table then Ended(Replied(id)) else ForgettingCached)
    case ForgettingCached => Move(request, FindingByKey)
    case Storing(id) => Move(request, Ended(Replied(id)))
    case StoringUnderLock(id) => Move(request, Releasing(Replied(id)))
    case Releasing(outcome) => Move(request, Ended(outcome))
    case _ => request
  }

  /** The request's own record after the action; it keeps its key throughout. */
  function RequestAfter(s: System, request: Request, action: Action): Request
    requires RequestReady(s, action)
  {
    match action
    case Proceed(_) => AfterProceed(s, request)
    case Select(_, id) =>
      if SelectsByKey(request.state) then
        Move(request, AfterSelect(request, KeyTaken(s.table, request.key), id))
      else request
    case Acquire(_, token) =>
      if request.key in s.locks then Move(request, WaitingForRow(0))
      else request.(state := FindingUnderLock, token := Some(token))
    case AcquireUnheard(_, token) => request.(state := Ended(Error), token := Some(token), leaked := true)
    case InsertRow(_, id) =>
      if KeyTaken(s.table, request.key) then Move(request, FindingAfterViolation)
      else request.(state := AddingJob(id), inserted := Some(id))
    case InsertUnheard(_, id) => request.(state := Releasing(Error), inserted := Some(id))
    case AddJob(_) =>
      if request.state.AddingJob? then request.(state := StoringUnderLock(request.state.id), addedJob := true) else request
    case FailToAddJob(_, _) =>
      if request.state.AddingJob? then request.(state := MarkingFailed(request.state.id), addedJob := true) else request
    case MarkFailed(_, _) => Move(request, Releasing(QueuePublishFailed))
    case Throw(_) =>
      if request.state.Releasing? then request.(state := Ended(request.state.outcome), leaked := true)
      else Move(request, if UnderLock(request.state) then Releasing(Error) else Ended(Error))
    case Die(_) => request.(state := Ended(Died), leaked := true)
    case _ => request
  }

  function Requester(action: Action): Option<nat> {
    match action
    case Proceed(r) => Some(r)
    case Select(r, _) => Some(r)
    case Acquire(r, _) => Some(r)
    case AcquireUnheard(r, _) => Some(r)
    case InsertRow(r, _) => Some(r)
    case InsertUnheard(r, _) => Some(r)
    case AddJob(r) => Some(r)
    case FailToAddJob(r, _) => Some(r)
    case MarkFailed(r, _) => Some(r)
    case Throw(r) => Some(r)
    case Die(r) => Some(r)
    case _ => None
  }

  function RequestsAfter(s: System, action: Action): seq<Request>
    requires RequestReady(s, action)
  {
    if action.Arrive? then s.requests + [Request(action.key, ReadingCache, None, None, false, false)]
    else match Requester(action)
      case Some(r) => s.requests[r := RequestAfter(s, s.requests[r], action)]
      case None => s.requests
  }

  function TableAfter(cfg: Config, s: System, action: Action): map<Id, Entry>
    requires Possible(cfg, s, action)
  {
    if action.InsertRow? then
      if KeyTaken(s.table, s.requests[action.r].key) then s.table
      else s.table[action.id := Entry(s.requests[action.r].key, action.r, NewMessage)]
    else if action.InsertUnheard? then
      // nobody is left to publish the job of this row
      s.table[action.id := Entry(s.requests[action.r].key, action.r, SetPublisher(NewMessage, 0, Abandoned))]
    else if MessageStep(s, action).Some? then
      var (id, step) := MessageStep(s, action).value;
      s.table[id := s.table[id].(message := Next(cfg, s.table[id].message, step))]
    else s.table
  }

  function CacheAfter(s: System, action: Action): map<Key, Id>
    requires RequestReady(s, action)
  {
    match action
    case Proceed(r) =>
      var request := s.requests[r];
      if request.state.Storing? || request.state.StoringUnderLock? then s.cache[request.key := request.state.id]
      else if request.state.ForgettingCached? then s.cache - {request.key}
      else s.cache
    case ExpireCache(key) => s.cache - {key}
    case _ => s.cache
  }

  function LocksAfter(s: System, action: Action): map<Key, Token>
    requires RequestReady(s, action)
  {
    match action
    case Acquire(r, token) => if s.requests[r].key in s.locks then s.locks else s.locks[s.requests[r].key := token]
    case AcquireUnheard(r, token) => s.locks[s.requests[r].key := token]
    case Proceed(r) =>
      var request := s.requests[r];
      if request.state.Releasing? && request.key in s.locks && Some(s.locks[request.key]) == request.token
      then s.locks - {request.key} else s.locks
    case ExpireLock(key) => s.locks - {key}
    case _ => s.locks
  }

  function After(cfg: Config, s: System, action: Action): System
    requires Possible(cfg, s, action)
  {
    System(TableAfter(cfg, s, action), CacheAfter(s, action), LocksAfter(s, action), RequestsAfter(s, action))
  }

  const Empty := System(map[], map[], map[], [])

  ghost predicate IsHistory(cfg: Config, states: seq<System>, actions: seq<Action>) {
    && |states| == |actions| + 1
    && states[0] == Empty
    && forall i | 0 <= i < |actions| ::
         Possible(cfg, states[i], actions[i]) && states[i + 1] == After(cfg, states[i], actions[i])
  }
}
