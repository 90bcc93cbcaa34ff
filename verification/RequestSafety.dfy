// Idempotent creation: whatever expires, throws or dies, and however requests interleave, a key
// has one row, one initial job and one answer; and the lock is safe though it may expire.

module RequestSafety {
  import opened SmsMessage
  import opened DeliveryStatus
  import opened DispatchPlan
  import opened MessageMachine
  import opened MessageSafety
  import opened MessageExclusive
  import opened RequestMachine
  import opened MessageClaims
  import DispatchRuns

  // ---------------------------------------------------------------- the invariant

  ghost predicate KeysUnique(s: System) {
    forall a, b | a in s.table && b in s.table :: s.table[a].key == s.table[b].key ==> a == b
  }

  predicate RowWithKey(s: System, id: Id, key: Key) {
    id in s.table && s.table[id].key == key
  }

  ghost predicate CacheFits(s: System) {
    forall key | key in s.cache :: RowWithKey(s, s.cache[key], key)
  }

  /** The id a request holds and may come to answer with. */
  function IdHeld(state: RequestState): Option<Id> {
    match state
    case FindingCached(id) => Some(id)
    case Storing(id) => Some(id)
    case AddingJob(id) => Some(id)
    case MarkingFailed(id) => Some(id)
    case StoringUnderLock(id) => Some(id)
    case Releasing(Replied(id)) => Some(id)
    case Ended(Replied(id)) => Some(id)
    case _ => None
  }

  /** Ids a request holds are ids of the row with its own key. */
  ghost predicate IdsFit(s: System) {
    forall r | 0 <= r < |s.requests| ::
      IdHeld(s.requests[r].state).Some? ==> RowWithKey(s, IdHeld(s.requests[r].state).value, s.requests[r].key)
  }

  /** A request that inserted a row is the one the row remembers. */
  ghost predicate InsertersFit(s: System) {
    forall r | 0 <= r < |s.requests| :: s.requests[r].inserted.Some? ==>
      && RowWithKey(s, s.requests[r].inserted.value, s.requests[r].key)
      && s.table[s.requests[r].inserted.value].inserter == r
  }

  /** Not yet past its INSERT. */
  predicate BeforeInsert(state: RequestState) {
    || state.ReadingCache? || state.FindingCached? || state.ForgettingCached? || state.FindingByKey?
    || state.AcquiringLock? || state.FindingUnderLock? || state.Inserting?
  }

  /** Only the request that inserted a row adds its job, and only once. */
  predicate RequestFits(request: Request) {
    && (request.addedJob ==> request.inserted.Some?)
    && (BeforeInsert(request.state) ==> request.inserted.None?)
    && (request.state.AddingJob? ==> request.inserted == Some(request.state.id) && !request.addedJob)
    && (request.state.MarkingFailed? ==> request.inserted == Some(request.state.id))
  }

  ghost predicate RequestsFit(s: System) {
    forall r | 0 <= r < |s.requests| :: RequestFits(s.requests[r])
  }

  /** The first publisher of a message is the request that inserted it, at the same point. */
  ghost predicate PublisherFits(s: System, id: Id)
    requires id in s.table
  {
    && s.table[id].inserter < |s.requests|
    && s.table[id].message.epochs != []
    && s.table[id].message.epochs[0].publisher.Publishing?
         == (s.requests[s.table[id].inserter].state == AddingJob(id))
    && s.table[id].message.epochs[0].publisher.Compensating?
         == (s.requests[s.table[id].inserter].state == MarkingFailed(id))
  }

  ghost predicate PublishersFit(s: System) {
    forall id | id in s.table :: PublisherFits(s, id)
  }

  ghost predicate CreationSound(s: System) {
    KeysUnique(s) && CacheFits(s) && IdsFit(s) && InsertersFit(s) && RequestsFit(s) && PublishersFit(s)
  }

  // ---------------------------------------------------------------- one action

  /** Rows are never deleted, and keep their key and their inserter. */
  lemma RowsStay(cfg: Config, s: System, action: Action, id: Id)
    requires Possible(cfg, s, action) && id in s.table
    ensures id in After(cfg, s, action).table
    ensures After(cfg, s, action).table[id].key == s.table[id].key
    ensures After(cfg, s, action).table[id].inserter == s.table[id].inserter
  {
  }

  lemma KeysUniqueKept(cfg: Config, s: System, action: Action)
    requires KeysUnique(s) && Possible(cfg, s, action)
    ensures KeysUnique(After(cfg, s, action))
  {
  }

  lemma CacheFitsKept(cfg: Config, s: System, action: Action)
    requires CacheFits(s) && IdsFit(s) && Possible(cfg, s, action)
    ensures CacheFits(After(cfg, s, action))
  {
    var after := After(cfg, s, action);
    forall key | key in after.cache ensures RowWithKey(after, after.cache[key], key) {
      RowsStay(cfg, s, action, after.cache[key]);
    }
  }

  lemma IdsFitKept(cfg: Config, s: System, action: Action)
    requires CacheFits(s) && IdsFit(s) && Possible(cfg, s, action)
    ensures IdsFit(After(cfg, s, action))
  {
    var after := After(cfg, s, action);
    forall r | 0 <= r < |after.requests| && IdHeld(after.requests[r].state).Some?
      ensures RowWithKey(after, IdHeld(after.requests[r].state).value, after.requests[r].key)
    {
      if Requester(action) == Some(r) {
        RequestIdKept(cfg, s, action, r);
      } else if r < |s.requests| {
        RowsStay(cfg, s, action, IdHeld(s.requests[r].state).value);
      }
    }
  }

  lemma RequestIdKept(cfg: Config, s: System, action: Action, r: nat)
    requires CacheFits(s) && IdsFit(s) && Possible(cfg, s, action)
    requires r < |s.requests| && Requester(action) == Some(r) && IdHeld(RequestAfter(s, s.requests[r], action).state).Some?
    ensures RowWithKey(After(cfg, s, action), IdHeld(RequestAfter(s, s.requests[r], action).state).value, s.requests[r].key)
  {
    RequestHoldsItsRow(s, action, r);
    var id := IdHeld(RequestAfter(s, s.requests[r], action).state).value;
    if id in s.table { RowsStay(cfg, s, action, id); }
  }

  lemma RequestHoldsItsRow(s: System, action: Action, r: nat)
    requires CacheFits(s) && IdsFit(s) && RequestReady(s, action)
    requires r < |s.requests| && Requester(action) == Some(r) && IdHeld(RequestAfter(s, s.requests[r], action).state).Some?
    ensures var id := IdHeld(RequestAfter(s, s.requests[r], action).state).value;
      || RowWithKey(s, id, s.requests[r].key)
      || (action.InsertRow? && id == action.id && !KeyTaken(s.table, s.requests[r].key))
  {
    var request := s.requests[r];
    assert IdHeld(request.state).Some? ==> RowWithKey(s, IdHeld(request.state).value, request.key);
  }

  lemma InsertersFitKept(cfg: Config, s: System, action: Action)
    requires InsertersFit(s) && RequestsFit(s) && Possible(cfg, s, action)
    ensures InsertersFit(After(cfg, s, action)) && RequestsFit(After(cfg, s, action))
  {
    var after := After(cfg, s, action);
    forall r | 0 <= r < |after.requests| && after.requests[r].inserted.Some?
      ensures RowWithKey(after, after.requests[r].inserted.value, after.requests[r].key)
      ensures after.table[after.requests[r].inserted.value].inserter == r
    {
      var id := after.requests[r].inserted.value;
      InsertedBefore(s, action, r);
      if id in s.table { RowsStay(cfg, s, action, id); }
    }
    RequestsFitKept(s, action);
  }

  /** The row a request inserted is one it had inserted before, or the one this action inserts. */
  lemma InsertedBefore(s: System, action: Action, r: nat)
    requires RequestReady(s, action) && r < |RequestsAfter(s, action)| && RequestsAfter(s, action)[r].inserted.Some?
    ensures r < |s.requests| && RequestsAfter(s, action)[r].key == s.requests[r].key
    ensures
      || RequestsAfter(s, action)[r].inserted == s.requests[r].inserted
      || ((action.InsertRow? || action.InsertUnheard?) && action.r == r
          && RequestsAfter(s, action)[r].inserted == Some(action.id) && !KeyTaken(s.table, s.requests[r].key))
  {
  }

  lemma RequestsFitKept(s: System, action: Action)
    requires RequestsFit(s) && RequestReady(s, action)
    ensures forall r | 0 <= r < |RequestsAfter(s, action)| :: RequestFits(RequestsAfter(s, action)[r])
  {
  }

  lemma FirstEpochKept(cfg: Config, m: Message, step: Step)
    requires m.epochs != [] && Enabled(cfg, m, step) && !BelongsToRequest(step)
    ensures Next(cfg, m, step).epochs != []
    ensures Next(cfg, m, step).epochs[0].publisher == m.epochs[0].publisher
  {
  }

  lemma PublishersFitKept(cfg: Config, s: System, action: Action)
    requires InsertersFit(s) && RequestsFit(s) && PublishersFit(s) && Possible(cfg, s, action)
    ensures PublishersFit(After(cfg, s, action))
  {
    var after := After(cfg, s, action);
    forall id | id in after.table ensures PublisherFits(after, id) {
      if id in s.table {
        RowsStay(cfg, s, action, id);
        var r := s.table[id].inserter;
        if action.OnMessage? && action.id == id {
          FirstEpochKept(cfg, s.table[id].message, action.step);
        } else {
          PublisherFitsAfterRequest(cfg, s, action, id);
        }
      }
    }
  }

  lemma PublisherFitsAfterRequest(cfg: Config, s: System, action: Action, id: Id)
    requires InsertersFit(s) && RequestsFit(s) && Possible(cfg, s, action)
    requires id in s.table && PublisherFits(s, id) && !(action.OnMessage? && action.id == id)
    ensures id in After(cfg, s, action).table && PublisherFits(After(cfg, s, action), id)
  {
    var taken := MessageStep(s, action);
    if taken.Some? && taken.value.0 == id {
      PublisherFitsAfterInserter(cfg, s, action, id);
    } else {
      RowsStay(cfg, s, action, id);
      assert After(cfg, s, action).table[id].message == s.table[id].message;
      InserterStays(s, action, id);
    }
  }

  lemma PublisherFitsAfterInserter(cfg: Config, s: System, action: Action, id: Id)
    requires InsertersFit(s) && RequestsFit(s) && Possible(cfg, s, action) && !action.OnMessage?
    requires id in s.table && PublisherFits(s, id)
    requires MessageStep(s, action).Some? && MessageStep(s, action).value.0 == id
    ensures PublisherFits(After(cfg, s, action), id)
  {
    assert RequestFits(s.requests[Requester(action).value]);
    assert Requester(action) == Some(s.table[id].inserter);
  }

  /** Unless it acts on its message, the inserter does not reach or leave the states that do. */
  lemma InserterStays(s: System, action: Action, id: Id)
    requires RequestsFit(s) && RequestReady(s, action) && id in s.table && s.table[id].inserter < |s.requests|
    requires MessageStep(s, action).None? || MessageStep(s, action).value.0 != id
    ensures var before, after := s.requests[s.table[id].inserter].state, RequestsAfter(s, action)[s.table[id].inserter].state;
      (after == AddingJob(id) <==> before == AddingJob(id)) && (after == MarkingFailed(id) <==> before == MarkingFailed(id))
  {
    var r := s.table[id].inserter;
    if Requester(action) == Some(r) { ActorStays(s, s.requests[r], action, r, id); }
  }

  lemma ActorStays(s: System, request: Request, action: Action, r: nat, id: Id)
    requires RequestReady(s, action) && r < |s.requests| && request == s.requests[r] && RequestFits(request)
    requires Requester(action) == Some(r) && id in s.table
    requires MessageStep(s, action).None? || MessageStep(s, action).value.0 != id
    ensures RequestAfter(s, request, action).state == AddingJob(id) <==> request.state == AddingJob(id)
    ensures RequestAfter(s, request, action).state == MarkingFailed(id) <==> request.state == MarkingFailed(id)
  {
  }

  lemma {:induction false} CreationSoundOverHistories(cfg: Config, states: seq<System>, actions: seq<Action>, i: nat)
    requires IsHistory(cfg, states, actions) && i < |states|
    ensures CreationSound(states[i])
  {
    if i > 0 {
      CreationSoundOverHistories(cfg, states, actions, i - 1);
      var s, action := states[i - 1], actions[i - 1];
      KeysUniqueKept(cfg, s, action);
      CacheFitsKept(cfg, s, action);
      IdsFitKept(cfg, s, action);
      InsertersFitKept(cfg, s, action);
      PublishersFitKept(cfg, s, action);
    }
  }

  /**
   * Over any history: a key has at most one row, at most one request ever calls the queue for
   * that key's initial job, every cache entry names the key's row, and so does every success
   * reply, whether it came from the cache, the table, the insert or a lost race.
   */
  lemma OneRowOneJobOneAnswer(cfg: Config, states: seq<System>, actions: seq<Action>, i: nat)
    requires IsHistory(cfg, states, actions) && i < |states|
    ensures var s := states[i];
      && (forall a, b | a in s.table && b in s.table :: s.table[a].key == s.table[b].key ==> a == b)
      && (forall q, r | 0 <= q < |s.requests| && 0 <= r < |s.requests| ::
            s.requests[q].key == s.requests[r].key && s.requests[q].addedJob && s.requests[r].addedJob ==> q == r)
      && (forall key | key in s.cache :: RowWithKey(s, s.cache[key], key))
      && (forall r | 0 <= r < |s.requests| && s.requests[r].state.Ended? && s.requests[r].state.outcome.Replied? ::
            RowWithKey(s, s.requests[r].state.outcome.id, s.requests[r].key))
  {
    CreationSoundOverHistories(cfg, states, actions, i);
    var s := states[i];
    forall q, r | 0 <= q < |s.requests| && 0 <= r < |s.requests|
      ensures s.requests[q].key == s.requests[r].key && s.requests[q].addedJob && s.requests[r].addedJob ==> q == r
    {
      assert RequestFits(s.requests[q]) && RequestFits(s.requests[r]);
    }
    forall r | 0 <= r < |s.requests| && s.requests[r].state.Ended? && s.requests[r].state.outcome.Replied?
      ensures RowWithKey(s, s.requests[r].state.outcome.id, s.requests[r].key)
    {
      assert IdHeld(s.requests[r].state).Some?;
    }
  }

  /** A request calls the queue at most once: the call is what takes it out of the only state that allows it. */
  lemma QueueCalledOnce(cfg: Config, states: seq<System>, actions: seq<Action>, i: nat)
    requires IsHistory(cfg, states, actions) && i < |actions|
    requires actions[i].AddJob? || actions[i].FailToAddJob?
    ensures !states[i].requests[actions[i].r].addedJob && states[i + 1].requests[actions[i].r].addedJob
  {
    CreationSoundOverHistories(cfg, states, actions, i);
    assert RequestFits(states[i].requests[actions[i].r]);
  }

  // ---------------------------------------------------------------- the lock

  /** The lock on a key is held by a request that is still to release it, or never will. */
  ghost predicate LockOwned(s: System, key: Key)
    requires key in s.locks
  {
    exists r | 0 <= r < |s.requests| ::
      && s.requests[r].token == Some(s.locks[key]) && s.requests[r].key == key
      && (UnderLock(s.requests[r].state) || s.requests[r].leaked)
  }

  ghost predicate TokensDistinct(s: System) {
    forall q, r | 0 <= q < r < |s.requests| ::
      s.requests[q].token.Some? ==> s.requests[q].token != s.requests[r].token
  }

  /** A request in the critical section has a token; only an ended one can have leaked it. */
  predicate TokenFits(request: Request) {
    && (UnderLock(request.state) ==> request.token.Some?)
    && (request.leaked ==> request.state.Ended?)
  }

  ghost predicate LocksSound(s: System) {
    && TokensDistinct(s)
    && (forall key | key in s.locks :: LockOwned(s, key))
    && (forall r | 0 <= r < |s.requests| :: TokenFits(s.requests[r]))
  }

  lemma TokensStayDistinct(s: System, action: Action)
    requires TokensDistinct(s) && RequestReady(s, action)
    requires forall r | 0 <= r < |s.requests| :: TokenFits(s.requests[r])
    ensures TokensDistinct(s.(requests := RequestsAfter(s, action)))
  {
    var after := RequestsAfter(s, action);
    assert forall r | 0 <= r < |s.requests| && !(action.Acquire? && action.r == r) && !(action.AcquireUnheard? && action.r == r) ::
      after[r].token == s.requests[r].token;
  }

  lemma TokensKept(s: System, action: Action)
    requires LocksSound(s) && RequestReady(s, action)
    ensures forall r | 0 <= r < |RequestsAfter(s, action)| :: TokenFits(RequestsAfter(s, action)[r])
  {
  }

  lemma LocksSoundKept(cfg: Config, s: System, action: Action)
    requires LocksSound(s) && Possible(cfg, s, action)
    ensures LocksSound(After(cfg, s, action))
  {
    TokensKept(s, action);
    TokensStayDistinct(s, action);
    forall key | key in After(cfg, s, action).locks ensures LockOwned(After(cfg, s, action), key) {
      LockOwnedKept(cfg, s, action, key);
    }
  }

  lemma LockOwnedKept(cfg: Config, s: System, action: Action, key: Key)
    requires LocksSound(s) && Possible(cfg, s, action) && key in After(cfg, s, action).locks
    ensures LockOwned(After(cfg, s, action), key)
  {
    var after := After(cfg, s, action);
    if key in s.locks && after.locks[key] == s.locks[key] {
      var r :| 0 <= r < |s.requests| && s.requests[r].token == Some(s.locks[key]) && s.requests[r].key == key
        && (UnderLock(s.requests[r].state) || s.requests[r].leaked);
      OwnerStays(s, action, key, r);
    } else {
      var r := Requester(action).value;
      assert after.requests[r].token == Some(after.locks[key]) && after.requests[r].key == key;
    }
  }

  /** While a lock stays, so does its owner: whatever the owner does keeps it or leaks it. */
  lemma OwnerStays(s: System, action: Action, key: Key, r: nat)
    requires LocksSound(s) && RequestReady(s, action)
    requires key in s.locks && key in LocksAfter(s, action)
    requires r < |s.requests| && s.requests[r].token == Some(s.locks[key]) && s.requests[r].key == key
    requires UnderLock(s.requests[r].state) || s.requests[r].leaked
    ensures var owner := RequestsAfter(s, action)[r];
      owner.token == s.requests[r].token && owner.key == key && (UnderLock(owner.state) || owner.leaked)
  {
    assert TokenFits(s.requests[r]);
    if Requester(action) != Some(r) {
      assert RequestsAfter(s, action)[r] == s.requests[r];
    } else {
      assert s.requests[r].leaked ==> s.requests[r].state.Ended?;
    }
  }

  lemma {:induction false} LocksSoundOverHistories(cfg: Config, states: seq<System>, actions: seq<Action>, i: nat)
    requires IsHistory(cfg, states, actions) && i < |states|
    ensures LocksSound(states[i])
  {
    if i > 0 {
      LocksSoundOverHistories(cfg, states, actions, i - 1);
      LocksSoundKept(cfg, states[i - 1], actions[i - 1]);
    }
  }

  /** Whether the request owns the unexpired lock of its key. */
  predicate HoldsLock(s: System, r: nat) {
    r < |s.requests| && s.requests[r].key in s.locks && s.requests[r].token == Some(s.locks[s.requests[r].key])
  }

  /**
   * At most one request holds the unexpired lock of a key, and one that ended without a crash or
   * a store error holds none.
   */
  lemma LockIsSafe(cfg: Config, states: seq<System>, actions: seq<Action>, i: nat)
    requires IsHistory(cfg, states, actions) && i < |states|
    ensures forall q: nat, r: nat | HoldsLock(states[i], q) && HoldsLock(states[i], r) ::
      states[i].requests[q].key == states[i].requests[r].key ==> q == r
    ensures forall r: nat | HoldsLock(states[i], r) ::
      states[i].requests[r].state.Ended? ==> states[i].requests[r].leaked
  {
    LocksSoundOverHistories(cfg, states, actions, i);
    var s := states[i];
    forall r: nat | HoldsLock(s, r) ensures s.requests[r].state.Ended? ==> s.requests[r].leaked {
      assert LockOwned(s, s.requests[r].key);
    }
  }

  /** No action of a request, its release included, takes away a lock that another one holds. */
  lemma ReleaseSparesOthers(cfg: Config, states: seq<System>, actions: seq<Action>, i: nat, other: nat)
    requires IsHistory(cfg, states, actions) && i < |actions| && HoldsLock(states[i], other)
    requires Requester(actions[i]).Some? && Requester(actions[i]).value != other
    ensures HoldsLock(states[i + 1], other)
  {
    LocksSoundOverHistories(cfg, states, actions, i);
  }

  // ---------------------------------------------------------------- each message, on its own

  /** Every step taken in some message's machine respects E1 and E2. */
  ghost predicate ExclusiveHistory(states: seq<System>, actions: seq<Action>) {
    && |states| == |actions| + 1
    && forall i | 0 <= i < |actions| && MessageStep(states[i], actions[i]).Some? ::
         var (id, step) := MessageStep(states[i], actions[i]).value;
         id in states[i].table ==>
           && ClaimsAlone(states[i].table[id].message, step)
           && FailedPublishUnclaimed(states[i].table[id].message, step)
  }

  /** Every step taken in some message's machine is orderly. */
  ghost predicate OrderlyHistory(states: seq<System>, actions: seq<Action>) {
    && |states| == |actions| + 1
    && forall i | 0 <= i < |actions| && MessageStep(states[i], actions[i]).Some? ::
         var (id, step) := MessageStep(states[i], actions[i]).value;
         id in states[i].table ==> Orderly(states[i].table[id].message, step)
  }

  ghost predicate OrderlyRun(states: seq<Message>, steps: seq<Step>) {
    |states| == |steps| + 1 && forall i | 0 <= i < |steps| :: Orderly(states[i], steps[i])
  }

  lemma ExtendRun(cfg: Config, messages: seq<Message>, steps: seq<Step>, step: Step)
      returns (messages': seq<Message>, steps': seq<Step>)
    requires IsRun(cfg, messages, steps) && Enabled(cfg, messages[|steps|], step)
    ensures IsRun(cfg, messages', steps') && messages'[|steps'|] == Next(cfg, messages[|steps|], step)
    ensures Exclusive(messages, steps) && ClaimsAlone(messages[|steps|], step) && FailedPublishUnclaimed(messages[|steps|], step)
            ==> Exclusive(messages', steps')
    ensures OrderlyRun(messages, steps) && Orderly(messages[|steps|], step) ==> OrderlyRun(messages', steps')
  {
    DispatchRuns.RunGoesOn(cfg, messages, steps, step);
    messages', steps' := messages + [Next(cfg, messages[|steps|], step)], steps + [step];
  }

  /** What an action of the system is to one message: its beginning, a step of it, or nothing. */
  lemma SeenFromMessage(cfg: Config, s: System, action: Action, id: Id)
    requires Possible(cfg, s, action) && id in After(cfg, s, action).table
    ensures var taken, after := MessageStep(s, action), After(cfg, s, action).table[id].message;
      if id !in s.table then
        after == if action.InsertUnheard? then SetPublisher(NewMessage, 0, Abandoned) else NewMessage
      else if taken.Some? && taken.value.0 == id then
        Enabled(cfg, s.table[id].message, taken.value.1) && after == Next(cfg, s.table[id].message, taken.value.1)
      else after == s.table[id].message
  {
  }

  /**
   * Seen from one message, the whole system is a run of that message's machine; and if the
   * system respects E1 and E2, or is orderly, so is that run.
   */
  lemma {:induction false} Projection(cfg: Config, states: seq<System>, actions: seq<Action>, i: nat, id: Id)
      returns (messages: seq<Message>, steps: seq<Step>)
    requires IsHistory(cfg, states, actions) && i < |states| && id in states[i].table
    ensures IsRun(cfg, messages, steps) && messages[|steps|] == states[i].table[id].message
    ensures ExclusiveHistory(states, actions) ==> Exclusive(messages, steps)
    ensures OrderlyHistory(states, actions) ==> OrderlyRun(messages, steps)
  {
    if i > 0 {
      var s, action := states[i - 1], actions[i - 1];
      SeenFromMessage(cfg, s, action, id);
      if id !in s.table {
        messages, steps := [NewMessage], [];
        if action.InsertUnheard? {
          messages, steps := ExtendRun(cfg, messages, steps, Abandon(0));
        }
      } else {
        messages, steps := Projection(cfg, states, actions, i - 1, id);
        if MessageStep(s, action).Some? && MessageStep(s, action).value.0 == id {
          messages, steps := ExtendRun(cfg, messages, steps, MessageStep(s, action).value.1);
        }
      }
    }
  }

  /**
   * In the whole system, with no assumption: a message is stranded only if its job ran out of
   * retries or its publisher died; attempts are conserved; and requeues are paid for.
   */
  lemma EveryMessageIsAccountedFor(cfg: Config, states: seq<System>, actions: seq<Action>, i: nat, id: Id)
    requires IsHistory(cfg, states, actions) && i < |states| && id in states[i].table
    ensures var m := states[i].table[id].message;
      && m.epochs != []
      && (Stranded(m) ==> Forsaken(m))
      && UnsentHasNoReceipt(m.row)
      && AttemptsConserved(m)
      && RequeuesPaidFor(m)
      && (m.epochs[0].publisher.Publishing? ==>
            states[i].table[id].inserter < |states[i].requests|
            && states[i].requests[states[i].table[id].inserter].state == AddingJob(id))
  {
    var messages, steps := Projection(cfg, states, actions, i, id);
    StrandedIffForsaken(cfg, messages, steps, |steps|);
    UnsentRowsHaveNoReceipt(cfg, messages, steps, |steps|);
    AttemptsOverRuns(cfg, messages, steps, |steps|);
    RequeuesConserved(cfg, messages, steps, |steps|);
    CreationSoundOverHistories(cfg, states, actions, i);
    assert PublisherFits(states[i], id);
  }

  /** In the whole system, under E1 and E2: integrity, settled rows and bounded duplicates. */
  lemma EveryMessageIsSound(cfg: Config, states: seq<System>, actions: seq<Action>, i: nat, id: Id)
    requires IsHistory(cfg, states, actions) && ExclusiveHistory(states, actions)
    requires i < |states| && id in states[i].table
    ensures var m := states[i].table[id].message;
      && RowIntegrity(m.row)
      && (m.history.sentRow.Some? ==>
            InDeliveryPhase(m.row.status) && m.row == Fold(m.history.sentRow.value, m.history.applied))
      && m.history.accepted <= 1 + m.history.lostAccepts
  {
    var messages, steps := Projection(cfg, states, actions, i, id);
    ExclusiveRunsAreSound(cfg, messages, steps, |steps|);
    DuplicatesBoundedByCrashes(cfg, messages, steps, |steps|);
  }

  /** In the whole system, under E1 and E2: a message once in the delivery phase stays there, and climbs. */
  lemma {:induction false} SentMessagesStaySent(cfg: Config, states: seq<System>, actions: seq<Action>, i: nat, j: nat, id: Id)
    requires IsHistory(cfg, states, actions) && ExclusiveHistory(states, actions) && i <= j < |states|
    requires id in states[i].table && InDeliveryPhase(states[i].table[id].message.row.status)
    ensures id in states[j].table
    ensures var before, after := states[i].table[id].message.row, states[j].table[id].message.row;
      && InDeliveryPhase(after.status) && Rank(before.status) <= Rank(after.status)
      && (before.status == Delivered ==> after == before)
  {
    if i < j {
      SentMessagesStaySent(cfg, states, actions, i, j - 1, id);
      var s, action := states[j - 1], actions[j - 1];
      RowsStay(cfg, s, action, id);
      if MessageStep(s, action).Some? && MessageStep(s, action).value.0 == id {
        var messages, steps := Projection(cfg, states, actions, j - 1, id);
        ExclusiveRunsAreSound(cfg, messages, steps, |steps|);
        DeliveryStep(cfg, s.table[id].message, MessageStep(s, action).value.1);
      } else {
        assert states[j].table[id].message == s.table[id].message;
      }
    }
  }

  /**
   * In the whole system, E1 and E2 hold wherever the queue redelivers jobs only from ended holders,
   * messages are requeued only when their jobs are settled, and failed adds add nothing.
   */
  lemma OrderlyHistoriesAreExclusive(cfg: Config, states: seq<System>, actions: seq<Action>)
    requires IsHistory(cfg, states, actions) && OrderlyHistory(states, actions)
    ensures ExclusiveHistory(states, actions)
  {
    forall i | 0 <= i < |actions| && MessageStep(states[i], actions[i]).Some?
      ensures var (id, step) := MessageStep(states[i], actions[i]).value;
        id in states[i].table ==>
          && ClaimsAlone(states[i].table[id].message, step)
          && FailedPublishUnclaimed(states[i].table[id].message, step)
    {
      var (id, step) := MessageStep(states[i], actions[i]).value;
      if id in states[i].table {
        var messages, steps := Projection(cfg, states, actions, i, id);
        OrderlyRunsStayInOrder(cfg, messages, steps, |steps|);
        ClaimInOrderIsAlone(cfg, messages[|steps|], step);
      }
    }
  }
}
