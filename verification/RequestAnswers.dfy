// Why a send request ends as it does: each outcome but a success is explained by something that
// happened to the request's own operations, and a success names an id that was cached.

module RequestAnswers {
  import opened SmsMessage
  import opened DispatchPlan
  import opened RequestMachine
  import RequestSafety

  /**
   * What happened to a request: whether an operation of its own threw or lost its reply, whether
   * its add failed, whether its process died, whether it found the lock of its key taken, and how
   * many lookups it made while waiting that found no row with its key.
   */
  datatype Record = Record(failed: bool, addFailed: bool, died: bool, lockTaken: bool, missed: nat)

  const Blank := Record(false, false, false, false, 0)

  predicate IsOwn(s: System, r: nat) {
    r < |s.requests|
  }

  predicate FailsIn(action: Action, r: nat) {
    action == Throw(r) || (action.AcquireUnheard? && action.r == r) || (action.InsertUnheard? && action.r == r)
  }

  predicate FindsLockTaken(s: System, action: Action, r: nat) {
    action.Acquire? && action.r == r && IsOwn(s, r) && s.requests[r].key in s.locks
  }

  predicate MissesRow(s: System, action: Action, r: nat) {
    && action.Select? && action.r == r && IsOwn(s, r) && s.requests[r].state.WaitingForRow?
    && !KeyTaken(s.table, s.requests[r].key)
  }

  function RecordAfter(record: Record, s: System, action: Action, r: nat): Record {
    Record(record.failed || FailsIn(action, r),
           record.addFailed || (action.FailToAddJob? && action.r == r),
           record.died || action == Die(r),
           record.lockTaken || FindsLockTaken(s, action, r),
           record.missed + if MissesRow(s, action, r) then 1 else 0)
  }

  /** What happened to request `r` in the first `i` actions. */
  function Recorded(states: seq<System>, actions: seq<Action>, i: nat, r: nat): Record
    requires i <= |actions| && i <= |states|
  {
    if i == 0 then Blank else RecordAfter(Recorded(states, actions, i - 1, r), states[i - 1], actions[i - 1], r)
  }

  lemma {:induction false} RecordedInLonger(states: seq<System>, actions: seq<Action>,
                                            states': seq<System>, actions': seq<Action>, i: nat, r: nat)
    requires i <= |actions| && i <= |states| && states <= states' && actions <= actions'
    ensures Recorded(states, actions, i, r) == Recorded(states', actions', i, r)
  {
    if i > 0 { RecordedInLonger(states, actions, states', actions', i - 1, r); }
  }

  /** Nothing has happened to a request that has not arrived. */
  lemma {:induction false} BlankBeforeArrival(cfg: Config, states: seq<System>, actions: seq<Action>, i: nat, r: nat)
    requires IsHistory(cfg, states, actions) && i < |states| && !IsOwn(states[i], r)
    ensures Recorded(states, actions, i, r) == Blank
  {
    if i > 0 {
      assert |states[i - 1].requests| <= |states[i].requests|;
      BlankBeforeArrival(cfg, states, actions, i - 1, r);
    }
  }

  /** The outcome, but for a success, has its reason in what happened. */
  predicate Explained(outcome: Outcome, record: Record) {
    match outcome
    case Replied(_) => true
    case Conflict => record.lockTaken && record.missed == 20
    case QueuePublishFailed => record.addFailed
    case Error => record.failed
    case Died => record.died
  }

  predicate BeforeWaiting(state: RequestState) {
    state.ReadingCache? || state.FindingCached? || state.ForgettingCached? || state.FindingByKey? || state.AcquiringLock?
  }

  /** The record explains a request in this state; `taken` is whether a row with its key exists. */
  predicate ExplainsState(state: RequestState, taken: bool, record: Record) {
    && (BeforeWaiting(state) ==> record.missed == 0)
    && (state.WaitingForRow? ==> record.lockTaken && record.missed == state.attempt < 20)
    && (state.FindingAfterViolation? ==> taken)
    && (state.MarkingFailed? ==> record.addFailed)
    && (state.Releasing? || state.Ended? ==> Explained(state.outcome, record))
  }

  predicate Explains(s: System, r: nat, record: Record) {
    if IsOwn(s, r) then ExplainsState(s.requests[r].state, KeyTaken(s.table, s.requests[r].key), record)
    else record.missed == 0
  }

  lemma KeyStaysTaken(cfg: Config, s: System, action: Action, key: Key)
    requires Possible(cfg, s, action) && KeyTaken(s.table, key)
    ensures KeyTaken(After(cfg, s, action).table, key)
  {
    var id :| id in s.table && s.table[id].key == key;
    RequestSafety.RowsStay(cfg, s, action, id);
  }

  lemma OwnActionWaits(s: System, action: Action, r: nat, record: Record)
    requires RequestReady(s, action) && IsOwn(s, r) && Requester(action) == Some(r) && Explains(s, r, record)
    ensures var state, after := RequestAfter(s, s.requests[r], action).state, RecordAfter(record, s, action, r);
      && (BeforeWaiting(state) ==> after.missed == 0)
      && (state.WaitingForRow? ==> after.lockTaken && after.missed == state.attempt < 20)
      && (state.FindingAfterViolation? ==> KeyTaken(s.table, s.requests[r].key))
  {
  }

  lemma OwnActionEnds(s: System, action: Action, r: nat, record: Record)
    requires RequestReady(s, action) && IsOwn(s, r) && Requester(action) == Some(r) && Explains(s, r, record)
    ensures var state, after := RequestAfter(s, s.requests[r], action).state, RecordAfter(record, s, action, r);
      && (state.MarkingFailed? ==> after.addFailed)
      && (state.Releasing? || state.Ended? ==> Explained(state.outcome, after))
  {
  }

  /** The request's own action explains where it leaves the request. */
  lemma OwnActionExplains(s: System, action: Action, r: nat, record: Record)
    requires RequestReady(s, action) && IsOwn(s, r) && Requester(action) == Some(r) && Explains(s, r, record)
    ensures ExplainsState(RequestAfter(s, s.requests[r], action).state, KeyTaken(s.table, s.requests[r].key),
                          RecordAfter(record, s, action, r))
  {
    OwnActionWaits(s, action, r, record);
    OwnActionEnds(s, action, r, record);
  }

  /** Nobody else's action says anything about the request. */
  lemma OthersSayNothing(s: System, action: Action, r: nat, record: Record)
    requires RequestReady(s, action)
    ensures Requester(action) != Some(r) ==> RecordAfter(record, s, action, r) == record
    ensures Requester(action) != Some(r) && IsOwn(s, r) ==> RequestsAfter(s, action)[r] == s.requests[r]
    ensures !IsOwn(s, r) && r < |RequestsAfter(s, action)| ==> BeforeWaiting(RequestsAfter(s, action)[r].state)
  {
  }

  lemma ExplainsKept(cfg: Config, s: System, action: Action, r: nat, record: Record)
    requires Possible(cfg, s, action) && Explains(s, r, record)
    ensures Explains(After(cfg, s, action), r, RecordAfter(record, s, action, r))
  {
    if !IsOwn(s, r) {
      OthersSayNothing(s, action, r, record);
    } else {
      var requests, table := RequestsAfter(s, action), After(cfg, s, action).table;
      KeyStays(s, action, r);
      if KeyTaken(s.table, s.requests[r].key) { KeyStaysTaken(cfg, s, action, s.requests[r].key); }
      assert ExplainsState(requests[r].state, KeyTaken(s.table, requests[r].key), RecordAfter(record, s, action, r)) by {
        if Requester(action) == Some(r) {
          OwnActionExplains(s, action, r, record);
        } else {
          OthersSayNothing(s, action, r, record);
        }
      }
      assert KeyTaken(s.table, requests[r].key) ==> KeyTaken(table, requests[r].key);
    }
  }

  lemma KeyStays(s: System, action: Action, r: nat)
    requires RequestReady(s, action)
    ensures IsOwn(s, r) ==> RequestsAfter(s, action)[r].key == s.requests[r].key
  {
  }

  lemma {:induction false} HistoriesExplain(cfg: Config, states: seq<System>, actions: seq<Action>, i: nat, r: nat)
    requires IsHistory(cfg, states, actions) && i < |states|
    ensures Explains(states[i], r, Recorded(states, actions, i, r))
  {
    if i > 0 {
      HistoriesExplain(cfg, states, actions, i - 1, r);
      ExplainsKept(cfg, states[i - 1], actions[i - 1], r, Recorded(states, actions, i - 1, r));
    }
  }

  /**
   * Over any history: a request ends in an error only if an operation of its own threw or lost its
   * reply, unpublished only if its add failed, and in a conflict only if it found the lock taken and
   * then looked 20 times without finding a row with its key.  Otherwise it ends with a success.
   */
  lemma AnswersAreExplained(cfg: Config, states: seq<System>, actions: seq<Action>, i: nat, r: nat)
    requires IsHistory(cfg, states, actions) && i < |states| && IsOwn(states[i], r) && states[i].requests[r].state.Ended?
    ensures var outcome, record := states[i].requests[r].state.outcome, Recorded(states, actions, i, r);
      && Explained(outcome, record)
      && (!record.failed && !record.addFailed && !record.died && record.missed < 20 ==> outcome.Replied?)
      && (!record.failed && !record.addFailed && !record.died && !record.lockTaken ==> outcome.Replied?)
  {
    HistoriesExplain(cfg, states, actions, i, r);
  }

  // ---------------------------------------------------------------- replies and the cache

  /** At some time so far the cache held this id for the key. */
  ghost predicate WasCached(states: seq<System>, i: nat, key: Key, id: Id) {
    exists h | 0 <= h <= i && h < |states| :: key in states[h].cache && states[h].cache[key] == id
  }

  /** The id the request was given by the cache, or gave to it. */
  function IdCached(state: RequestState): Option<Id> {
    match state
    case FindingCached(id) => Some(id)
    case Releasing(Replied(id)) => Some(id)
    case Ended(Replied(id)) => Some(id)
    case _ => None
  }

  predicate Caches(cache: map<Key, Id>, key: Key, id: Id) {
    key in cache && cache[key] == id
  }

  lemma OwnCaching(s: System, action: Action, r: nat)
    requires RequestReady(s, action) && IsOwn(s, r) && Requester(action) == Some(r)
    ensures var request, state := s.requests[r], RequestAfter(s, s.requests[r], action).state;
      IdCached(state).Some? ==>
        || IdCached(request.state) == IdCached(state)
        || Caches(s.cache, request.key, IdCached(state).value)
        || Caches(CacheAfter(s, action), request.key, IdCached(state).value)
  {
  }

  lemma CachingStep(cfg: Config, s: System, action: Action, r: nat)
    requires Possible(cfg, s, action) && r < |RequestsAfter(s, action)|
    requires IdCached(RequestsAfter(s, action)[r].state).Some?
    ensures IsOwn(s, r) && s.requests[r].key == RequestsAfter(s, action)[r].key
    ensures var key, id := s.requests[r].key, IdCached(RequestsAfter(s, action)[r].state);
      IdCached(s.requests[r].state) == id || Caches(s.cache, key, id.value) || Caches(CacheAfter(s, action), key, id.value)
  {
    OthersSayNothing(s, action, r, Blank);
    KeyStays(s, action, r);
    if Requester(action) == Some(r) { OwnCaching(s, action, r); }
  }

  /** Every success reply carries an id that the cache held at some time: found there, or stored before replying. */
  lemma {:induction false} RepliesWereCached(cfg: Config, states: seq<System>, actions: seq<Action>, i: nat, r: nat)
    requires IsHistory(cfg, states, actions) && i < |states| && IsOwn(states[i], r)
    requires IdCached(states[i].requests[r].state).Some?
    ensures WasCached(states, i, states[i].requests[r].key, IdCached(states[i].requests[r].state).value)
  {
    if i > 0 {
      var s, key, id := states[i - 1], states[i].requests[r].key, IdCached(states[i].requests[r].state).value;
      CachingStep(cfg, s, actions[i - 1], r);
      if IdCached(s.requests[r].state) == Some(id) {
        RepliesWereCached(cfg, states, actions, i - 1, r);
      } else if Caches(s.cache, key, id) {
        assert WasCached(states, i - 1, key, id);
      }
    }
  }

  /** A cached id always names a row, so a request that finds one answers with it and never forgets it. */
  lemma {:induction false} CachedIdsAreAnswered(cfg: Config, states: seq<System>, actions: seq<Action>, i: nat, r: nat)
    requires IsHistory(cfg, states, actions) && i < |states| && IsOwn(states[i], r)
    ensures !states[i].requests[r].state.ForgettingCached?
  {
    if i > 0 {
      var s, action := states[i - 1], actions[i - 1];
      if IsOwn(s, r) {
        CachedIdsAreAnswered(cfg, states, actions, i - 1, r);
        RequestSafety.CreationSoundOverHistories(cfg, states, actions, i - 1);
        OthersSayNothing(s, action, r, Blank);
        if Requester(action) == Some(r) { FoundIsAnswered(s, action, r); }
      }
    }
  }

  lemma FoundIsAnswered(s: System, action: Action, r: nat)
    requires RequestReady(s, action) && IsOwn(s, r) && Requester(action) == Some(r)
    requires RequestSafety.IdsFit(s) && !s.requests[r].state.ForgettingCached?
    ensures !RequestAfter(s, s.requests[r], action).state.ForgettingCached?
  {
    var state := s.requests[r].state;
    assert RequestSafety.IdHeld(state).Some? ==> RequestSafety.RowWithKey(s, RequestSafety.IdHeld(state).value, s.requests[r].key);
  }

  // ---------------------------------------------------------------- looking before inserting

  /** Which lookups of a request have found nothing: of the cache, of its row, and of its row under the lock. */
  datatype Lookups = Lookups(noCache: bool, noRow: bool, noRowUnderLock: bool)

  predicate FindsNoCache(s: System, action: Action, r: nat) {
    action == Action.Proceed(r) && IsOwn(s, r) && s.requests[r].state.ReadingCache? && s.requests[r].key !in s.cache
  }

  predicate FindsNoRow(s: System, action: Action, r: nat) {
    action.Select? && action.r == r && IsOwn(s, r) && !KeyTaken(s.table, s.requests[r].key)
  }

  /** What request `r` looked for in vain in the first `i` actions. */
  function LookedUp(states: seq<System>, actions: seq<Action>, i: nat, r: nat): Lookups
    requires i <= |actions| && i <= |states|
  {
    if i == 0 then Lookups(false, false, false)
    else
      var before, s, action := LookedUp(states, actions, i - 1, r), states[i - 1], actions[i - 1];
      LookupsAfter(before, s, action, r)
  }

  function LookupsAfter(before: Lookups, s: System, action: Action, r: nat): Lookups {
    Lookups(before.noCache || FindsNoCache(s, action, r),
            before.noRow || (FindsNoRow(s, action, r) && s.requests[r].token.None?),
            before.noRowUnderLock || (FindsNoRow(s, action, r) && s.requests[r].token.Some?))
  }

  /** A request has a lock token once it has the lock. */
  predicate TokenFits(request: Request) {
    && (BeforeWaiting(request.state) || request.state.WaitingForRow? ==> request.token.None?)
    && (UnderLock(request.state) || request.inserted.Some? ==> request.token.Some?)
  }

  /** Where a request stands, after these lookups in vain. */
  predicate LookedFirst(request: Request, lookups: Lookups) {
    && (request.state.FindingByKey? ==> lookups.noCache)
    && (request.state.AcquiringLock? || request.state.WaitingForRow? || request.token.Some? ==> lookups.noCache && lookups.noRow)
    && (request.state.Inserting? || request.inserted.Some? ==> lookups.noRowUnderLock)
  }

  lemma OwnToken(s: System, action: Action, r: nat)
    requires RequestReady(s, action) && IsOwn(s, r) && Requester(action) == Some(r) && TokenFits(s.requests[r])
    ensures TokenFits(RequestAfter(s, s.requests[r], action))
  {
  }

  lemma OwnLookups(s: System, action: Action, r: nat, lookups: Lookups)
    requires RequestReady(s, action) && IsOwn(s, r) && Requester(action) == Some(r)
    requires !s.requests[r].state.ForgettingCached? && TokenFits(s.requests[r]) && LookedFirst(s.requests[r], lookups)
    ensures LookedFirst(RequestAfter(s, s.requests[r], action), LookupsAfter(lookups, s, action, r))
  {
  }

  /**
   * Over any history: a request asks for the lock, or waits for it, only after it found neither its
   * key in the cache nor a row with it, and inserts only after it found no row under the lock either.
   */
  lemma {:induction false} LooksBeforeInserting(cfg: Config, states: seq<System>, actions: seq<Action>, i: nat, r: nat)
    requires IsHistory(cfg, states, actions) && i < |states| && IsOwn(states[i], r)
    ensures TokenFits(states[i].requests[r]) && LookedFirst(states[i].requests[r], LookedUp(states, actions, i, r))
  {
    if i > 0 {
      var s, action := states[i - 1], actions[i - 1];
      OthersSayNothing(s, action, r, Blank);
      if IsOwn(s, r) {
        LooksBeforeInserting(cfg, states, actions, i - 1, r);
        CachedIdsAreAnswered(cfg, states, actions, i - 1, r);
        if Requester(action) == Some(r) {
          OwnToken(s, action, r);
          OwnLookups(s, action, r, LookedUp(states, actions, i - 1, r));
        }
      }
    }
  }
}
