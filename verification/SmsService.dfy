// `sendSmsRequest` as the program it is: the cache, the lookups, the lock, the insert, the job
// and the release, each cache, lock, table or queue operation one action of the system.
//
// Other requests, workers and timers act whenever this one awaits.  `Await` promises only that
// this request's record is untouched, that rows stay, and that nobody else draws the UUIDs this
// request was given.  An operation that throws is the `Throw` action.

module SmsService {
  import opened SmsMessage
  import opened DispatchPlan
  import opened MessageMachine
  import opened RequestMachine
  import opened RequestSafety
  import opened RequestAnswers

  class SmsService {
    const cfg: Config
    var s: System
    ghost var states: seq<System>
    ghost var actions: seq<Action>

    ghost predicate Valid()
      reads this
    {
      IsHistory(cfg, states, actions) && s == states[|actions|]
    }

    /** What has happened to a request. */
    ghost function Past(r: nat): Record
      requires Valid()
      reads this
    {
      Recorded(states, actions, |actions|, r)
    }

    /** No operation of the request has failed. */
    ghost predicate Faultless(r: nat)
      requires Valid()
      reads this
    {
      !Past(r).failed && !Past(r).addFailed && !Past(r).died
    }

    constructor (cfg: Config)
      ensures Valid() && this.cfg == cfg && s == Empty
    {
      this.cfg, s := cfg, Empty;
      states, actions := [Empty], [];
    }

    method Take(action: Action)
      requires Valid() && Possible(cfg, s, action)
      modifies this
      ensures Valid() && s == After(cfg, old(s), action)
      ensures states == old(states) + [s] && actions == old(actions) + [action]
      ensures forall id | id in old(s.table) :: id in s.table && s.table[id].key == old(s.table[id].key)
      ensures forall r: nat :: Past(r) == RecordAfter(old(Past(r)), old(s), action, r)
    {
      ghost var states0, actions0, before := states, actions, s;
      s := After(cfg, s, action);
      states, actions := states + [s], actions + [action];
      forall i | 0 <= i < |actions|
        ensures Possible(cfg, states[i], actions[i]) && states[i + 1] == After(cfg, states[i], actions[i])
      {
        if i < |actions0| {
          assert states[i] == states0[i] && actions[i] == actions0[i] && states[i + 1] == states0[i + 1];
        }
      }
      forall id | id in before.table ensures id in s.table && s.table[id].key == before.table[id].key {
        RowsStay(cfg, before, action, id);
      }
      forall r: nat { RecordedInLonger(states0, actions0, states, actions, |actions0|, r); }
    }

    /** The request is running, and the values its UUIDs will take are still unused. */
    ghost predicate Running(r: nat, token: Token, id: Id, mayFail: bool)
      reads this
    {
      && Valid() && r < |s.requests| && !s.requests[r].state.Ended?
      && (s.requests[r].token.None? ==> FreshToken(s, token))
      && (s.requests[r].inserted.None? ==> id !in s.table)
      && (mayFail || Faultless(r))
    }

    /** Everyone else acts; nothing happens to this request meanwhile. */
    method Await(r: nat, token: Token, id: Id, mayFail: bool)
      requires Running(r, token, id, mayFail)
      modifies this
      ensures Running(r, token, id, mayFail) && s.requests[r] == old(s.requests[r]) && Past(r) == old(Past(r))
    {
    }

    /** The operation the request is waiting for throws. */
    method Fail(r: nat, token: Token, id: Id, mayFail: bool)
      requires mayFail && Running(r, token, id, mayFail)
      requires !s.requests[r].state.AddingJob? && !s.requests[r].state.MarkingFailed?
      modifies this
      ensures Valid() && |s.requests| == |old(s.requests)| && s.requests[r].key == old(s.requests[r].key)
      ensures s.table == old(s.table) && (!s.requests[r].state.Ended? ==> Running(r, token, id, mayFail))
      ensures s.requests[r].token == old(s.requests[r].token) && s.requests[r].inserted == old(s.requests[r].inserted)
      ensures var state, after := old(s.requests[r].state), s.requests[r].state;
        after == if state.Releasing? then Ended(state.outcome) else if UnderLock(state) then Releasing(Error) else Ended(Error)
    {
      Take(Throw(r));
    }

    /** Where an operation with a single outcome takes a request. */
    ghost predicate Proceeded(state: RequestState, after: RequestState) {
      match state
      case ReadingCache => after.FindingCached? || after.FindingByKey?
      case FindingCached(found) => after == Ended(Replied(found)) || after == ForgettingCached
      case ForgettingCached => after == FindingByKey
      case Storing(found) => after == Ended(Replied(found))
      case StoringUnderLock(found) => after == Releasing(Replied(found))
      case Releasing(outcome) => after == Ended(outcome)
      case _ => true
    }

    method Advance(r: nat, token: Token, id: Id, mayFail: bool)
      requires Running(r, token, id, mayFail) && Proceeds(s.requests[r].state)
      modifies this
      ensures Valid() && r < |s.requests| && s.requests[r].key == old(s.requests[r].key) && (mayFail || Faultless(r))
      ensures !s.requests[r].state.Ended? ==> Running(r, token, id, mayFail)
      ensures s.requests[r].token == old(s.requests[r].token) && s.requests[r].inserted == old(s.requests[r].inserted)
      ensures Proceeded(old(s.requests[r].state), s.requests[r].state)
    {
      Take(Action.Proceed(r));
    }

    /** An operation with a single outcome: a cache or lock operation, or a lookup by id. */
    method Proceed(r: nat, token: Token, id: Id, mayFail: bool) returns (ok: bool)
      requires Running(r, token, id, mayFail) && Proceeds(s.requests[r].state)
      modifies this
      ensures Valid() && r < |s.requests| && s.requests[r].key == old(s.requests[r].key) && (mayFail || Faultless(r))
      ensures !s.requests[r].state.Ended? ==> Running(r, token, id, mayFail)
      ensures s.requests[r].token == old(s.requests[r].token) && s.requests[r].inserted == old(s.requests[r].inserted)
      ensures var state, after := old(s.requests[r].state), s.requests[r].state;
        if ok then Proceeded(state, after)
        else after == if state.Releasing? then Ended(state.outcome) else if UnderLock(state) then Releasing(Error) else Ended(Error)
    {
      Await(r, token, id, mayFail);
      var fails: bool := *;
      ok := !(mayFail && fails);
      if ok { Advance(r, token, id, mayFail); } else { Fail(r, token, id, mayFail); }
    }

    /** SELECT by idempotency key. */
    method FindByIdempotencyKey(r: nat, token: Token, id: Id, mayFail: bool) returns (ok: bool)
      requires Running(r, token, id, mayFail) && SelectsByKey(s.requests[r].state)
      modifies this
      ensures Valid() && r < |s.requests| && s.requests[r].key == old(s.requests[r].key) && (mayFail || Faultless(r))
      ensures !s.requests[r].state.Ended? ==> Running(r, token, id, mayFail)
      ensures s.requests[r].token == old(s.requests[r].token) && s.requests[r].inserted == old(s.requests[r].inserted)
      ensures var state, after := old(s.requests[r].state), s.requests[r].state;
        if !ok then after == if UnderLock(state) then Releasing(Error) else Ended(Error)
        else match state
          case FindingByKey => after.Storing? || after == AcquiringLock
          case WaitingForRow(attempt) =>
            after.Storing? || after == if attempt + 1 < WAIT_ATTEMPTS then WaitingForRow(attempt + 1) else Ended(Conflict)
          case FindingUnderLock => after.StoringUnderLock? || after == Inserting
          case _ => after.StoringUnderLock? || after == Releasing(Error)
    {
      Await(r, token, id, mayFail);
      var fails: bool := *;
      ok := !(mayFail && fails);
      if !ok {
        Fail(r, token, id, mayFail);
      } else {
        SelectRow(r, id);
      }
    }

    method SelectRow(r: nat, unused: Id)
      requires Valid() && r < |s.requests| && SelectsByKey(s.requests[r].state)
      modifies this
      ensures Valid() && |s.requests| == |old(s.requests)| && s.table == old(s.table)
      ensures old(Faultless(r)) ==> Faultless(r)
      ensures exists found: bool, row: Id ::
        s.requests == old(s.requests)[r := Move(old(s.requests[r]), AfterSelect(old(s.requests[r]), found, row))]
    {
      if row: Id :| row in s.table && s.table[row].key == s.requests[r].key {
        Take(Select(r, row));
        assert s.requests == old(s.requests)[r := Move(old(s.requests[r]), AfterSelect(old(s.requests[r]), true, row))];
      } else {
        Take(Select(r, unused));
        assert s.requests == old(s.requests)[r := Move(old(s.requests[r]), AfterSelect(old(s.requests[r]), false, unused))];
      }
    }

    method AcquireLock(r: nat, token: Token, id: Id, mayFail: bool)
      requires Running(r, token, id, mayFail) && s.requests[r].state.AcquiringLock? && s.requests[r].token.None?
      modifies this
      ensures Valid() && r < |s.requests| && s.requests[r].key == old(s.requests[r].key) && (mayFail || Faultless(r))
      ensures !s.requests[r].state.Ended? ==> Running(r, token, id, mayFail)
      ensures s.requests[r].inserted == old(s.requests[r].inserted)
      ensures var after := s.requests[r].state;
        after == WaitingForRow(0) || after == Ended(Error) || (after == FindingUnderLock && s.requests[r].token == Some(token))
    {
      Await(r, token, id, mayFail);
      var fails: bool, replyLost: bool := *, *;
      if mayFail && fails {
        Fail(r, token, id, mayFail);
      } else {
        TakeLock(r, token, id, mayFail, replyLost);
      }
    }

    method TakeLock(r: nat, token: Token, id: Id, mayFail: bool, replyLost: bool)
      requires Running(r, token, id, mayFail) && s.requests[r].state.AcquiringLock? && s.requests[r].token.None?
      modifies this
      ensures Valid() && r < |s.requests| && s.requests[r].key == old(s.requests[r].key) && (mayFail || Faultless(r))
      ensures !s.requests[r].state.Ended? ==> Running(r, token, id, mayFail)
      ensures s.requests[r].inserted == old(s.requests[r].inserted)
      ensures var after := s.requests[r].state;
        after == WaitingForRow(0) || after == Ended(Error) || (after == FindingUnderLock && s.requests[r].token == Some(token))
    {
      if mayFail && replyLost && s.requests[r].key !in s.locks {
        Take(AcquireUnheard(r, token));
      } else {
        Take(Acquire(r, token));
      }
    }

    method Insert(r: nat, token: Token, id: Id, mayFail: bool)
      requires Running(r, token, id, mayFail) && s.requests[r].state.Inserting? && s.requests[r].inserted.None? && s.requests[r].token.Some?
      modifies this
      ensures Valid() && r < |s.requests| && s.requests[r].key == old(s.requests[r].key) && (mayFail || Faultless(r))
      ensures Running(r, token, id, mayFail) && s.requests[r].token == old(s.requests[r].token)
      ensures var after := s.requests[r].state;
        || (after == AddingJob(id) && s.requests[r].inserted == Some(id))
        || after == FindingAfterViolation || after == Releasing(Error)
    {
      Await(r, token, id, mayFail);
      var fails: bool, replyLost: bool := *, *;
      if mayFail && fails {
        Take(Throw(r));
      } else if mayFail && replyLost && !KeyTaken(s.table, s.requests[r].key) {
        Take(InsertUnheard(r, id));
      } else {
        Take(InsertRow(r, id));
      }
    }

    /** Adds the job; when that fails, writes the row FAILED. */
    method EnqueueOrMarkFailed(r: nat, token: Token, id: Id, mayFail: bool, now: Time)
      requires Running(r, token, id, mayFail) && s.requests[r].state.AddingJob? && s.requests[r].inserted.Some? && s.requests[r].token.Some?
      modifies this
      ensures Valid() && r < |s.requests| && s.requests[r].key == old(s.requests[r].key) && (mayFail || Faultless(r))
      ensures Running(r, token, id, mayFail) && s.requests[r].token == old(s.requests[r].token)
      ensures var row, after := old(s.requests[r].state.id), s.requests[r].state;
        after == StoringUnderLock(row) || after == Releasing(QueuePublishFailed) || after == Releasing(Error)
    {
      Await(r, token, id, mayFail);
      PublisherAt(r);
      var fails: bool, addedAnyway: bool := *, *;
      if !(mayFail && fails) {
        Take(AddJob(r));
        return;
      }
      Take(FailToAddJob(r, addedAnyway));
      MarkQueuePublishFailed(r, token, id, mayFail, now);
    }

    method MarkQueuePublishFailed(r: nat, token: Token, id: Id, mayFail: bool, now: Time)
      requires mayFail && Running(r, token, id, mayFail)
      requires s.requests[r].state.MarkingFailed? && s.requests[r].inserted.Some? && s.requests[r].token.Some?
      modifies this
      ensures Running(r, token, id, mayFail) && s.requests[r].key == old(s.requests[r].key)
      ensures s.requests[r].token == old(s.requests[r].token)
      ensures s.requests[r].state == Releasing(QueuePublishFailed) || s.requests[r].state == Releasing(Error)
      ensures s.requests[r].state == Releasing(QueuePublishFailed) ==> WroteFailed(old(s.requests[r].state.id), now)
    {
      Await(r, token, id, mayFail);
      var fails: bool := *;
      if fails {
        PublisherAt(r);
        Take(Throw(r));
      } else {
        WriteFailed(r, now);
      }
    }

    /** The last action wrote the row FAILED, and left its other columns alone. */
    ghost predicate WroteFailed(id: Id, now: Time)
      reads this
    {
      && 2 <= |states| && id in s.table && id in states[|states| - 2].table
      && var before := states[|states| - 2].table[id].message.row;
         s.table[id].message.row
         == Row(SmsStatus.Failed, before.attempts, before.selectedProvider, before.providerMessageId,
                Some("QUEUE_PUBLISH_FAILED"), before.sentAt, before.deliveredAt, Some(now))
    }

    method WriteFailed(r: nat, now: Time)
      requires Valid() && r < |s.requests| && s.requests[r].state.MarkingFailed?
      modifies this
      ensures Valid() && |s.requests| == |old(s.requests)|
      ensures s.requests[r] == old(s.requests[r]).(state := Releasing(QueuePublishFailed))
      ensures WroteFailed(old(s.requests[r].state.id), now)
    {
      PublisherAt(r);
      MarkFailedWrites(s, r, now);
      ghost var before := s;
      Take(MarkFailed(r, now));
      assert states[|states| - 2] == before;
    }

    lemma MarkFailedWrites(before: System, r: nat, now: Time)
      requires Possible(cfg, before, MarkFailed(r, now))
      requires before.table[before.requests[r].state.id].message.epochs != []
      ensures var id, after := before.requests[r].state.id, After(cfg, before, MarkFailed(r, now));
        && id in after.table
        && var row := before.table[id].message.row;
           after.table[id].message.row
           == Row(SmsStatus.Failed, row.attempts, row.selectedProvider, row.providerMessageId,
                  Some("QUEUE_PUBLISH_FAILED"), row.sentAt, row.deliveredAt, Some(now))
    {
    }

    /** The message machine agrees on what the request is about to do for its row. */
    lemma PublisherAt(r: nat)
      requires Valid() && r < |s.requests| && (s.requests[r].state.AddingJob? || s.requests[r].state.MarkingFailed?)
      ensures var id := s.requests[r].state.id;
        && id in s.table && s.table[id].message.epochs != []
        && s.table[id].message.epochs[0].publisher == if s.requests[r].state.AddingJob? then Publishing else Compensating
    {
      CreationSoundOverHistories(cfg, states, actions, |actions|);
      assert RequestFits(s.requests[r]);
      assert PublisherFits(s, s.requests[r].state.id);
    }

    /** Polls for the row of whoever holds the lock. */
    method WaitForMessageCreatedByConcurrentRequest(r: nat, token: Token, id: Id, mayFail: bool)
      requires Running(r, token, id, mayFail) && s.requests[r].state == WaitingForRow(0)
      modifies this
      ensures Valid() && r < |s.requests| && s.requests[r].key == old(s.requests[r].key) && (mayFail || Faultless(r))
      ensures !s.requests[r].state.Ended? ==> Running(r, token, id, mayFail)
      ensures s.requests[r].state.Storing? || s.requests[r].state == Ended(Conflict) || s.requests[r].state == Ended(Error)
    {
      var attempt := 0;
      while attempt < WAIT_ATTEMPTS
        invariant 0 <= attempt <= WAIT_ATTEMPTS
        invariant Valid() && r < |s.requests| && s.requests[r].key == old(s.requests[r].key) && (mayFail || Faultless(r))
        invariant attempt < WAIT_ATTEMPTS ==> Running(r, token, id, mayFail) && s.requests[r].state == WaitingForRow(attempt)
        invariant attempt == WAIT_ATTEMPTS ==> s.requests[r].state == Ended(Conflict)
      {
        var ok := FindByIdempotencyKey(r, token, id, mayFail);
        if !ok || s.requests[r].state.Storing? { return; }
        attempt := attempt + 1;
      }
    }

    /** The critical section, up to its release: the `try` block of the service. */
    method CreateUnderLock(r: nat, token: Token, id: Id, mayFail: bool, now: Time)
      requires Running(r, token, id, mayFail) && s.requests[r].state == FindingUnderLock
      requires s.requests[r].inserted.None? && s.requests[r].token.Some?
      modifies this
      ensures Valid() && r < |s.requests| && s.requests[r].key == old(s.requests[r].key) && (mayFail || Faultless(r))
      ensures Running(r, token, id, mayFail) && s.requests[r].state.Releasing?
    {
      var ok := FindByIdempotencyKey(r, token, id, mayFail);
      if ok && s.requests[r].state == Inserting {
        Insert(r, token, id, mayFail);
        if s.requests[r].state.AddingJob? {
          EnqueueOrMarkFailed(r, token, id, mayFail, now);
        } else if s.requests[r].state.FindingAfterViolation? {
          ok := FindByIdempotencyKey(r, token, id, mayFail);
        }
      }
      if s.requests[r].state.StoringUnderLock? {
        ok := Proceed(r, token, id, mayFail);
      }
    }

    /** The cache, then the table: the request has an id to store, an answer, or needs the lock. */
    method FindExisting(r: nat, token: Token, id: Id, mayFail: bool)
      requires Running(r, token, id, mayFail) && s.requests[r].state == ReadingCache
      requires s.requests[r].token.None? && s.requests[r].inserted.None?
      modifies this
      ensures Valid() && r < |s.requests| && s.requests[r].key == old(s.requests[r].key) && (mayFail || Faultless(r))
      ensures !s.requests[r].state.Ended? ==> Running(r, token, id, mayFail)
      ensures s.requests[r].token.None? && s.requests[r].inserted.None?
      ensures s.requests[r].state.Ended? || s.requests[r].state.Storing? || s.requests[r].state.AcquiringLock?
    {
      FindFromIdempotencyCache(r, token, id, mayFail);
      if s.requests[r].state.FindingByKey? { var ok := FindByIdempotencyKey(r, token, id, mayFail); }
    }

    method FindFromIdempotencyCache(r: nat, token: Token, id: Id, mayFail: bool)
      requires Running(r, token, id, mayFail) && s.requests[r].state == ReadingCache
      requires s.requests[r].token.None? && s.requests[r].inserted.None?
      modifies this
      ensures Valid() && r < |s.requests| && s.requests[r].key == old(s.requests[r].key) && (mayFail || Faultless(r))
      ensures !s.requests[r].state.Ended? ==> Running(r, token, id, mayFail)
      ensures s.requests[r].token.None? && s.requests[r].inserted.None?
      ensures s.requests[r].state.Ended? || s.requests[r].state.FindingByKey?
    {
      var ok := Proceed(r, token, id, mayFail);
      if s.requests[r].state.FindingCached? { ok := Proceed(r, token, id, mayFail); }
      if s.requests[r].state.ForgettingCached? { ok := Proceed(r, token, id, mayFail); }
    }

    /** With the lock, create the row; without it, wait for the one its holder creates. */
    method CreateOrWait(r: nat, token: Token, id: Id, mayFail: bool, now: Time)
      requires Running(r, token, id, mayFail) && s.requests[r].state.AcquiringLock?
      requires s.requests[r].token.None? && s.requests[r].inserted.None?
      modifies this
      ensures Valid() && r < |s.requests| && s.requests[r].key == old(s.requests[r].key) && (mayFail || Faultless(r))
      ensures !s.requests[r].state.Ended? ==> Running(r, token, id, mayFail)
      ensures s.requests[r].state.Ended? || s.requests[r].state.Storing?
    {
      AcquireLock(r, token, id, mayFail);
      if s.requests[r].state.WaitingForRow? {
        WaitForMessageCreatedByConcurrentRequest(r, token, id, mayFail);
      } else if s.requests[r].state.FindingUnderLock? {
        CreateUnderLock(r, token, id, mayFail, now);
        var ok := Proceed(r, token, id, mayFail);
      }
    }

    /**
     * One send request, whatever everyone else does meanwhile: it ends, and a success reply
     * carries the id of the one row with its key.  Any other outcome has its reason in what
     * happened to it; if none of its operations fails, it is a success, or a conflict after 20
     * lookups in vain.
     */
    method SendSmsRequest(key: Key, token: Token, id: Id, mayFail: bool, now: Time) returns (outcome: Outcome)
      requires Valid() && FreshToken(s, token) && id !in s.table
      modifies this
      ensures Valid()
      ensures var r := |old(s.requests)|;
        && r < |s.requests| && s.requests[r].key == key && s.requests[r].state == Ended(outcome)
        && Explained(outcome, Past(r))
      ensures !mayFail ==> outcome.Replied? || outcome.Conflict?
      ensures outcome.Replied? ==>
        && RowWithKey(s, outcome.id, key)
        && forall other | other in s.table :: s.table[other].key == key ==> other == outcome.id
    {
      var r := Begin(key, token, id, mayFail);
      FindExisting(r, token, id, mayFail);
      if s.requests[r].state.AcquiringLock? { CreateOrWait(r, token, id, mayFail, now); }
      if s.requests[r].state.Storing? { var ok := Proceed(r, token, id, mayFail); }
      outcome := s.requests[r].state.outcome;
      OneRowOneJobOneAnswer(cfg, states, actions, |actions|);
      AnswersAreExplained(cfg, states, actions, |actions|, r);
    }

    method Begin(key: Key, token: Token, id: Id, mayFail: bool) returns (r: nat)
      requires Valid() && FreshToken(s, token) && id !in s.table
      modifies this
      ensures r == |old(s.requests)| && Running(r, token, id, mayFail) && s.requests[r].state == ReadingCache
      ensures s.requests[r].key == key && s.requests[r].token.None? && s.requests[r].inserted.None?
    {
      r := |s.requests|;
      BlankBeforeArrival(cfg, states, actions, |actions|, r);
      Take(Arrive(key));
    }
  }
}
