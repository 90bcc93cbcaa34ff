// The handling of one Bird webhook delivery as the program it is: verify, claim, process, and
// give the claim back when processing throws.

module BirdWebhookService {
  import opened SmsMessage
  import opened DeliveryStatus
  import opened BirdWebhook

  datatype Handled =
    | InvalidSignature
    | InvalidPayload
    | AlreadyProcessed  // as far as the claim can tell
    | NoActionableStatus
    | MessageNotFound
    | Processed
    | Rethrown

  /** `mayFail` is whether an operation of a handler may throw, or lose its reply. */
  class BirdWebhookService {
    const events: Events
    const sent: Row
    const mayFail: bool
    var w: Webhooks
    ghost var states: seq<Webhooks>
    ghost var steps: seq<Step>

    ghost predicate Valid()
      reads this
    {
      IsRun(events, sent, states, steps) && w == states[|steps|]
    }

    constructor (events: Events, sent: Row, mayFail: bool)
      ensures Valid() && this.events == events && this.sent == sent && this.mayFail == mayFail
      ensures w.row == sent && w.claims == {} && w.handlers == [] && w.log == []
    {
      this.events, this.sent, this.mayFail := events, sent, mayFail;
      w := Webhooks(sent, {}, [], []);
      states, steps := [Webhooks(sent, {}, [], [])], [];
    }

    method Take(step: Step)
      requires Valid() && Enabled(events, w, step)
      modifies this
      ensures Valid() && w == Next(events, old(w), step) && steps == old(steps) + [step]
    {
      ghost var states0, steps0 := states, steps;
      w := Next(events, w, step);
      states, steps := states + [w], steps + [step];
      forall i | 0 <= i < |steps|
        ensures Enabled(events, states[i], steps[i]) && states[i + 1] == Next(events, states[i], steps[i])
      {
        if i < |steps0| { assert states[i] == states0[i] && steps[i] == steps0[i] && states[i + 1] == states0[i + 1]; }
      }
    }

    /** Other deliveries are handled meanwhile, and claims expire; nothing is ever unlogged. */
    method Await(h: nat)
      requires Valid() && h < |w.handlers|
      modifies this
      ensures Valid() && h < |w.handlers| && w.handlers[h] == old(w.handlers[h]) && old(w.log) <= w.log
    {
    }

    /** The log entry is this delivery's, with the event's own status, error and time. */
    ghost predicate Reports(entry: BirdWebhook.Processed, id: WebhookId, now: Time)
      requires id in events && events[id].Report?
    {
      && entry.id == id && entry.callback.status == events[id].status
      && SpellsError(events[id], entry.callback.lastError)
      && entry.callback.eventAt == if events[id].occurredAt.Some? then events[id].occurredAt.value else now
    }

    /** What an answer says; `logged` is the length of the log at the arrival. */
    ghost predicate CameTo(handled: Handled, h: nat, logged: nat, found: bool, now: Time)
      reads this
    {
      && Valid() && h < |w.handlers| && w.handlers[h].id in events
      && var id, state := w.handlers[h].id, w.handlers[h].state;
         match handled
         case AlreadyProcessed => state.Dropped? && !w.handlers[h].claimed && ClaimedBy(w, id)
         case NoActionableStatus => state.Answered? && events[id].NoStatus?
         case MessageNotFound => !found && state.Answered? && events[id].Report? && LookOf(steps, |steps|, h) == Some(false)
         case Processed =>
           && found && state.Answered? && events[id].Report? && LookOf(steps, |steps|, h) == Some(true)
           && HasUpdated(steps, |steps|, h)
           && exists k | logged <= k < |w.log| :: Reports(w.log[k], id, now)
         case Rethrown => mayFail && (state.GaveError? || state.Lost?)
         case _ => false
    }

    /**
     * One delivery, whose message the lookup finds or not.  Whatever it answers, the row is that of
     * each processed webhook id taken once.  It answers well only if its own report was applied, or
     * had nothing to apply, or found no message, or another delivery of the same id holds or held
     * the claim; and it answers well unless an operation of its own fails.
     */
    method Handle(id: WebhookId, signatureIsValid: bool, hasEvent: bool, found: bool, now: Time) returns (handled: Handled)
      requires Valid() && id in events && InDeliveryPhase(sent.status)
      modifies this
      ensures Valid() && w.row == Fold(sent, Callbacks(FirstOnly(w.log)))
      ensures old(w.log) <= w.log
      ensures handled.InvalidSignature? <==> !signatureIsValid
      ensures handled.InvalidPayload? <==> signatureIsValid && !hasEvent
      ensures !signatureIsValid || !hasEvent ==> w == old(w)
      ensures signatureIsValid && hasEvent ==>
        var h := |old(w.handlers)|;
        CameTo(handled, h, |old(w.log)|, found, now) && w.handlers[h].id == id
    {
      if !signatureIsValid || !hasEvent {
        ClaimIsOnlyAFastPath(events, sent, states, steps, |steps|);
        return if signatureIsValid then InvalidPayload else InvalidSignature;
      }
      var h := |w.handlers|;
      ghost var logged := |w.log|;
      Take(Arrive(id));
      Await(h);
      handled := ClaimAndProcess(h, found, now, logged);
      ClaimIsOnlyAFastPath(events, sent, states, steps, |steps|);
    }

    method ClaimAndProcess(h: nat, found: bool, now: Time, ghost logged: nat) returns (handled: Handled)
      requires Valid() && h < |w.handlers| && w.handlers[h].state.Claiming? && w.handlers[h].id in events && logged <= |w.log|
      modifies this
      ensures CameTo(handled, h, logged, found, now) && w.handlers[h].id == old(w.handlers[h].id) && old(w.log) <= w.log
    {
      var fails: bool, replyLost: bool := *, *;
      if mayFail && fails {
        Take(Throw(h));  // the claim itself failed: there is nothing to release
        return Rethrown;
      }
      if mayFail && replyLost && w.handlers[h].id !in w.claims {
        Take(ClaimUnheard(h));  // it took effect, but nobody knows
        return Rethrown;
      }
      Take(Claim(h));
      if w.handlers[h].state.Dropped? {
        DropsFollowAClaim(events, sent, states, steps, |steps|);
        return AlreadyProcessed;
      }
      Await(h);
      var ok;
      ok, handled := ProcessEvent(h, found, now, logged);
      if !ok {
        ReleaseClaim(h);
        handled := Rethrown;
      }
    }

    method ReleaseClaim(h: nat)
      requires Valid() && h < |w.handlers| && w.handlers[h].state.Releasing? && w.handlers[h].id in events
      modifies this
      ensures Valid() && h < |w.handlers| && w.handlers[h].id == old(w.handlers[h].id) && old(w.log) <= w.log
      ensures w.handlers[h].state.GaveError? || w.handlers[h].state.Lost?
    {
      Await(h);
      if * { Take(Release(h)); } else { Take(FailToRelease(h)); }
    }

    method ProcessEvent(h: nat, found: bool, now: Time, ghost logged: nat) returns (ok: bool, handled: Handled)
      requires Valid() && h < |w.handlers| && w.handlers[h].state.Handling? && w.handlers[h].id in events && logged <= |w.log|
      modifies this
      ensures Valid() && h < |w.handlers| && w.handlers[h].id == old(w.handlers[h].id) && old(w.log) <= w.log
      ensures ok ==> !handled.Rethrown? && CameTo(handled, h, logged, found, now)
      ensures !ok ==> mayFail && w.handlers[h].state.Releasing?
    {
      ok, handled := true, NoActionableStatus;
      if events[w.handlers[h].id].NoStatus? {
        Take(Look(h, false, now));
        return;
      }
      var fails: bool := *;
      if mayFail && fails {
        Take(Throw(h));
        return false, Rethrown;
      }
      Take(Look(h, found, now));
      if !found { return true, MessageNotFound; }
      LookDecides(events, sent, states, steps, |steps| - 1);
      Await(h);
      ok, handled := UpdateRow(h, found, now, logged);
    }

    method UpdateRow(h: nat, found: bool, now: Time, ghost logged: nat) returns (ok: bool, handled: Handled)
      requires Valid() && h < |w.handlers| && w.handlers[h].state.Updating? && found && logged <= |w.log|
      requires w.handlers[h].id in events && events[w.handlers[h].id].Report?
      requires Reports(BirdWebhook.Processed(w.handlers[h].id, w.handlers[h].state.callback), w.handlers[h].id, now)
      modifies this
      ensures Valid() && h < |w.handlers| && w.handlers[h].id == old(w.handlers[h].id) && old(w.log) <= w.log
      ensures ok ==> !handled.Rethrown? && CameTo(handled, h, logged, found, now)
      ensures !ok ==> mayFail && w.handlers[h].state.Releasing?
    {
      var fails: bool, replyLost: bool := *, *;
      if mayFail && fails {
        Take(Throw(h));
        return false, Rethrown;
      }
      if mayFail && replyLost {
        Take(UpdateUnheard(h));
        return false, Rethrown;
      }
      Take(Update(h));
      assert Reports(w.log[|w.log| - 1], w.handlers[h].id, now);
      AnsweredAsFound(events, sent, states, steps, |steps|, h);
      return true, Handled.Processed;
    }
  }
}
