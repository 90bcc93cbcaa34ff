// Bird webhook deliveries of one message.  Bird delivers at least once; a Redis claim on the
// webhook id drops repeats, but it may expire, be lost with its handler, or be released by one
// handler while another relies on it.  None of this shows in the stored row.

module BirdWebhook {
  import opened SmsMessage
  import opened DeliveryStatus
  import opened DiagnosticCode

  type WebhookId = string

  /**
   * What a webhook id stands for, the same at every delivery of it.  A `Report` is an event whose
   * type the mapper knows; `kind` is that type.
   */
  datatype Event =
    | NoStatus
    | Report(status: SmsStatus, kind: string, errorCode: Option<string>, occurredAt: Option<Time>)

  predicate Mapped(event: Event) {
    event.Report? ==> IsCallbackStatus(event.status)
  }

  type Event' = e: Event | Mapped(e) witness NoStatus

  /** What follows the first dot; all of it when there is none. */
  function EventSuffix(kind: string): string {
    if '.' in kind then AfterDot(kind) else kind
  }

  function AfterDot(kind: string): string {
    if kind == [] then [] else if kind[0] == '.' then kind[1..] else AfterDot(kind[1..])
  }

  function BuildLastError(event: Event): Option<string>
    requires event.Report?
  {
    if event.status == Delivered || event.status == Sent then None
    else
      var code := if event.errorCode.Some? && event.errorCode.value != [] then event.errorCode.value else EventSuffix(event.kind);
      Some("BIRD_" + SanitizeDiagnosticCode(code))
  }

  /** The text that a failure is told by: the error code, if there is one, or what follows the event type's first dot. */
  ghost predicate IsErrorText(event: Event, text: string)
    requires event.Report?
  {
    if event.errorCode.Some? && event.errorCode.value != [] then text == event.errorCode.value
    else if '.' in event.kind then exists a :: '.' !in a && event.kind == a + "." + text
    else text == event.kind
  }

  /** Its words in capitals, joined by underscores and cut to 64 characters. */
  function CodeOf(text: string): string {
    var joined := Join(Words(Upper(text)));
    if joined == [] then "UNKNOWN" else if |joined| <= 64 then joined else joined[..64]
  }

  /** What the event stores as the error: nothing for SENT and DELIVERED, otherwise the code of its text. */
  ghost predicate SpellsError(event: Event, lastError: Option<string>)
    requires event.Report?
  {
    if event.status == Delivered || event.status == Sent then lastError.None?
    else exists text :: IsErrorText(event, text) && lastError == Some("BIRD_" + CodeOf(text))
  }

  lemma {:induction false} AfterDotSplits(kind: string)
    ensures '.' in kind ==> exists a :: '.' !in a && kind == a + "." + AfterDot(kind)
  {
    if '.' in kind {
      if kind[0] == '.' {
        assert kind == [] + "." + kind[1..];
      } else {
        AfterDotSplits(kind[1..]);
        var a :| '.' !in a && kind[1..] == a + "." + AfterDot(kind[1..]);
        assert kind == ([kind[0]] + a) + "." + AfterDot(kind[1..]);
      }
    }
  }

  /** There is only one such text. */
  lemma ErrorTextIsUnique(event: Event, a: string, b: string)
    requires event.Report? && IsErrorText(event, a) && IsErrorText(event, b)
    ensures a == b
  {
    if !(event.errorCode.Some? && event.errorCode.value != []) && '.' in event.kind {
      var x :| '.' !in x && event.kind == x + "." + a;
      var y :| '.' !in y && event.kind == y + "." + b;
      assert event.kind[|x|] == '.' && event.kind[|y|] == '.';
      assert forall i | 0 <= i < |x| :: event.kind[i] == x[i];
      assert forall i | 0 <= i < |y| :: event.kind[i] == y[i];
      assert |x| == |y|;
      assert a == event.kind[|x| + 1..] && b == event.kind[|y| + 1..];
    }
  }

  lemma BuildLastErrorSpells(event: Event)
    requires event.Report?
    ensures SpellsError(event, BuildLastError(event))
  {
    if event.status != Delivered && event.status != Sent {
      AfterDotSplits(event.kind);
      var text := if event.errorCode.Some? && event.errorCode.value != [] then event.errorCode.value else EventSuffix(event.kind);
      assert IsErrorText(event, text);
      SanitizedIsCut(text);
    }
  }

  /** It is a short code whatever the provider sent, and there is one for a delivery failure and nothing else. */
  lemma LastErrorIsACode(event: Event', lastError: Option<string>)
    requires event.Report? && SpellsError(event, lastError)
    ensures lastError.Some? <==> IsDeliveryFailure(event.status)
    ensures lastError.Some? ==>
      "BIRD_" < lastError.value && |lastError.value| <= 5 + 64
      && forall i | 0 <= i < |lastError.value| :: CodeChar(lastError.value[i])
  {
    if lastError.Some? {
      var text :| IsErrorText(event, text) && lastError == Some("BIRD_" + CodeOf(text));
      CodesAreShort(text);
    }
  }

  lemma CodesAreShort(text: string)
    ensures 1 <= |CodeOf(text)| <= 64
    ensures forall i | 0 <= i < |CodeOf(text)| :: CodeChar(CodeOf(text)[i])
  {
    SanitizedIsCut(text);
    SanitizedNormalForm(text);
  }

  /** The events behind the webhook ids that Bird uses for this message. */
  type Events = map<WebhookId, Event'>

  datatype HandlerState =
    | Claiming
    | Dropped
    | Handling
    | Updating(callback: Callback)
    | Releasing
    | Answered
    | GaveError  // with no claim of its own: it had made none, or released it
    | Lost       // with a claim it never released

  datatype Handler = Handler(id: WebhookId, state: HandlerState, claimed: bool)

  /** One UPDATE, by whom and with what. */
  datatype Processed = Processed(id: WebhookId, callback: Callback)

  datatype Webhooks = Webhooks(row: Row, claims: set<WebhookId>, handlers: seq<Handler>, log: seq<Processed>)

  datatype Step =
    | Arrive(id: WebhookId)
    | Claim(h: nat)
    | ClaimUnheard(h: nat)          // the claim was set, but the reply was lost
    | Look(h: nat, found: bool, now: Time)
    | Update(h: nat)
    | UpdateUnheard(h: nat)         // the row was updated, but the reply was lost
    | Throw(h: nat)
    | Release(h: nat)
    | FailToRelease(h: nat)
    | Die(h: nat)
    | Expire(id: WebhookId)

  function Actor(step: Step): Option<nat> {
    match step
    case Arrive(_) => None
    case Expire(_) => None
    case Claim(h) => Some(h)
    case ClaimUnheard(h) => Some(h)
    case Look(h, _, _) => Some(h)
    case Update(h) => Some(h)
    case UpdateUnheard(h) => Some(h)
    case Throw(h) => Some(h)
    case Release(h) => Some(h)
    case FailToRelease(h) => Some(h)
    case Die(h) => Some(h)
  }

  predicate HandlerEnded(state: HandlerState) {
    state.Dropped? || state.Answered? || state.GaveError? || state.Lost?
  }

  predicate Enabled(events: Events, w: Webhooks, step: Step) {
    && (step.Arrive? ==> step.id in events)
    && (Actor(step).Some? ==>
          && Actor(step).value < |w.handlers|
          && var handler := w.handlers[Actor(step).value];
             match step
             case Claim(_) => handler.state.Claiming?
             case ClaimUnheard(_) => handler.state.Claiming? && handler.id !in w.claims
             case Look(_, _, _) => handler.state.Handling? && handler.id in events
             case Update(_) => handler.state.Updating?
             case UpdateUnheard(_) => handler.state.Updating?
             case Throw(_) => handler.state.Claiming? || handler.state.Handling? || handler.state.Updating?
             case Release(_) => handler.state.Releasing?
             case FailToRelease(_) => handler.state.Releasing?
             case _ => !HandlerEnded(handler.state))
  }

  function SetHandler(w: Webhooks, h: nat, state: HandlerState): Webhooks
    requires h < |w.handlers|
  {
    w.(handlers := w.handlers[h := w.handlers[h].(state := state)])
  }

  function Updated(w: Webhooks, h: nat, state: HandlerState): Webhooks
    requires h < |w.handlers| && w.handlers[h].state.Updating?
  {
    var callback := w.handlers[h].state.callback;
    SetHandler(w, h, state).(row := Apply(w.row, callback), log := w.log + [Processed(w.handlers[h].id, callback)])
  }

  function Claimed(w: Webhooks, h: nat, state: HandlerState): Webhooks
    requires h < |w.handlers|
  {
    w.(claims := w.claims + {w.handlers[h].id},
       handlers := w.handlers[h := Handler(w.handlers[h].id, state, true)])
  }

  function CallbackOf(event: Event', now: Time): Callback
    requires event.Report?
  {
    Callback(event.status, if event.occurredAt.Some? then event.occurredAt.value else now, BuildLastError(event))
  }

  function Next(events: Events, w: Webhooks, step: Step): Webhooks
    requires Enabled(events, w, step)
  {
    match step
    case Arrive(id) => w.(handlers := w.handlers + [Handler(id, Claiming, false)])
    case Claim(h) => if w.handlers[h].id in w.claims then SetHandler(w, h, Dropped) else Claimed(w, h, Handling)
    case ClaimUnheard(h) => Claimed(w, h, Lost)
    case Look(h, found, now) =>
      var event := events[w.handlers[h].id];
      SetHandler(w, h, if event.Report? && found then Updating(CallbackOf(event, now)) else Answered)
    case Update(h) => Updated(w, h, Answered)
    case UpdateUnheard(h) => Updated(w, h, Releasing)
    case Throw(h) => SetHandler(w, h, if w.handlers[h].state.Claiming? then GaveError else Releasing)
    case Release(h) => SetHandler(w, h, GaveError).(claims := w.claims - {w.handlers[h].id})
    case FailToRelease(h) => SetHandler(w, h, Lost)
    case Die(h) => SetHandler(w, h, if w.handlers[h].state.Claiming? then GaveError else Lost)
    case Expire(id) => w.(claims := w.claims - {id})
  }

  /** A run on a message that `row` was sent with, or already settled. */
  ghost predicate IsRun(events: Events, row: Row, states: seq<Webhooks>, steps: seq<Step>) {
    && |states| == |steps| + 1
    && states[0] == Webhooks(row, {}, [], [])
    && forall i | 0 <= i < |steps| :: Enabled(events, states[i], steps[i]) && states[i + 1] == Next(events, states[i], steps[i])
  }

  // ---------------------------------------------------------------- the log

  function Callbacks(log: seq<Processed>): (callbacks: seq<Callback>)
    ensures |callbacks| == |log| && forall i | 0 <= i < |log| :: callbacks[i] == log[i].callback
  {
    if log == [] then [] else Callbacks(log[..|log| - 1]) + [log[|log| - 1].callback]
  }

  predicate Logged(log: seq<Processed>, id: WebhookId) {
    exists i | 0 <= i < |log| :: log[i].id == id
  }

  /** The log with every webhook id taken once, at its first processing. */
  function FirstOnly(log: seq<Processed>): seq<Processed> {
    if log == [] then []
    else
      var n := |log| - 1;
      if Logged(log[..n], log[n].id) then FirstOnly(log[..n]) else FirstOnly(log[..n]) + [log[n]]
  }

  ghost predicate FirstOfItsId(log: seq<Processed>, processed: Processed) {
    exists k | 0 <= k < |log| :: log[k] == processed && !Logged(log[..k], log[k].id)
  }

  lemma {:induction false} FirstOnlyIsFirst(log: seq<Processed>)
    ensures forall id :: Logged(FirstOnly(log), id) <==> Logged(log, id)
    ensures forall i, j | 0 <= i < j < |FirstOnly(log)| :: FirstOnly(log)[i].id != FirstOnly(log)[j].id
    ensures forall i | 0 <= i < |FirstOnly(log)| :: FirstOfItsId(log, FirstOnly(log)[i])
  {
    if log != [] {
      var n := |log| - 1;
      var before, first := FirstOnly(log[..n]), FirstOnly(log);
      FirstOnlyIsFirst(log[..n]);
      assert log == log[..n] + [log[n]];
      forall id ensures Logged(first, id) <==> Logged(log, id) {
        LoggedAppend(log[..n], log[n], id);
        LoggedAppend(before, log[n], id);
      }
      forall i | 0 <= i < |first| ensures FirstOfItsId(log, first[i]) {
        if i < |before| { FirstInLonger(log, n, before[i]); } else { assert log[n] == first[i]; }
      }
      forall i, j | 0 <= i < j < |first| ensures first[i].id != first[j].id {
        if j == |before| { assert Logged(before, before[i].id); }
      }
    }
  }

  lemma FirstInLonger(log: seq<Processed>, n: nat, processed: Processed)
    requires n <= |log| && FirstOfItsId(log[..n], processed)
    ensures FirstOfItsId(log, processed)
  {
    var k :| 0 <= k < n && log[..n][k] == processed && !Logged(log[..n][..k], log[..n][k].id);
    assert log[..n][..k] == log[..k] && log[k] == processed;
  }

  lemma LoggedAppend(log: seq<Processed>, last: Processed, id: WebhookId)
    ensures Logged(log + [last], id) <==> Logged(log, id) || last.id == id
  {
    var longer := log + [last];
    if Logged(log, id) {
      var i :| 0 <= i < |log| && log[i].id == id;
      assert longer[i].id == id;
    }
    if last.id == id { assert longer[|log|].id == id; }
  }

  // ---------------------------------------------------------------- the invariant

  ghost predicate ReportsEvent(events: Events, id: WebhookId, callback: Callback) {
    && id in events && events[id].Report? && callback.Valid()
    && callback.status == events[id].status && SpellsError(events[id], callback.lastError)
    && (events[id].occurredAt.Some? ==> callback.eventAt == events[id].occurredAt.value)
  }

  ghost predicate ReportsFit(events: Events, w: Webhooks) {
    && (forall i | 0 <= i < |w.log| :: ReportsEvent(events, w.log[i].id, w.log[i].callback))
    && (forall h | 0 <= h < |w.handlers| && w.handlers[h].state.Updating? ::
          ReportsEvent(events, w.handlers[h].id, w.handlers[h].state.callback))
  }

  ghost predicate Sound(events: Events, row: Row, w: Webhooks) {
    ReportsFit(events, w) && w.row == Fold(row, Callbacks(w.log))
  }

  lemma CallbackReports(events: Events, id: WebhookId, now: Time)
    requires id in events && events[id].Report?
    ensures ReportsEvent(events, id, CallbackOf(events[id], now))
    ensures events[id].occurredAt.None? ==> CallbackOf(events[id], now).eventAt == now
  {
    BuildLastErrorSpells(events[id]);
    LastErrorIsACode(events[id], BuildLastError(events[id]));
  }

  lemma ReportsFitKept(events: Events, w: Webhooks, step: Step)
    requires ReportsFit(events, w) && Enabled(events, w, step)
    ensures ReportsFit(events, Next(events, w, step))
  {
    if step.Look? && events[w.handlers[step.h].id].Report? { CallbackReports(events, w.handlers[step.h].id, step.now); }
  }

  lemma SoundKept(events: Events, row: Row, w: Webhooks, step: Step)
    requires Sound(events, row, w) && Enabled(events, w, step)
    ensures Sound(events, row, Next(events, w, step))
  {
    ReportsFitKept(events, w, step);
    var after := Next(events, w, step);
    if step.Update? || step.UpdateUnheard? {
      assert after.log[..|w.log|] == w.log;
      assert Callbacks(after.log)[..|w.log|] == Callbacks(w.log);
    } else {
      assert after.log == w.log && after.row == w.row;
    }
  }

  lemma {:induction false} RunsAreSound(events: Events, row: Row, states: seq<Webhooks>, steps: seq<Step>, i: nat)
    requires IsRun(events, row, states, steps) && i < |states|
    ensures Sound(events, row, states[i])
  {
    if i == 0 {
      assert Fold(row, Callbacks([])) == row;
    } else {
      RunsAreSound(events, row, states, steps, i - 1);
      SoundKept(events, row, states[i - 1], steps[i - 1]);
    }
  }

  // ---------------------------------------------------------------- the claim is a fast path

  /** A webhook id that was processed before changes no column when it is processed again. */
  lemma RepeatChangesNothing(events: Events, row: Row, log: seq<Processed>, again: Processed)
    requires InDeliveryPhase(row.status)
    requires forall i | 0 <= i < |log| :: ReportsEvent(events, log[i].id, log[i].callback)
    requires ReportsEvent(events, again.id, again.callback) && Logged(log, again.id)
    ensures Apply(Fold(row, Callbacks(log)), again.callback) == Fold(row, Callbacks(log))
  {
    var i :| 0 <= i < |log| && log[i].id == again.id;
    RepeatedStatusIsNoOp(row, Callbacks(log), i, again.callback);
  }

  lemma {:induction false} FoldOfFirstOnly(events: Events, row: Row, log: seq<Processed>)
    requires InDeliveryPhase(row.status)
    requires forall i | 0 <= i < |log| :: ReportsEvent(events, log[i].id, log[i].callback)
    ensures Fold(row, Callbacks(log)) == Fold(row, Callbacks(FirstOnly(log)))
  {
    if log != [] {
      var n := |log| - 1;
      FoldOfFirstOnly(events, row, log[..n]);
      assert Callbacks(log)[..n] == Callbacks(log[..n]);
      if Logged(log[..n], log[n].id) {
        RepeatChangesNothing(events, row, log[..n], log[n]);
      } else {
        var first := FirstOnly(log);
        assert first[..|first| - 1] == FirstOnly(log[..n]);
        assert Callbacks(first)[..|first| - 1] == Callbacks(FirstOnly(log[..n]));
      }
    }
  }

  /**
   * However claims are made, expire, are lost or are released by another handler, the row is
   * that of each processed webhook id taken once, at its first processing.
   */
  lemma ClaimIsOnlyAFastPath(events: Events, row: Row, states: seq<Webhooks>, steps: seq<Step>, i: nat)
    requires IsRun(events, row, states, steps) && i < |states| && InDeliveryPhase(row.status)
    ensures states[i].row == Fold(row, Callbacks(FirstOnly(states[i].log)))
  {
    RunsAreSound(events, row, states, steps, i);
    FoldOfFirstOnly(events, row, states[i].log);
  }

  /** Processing a webhook id again, claimed or not, leaves the row as it is. */
  lemma ReprocessingChangesNothing(events: Events, row: Row, states: seq<Webhooks>, steps: seq<Step>, i: nat)
    requires IsRun(events, row, states, steps) && i < |steps| && InDeliveryPhase(row.status)
    requires steps[i].Update? || steps[i].UpdateUnheard?
    requires Logged(states[i].log, states[i].handlers[steps[i].h].id)
    ensures states[i + 1].row == states[i].row
  {
    RunsAreSound(events, row, states, steps, i);
    var handler := states[i].handlers[steps[i].h];
    RepeatChangesNothing(events, row, states[i].log, Processed(handler.id, handler.state.callback));
  }

  // ---------------------------------------------------------------- what becomes of a delivery

  /** What the lookup of a handler answered, if it has looked. */
  function LookOf(steps: seq<Step>, i: nat, h: nat): Option<bool>
    requires i <= |steps|
  {
    if i == 0 then None
    else if steps[i - 1].Look? && steps[i - 1].h == h then Some(steps[i - 1].found)
    else LookOf(steps, i - 1, h)
  }

  /** Whether the UPDATE of a handler was heard to succeed. */
  function HasUpdated(steps: seq<Step>, i: nat, h: nat): bool
    requires i <= |steps|
  {
    i > 0 && (steps[i - 1] == Update(h) || HasUpdated(steps, i - 1, h))
  }

  /** Where a handler stands agrees with what its lookup answered. */
  ghost predicate HandledAsFound(events: Events, w: Webhooks, h: nat, look: Option<bool>, updated: bool) {
    if h < |w.handlers| then
      w.handlers[h].id in events
      && match w.handlers[h].state
         case Claiming => look.None? && !updated
         case Handling => look.None? && !updated
         case Updating(_) => look == Some(true) && !updated && events[w.handlers[h].id].Report?
         case Answered => events[w.handlers[h].id].Report? ==> look == Some(updated)
         case _ => true
    else look.None? && !updated
  }

  lemma HandledAsFoundKept(events: Events, w: Webhooks, step: Step, h: nat, look: Option<bool>, updated: bool)
    requires HandledAsFound(events, w, h, look, updated) && Enabled(events, w, step)
    ensures HandledAsFound(events, Next(events, w, step), h,
                           if step.Look? && step.h == h then Some(step.found) else look, updated || step == Update(h))
  {
  }

  /**
   * Over any run: a report that is answered, and not dropped as a repeat, was updated exactly when
   * its lookup found the message.
   */
  lemma {:induction false} AnsweredAsFound(events: Events, row: Row, states: seq<Webhooks>, steps: seq<Step>, i: nat, h: nat)
    requires IsRun(events, row, states, steps) && i < |states|
    ensures HandledAsFound(events, states[i], h, LookOf(steps, i, h), HasUpdated(steps, i, h))
  {
    if i > 0 {
      AnsweredAsFound(events, row, states, steps, i - 1, h);
      HandledAsFoundKept(events, states[i - 1], steps[i - 1], h, LookOf(steps, i - 1, h), HasUpdated(steps, i - 1, h));
    }
  }

  /** A lookup that finds the message of a report goes on to an UPDATE that carries the event's status, time and error. */
  lemma LookDecides(events: Events, row: Row, states: seq<Webhooks>, steps: seq<Step>, i: nat)
    requires IsRun(events, row, states, steps) && i < |steps| && steps[i].Look?
    ensures var h, before, after := steps[i].h, states[i], states[i + 1];
      && h < |before.handlers| == |after.handlers| && before.handlers[h].id in events
      && after.row == before.row && after.log == before.log && after.claims == before.claims
      && var event := events[before.handlers[h].id];
         if event.Report? && steps[i].found then
           && after.handlers[h].state.Updating?
           && var callback := after.handlers[h].state.callback;
              && callback.status == event.status && SpellsError(event, callback.lastError)
              && callback.eventAt == if event.occurredAt.Some? then event.occurredAt.value else steps[i].now
         else after.handlers[h].state.Answered?
  {
    var id := states[i].handlers[steps[i].h].id;
    if events[id].Report? { CallbackReports(events, id, steps[i].now); }
  }

  /** An UPDATE, heard or not, logs the id and the callback that its handler holds. */
  lemma UpdateIsLogged(events: Events, row: Row, states: seq<Webhooks>, steps: seq<Step>, i: nat)
    requires IsRun(events, row, states, steps) && i < |steps| && (steps[i].Update? || steps[i].UpdateUnheard?)
    ensures var h, before, after := steps[i].h, states[i], states[i + 1];
      && h < |before.handlers| && before.handlers[h].state.Updating?
      && after.log == before.log + [Processed(before.handlers[h].id, before.handlers[h].state.callback)]
  {
  }

  // ---------------------------------------------------------------- drops and claims

  /** Some other handler of the same webhook id claimed it. */
  ghost predicate ClaimedBy(w: Webhooks, id: WebhookId) {
    exists g | 0 <= g < |w.handlers| :: w.handlers[g].id == id && w.handlers[g].claimed
  }

  /** At work under a claim of its own, or ended with it unreleased. */
  predicate PastTheClaim(state: HandlerState) {
    state.Handling? || state.Updating? || state.Releasing? || state.Answered? || state.Lost?
  }

  ghost predicate ClaimsFit(w: Webhooks) {
    && (forall id | id in w.claims :: ClaimedBy(w, id))
    && (forall h | 0 <= h < |w.handlers| && w.handlers[h].state.Dropped? ::
          !w.handlers[h].claimed && ClaimedBy(w, w.handlers[h].id))
    && (forall h | 0 <= h < |w.handlers| && w.handlers[h].state.Claiming? :: !w.handlers[h].claimed)
    && (forall h | 0 <= h < |w.handlers| && PastTheClaim(w.handlers[h].state) :: w.handlers[h].claimed)
  }

  lemma ClaimedByKept(events: Events, w: Webhooks, step: Step, id: WebhookId)
    requires Enabled(events, w, step) && ClaimedBy(w, id)
    ensures ClaimedBy(Next(events, w, step), id)
  {
    var g :| 0 <= g < |w.handlers| && w.handlers[g].id == id && w.handlers[g].claimed;
    var after := Next(events, w, step).handlers;
    assert after[g].id == id && after[g].claimed;
  }

  lemma ClaimsFitKept(events: Events, w: Webhooks, step: Step)
    requires ClaimsFit(w) && Enabled(events, w, step)
    ensures ClaimsFit(Next(events, w, step))
  {
    var after := Next(events, w, step);
    forall id | id in after.claims ensures ClaimedBy(after, id) {
      if id in w.claims { ClaimedByKept(events, w, step, id); }
      else { assert after.handlers[Actor(step).value].id == id; }
    }
    forall h | 0 <= h < |after.handlers| && after.handlers[h].state.Dropped?
      ensures !after.handlers[h].claimed && ClaimedBy(after, after.handlers[h].id)
    {
      ClaimedByKept(events, w, step, after.handlers[h].id);
    }
  }

  /**
   * A delivery is dropped only when another delivery of the same webhook id had claimed it; and
   * one that is handled, answered or lost had claimed it itself.
   */
  lemma {:induction false} DropsFollowAClaim(events: Events, row: Row, states: seq<Webhooks>, steps: seq<Step>, i: nat)
    requires IsRun(events, row, states, steps) && i < |states|
    ensures ClaimsFit(states[i])
  {
    if i > 0 {
      DropsFollowAClaim(events, row, states, steps, i - 1);
      ClaimsFitKept(events, states[i - 1], steps[i - 1]);
    }
  }

  // ---------------------------------------------------------------- deliveries dropped in vain

  /** Has claimed, and has answered or is still to answer, or to release its claim. */
  predicate Covers(handler: Handler, id: WebhookId) {
    && handler.id == id && handler.claimed
    && (handler.state.Handling? || handler.state.Updating? || handler.state.Releasing? || handler.state.Answered?)
  }

  ghost predicate Covered(w: Webhooks, id: WebhookId) {
    exists g | 0 <= g < |w.handlers| :: Covers(w.handlers[g], id)
  }

  /** The state after one more delivery arrives and tries its claim. */
  function WithDelivery(events: Events, w: Webhooks, id: WebhookId): Webhooks
    requires id in events
  {
    Next(events, Next(events, w, Arrive(id)), Claim(|w.handlers|))
  }

  /** One more delivery would be dropped, with nobody left who could process its webhook id. */
  ghost predicate DropsInVain(events: Events, w: Webhooks, id: WebhookId)
    requires id in events
  {
    WithDelivery(events, w, id).handlers[|w.handlers|].state.Dropped? && !Covered(WithDelivery(events, w, id), id)
  }

  /** A delivery is dropped in vain exactly when it meets a claim whose claimers are all lost; and nothing is stored. */
  lemma InVainIffUncovered(events: Events, w: Webhooks, id: WebhookId)
    requires id in events
    ensures DropsInVain(events, w, id) <==> id in w.claims && !Covered(w, id)
    ensures DropsInVain(events, w, id) ==>
      WithDelivery(events, w, id).row == w.row && WithDelivery(events, w, id).log == w.log
  {
    var after := WithDelivery(events, w, id);
    if id in w.claims {
      if Covered(w, id) {
        var g :| 0 <= g < |w.handlers| && Covers(w.handlers[g], id);
        assert Covers(after.handlers[g], id);
      } else {
        assert forall g | 0 <= g < |w.handlers| :: after.handlers[g] == w.handlers[g];
      }
    }
  }

  /** The step ends a claimer without a release: it died, its release failed, or it never heard of its claim. */
  predicate Orphans(w: Webhooks, step: Step) {
    || step.ClaimUnheard? || step.FailToRelease?
    || (step.Die? && step.h < |w.handlers| && !w.handlers[step.h].state.Claiming?)
  }

  /** A claim that the step orphans is gone already, or another claimer of its webhook id covers it. */
  ghost predicate OrphansNothing(events: Events, w: Webhooks, step: Step)
    requires Enabled(events, w, step)
  {
    Orphans(w, step) ==>
      var id := w.handlers[Actor(step).value].id;
      || id !in Next(events, w, step).claims
      || exists g | 0 <= g < |w.handlers| :: g != Actor(step).value && Covers(w.handlers[g], id)
  }

  ghost predicate ClaimsCovered(w: Webhooks) {
    forall id | id in w.claims :: Covered(w, id)
  }

  ghost predicate HandlersFit(events: Events, w: Webhooks) {
    && (forall h | 0 <= h < |w.handlers| :: w.handlers[h].id in events)
    && (forall h | 0 <= h < |w.handlers| ::
          w.handlers[h].state.Handling? || w.handlers[h].state.Updating? || w.handlers[h].state.Releasing? ==> w.handlers[h].claimed)
    && (forall id | id in w.claims :: id in events)
  }

  lemma HandlersFitKept(events: Events, w: Webhooks, step: Step)
    requires HandlersFit(events, w) && Enabled(events, w, step)
    ensures HandlersFit(events, Next(events, w, step))
  {
  }

  lemma {:induction false} RunsHandlersFit(events: Events, row: Row, states: seq<Webhooks>, steps: seq<Step>, i: nat)
    requires IsRun(events, row, states, steps) && i < |states|
    ensures HandlersFit(events, states[i])
  {
    if i > 0 {
      RunsHandlersFit(events, row, states, steps, i - 1);
      HandlersFitKept(events, states[i - 1], steps[i - 1]);
    }
  }

  /** A handler goes on covering its webhook id, unless it releases its claim or is lost. */
  lemma CoversStep(events: Events, w: Webhooks, step: Step, g: nat, id: WebhookId)
    requires Enabled(events, w, step) && g < |w.handlers| && Covers(w.handlers[g], id)
    ensures Covers(Next(events, w, step).handlers[g], id)
            || (Actor(step) == Some(g) && (Orphans(w, step) || id !in Next(events, w, step).claims))
  {
  }

  lemma ClaimsCoveredKept(events: Events, w: Webhooks, step: Step)
    requires ClaimsCovered(w) && Enabled(events, w, step) && OrphansNothing(events, w, step)
    ensures ClaimsCovered(Next(events, w, step))
  {
    var after := Next(events, w, step);
    forall id | id in after.claims ensures Covered(after, id) {
      if Orphans(w, step) && w.handlers[Actor(step).value].id == id {
        var g :| 0 <= g < |w.handlers| && g != Actor(step).value && Covers(w.handlers[g], id);
        assert Covers(after.handlers[g], id);
      } else if id in w.claims {
        var g :| 0 <= g < |w.handlers| && Covers(w.handlers[g], id);
        CoversStep(events, w, step, g, id);
        assert Covers(after.handlers[g], id);
      } else {
        assert Covers(after.handlers[Actor(step).value], id);
      }
    }
  }

  lemma OrphanShows(events: Events, w: Webhooks, step: Step)
    requires HandlersFit(events, w) && Enabled(events, w, step) && !OrphansNothing(events, w, step)
    ensures var id := w.handlers[Actor(step).value].id;
      id in Next(events, w, step).claims && !Covered(Next(events, w, step), id)
  {
    var h, after := Actor(step).value, Next(events, w, step);
    var id := w.handlers[h].id;
    assert !Covers(after.handlers[h], id);
    assert forall g | 0 <= g < |w.handlers| && g != h :: after.handlers[g] == w.handlers[g];
  }

  lemma {:induction false} ClaimsStayCovered(events: Events, row: Row, states: seq<Webhooks>, steps: seq<Step>, i: nat)
    requires IsRun(events, row, states, steps) && i < |states|
    requires forall h | 0 <= h < |steps| :: OrphansNothing(events, states[h], steps[h])
    ensures ClaimsCovered(states[i])
  {
    if i > 0 {
      ClaimsStayCovered(events, row, states, steps, i - 1);
      ClaimsCoveredKept(events, states[i - 1], steps[i - 1]);
    }
  }

  /**
   * At no point of a run would a delivery be dropped in vain exactly when each handler that ends
   * without releasing its claim leaves none: the claim has expired or been released by another, or
   * another claimer covers its webhook id.  In particular, never while every handler that claims
   * goes on to answer or to release.
   */
  lemma NoneDroppedInVainIff(events: Events, row: Row, states: seq<Webhooks>, steps: seq<Step>)
    requires IsRun(events, row, states, steps)
    ensures (forall i, id | 0 <= i < |states| && id in events :: !DropsInVain(events, states[i], id))
            <==> (forall i | 0 <= i < |steps| :: OrphansNothing(events, states[i], steps[i]))
  {
    if forall i | 0 <= i < |steps| :: OrphansNothing(events, states[i], steps[i]) {
      forall i, id | 0 <= i < |states| && id in events ensures !DropsInVain(events, states[i], id) {
        ClaimsStayCovered(events, row, states, steps, i);
        InVainIffUncovered(events, states[i], id);
      }
    } else {
      var i :| 0 <= i < |steps| && !OrphansNothing(events, states[i], steps[i]);
      var id := states[i].handlers[Actor(steps[i]).value].id;
      RunsHandlersFit(events, row, states, steps, i);
      OrphanShows(events, states[i], steps[i]);
      InVainIffUncovered(events, states[i + 1], id);
    }
  }

  /**
   * A report that comes before its message can be found is answered, and keeps its claim: while the
   * claim lasts, the next delivery is dropped as well, and nothing is stored.
   */
  lemma UnfoundReportKeepsItsClaim(events: Events, w: Webhooks, h: nat, now: Time)
    requires Enabled(events, w, Look(h, false, now)) && w.handlers[h].id in w.claims && events[w.handlers[h].id].Report?
    ensures var id, after := w.handlers[h].id, Next(events, w, Look(h, false, now));
      && after.handlers[h].state.Answered? && id in after.claims
      && WithDelivery(events, after, id).handlers[|after.handlers|].state.Dropped?
      && WithDelivery(events, after, id).row == w.row && WithDelivery(events, after, id).log == w.log
  {
  }

  /** Processing threw and so did the release: the retry is dropped, and nothing was ever stored. */
  lemma UnreleasedClaimDropsRetry(row: Row) returns (states: seq<Webhooks>, steps: seq<Step>)
    ensures IsRun(map["msg" := Report(Delivered, "sms.delivered", None, None)], row, states, steps)
    ensures steps == [Arrive("msg"), Claim(0), Throw(0), FailToRelease(0), Arrive("msg"), Claim(1)]
    ensures |states[|steps|].handlers| == 2 && states[|steps|].handlers[1].state.Dropped?
    ensures states[|steps|].handlers[0].state.Lost? && states[|steps|].log == []
  {
    var events: Events := map["msg" := Report(Delivered, "sms.delivered", None, None)];
    steps := [Arrive("msg"), Claim(0), Throw(0), FailToRelease(0), Arrive("msg"), Claim(1)];
    var s0 := Webhooks(row, {}, [], []);
    var s1 := Next(events, s0, steps[0]);
    var s2 := Next(events, s1, steps[1]);
    var s3 := Next(events, s2, steps[2]);
    var s4 := Next(events, s3, steps[3]);
    var s5 := Next(events, s4, steps[4]);
    states := [s0, s1, s2, s3, s4, s5, Next(events, s5, steps[5])];
  }

  /** The same after a crash: the first handler dies with its claim. */
  lemma DroppedUnprocessed(row: Row) returns (states: seq<Webhooks>, steps: seq<Step>)
    ensures IsRun(map["msg" := Report(Delivered, "sms.delivered", None, None)], row, states, steps)
    ensures |states[|steps|].handlers| == 2 && states[|steps|].handlers[1].state.Dropped? && states[|steps|].log == []
  {
    var events: Events := map["msg" := Report(Delivered, "sms.delivered", None, None)];
    steps := [Arrive("msg"), Claim(0), Die(0), Arrive("msg"), Claim(1)];
    var s0 := Webhooks(row, {}, [], []);
    var s1 := Next(events, s0, steps[0]);
    var s2 := Next(events, s1, steps[1]);
    var s3 := Next(events, s2, steps[2]);
    var s4 := Next(events, s3, steps[3]);
    var s5 := Next(events, s4, steps[4]);
    states := [s0, s1, s2, s3, s4, s5];
  }
}
