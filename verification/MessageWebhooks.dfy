// Bird deliveries among everything else that acts on a message.  `BirdWebhook` follows them where
// they alone write the row; here the row is the whole machine's, with dispatches, requeues and
// other callbacks in between.

module MessageWebhooks {
  import opened SmsMessage
  import opened DeliveryStatus
  import opened DispatchPlan
  import opened MessageMachine
  import opened MessageExclusive
  import opened BirdWebhook

  /** The log names the webhook id behind each callback applied since the message was sent. */
  ghost predicate LabelsApplied(events: Events, log: seq<Processed>, m: Message) {
    && Callbacks(log) == m.history.applied
    && forall k | 0 <= k < |log| :: ReportsEvent(events, log[k].id, log[k].callback)
  }

  /**
   * In any run of the message's machine under E1 and E2: once sent, the row is its SENT write with
   * each webhook id taken once, at its first processing, however often claims let it be processed.
   */
  lemma SentRowTakesEachIdOnce(cfg: Config, events: Events, states: seq<Message>,
                               steps: seq<MessageMachine.Step>, i: nat, log: seq<Processed>)
    requires MessageMachine.IsRun(cfg, states, steps) && Exclusive(states, steps) && i < |states|
    requires states[i].history.sentRow.Some? && LabelsApplied(events, log, states[i])
    ensures states[i].row == Fold(states[i].history.sentRow.value, Callbacks(FirstOnly(log)))
  {
    SentRowsAreSettled(cfg, states, steps, i);
    FoldOfFirstOnly(events, states[i].history.sentRow.value, log);
  }

  /** Under E1 and E2, updating the row for a webhook id that has been applied before changes no column. */
  lemma ReprocessingInRunsChangesNothing(cfg: Config, events: Events, states: seq<Message>, steps: seq<MessageMachine.Step>, i: nat,
                                         log: seq<Processed>, id: WebhookId)
    requires MessageMachine.IsRun(cfg, states, steps) && Exclusive(states, steps) && i < |steps|
    requires states[i].history.sentRow.Some? && LabelsApplied(events, log, states[i]) && Logged(log, id)
    requires steps[i].ApplyCallback? && ReportsEvent(events, id, states[i].deliveries[steps[i].delivery].callback)
    ensures states[i + 1].row == states[i].row
  {
    var sent, callback := states[i].history.sentRow.value, states[i].deliveries[steps[i].delivery].callback;
    assert InDeliveryPhase(sent.status) && states[i].row == Fold(sent, Callbacks(log)) by {
      SentRowsAreSettled(cfg, states, steps, i);
    }
    RepeatChangesNothing(events, sent, log, Processed(id, callback));
    assert states[i + 1].row == Apply(states[i].row, callback);
  }
}
