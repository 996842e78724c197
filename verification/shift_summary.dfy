/**
 * `postSummaryToDiscord` and its listener (discord-bot/bot.js:494-517, 596-792): when a shift
 * summary is added, clear the bound queue view, post the summary followed by a fresh waiting view,
 * bind the waiting view and mark the summary posted. The flag `summaryJustPosted` is raised for
 * the duration, so that the queue flow does not post a waiting view of its own.
 */
module ShiftSummaryPost {
  import opened Wrappers
  import opened Shift
  import opened Identity
  import opened Messaging
  import opened Render
  import opened QueueView

  /**
   * One delivery of an added summary. A summary already marked posted is skipped. Otherwise:
   * delete the bound queue view (a failure is ignored), clear the binding and raise the flag (the
   * run aborts here if the configuration document is missing), send the summary, send the waiting
   * view, bind it and lower the flag, and mark the summary posted. A failed send aborts the run.
   */
  function SummaryStep(c: ChannelState, d: ConfigData, rec: RecordState, summary: string, waiting: string)
    : (r: (ChannelState, ConfigData, RecordState))
    ensures ChannelOk(c) ==> ChannelOk(r.0)
    ensures ConfigOk(d) ==> ConfigOk(r.1)
    ensures rec.posted ==> r.2 == rec
  {
    if rec.posted then (c, d, rec)
    else
      var c1 := if d.opMsg.Some? then DeleteOn(c, d.opMsg.value) else c;
      match OpUpdated(d, None, true)
      case None => (c1, d, rec)
      case Some(d1) =>
        var (c2, summaryId) := SendOn(c1, Text(summary));
        if summaryId.None? then (c2, d1, rec)
        else
          var (c3, waitingId) := SendOn(c2, Text(waiting));
          if waitingId.None? then (c3, d1, rec)
          else
            var d2 := OpUpdated(d1, Some(waitingId.value), false).value;
            match MarkPostedOn(rec)
            case None => (c3, d2, rec)
            case Some(rec') => (c3, d2, rec')
  }

  /** A summary already marked posted is never posted again. */
  lemma PostedSummaryIsSkipped(c: ChannelState, d: ConfigData, rec: RecordState, summary: string, waiting: string)
    requires rec.posted
    ensures SummaryStep(c, d, rec, summary, waiting) == (c, d, rec)
  {
  }

  /**
   * A complete delivery: the old queue view is gone, the summary and then the waiting view are
   * the two newest messages, the waiting view is bound with the flag lowered, and the summary is
   * marked posted.
   */
  lemma DeliveryPostsSummaryThenWaitingView(c: ChannelState, d: ConfigData, rec: RecordState, summary: string, waiting: string)
    requires !rec.posted && rec.present && d.present && !c.sendFails
    ensures var (c', d', rec') := SummaryStep(c, d, rec, summary, waiting);
      var base := if d.opMsg.Some? then c.messages - {d.opMsg.value} else c.messages;
      c'.messages == base[c.nextId := Text(summary)][c.nextId + 1 := Text(waiting)] &&
      c'.nextId == c.nextId + 2 &&
      d' == d.(opMsg := Some(c.nextId + 1), justPosted := false) &&
      rec'.posted
  {
  }

  /** The summary is marked posted only when both messages reached the channel. */
  lemma MarkedOnlyAfterBothSends(c: ChannelState, d: ConfigData, rec: RecordState, summary: string, waiting: string)
    requires !rec.posted
    ensures var (c', _, rec') := SummaryStep(c, d, rec, summary, waiting);
      rec'.posted ==>
        (|c'.log| >= 2 &&
         c'.log[|c'.log| - 2] == Sent(c'.nextId - 2, Text(summary)) &&
         c'.log[|c'.log| - 1] == Sent(c'.nextId - 1, Text(waiting)))
  {
  }

  /**
   * When a send fails after the flag was raised, the flag stays raised and nothing is bound, so
   * the queue flow posts no waiting view while the shift stays idle.
   */
  lemma FailedSendLeavesFlagRaised(c: ChannelState, d: ConfigData, rec: RecordState, summary: string, waiting: string,
                                   data: ShiftData, dir: Directory, env: Env)
    requires !rec.posted && d.present && c.sendFails && IsIdle(data)
    ensures var (c', d', rec') := SummaryStep(c, d, rec, summary, waiting);
      d'.justPosted && d'.opMsg.None? && !rec'.posted &&
      QueueStep(c', d', data, dir, env) == (c', d')
  {
  }

  /**
   * After a complete delivery the waiting view is the bound queue view: an idle queue run leaves
   * it alone, and the next shift's first queue run edits it in place instead of posting anew.
   */
  lemma WaitingViewIsReusedByNextShift(c: ChannelState, d: ConfigData, rec: RecordState, summary: string, waiting: string,
                                       data: ShiftData, dir: Directory, env: Env)
    requires !rec.posted && rec.present && d.present && !c.sendFails
    ensures var (c', d', _) := SummaryStep(c, d, rec, summary, waiting);
      var (c'', d'') := QueueStep(c', d', data, dir, env);
      (IsIdle(data) ==> (c'', d'') == (c', d')) &&
      (!IsIdle(data) ==>
        (d'' == d' && c''.nextId == c'.nextId &&
         c''.messages == c'.messages[c.nextId + 1 := Text(QueueText(dir, data, env))]))
  {
    DeliveryPostsSummaryThenWaitingView(c, d, rec, summary, waiting);
    var (c', d', _) := SummaryStep(c, d, rec, summary, waiting);
    if IsIdle(data) {
      IdleRunSuppressed(c', d', data, dir, env);
    } else {
      ActiveRunEditsBoundView(c', d', data, dir, env);
    }
  }

  /** The summary's handler; `ch == null` is a channel that was not found (nothing happens). */
  method PostSummaryToDiscord(s: ShiftSummary, ch: Channel?, cfg: ConfigDoc, rec: PostRecord, dir: Directory, env: Env)
    modifies ch, cfg, rec
    ensures ch == null ==> unchanged(cfg, rec)
    ensures ch != null ==>
      (ch.State(), cfg.Data(), rec.State()) ==
      SummaryStep(old(ch.State()), old(cfg.Data()), old(rec.State()), SummaryText(dir, s, env), WaitingText(env.hostDate))
  {
    if ch == null {
      return;
    }
    var text := BuildSummaryText(dir, s, env);
    DeliverSummary(ch, cfg, rec, text, WaitingText(env.hostDate));
  }

  /** The delivery steps of `SummaryStep` on the channel and the two documents. */
  method DeliverSummary(ch: Channel, cfg: ConfigDoc, rec: PostRecord, summary: string, waiting: string)
    modifies ch, cfg, rec
    ensures (ch.State(), cfg.Data(), rec.State()) ==
      SummaryStep(old(ch.State()), old(cfg.Data()), old(rec.State()), summary, waiting)
  {
    if rec.posted {
      return;
    }
    var d := cfg.Data();
    if d.opMsg.Some? {
      ch.Delete(d.opMsg.value);
    }
    var ok := cfg.UpdateOpAndFlag(None, true);
    if !ok {
      return;
    }
    var summaryId := ch.Send(Text(summary));
    if summaryId.None? {
      return;
    }
    var waitingId := ch.Send(Text(waiting));
    if waitingId.None? {
      return;
    }
    ok := cfg.UpdateOpAndFlag(waitingId, false);
    ok := rec.MarkPosted();
  }
}
