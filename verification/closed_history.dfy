/**
 * `postClosedCaseHistory` and its listener (discord-bot/bot.js:520-594): when a closed case is
 * added, post its one-entry history to the case channel and mark the case posted.
 */
module ClosedHistory {
  import opened Wrappers
  import opened Shift
  import opened Identity
  import opened Messaging
  import opened Render

  /** One delivery: skipped if already posted; the mark is written only after the send succeeds. */
  function ClosedCaseStep(c: ChannelState, rec: RecordState, text: string): (r: (ChannelState, RecordState))
    ensures ChannelOk(c) ==> ChannelOk(r.0)
    ensures rec.posted ==> r == (c, rec)
  {
    if rec.posted then (c, rec)
    else
      var (c1, id) := SendOn(c, Text(text));
      if id.None? then (c, rec)
      else match MarkPostedOn(rec)
        case None => (c1, rec)
        case Some(rec') => (c1, rec')
  }

  /** The case is marked posted exactly when its history was sent as one new message. */
  lemma MarkedOnlyAfterSend(c: ChannelState, rec: RecordState, text: string)
    requires !rec.posted
    ensures var (c', rec') := ClosedCaseStep(c, rec, text);
      (rec'.posted <==> rec.present && !c.sendFails) &&
      (rec'.posted ==> c'.log == c.log + [Sent(c.nextId, Text(text))] &&
                       c'.messages == c.messages[c.nextId := Text(text)])
  {
  }

  /** A failed send leaves the channel and the mark as they were, so a later delivery retries. */
  lemma FailedSendChangesNothing(c: ChannelState, rec: RecordState, text: string)
    requires c.sendFails
    ensures ClosedCaseStep(c, rec, text) == (c, rec)
  {
  }

  /** Delivering the same added case twice posts its history once. */
  lemma ReplayPostsOnce(c: ChannelState, rec: RecordState, text: string)
    requires rec.present
    ensures var (c1, rec1) := ClosedCaseStep(c, rec, text);
      ClosedCaseStep(c1, rec1, text) == (c1, rec1)
  {
  }

  /** The handler; `ch == null` is a channel that was not found (nothing happens). */
  method PostClosedCaseHistory(cc: ClosedCase, ch: Channel?, rec: PostRecord, dir: Directory, env: Env)
    modifies ch, rec
    ensures ch == null ==> unchanged(rec)
    ensures ch != null ==>
      (ch.State(), rec.State()) == ClosedCaseStep(old(ch.State()), old(rec.State()), ClosedCaseText(dir, cc, env))
  {
    if ch == null || rec.posted {
      return;
    }
    var id := ch.Send(Text(ClosedCaseText(dir, cc, env)));
    if id.Some? {
      var ok := rec.MarkPosted();
    }
  }
}
