/**
 * `updateStoryChannelMessage` (discord-bot/bot.js:1009-1159): the case channel shows one message
 * per batch of today's cases. While any case of the batch is open the message is edited in
 * place; once all are closed it becomes a summary, its cases are recorded as summarized and the
 * binding is cleared, so that the next case starts a new message. The record of summarized
 * cases is dropped when its date is not today's.
 */
module StoryView {
  import opened Wrappers
  import opened Calendar
  import opened Shift
  import opened Identity
  import opened TodayFilter
  import opened Messaging
  import opened Render

  /** The summarized ids still in force: the stored ones, unless they were stored on another day. */
  function EffectiveSummarized(d: ConfigData, today: string): (r: seq<string>)
    ensures r == [] || r == d.summarizedIds
    ensures d.summarizedDate == "" || d.summarizedDate == today ==> r == d.summarizedIds
  {
    if d.summarizedDate != "" && d.summarizedDate != today then [] else d.summarizedIds
  }

  /** The cases not yet summarized, in order. */
  function ActiveBatch(cases: seq<Case>, summarized: seq<string>): (r: seq<Case>)
    ensures |r| <= |cases|
    ensures forall i :: 0 <= i < |r| ==> r[i] in cases && r[i].id !in summarized
    ensures forall i :: 0 <= i < |cases| && cases[i].id !in summarized ==> cases[i] in r
  {
    if cases == [] then []
    else if cases[0].id !in summarized then [cases[0]] + ActiveBatch(cases[1..], summarized)
    else ActiveBatch(cases[1..], summarized)
  }

  /** The batch keeps the cases' order and every copy of each case it keeps. */
  lemma {:induction false} ActiveBatchKeepsOrderAndCopies(cases: seq<Case>, summarized: seq<string>)
    ensures IsSubsequence(ActiveBatch(cases, summarized), cases)
    ensures forall c :: multiset(ActiveBatch(cases, summarized))[c] == if c.id !in summarized then multiset(cases)[c] else 0
  {
    if cases != [] {
      ActiveBatchKeepsOrderAndCopies(cases[1..], summarized);
      FilterStep(cases, ActiveBatch(cases[1..], summarized), cases[0].id !in summarized);
    }
  }

  /** The ids of a batch, in order. */
  function Ids(cases: seq<Case>): (r: seq<string>)
    ensures |r| == |cases|
    ensures forall i :: 0 <= i < |cases| ==> r[i] == cases[i].id
  {
    if cases == [] then [] else [cases[0].id] + Ids(cases[1..])
  }

  /** The batch one run would show. */
  function BatchOf(d: ConfigData, data: ShiftData, env: Env): seq<Case>
  {
    ActiveBatch(TodaysCases(data, env), EffectiveSummarized(d, BangkokToday(env.now)))
  }

  /** Send `body`; on success bind the new message as the case view. A failed send aborts. */
  function SendAndBindStory(c: ChannelState, d: ConfigData, body: Content): (ChannelState, ConfigData)
  {
    var (c1, id) := SendOn(c, body);
    if id.None? then (c, d) else (c1, BindStory(d, id.value))
  }

  /**
   * Make the channel show `body` for a non-empty batch. A closed batch is shown (edit, else send)
   * and then recorded as summarized with today's date and the binding cleared; an open batch is
   * shown by editing the bound message, else by sending and binding a new one. A failed send
   * aborts the run.
   */
  function Publish(c: ChannelState, d: ConfigData, batch: seq<Case>, body: Content,
                   summarized: seq<string>, today: string): (r: (ChannelState, ConfigData))
    ensures ChannelOk(c) ==> ChannelOk(r.0)
    ensures ConfigOk(d) ==> ConfigOk(r.1)
    ensures r.1 == d || (!AllClosed(batch) && r.1 == BindStory(d, c.nextId)) ||
      (AllClosed(batch) && r.1 == CloseBatch(d, summarized + Ids(batch), today))
  {
    if AllClosed(batch) then
      var (c1, ok) := if d.storyMsg.Some? then EditOn(c, d.storyMsg.value, body) else (c, false);
      if ok then (c1, CloseBatch(d, summarized + Ids(batch), today))
      else
        var (c2, id) := SendOn(c, body);
        if id.None? then (c, d) else (c2, CloseBatch(d, summarized + Ids(batch), today))
    else if d.storyMsg.Some? then
      var (c1, ok) := EditOn(c, d.storyMsg.value, body);
      if ok then (c1, d) else SendAndBindStory(c, d, body)
    else SendAndBindStory(c, d, body)
  }

  /** Publishing neither reads nor writes the queue binding. */
  lemma PublishIgnoresQueueBinding(c: ChannelState, d: ConfigData, batch: seq<Case>, body: Content,
                                   summarized: seq<string>, today: string, op: Option<MsgId>)
    ensures var (c1, d1) := Publish(c, d, batch, body, summarized, today);
      Publish(c, d.(opMsg := op), batch, body, summarized, today) == (c1, d1.(opMsg := op))
  {
    if !AllClosed(batch) {
      SendAndBindIgnoresQueueBinding(c, d, body, op);
    }
  }

  lemma SendAndBindIgnoresQueueBinding(c: ChannelState, d: ConfigData, body: Content, op: Option<MsgId>)
    ensures var (c1, d1) := SendAndBindStory(c, d, body);
      SendAndBindStory(c, d.(opMsg := op), body) == (c1, d1.(opMsg := op))
  {
  }

  /** What a run shows for a batch. */
  function StoryBody(dir: Directory, batch: seq<Case>, env: Env): Content
  {
    Text(StoryViewText(dir, batch, StoryDateLabel(batch, env)))
  }

  /** One run against a channel that was found. */
  function StoryStep(c: ChannelState, d: ConfigData, data: ShiftData, dir: Directory, env: Env): (r: (ChannelState, ConfigData))
    ensures ChannelOk(c) ==> ChannelOk(r.0)
    ensures ConfigOk(d) ==> ConfigOk(r.1)
  {
    var today := BangkokToday(env.now);
    var batch := BatchOf(d, data, env);
    if batch == [] then (c, d)
    else Publish(c, d, batch, StoryBody(dir, batch, env), EffectiveSummarized(d, today), today)
  }

  /** With no case left outside the summarized record, a run does nothing. */
  lemma NothingToShowNoAction(c: ChannelState, d: ConfigData, data: ShiftData, dir: Directory, env: Env)
    requires BatchOf(d, data, env) == []
    ensures StoryStep(c, d, data, dir, env) == (c, d)
  {
  }

  /** A record dated another day is ignored: the batch is every case of today. */
  lemma NewDayForgetsSummarized(d: ConfigData, data: ShiftData, env: Env)
    requires d.summarizedDate != "" && d.summarizedDate != BangkokToday(env.now)
    ensures BatchOf(d, data, env) == TodaysCases(data, env)
  {
    ActiveBatchOfNothing(TodaysCases(data, env));
  }

  lemma {:induction false} ActiveBatchOfNothing(cases: seq<Case>)
    ensures ActiveBatch(cases, []) == cases
  {
    if cases != [] {
      ActiveBatchOfNothing(cases[1..]);
      assert cases == [cases[0]] + cases[1..];
    }
  }

  /**
   * When every case of a non-empty batch is closed and the summary reaches the channel, the
   * batch's ids are appended to the record, the record is dated today and the binding is cleared.
   */
  lemma ClosedBatchIsRecorded(c: ChannelState, d: ConfigData, data: ShiftData, dir: Directory, env: Env)
    requires BatchOf(d, data, env) != [] && AllClosed(BatchOf(d, data, env))
    requires !c.sendFails || (d.storyMsg.Some? && d.storyMsg.value in c.messages)
    ensures var (_, d') := StoryStep(c, d, data, dir, env);
      var today := BangkokToday(env.now);
      d'.storyMsg.None? && d'.summarizedDate == today &&
      d'.summarizedIds == EffectiveSummarized(d, today) + Ids(BatchOf(d, data, env)) &&
      d'.opMsg == d.opMsg && d'.justPosted == d.justPosted
  {
  }

  /** The record only grows within a day: ids once summarized stay summarized until the date changes. */
  lemma RecordGrowsWithinDay(c: ChannelState, d: ConfigData, data: ShiftData, dir: Directory, env: Env)
    requires d.summarizedDate == "" || d.summarizedDate == BangkokToday(env.now)
    ensures var (_, d') := StoryStep(c, d, data, dir, env);
      |d.summarizedIds| <= |d'.summarizedIds| && d'.summarizedIds[..|d.summarizedIds|] == d.summarizedIds
  {
    var today := BangkokToday(env.now);
    var batch := BatchOf(d, data, env);
    if batch != [] {
      assert EffectiveSummarized(d, today) == d.summarizedIds;
      PublishExtendsRecord(c, d, batch, StoryBody(dir, batch, env), today);
    }
  }

  /** Publishing over the stored record keeps it as a prefix of the new one. */
  lemma PublishExtendsRecord(c: ChannelState, d: ConfigData, batch: seq<Case>, body: Content, today: string)
    ensures var (_, d') := Publish(c, d, batch, body, d.summarizedIds, today);
      |d.summarizedIds| <= |d'.summarizedIds| && d'.summarizedIds[..|d.summarizedIds|] == d.summarizedIds
  {
    var (_, d') := Publish(c, d, batch, body, d.summarizedIds, today);
    assert d'.summarizedIds == d.summarizedIds || d'.summarizedIds == d.summarizedIds + Ids(batch);
  }

  /** Once a batch's ids join the record, nothing of those cases is left to show. */
  lemma BatchExhausted(cases: seq<Case>, summarized: seq<string>)
    ensures ActiveBatch(cases, summarized + Ids(ActiveBatch(cases, summarized))) == []
  {
    var batch := ActiveBatch(cases, summarized);
    forall i | 0 <= i < |cases|
      ensures cases[i].id in summarized + Ids(batch)
    {
      if cases[i].id !in summarized {
        var j :| 0 <= j < |batch| && batch[j] == cases[i];
        assert Ids(batch)[j] == cases[i].id;
      }
    }
    NothingActiveWhenAllRecorded(cases, summarized + Ids(batch));
  }

  lemma {:induction false} NothingActiveWhenAllRecorded(cases: seq<Case>, summarized: seq<string>)
    requires forall i :: 0 <= i < |cases| ==> cases[i].id in summarized
    ensures ActiveBatch(cases, summarized) == []
  {
    if cases != [] {
      NothingActiveWhenAllRecorded(cases[1..], summarized);
    }
  }

  /**
   * A summarized batch is never shown again: after a run that closes a batch, the next run with
   * the same cases finds nothing to show.
   */
  lemma SummarizedBatchNotShownAgain(c: ChannelState, d: ConfigData, data: ShiftData, dir: Directory, env: Env)
    requires BatchOf(d, data, env) != [] && AllClosed(BatchOf(d, data, env))
    requires !c.sendFails || (d.storyMsg.Some? && d.storyMsg.value in c.messages)
    ensures var (c1, d1) := StoryStep(c, d, data, dir, env);
      BatchOf(d1, data, env) == [] && StoryStep(c1, d1, data, dir, env) == (c1, d1)
  {
    var today := BangkokToday(env.now);
    var summarized := EffectiveSummarized(d, today);
    var batch := BatchOf(d, data, env);
    ClosedBatchIsRecorded(c, d, data, dir, env);
    var (c1, d1) := StoryStep(c, d, data, dir, env);
    assert EffectiveSummarized(d1, today) == summarized + Ids(batch);
    BatchExhausted(TodaysCases(data, env), summarized);
  }

  /**
   * While the batch has an open case, unless the send fails, the run ends with the case view
   * bound to a live message showing the batch, and the summarized record untouched.
   */
  lemma OpenBatchIsShown(c: ChannelState, d: ConfigData, data: ShiftData, dir: Directory, env: Env)
    requires BatchOf(d, data, env) != [] && !AllClosed(BatchOf(d, data, env)) && !c.sendFails
    ensures var (c', d') := StoryStep(c, d, data, dir, env);
      var batch := BatchOf(d, data, env);
      d'.storyMsg.Some? && d'.storyMsg.value in c'.messages &&
      c'.messages[d'.storyMsg.value] == StoryBody(dir, batch, env) &&
      d'.summarizedIds == d.summarizedIds && d'.summarizedDate == d.summarizedDate &&
      d'.(present := d.present, storyMsg := d.storyMsg) == d
    ensures var (c', d') := StoryStep(c, d, data, dir, env);
      var body := StoryBody(dir, BatchOf(d, data, env), env);
      (d.storyMsg.Some? && d.storyMsg.value in c.messages ==>
        (c'.messages == c.messages[d.storyMsg.value := body] && c'.nextId == c.nextId && d' == d)) &&
      (d.storyMsg.None? || d.storyMsg.value !in c.messages ==>
        (c'.messages == c.messages[c.nextId := body] && c'.nextId == c.nextId + 1 && d' == BindStory(d, c.nextId)))
  {
    var batch := BatchOf(d, data, env);
    PublishOpenShowsBody(c, d, batch, StoryBody(dir, batch, env), EffectiveSummarized(d, BangkokToday(env.now)),
                         BangkokToday(env.now));
  }

  /**
   * Publishing an open batch, unless the send fails, binds a live message showing `body`: the
   * bound message is edited in place, or else exactly one message is sent and bound, the rest of
   * the snapshot being written back.
   */
  lemma PublishOpenShowsBody(c: ChannelState, d: ConfigData, batch: seq<Case>, body: Content, summarized: seq<string>, today: string)
    requires !AllClosed(batch) && !c.sendFails
    ensures var (c', d') := Publish(c, d, batch, body, summarized, today);
      d'.storyMsg.Some? && d'.storyMsg.value in c'.messages && c'.messages[d'.storyMsg.value] == body &&
      d'.summarizedIds == d.summarizedIds && d'.summarizedDate == d.summarizedDate &&
      d'.(present := d.present, storyMsg := d.storyMsg) == d
    ensures var (c', d') := Publish(c, d, batch, body, summarized, today);
      (d.storyMsg.Some? && d.storyMsg.value in c.messages ==>
        (c'.messages == c.messages[d.storyMsg.value := body] && c'.nextId == c.nextId && d' == d)) &&
      (d.storyMsg.None? || d.storyMsg.value !in c.messages ==>
        (c'.messages == c.messages[c.nextId := body] && c'.nextId == c.nextId + 1 && d' == BindStory(d, c.nextId)))
  {
  }

  /** Publishing the same open batch twice: the second time only re-edits the same text. */
  lemma PublishOpenTwice(c: ChannelState, d: ConfigData, batch: seq<Case>, body: Content, summarized: seq<string>, today: string)
    requires !AllClosed(batch)
    ensures var (c1, d1) := Publish(c, d, batch, body, summarized, today);
      var (c2, d2) := Publish(c1, d1, batch, body, summarized, today);
      c2.messages == c1.messages && c2.nextId == c1.nextId && d2 == d1 &&
      d1.summarizedIds == d.summarizedIds && d1.summarizedDate == d.summarizedDate
  {
    var (c1, d1) := Publish(c, d, batch, body, summarized, today);
    if d1.storyMsg.Some? && d1.storyMsg.value in c1.messages && c1.messages[d1.storyMsg.value] == body {
      assert EditOn(c1, d1.storyMsg.value, body).0.messages == c1.messages;
    } else {
      assert (c1, d1) == (c, d);
    }
  }

  /** Re-running while the batch is open changes no message and no binding. */
  lemma OpenBatchRerunChangesNothingVisible(c: ChannelState, d: ConfigData, data: ShiftData, dir: Directory, env: Env)
    requires BatchOf(d, data, env) != [] && !AllClosed(BatchOf(d, data, env))
    ensures var (c1, d1) := StoryStep(c, d, data, dir, env);
      var (c2, d2) := StoryStep(c1, d1, data, dir, env);
      c2.messages == c1.messages && c2.nextId == c1.nextId && d2 == d1
  {
    var today := BangkokToday(env.now);
    var batch := BatchOf(d, data, env);
    var body := StoryBody(dir, batch, env);
    var summarized := EffectiveSummarized(d, today);
    PublishOpenTwice(c, d, batch, body, summarized, today);
    var (c1, d1) := Publish(c, d, batch, body, summarized, today);
    assert EffectiveSummarized(d1, today) == summarized;
    assert BatchOf(d1, data, env) == batch;
  }

  /** The handler for a channel that may be missing (`ch == null`: nothing happens). */
  method UpdateStoryChannelMessage(data: ShiftData, ch: Channel?, cfg: ConfigDoc, dir: Directory, env: Env)
    modifies ch, cfg
    ensures ch == null ==> unchanged(cfg)
    ensures ch != null ==> (ch.State(), cfg.Data()) == StoryStep(old(ch.State()), old(cfg.Data()), data, dir, env)
  {
    if ch == null {
      return;
    }
    var d := cfg.Data();
    var today := BangkokToday(env.now);
    var summarized := EffectiveSummarized(d, today);
    var batch := ActiveBatch(TodaysCases(data, env), summarized);
    if batch == [] {
      return;
    }
    var text := BuildStoryViewText(dir, batch, StoryDateLabel(batch, env));
    PublishBatch(ch, cfg, batch, Text(text), summarized, today);
  }

  /** The steps of `Publish` on the channel and the configuration document. */
  method PublishBatch(ch: Channel, cfg: ConfigDoc, batch: seq<Case>, body: Content, summarized: seq<string>, today: string)
    modifies ch, cfg
    ensures (ch.State(), cfg.Data()) == Publish(old(ch.State()), old(cfg.Data()), batch, body, summarized, today)
  {
    var d := cfg.Data();
    var edited := false;
    if d.storyMsg.Some? {
      edited := ch.Edit(d.storyMsg.value, body);
    }
    if AllClosed(batch) {
      if !edited {
        var id := ch.Send(body);
        if id.None? {
          return;
        }
      }
      cfg.SetClosedBatch(summarized + Ids(batch), today);
    } else if !edited {
      var id := ch.Send(body);
      if id.Some? {
        cfg.SetStoryMessage(d, id.value);
      }
    }
  }
}
