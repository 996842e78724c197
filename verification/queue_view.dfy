/**
 * `updateOPChannelMessage` (discord-bot/bot.js:796-1002): on every change of the live shift
 * document, rebuild the queue view and make the operator channel show it, editing the bound
 * message when it can and binding a new one when it cannot.
 */
module QueueView {
  import opened Wrappers
  import opened Shift
  import opened Identity
  import opened Messaging
  import opened Render

  /** Send `body`; on success bind the new message as the queue view. A failed send aborts. */
  function SendAndBind(c: ChannelState, d: ConfigData, body: Content): (ChannelState, ConfigData)
  {
    var (c1, id) := SendOn(c, body);
    if id.None? then (c, d) else (c1, BindOp(d, id.value))
  }

  /**
   * One run against a channel that was found. Without an operator: post a fresh waiting view
   * unless the summary flow has just posted one or some view is bound already. With an operator:
   * edit the bound view in place, or send a new one and bind it when nothing is bound or the bound
   * message is gone.
   */
  function QueueStep(c: ChannelState, d: ConfigData, data: ShiftData, dir: Directory, env: Env): (r: (ChannelState, ConfigData))
    ensures ChannelOk(c) ==> ChannelOk(r.0)
    ensures ConfigOk(d) ==> ConfigOk(r.1)
  {
    if IsIdle(data) then
      if d.justPosted || d.opMsg.Some? then (c, d)
      else SendAndBind(c, d, Text(WaitingText(env.bangkokDate)))
    else ShowStep(c, d, Text(QueueText(dir, data, env)))
  }

  /** Make the channel show `body`: edit the bound view, or send and bind a new one. */
  function ShowStep(c: ChannelState, d: ConfigData, body: Content): (r: (ChannelState, ConfigData))
    ensures ChannelOk(c) ==> ChannelOk(r.0)
    ensures ConfigOk(d) ==> ConfigOk(r.1)
  {
    if d.opMsg.Some? then
      var (c1, ok) := EditOn(c, d.opMsg.value, body);
      if ok then (c1, d) else SendAndBind(c, d, body)
    else SendAndBind(c, d, body)
  }

  /** Showing the same body twice changes nothing the second time. */
  lemma ShowStepRerun(c: ChannelState, d: ConfigData, body: Content)
    ensures var (c1, d1) := ShowStep(c, d, body);
      var (c2, d2) := ShowStep(c1, d1, body);
      c2.messages == c1.messages && c2.nextId == c1.nextId && d2 == d1
  {
    var (c1, d1) := ShowStep(c, d, body);
    if d1.opMsg.Some? && d1.opMsg.value in c1.messages {
      assert c1.messages[d1.opMsg.value] == body;
      assert c1.messages[d1.opMsg.value := body] == c1.messages;
    }
  }

  /** While the summary flow is posting, or once a view is bound, an idle run does nothing. */
  lemma IdleRunSuppressed(c: ChannelState, d: ConfigData, data: ShiftData, dir: Directory, env: Env)
    requires IsIdle(data) && (d.justPosted || d.opMsg.Some?)
    ensures QueueStep(c, d, data, dir, env) == (c, d)
  {
  }

  /** Otherwise an idle run posts a new waiting view and binds it, or changes nothing if the send fails. */
  lemma IdleRunPostsWaitingView(c: ChannelState, d: ConfigData, data: ShiftData, dir: Directory, env: Env)
    requires IsIdle(data) && !d.justPosted && d.opMsg.None?
    ensures var (c', d') := QueueStep(c, d, data, dir, env);
      if c.sendFails then c' == c && d' == d
      else c'.messages == c.messages[c.nextId := Text(WaitingText(env.bangkokDate))] && d' == BindOp(d, c.nextId)
  {
  }

  /** A live bound view is edited in place: no new message, no new binding. */
  lemma ShowStepEditsBoundView(c: ChannelState, d: ConfigData, body: Content)
    requires d.opMsg.Some? && d.opMsg.value in c.messages
    ensures var (c', d') := ShowStep(c, d, body);
      d' == d && c'.nextId == c.nextId && c'.messages == c.messages[d.opMsg.value := body]
  {
  }

  /**
   * Unless the send fails, the view ends bound to a live message showing `body`; no other message
   * and no other field of the document changes. With no live bound view, exactly one message is
   * sent and bound by a merge.
   */
  lemma ShowStepShowsBody(c: ChannelState, d: ConfigData, body: Content)
    requires !c.sendFails
    ensures var (c', d') := ShowStep(c, d, body);
      d'.opMsg.Some? && d'.opMsg.value in c'.messages && c'.messages[d'.opMsg.value] == body &&
      (forall id :: id in c.messages && id != d'.opMsg.value ==> id in c'.messages && c'.messages[id] == c.messages[id]) &&
      d'.(present := d.present, opMsg := d.opMsg) == d
    ensures var (c', d') := ShowStep(c, d, body);
      (d.opMsg.None? || d.opMsg.value !in c.messages) ==>
        (c'.messages == c.messages[c.nextId := body] && c'.nextId == c.nextId + 1 && d' == BindOp(d, c.nextId))
  {
  }

  /** During a shift, a live bound view is edited in place: no new message, no new binding. */
  lemma ActiveRunEditsBoundView(c: ChannelState, d: ConfigData, data: ShiftData, dir: Directory, env: Env)
    requires !IsIdle(data) && d.opMsg.Some? && d.opMsg.value in c.messages
    ensures var (c', d') := QueueStep(c, d, data, dir, env);
      d' == d && c'.nextId == c.nextId &&
      c'.messages == c.messages[d.opMsg.value := Text(QueueText(dir, data, env))]
  {
    ShowStepEditsBoundView(c, d, Text(QueueText(dir, data, env)));
  }

  /**
   * During a shift, unless the send fails, the run ends with the view bound to a live message
   * that shows the current queue text, and every other message is as it was.
   */
  lemma ActiveRunShowsQueue(c: ChannelState, d: ConfigData, data: ShiftData, dir: Directory, env: Env)
    requires !IsIdle(data) && !c.sendFails
    ensures var (c', d') := QueueStep(c, d, data, dir, env);
      d'.opMsg.Some? && d'.opMsg.value in c'.messages &&
      c'.messages[d'.opMsg.value] == Text(QueueText(dir, data, env)) &&
      (forall id :: id in c.messages && id != d'.opMsg.value ==> id in c'.messages && c'.messages[id] == c.messages[id]) &&
      d'.(present := d.present, opMsg := d.opMsg) == d
    ensures var (c', d') := QueueStep(c, d, data, dir, env);
      (d.opMsg.None? || d.opMsg.value !in c.messages) ==>
        (c'.messages == c.messages[c.nextId := Text(QueueText(dir, data, env))] && c'.nextId == c.nextId + 1 &&
         d' == BindOp(d, c.nextId))
  {
    ShowStepShowsBody(c, d, Text(QueueText(dir, data, env)));
  }

  /**
   * Re-running with unchanged shift data changes no message and no binding: repeated snapshots
   * never stack duplicate views in the channel.
   */
  lemma RerunChangesNothingVisible(c: ChannelState, d: ConfigData, data: ShiftData, dir: Directory, env: Env)
    ensures var (c1, d1) := QueueStep(c, d, data, dir, env);
      var (c2, d2) := QueueStep(c1, d1, data, dir, env);
      c2.messages == c1.messages && c2.nextId == c1.nextId && d2 == d1
  {
    if IsIdle(data) {
      var (c1, d1) := QueueStep(c, d, data, dir, env);
      if !(d.justPosted || d.opMsg.Some?) && !c.sendFails {
        assert d1.opMsg.Some?;
      }
    } else {
      ShowStepRerun(c, d, Text(QueueText(dir, data, env)));
    }
  }

  /**
   * The handler for a channel that may be missing (`ch == null`: not found, nothing happens).
   * Otherwise the directory cache is reloaded first and the queue view is rendered with it.
   */
  method UpdateOPChannelMessage(data: ShiftData, ch: Channel?, cfg: ConfigDoc, cache: IdentityCache,
                                dbReady: bool, users: Option<seq<UserDoc>>, env: Env)
    modifies ch, cfg, cache
    ensures ch == null ==> unchanged(cfg, cache)
    ensures ch != null ==>
      cache.State() == Reload(old(cache.State()), dbReady, env.now, users) &&
      (ch.State(), cfg.Data()) == QueueStep(old(ch.State()), old(cfg.Data()), data, cache.State().dir, env)
  {
    if ch == null {
      return;
    }
    cache.Load(dbReady, env.now, users);
    var dir := cache.State().dir;
    var d := cfg.Data();
    if IsIdle(data) {
      if d.justPosted || d.opMsg.Some? {
        return;
      }
      var id := ch.Send(Text(WaitingText(env.bangkokDate)));
      if id.Some? {
        cfg.SetOpMessage(id.value);
      }
    } else {
      var text := BuildQueueText(dir, data, env);
      Show(ch, cfg, Text(text));
    }
  }

  /** The steps of `ShowStep` on the channel and the configuration document. */
  method Show(ch: Channel, cfg: ConfigDoc, body: Content)
    modifies ch, cfg
    ensures (ch.State(), cfg.Data()) == ShowStep(old(ch.State()), old(cfg.Data()), body)
  {
    var d := cfg.Data();
    var edited := false;
    if d.opMsg.Some? {
      edited := ch.Edit(d.opMsg.value, body);
    }
    if !edited {
      var id := ch.Send(body);
      if id.Some? {
        cfg.SetOpMessage(id.value);
      }
    }
  }
}
