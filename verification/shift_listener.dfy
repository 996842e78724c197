/**
 * The listener on `op_data/current` (discord-bot/bot.js:459-483): every snapshot of an existing
 * shift document refreshes the queue view and then the case view, in that order, against the
 * same configuration document.
 */
module ShiftListener {
  import opened Wrappers
  import opened Shift
  import opened Identity
  import opened Messaging
  import opened Render
  import opened QueueView
  import opened StoryView

  /**
   * A snapshot (`None` when the document does not exist). Both channels are found here; a
   * missing channel is left out of this handler. The two channel ids may name the same
   * channel, in which case the case flow starts from what the queue flow left there.
   */
  method OnShiftSnapshot(snapshot: Option<ShiftData>, opCh: Channel, storyCh: Channel, cfg: ConfigDoc,
                         cache: IdentityCache, dbReady: bool, users: Option<seq<UserDoc>>, env: Env)
    modifies opCh, storyCh, cfg, cache
    ensures snapshot.None? ==> unchanged(opCh, storyCh, cfg, cache)
    ensures snapshot.Some? ==>
      cache.State() == Reload(old(cache.State()), dbReady, env.now, users)
    ensures snapshot.Some? && opCh != storyCh ==>
      var (op, d1) := QueueStep(old(opCh.State()), old(cfg.Data()), snapshot.value, cache.State().dir, env);
      opCh.State() == op &&
      (storyCh.State(), cfg.Data()) == StoryStep(old(storyCh.State()), d1, snapshot.value, cache.State().dir, env)
    ensures snapshot.Some? && opCh == storyCh ==>
      var (op, d1) := QueueStep(old(opCh.State()), old(cfg.Data()), snapshot.value, cache.State().dir, env);
      (opCh.State(), cfg.Data()) == StoryStep(op, d1, snapshot.value, cache.State().dir, env)
  {
    if snapshot.None? {
      return;
    }
    UpdateOPChannelMessage(snapshot.value, opCh, cfg, cache, dbReady, users, env);
    UpdateStoryChannelMessage(snapshot.value, storyCh, cfg, cache.State().dir, env);
  }

  /**
   * The case view of a run does not depend on what the queue view did before it: the queue
   * flow writes only the queue binding, which the case flow never reads.
   */
  lemma StoryStepIgnoresQueueBinding(c: ChannelState, d: ConfigData, op: Option<MsgId>, data: ShiftData, dir: Directory, env: Env)
    ensures var (c1, d1) := StoryStep(c, d, data, dir, env);
      var (c2, d2) := StoryStep(c, d.(opMsg := op), data, dir, env);
      c2 == c1 && d2 == d1.(opMsg := op)
  {
    var today := Calendar.BangkokToday(env.now);
    var batch := BatchOf(d, data, env);
    assert BatchOf(d.(opMsg := op), data, env) == batch;
    assert EffectiveSummarized(d.(opMsg := op), today) == EffectiveSummarized(d, today);
    PublishIgnoresQueueBinding(c, d, batch, StoryBody(dir, batch, env), EffectiveSummarized(d, today), today, op);
  }
}
