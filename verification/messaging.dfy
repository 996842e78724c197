/**
 * The two external stores every flow reads and writes: a Discord channel (send, fetch-and-edit,
 * fetch-and-delete) and the binding document `config/discord_message`. Each is given as a value
 * (ChannelState, ConfigData) with pure operations, and as a class whose methods perform those
 * operations in place.
 */
module Messaging {
  import opened Wrappers

  /** A Discord message id; the channel hands out fresh ones in increasing order. */
  type MsgId = nat

  datatype EmbedField = EmbedField(name: string, value: string)

  /** What a message shows: text, or an embed with title, fields, description and timestamp. */
  datatype Content =
    | Text(text: string)
    | Embed(title: string, fields: seq<EmbedField>, description: string, timestamp: int)

  /** An externally visible action on a channel. */
  datatype ChannelOp = Sent(id: MsgId, body: Content) | Edited(id: MsgId, body: Content) | Deleted(id: MsgId)

  /**
   * A channel: its live messages, the next fresh id, whether `send` currently fails (a transient
   * API failure), and the log of actions taken on it so far.
   */
  datatype ChannelState = ChannelState(messages: map<MsgId, Content>, nextId: MsgId, sendFails: bool, log: seq<ChannelOp>)

  /** Every live message was sent earlier, so the next id is fresh. */
  predicate ChannelOk(c: ChannelState)
  {
    forall id :: id in c.messages ==> id < c.nextId
  }

  /** `channel.send(body)`: a new message with a fresh id, or an exception. */
  function SendOn(c: ChannelState, body: Content): (r: (ChannelState, Option<MsgId>))
    ensures ChannelOk(c) ==> ChannelOk(r.0)
    ensures r.1.Some? <==> !c.sendFails
    ensures r.1.Some? ==> r.1.value == c.nextId && r.1.value in r.0.messages && (ChannelOk(c) ==> r.1.value !in c.messages)
    ensures r.1.None? ==> r.0 == c
    ensures r.1.Some? ==>
      r.0.messages.Keys == c.messages.Keys + {c.nextId} && r.0.messages[c.nextId] == body &&
      (forall id :: id in c.messages && id != c.nextId ==> r.0.messages[id] == c.messages[id]) &&
      r.0.nextId == c.nextId + 1 && r.0.sendFails == c.sendFails && r.0.log == c.log + [Sent(c.nextId, body)]
  {
    if c.sendFails then (c, None)
    else
      (c.(messages := c.messages[c.nextId := body], nextId := c.nextId + 1, log := c.log + [Sent(c.nextId, body)]),
       Some(c.nextId))
  }

  /** `channel.messages.fetch(id)` then `msg.edit(body)`: fails when the message is gone. */
  function EditOn(c: ChannelState, id: MsgId, body: Content): (r: (ChannelState, bool))
    ensures ChannelOk(c) ==> ChannelOk(r.0)
    ensures r.1 <==> id in c.messages
  {
    if id in c.messages then (c.(messages := c.messages[id := body], log := c.log + [Edited(id, body)]), true)
    else (c, false)
  }

  /** `channel.messages.fetch(id)` then `msg.delete()`; a missing message is not an error here. */
  function DeleteOn(c: ChannelState, id: MsgId): (r: ChannelState)
    ensures ChannelOk(c) ==> ChannelOk(r)
    ensures id !in r.messages
  {
    if id in c.messages then c.(messages := c.messages - {id}, log := c.log + [Deleted(id)]) else c
  }

  /**
   * `config/discord_message`: whether the document exists, the queue-view and case-view
   * bindings, the ids already folded into a summary, the date of that list ("" for null) and the
   * flag the summary flow raises while it posts.
   */
  datatype ConfigData = ConfigData(
    present: bool,
    opMsg: Option<MsgId>,
    storyMsg: Option<MsgId>,
    summarizedIds: seq<string>,
    summarizedDate: string,
    justPosted: bool)

  /** A missing document reads as `{}`: every field at its default. */
  const MissingConfig: ConfigData := ConfigData(false, None, None, [], "", false)

  predicate ConfigOk(d: ConfigData)
  {
    !d.present ==> d == MissingConfig
  }

  /** `set({opChannelMessageId: id}, {merge: true})`. */
  function BindOp(d: ConfigData, id: MsgId): (r: ConfigData)
    ensures ConfigOk(r) && r.present && r.opMsg == Some(id)
    ensures r.(present := d.present, opMsg := d.opMsg) == d
  {
    d.(present := true, opMsg := Some(id))
  }

  /** `set({...snapshot, storyMessageId: id}, {merge: true})` with the snapshot read earlier. */
  function BindStory(d: ConfigData, id: MsgId): (r: ConfigData)
    ensures ConfigOk(r) && r.present && r.storyMsg == Some(id)
    ensures r.(present := d.present, storyMsg := d.storyMsg) == d
  {
    d.(present := true, storyMsg := Some(id))
  }

  /** `set({storyMessageId: null, summarizedStoryIds: ids, summarizedDate: date}, {merge: true})`. */
  function CloseBatch(d: ConfigData, ids: seq<string>, date: string): (r: ConfigData)
    ensures ConfigOk(r) && r.present && r.storyMsg.None? && r.summarizedIds == ids && r.summarizedDate == date
    ensures r.opMsg == d.opMsg && r.justPosted == d.justPosted
  {
    d.(present := true, storyMsg := None, summarizedIds := ids, summarizedDate := date)
  }

  /** `update({opChannelMessageId, summaryJustPosted})`: an update of a missing document throws. */
  function OpUpdated(d: ConfigData, op: Option<MsgId>, flag: bool): (r: Option<ConfigData>)
    ensures r.Some? <==> d.present
    ensures r.Some? ==> ConfigOk(r.value) && r.value.opMsg == op && r.value.justPosted == flag
    ensures r.Some? ==> r.value.(opMsg := d.opMsg, justPosted := d.justPosted) == d
  {
    if d.present then Some(d.(opMsg := op, justPosted := flag)) else None
  }

  /** `set({storyMessageId: id})` without merge: the document is replaced by that one field. */
  function OnlyStoryMsg(id: MsgId): (r: ConfigData)
    ensures ConfigOk(r) && r.present && r.storyMsg == Some(id)
    ensures r.opMsg.None? && r.summarizedIds == [] && r.summarizedDate == "" && !r.justPosted
  {
    ConfigData(true, None, Some(id), [], "", false)
  }

  /** The `postedToDiscord` flag of a `shift_summaries` or `closed_cases` document. */
  datatype RecordState = RecordState(present: bool, posted: bool)

  /** `update({postedToDiscord: true, ...})`: an update of a missing document throws. */
  function MarkPostedOn(r: RecordState): (r': Option<RecordState>)
    ensures r'.Some? <==> r.present
    ensures r'.Some? ==> r'.value.posted
  {
    if r.present then Some(r.(posted := true)) else None
  }

  /** A Discord text channel. */
  class Channel {
    var messages: map<MsgId, Content>
    var nextId: MsgId
    var sendFails: bool
    ghost var log: seq<ChannelOp>

    ghost function State(): ChannelState
      reads this
    {
      ChannelState(messages, nextId, sendFails, log)
    }

    constructor (sendFails: bool)
      ensures State() == ChannelState(map[], 0, sendFails, [])
    {
      messages := map[];
      nextId := 0;
      this.sendFails := sendFails;
      log := [];
    }

    method Send(body: Content) returns (id: Option<MsgId>)
      modifies this
      ensures (State(), id) == SendOn(old(State()), body)
    {
      if sendFails {
        return None;
      }
      id := Some(nextId);
      messages := messages[nextId := body];
      log := log + [Sent(nextId, body)];
      nextId := nextId + 1;
    }

    method Edit(id: MsgId, body: Content) returns (ok: bool)
      modifies this
      ensures (State(), ok) == EditOn(old(State()), id, body)
    {
      ok := id in messages;
      if ok {
        messages := messages[id := body];
        log := log + [Edited(id, body)];
      }
    }

    method Delete(id: MsgId)
      modifies this
      ensures State() == DeleteOn(old(State()), id)
    {
      if id in messages {
        messages := messages - {id};
        log := log + [Deleted(id)];
      }
    }
  }

  /** The document `config/discord_message`. */
  class ConfigDoc {
    var present: bool
    var opChannelMessageId: Option<MsgId>
    var storyMessageId: Option<MsgId>
    var summarizedStoryIds: seq<string>
    var summarizedDate: string
    var summaryJustPosted: bool

    /** What a `get()` returns: the fields, all at their defaults when the document is missing. */
    function Data(): ConfigData
      reads this
    {
      ConfigData(present, opChannelMessageId, storyMessageId, summarizedStoryIds, summarizedDate, summaryJustPosted)
    }

    constructor ()
      ensures Data() == MissingConfig
    {
      present := false;
      opChannelMessageId := None;
      storyMessageId := None;
      summarizedStoryIds := [];
      summarizedDate := "";
      summaryJustPosted := false;
    }

    method SetOpMessage(id: MsgId)
      modifies this
      ensures Data() == BindOp(old(Data()), id)
    {
      present := true;
      opChannelMessageId := Some(id);
    }

    /** Write back every field of `snapshot` together with the new case-view binding. */
    method SetStoryMessage(snapshot: ConfigData, id: MsgId)
      modifies this
      ensures Data() == BindStory(snapshot, id)
    {
      present := true;
      opChannelMessageId := snapshot.opMsg;
      storyMessageId := Some(id);
      summarizedStoryIds := snapshot.summarizedIds;
      summarizedDate := snapshot.summarizedDate;
      summaryJustPosted := snapshot.justPosted;
    }

    method SetClosedBatch(ids: seq<string>, date: string)
      modifies this
      ensures Data() == CloseBatch(old(Data()), ids, date)
    {
      present := true;
      storyMessageId := None;
      summarizedStoryIds := ids;
      summarizedDate := date;
    }

    method UpdateOpAndFlag(op: Option<MsgId>, flag: bool) returns (ok: bool)
      modifies this
      ensures ok == old(present)
      ensures Data() == if ok then OpUpdated(old(Data()), op, flag).value else old(Data())
    {
      ok := present;
      if ok {
        opChannelMessageId := op;
        summaryJustPosted := flag;
      }
    }

    method ReplaceWithStoryMessage(id: MsgId)
      modifies this
      ensures Data() == OnlyStoryMsg(id)
    {
      present := true;
      opChannelMessageId := None;
      storyMessageId := Some(id);
      summarizedStoryIds := [];
      summarizedDate := "";
      summaryJustPosted := false;
    }
  }

  /** A document that records whether it has been posted to Discord. */
  class PostRecord {
    var present: bool
    var posted: bool

    function State(): RecordState
      reads this
    {
      RecordState(present, posted)
    }

    constructor (posted: bool)
      ensures State() == RecordState(true, posted)
    {
      present := true;
      this.posted := posted;
    }

    method MarkPosted() returns (ok: bool)
      modifies this
      ensures ok == old(present)
      ensures State() == if ok then MarkPostedOn(old(State())).value else old(State())
    {
      ok := present;
      if ok {
        posted := true;
      }
    }
  }
}
