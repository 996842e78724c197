/**
 * The older case-view binder `onStoryUpdated` (functions/index.js:621-697): when the `stories`
 * of the live shift document change, it renders them as one embed on the story channel, editing
 * the message `config/discord_message` binds, or sending a new one and replacing the whole
 * binding document with its id.
 */
module StoryBinder {
  import opened Wrappers
  import opened Text
  import opened Messaging
  import BotStatus
  import Shift
  import Identity
  import Render
  import QueueView

  /**
   * One entry of `stories`. `medics` are the names `assignedMedics` shows (None when the field
   * is missing); `rest` stands for the entry's remaining fields, which only the change check
   * reads.
   */
  datatype Story = Story(location: string, partyA: string, partyB: string, medics: Option<seq<string>>, rest: string)

  /** The parts of `op_data/current` the binder reads; `stories` is None when missing. */
  datatype StoryDoc = StoryDoc(currentOP: string, supOP: string, stories: Option<seq<Story>>)

  const Title: string := "📋 สรุปสถานะสตอรี่"
  const NoStoriesText: string := "_ไม่มีสตอรี่ในขณะนี้_"
  const MaxListed: nat := 10

  /** `stories || []`. */
  function StoriesOf(doc: StoryDoc): seq<Story>
  {
    if doc.stories.Some? then doc.stories.value else []
  }

  /** The listing of story number `n`: location, parties and medics, with placeholders for blanks. */
  function StoryLine(n: nat, s: Story): (line: string)
    ensures |line| >= 2 && line[0] == '*' && line[1] == '*'
  {
    var medics := if s.medics.Some? then s.medics.value else [];
    "**" + NatToString(n) + ". " + OrElse(s.location, "ไม่ระบุ") + "** - " + OrElse(s.partyA, "?") + " vs " +
    OrElse(s.partyB, "?") + "\n└ แพทย์: " + OrElse(Join(medics, ", "), "ยังไม่มี")
  }

  /** The listings of the first ten stories, numbered from 1. */
  function StoryLines(stories: seq<Story>): (lines: seq<string>)
    ensures |lines| == if |stories| < MaxListed then |stories| else MaxListed
    ensures forall i :: 0 <= i < |lines| ==> lines[i] == StoryLine(i + 1, stories[i])
  {
    var n := if |stories| < MaxListed then |stories| else MaxListed;
    seq(n, i requires 0 <= i < n && n <= |stories| => StoryLine(i + 1, stories[i]))
  }

  /** A join of listings starts with the first listing. */
  lemma {:induction false} JoinStartsWithFirst(parts: seq<string>, sep: string)
    requires |parts| > 0 && |parts[0]| >= 2
    ensures |Join(parts, sep)| >= 2 && Join(parts, sep)[..2] == parts[0][..2]
  {
    if |parts| > 1 {
      assert Join(parts, sep) == parts[0] + (sep + Join(parts[1..], sep));
    }
  }

  /** The embed's description: the listings separated by blank lines, or the empty-list note. */
  function Description(stories: seq<Story>): string
  {
    if |stories| > 0 then Join(StoryLines(stories), "\n\n") else NoStoriesText
  }

  /** The empty-list note appears exactly when there are no stories. */
  lemma NoteIffNoStories(stories: seq<Story>)
    ensures Description(stories) == NoStoriesText <==> stories == []
  {
    if stories != [] {
      var lines := StoryLines(stories);
      JoinStartsWithFirst(lines, "\n\n");
      assert Description(stories)[..2] == "**";
      assert NoStoriesText[..2] != "**";
    }
  }

  /** Stories after the tenth do not change the description. */
  lemma DescriptionShowsFirstTen(stories: seq<Story>, more: seq<Story>)
    requires |stories| >= MaxListed
    ensures Description(stories + more) == Description(stories)
  {
    assert StoryLines(stories + more) == StoryLines(stories);
  }

  /** The embed for the shift document after the change. */
  function StoryEmbed(doc: StoryDoc, now: int): (e: Content)
    ensures e.Embed? && e.title == Title && |e.fields| == 3
    ensures e.fields[0].value == OrElse(doc.currentOP, Shift.NoOperator)
    ensures e.fields[1].value == OrElse(doc.supOP, Shift.NoOperator)
    ensures e.fields[2].value == NatToString(|StoriesOf(doc)|) + " เคส"
    ensures e.description == Description(StoriesOf(doc))
  {
    var stories := StoriesOf(doc);
    Embed(Title,
      [EmbedField("👤 OP", OrElse(doc.currentOP, Shift.NoOperator)),
       EmbedField("👥 Sup OP", OrElse(OrElse(doc.supOP, Shift.NoOperator), "-")),
       EmbedField("📊 จำนวนสตอรี่", NatToString(|stories|) + " เคส")],
      Description(stories),
      now)
  }

  /**
   * The binder goes on to the channel only when the bot is enabled, the stories changed (as
   * serialised, so any field counts) and the login helper succeeds.
   */
  predicate Runs(before: StoryDoc, after: StoryDoc, status: BotStatus.StatusRead, ready: bool, loginOk: bool)
  {
    BotStatus.IsBotEnabled(status) && after.stories != before.stories &&
    BotStatus.EnsureBotLogin(ready, status, loginOk)
  }

  /**
   * Show `body`: edit the bound case view; when nothing is bound or the message is gone, send a
   * new one and replace the binding document by its id alone. A failed send changes nothing.
   */
  function BindStep(c: ChannelState, d: ConfigData, body: Content): (r: (ChannelState, ConfigData))
    ensures ChannelOk(c) ==> ChannelOk(r.0)
    ensures r.1 == d || r.1 == OnlyStoryMsg(c.nextId)
  {
    var (c1, edited) := if d.storyMsg.Some? then EditOn(c, d.storyMsg.value, body) else (c, false);
    if edited then (c1, d)
    else
      var (c2, id) := SendOn(c, body);
      if id.None? then (c, d) else (c2, OnlyStoryMsg(id.value))
  }

  /** A live bound message is edited in place; the binding document is kept and nothing is sent. */
  lemma EditPathKeepsBinding(c: ChannelState, d: ConfigData, body: Content)
    requires d.storyMsg.Some? && d.storyMsg.value in c.messages
    ensures var (c', d') := BindStep(c, d, body);
      d' == d && c'.nextId == c.nextId && c'.messages == c.messages[d.storyMsg.value := body] &&
      c'.log == c.log + [Edited(d.storyMsg.value, body)]
  {
  }

  /**
   * Otherwise one message is sent and the binding document is replaced: the queue-view binding,
   * the summarized ids, their date and the summary flag are all lost.
   */
  lemma SendPathReplacesBindings(c: ChannelState, d: ConfigData, body: Content)
    requires ChannelOk(c) && !c.sendFails && (d.storyMsg.None? || d.storyMsg.value !in c.messages)
    ensures var (c', d') := BindStep(c, d, body);
      d'.storyMsg == Some(c.nextId) && d'.opMsg.None? && d'.summarizedIds == [] && d'.summarizedDate == "" &&
      !d'.justPosted && c'.messages == c.messages[c.nextId := body] && c.nextId !in c.messages
  {
  }

  /** After a delivered run, the next run edits the same message: one case view per channel. */
  lemma NextRunEditsSameMessage(c: ChannelState, d: ConfigData, body1: Content, body2: Content)
    requires ChannelOk(c) && !c.sendFails
    ensures var (c1, d1) := BindStep(c, d, body1);
      var (c2, d2) := BindStep(c1, d1, body2);
      d2 == d1 && d1.storyMsg.Some? && c2.messages.Keys == c1.messages.Keys && c2.nextId == c1.nextId
  {
  }

  /**
   * The send path clobbers the queue-view binding. With the waiting view `w` bound, an idle
   * queue run does nothing; after the binder replaced the document, the same run posts a second
   * waiting view while `w` is still in the operator channel.
   */
  lemma BinderSendDuplicatesWaitingView(
    cOp: ChannelState, d: ConfigData, w: MsgId, id: MsgId,
    data: Shift.ShiftData, dir: Identity.Directory, env: Render.Env)
    requires ChannelOk(cOp) && !cOp.sendFails && d.opMsg == Some(w) && w in cOp.messages
    requires Shift.IsIdle(data)
    ensures QueueView.QueueStep(cOp, d, data, dir, env) == (cOp, d)
    ensures var (c', d') := QueueView.QueueStep(cOp, OnlyStoryMsg(id), data, dir, env);
      w in c'.messages && cOp.nextId in c'.messages && w != cOp.nextId && d'.opMsg == Some(cOp.nextId)
  {
    QueueView.IdleRunSuppressed(cOp, d, data, dir, env);
    QueueView.IdleRunPostsWaitingView(cOp, OnlyStoryMsg(id), data, dir, env);
  }

  /** `onStoryUpdated` for one update of the shift document; a missing channel ends the run. */
  method OnStoryUpdated(
    before: StoryDoc, after: StoryDoc, status: BotStatus.StatusRead, ready: bool, loginOk: bool,
    ch: Channel?, cfg: ConfigDoc, now: int)
    modifies ch, cfg
    ensures !Runs(before, after, status, ready, loginOk) || ch == null ==> unchanged(cfg) && (ch != null ==> unchanged(ch))
    ensures Runs(before, after, status, ready, loginOk) && ch != null ==>
      (ch.State(), cfg.Data()) == BindStep(old(ch.State()), old(cfg.Data()), StoryEmbed(after, now))
  {
    if !BotStatus.IsBotEnabled(status) {
      return;
    }
    if after.stories == before.stories {
      return;
    }
    if !BotStatus.EnsureBotLogin(ready, status, loginOk) || ch == null {
      return;
    }
    var body := StoryEmbed(after, now);
    var d := cfg.Data();
    var edited := false;
    if d.storyMsg.Some? {
      edited := ch.Edit(d.storyMsg.value, body);
    }
    if !edited {
      var id := ch.Send(body);
      if id.Some? {
        cfg.ReplaceWithStoryMessage(id.value);
      }
    }
  }
}
