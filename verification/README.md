# Medic OP shift board: Discord bot and cloud functions, modelled in Dafny

The system runs the operator (OP) shift desk of a role-play medic team. One Firestore document,
`op_data/current`, holds the live shift: the operator on duty, medics on and off duty, AFK
medics and today's cases ("stories"). Two programs mirror it into Discord.

- **The bot** (`discord-bot/bot.js`) keeps two channel messages up to date:
  - the *queue view* in the operator channel;
  - the *case view* in the story channel.

  It finds both messages again through the binding document `config/discord_message`. It also
  posts each end-of-shift summary and each closed case once, guarded by their `postedToDiscord`
  flags.
- **The cloud functions** (`functions/index.js`) do four things:
  - keep the roster document `cms_content/roster` (leave status and avatars);
  - refresh the avatars of linked accounts in `op_users`;
  - decide whether the bot may run;
  - keep an older case-view binder (`onStoryUpdated`) on the same binding document.

The model has three layers:

- **Stores.** A channel, the binding document and a posted-flag record are Dafny classes, with
  pure value counterparts in `Messaging`. Sends and edits can fail. A failed edit means the bound
  message is gone.
- **Flows.** Each read-decide-write flow is a pure step function over those values. An imperative
  method performs the same calls on the class instances and is proved equal to the step.
- **Properties.** Lemmas about the step functions state what the flows guarantee:
  - when nothing happens;
  - what gets bound;
  - that a record is marked only after its message was sent;
  - that a re-run changes nothing visible;
  - how the flows interact through the shared binding document.

The message text is built by `for` loops that append lines. Each loop is proved equal to a
function over the list it walks. The roster `.map` callbacks change entries in place. Each is
a method over an array of entries, proved equal to a per-entry function.

Modules:

- Shared helpers and data:
  - `Text`: decimal digits, `join`, lowercasing, the first word.
  - `Calendar`: UTC and Bangkok date strings.
  - `Shift`: the records the bot reads.
  - `Messaging`: channel and binding document.
- Bot-side modules:
  - `Identity`: name → Discord id and IC phone cache.
  - `ThaiDate`, `TodayFilter`, `Badges`, `Scheduler`: the pure helpers.
  - `Render`: the text of every view.
  - `QueueView`, `StoryView`, `ShiftSummaryPost`, `ClosedHistory`, `ShiftListener`: the flows.
- Cloud-function modules:
  - `NumericDate`: numeric dates.
  - `BotStatus`: the enable flag and login guard.
  - `Roster`: the roster maps and document.
  - `OpUsers`: the linked-account refresh.
  - `DailyJob`: the 00:01 job.
  - `LeaveApproval`: the leave reaction handler.
  - `StoryBinder`: the older binder.

Host-dependent values are parameters, collected in `Render.Env`:

- the current time;
- the locale-formatted dates and times.

The host clock's offset (`getTimezoneOffset()`) is not part of `Render.Env`. It is a parameter of `Calendar.FilterToday` and `Scheduler.MsUntilNextMidnight` only.

## Model

| member | source | states |
|---|---|---|
| Badges.FirstHeldRank | discord-bot/bot.js:80-87 | the first rank in the list whose configured, non-empty role id the member holds; none exactly when no rank is held |
| Badges.GetUserBadge | discord-bot/bot.js:80-87 | the loop over `ROLE_IDS` returns the highest held rank, or null exactly when no rank role is held |
| Badges.NeverBelowAHeldRank | functions/index.js:552-559 | the badge-selection loop never picks a rank below one the member holds |
| Badges.BadgeOnlyForRanks | discord-bot/bot.js:90-101 | exactly the seven rank names have a badge emoji, and distinct ranks have distinct emojis |
| Badges.StatusIconOnlyForMarkedStatuses | discord-bot/bot.js:305-318 | exactly seven statuses carry an icon; `available`, `in_queue` and unknown statuses carry none |
| Badges.OnDutyIconOnlyForButtons | discord-bot/bot.js:873-881 | only `accept`, `waitfix` and `decline` give a queue icon, each a different one |
| BotStatus.IsBotEnabled | functions/index.js:115-124 | the bot is disabled exactly when the document exists with `active` equal to `false`; a read error or missing document means on |
| BotStatus.EnsureBotLogin | functions/index.js:127-144 | true exactly when the client is ready, or the bot is enabled and the login succeeds |
| Calendar.FilterTodayOnUtcHost | discord-bot/bot.js:261-267 | on a UTC host the filter's "today" equals the Bangkok date |
| Calendar.SameDaySameDate | discord-bot/bot.js:281-286 | two instants in one UTC day give the same `toISOString` date |
| Calendar.IsoDateLastDigit | discord-bot/bot.js:267 | the date string ends with the day's last digit, zero-padded |
| Calendar.FilterTodayLagsOnBangkokHost | discord-bot/bot.js:261-267 | on a host whose clock runs at Bangkok time, at every instant from 00:00 to 07:00 Bangkok time on 2 January 1970 the filter's "today" is the host's UTC date, still 1 January, unlike the Bangkok date |
| ClosedHistory.ClosedCaseStep | discord-bot/bot.js:536-590 | an already-posted record produces no action; the channel stays well formed |
| ClosedHistory.MarkedOnlyAfterSend | discord-bot/bot.js:583-590 | the record is marked posted exactly when it exists and the send succeeded, and then the history message was sent with a fresh id |
| ClosedHistory.FailedSendChangesNothing | discord-bot/bot.js:583-594 | a failed send leaves channel and record as they were, so a later snapshot retries |
| ClosedHistory.ReplayPostsOnce | discord-bot/bot.js:531-537 | replaying the same change after a delivery posts nothing more |
| ClosedHistory.PostClosedCaseHistory | discord-bot/bot.js:548-595 | the method's effect on channel and record is the step's, with the case's one-entry text |
| DailyJob.AvatarUrls | functions/index.js:473-475 | the avatar url per guild member id, for exactly the guild's members |
| DailyJob.SyncSource | functions/index.js:289-298 | the avatar syncs see the members exactly when the bot is enabled, the login guard passes and the fetch succeeds |
| DailyJob.DailyRoster | functions/index.js:273-298 | the job keeps every status except the expired leaves, which become on duty; without sync it is the revert alone |
| DailyJob.CheckLeaveStatus | functions/index.js:258-311 | a missing roster stops the run; otherwise the roster becomes the daily roster, it is written once exactly when it changed, and linked accounts are refreshed when members are at hand |
| Identity.FileAt | discord-bot/bot.js:124-160 | one document files its value under its name keys only when the value is non-empty, and other keys keep their entries |
| Identity.PutAt | discord-bot/bot.js:124-160 | one cache write adds the lowercased name only when both name and value are non-empty, and changes no other key |
| Identity.IndexValuesNonEmpty | discord-bot/bot.js:124-160 | the caches never hold an empty id or phone |
| Identity.IndexLastWriter | discord-bot/bot.js:123-160 | a key holds the value of the last document filing it |
| Identity.IndexSound | discord-bot/bot.js:123-160 | every cached entry comes from some document that files that key |
| Identity.LookupIgnoresCase | discord-bot/bot.js:171-190 | lookup of a name and of its lowercase form agree |
| Identity.LookupFindsFiledName | discord-bot/bot.js:171-190 | a full name, first name or document id filed last by document i is found with i's value |
| Identity.LookupFallsBackToFirstWord | discord-bot/bot.js:181-188 | when the full name is not cached, the first space-separated word is tried |
| Identity.MentionOrName | discord-bot/bot.js:192-196 | `<@id>` when the id is found, the name itself otherwise, `''` for an empty name |
| Identity.MentionIgnoresCase | discord-bot/bot.js:192-196 | the mention does not depend on the name's case |
| Identity.PhoneSuffixOnlyWhenKnown | discord-bot/bot.js:220-225 | the display name is kept as prefix and ` (📞 phone)` is appended exactly when a phone is found |
| Identity.FreshCacheKept | discord-bot/bot.js:113-116 | a non-empty cache younger than five minutes is kept |
| Identity.RebuildForgetsUnfiledNames | discord-bot/bot.js:118-163 | a rebuild replaces both caches: names no document files are gone, and the load time is now |
| Identity.IdentityCache.Load | discord-bot/bot.js:110-168 | the cache's new state is the reload rule applied to the old one |
| LeaveApproval.HasApproverRole | functions/index.js:147-156 | true only with a declared role id and fetched roles, and then exactly when the role is held |
| LeaveApproval.NoOneIsAuthorizedAsWritten | functions/index.js:151 | as written, no member is an approver, whatever roles they hold |
| LeaveApproval.ApproverRoleAuthorizes | functions/index.js:147-156 | with the role id declared, exactly its holders are approvers; a failed fetch denies |
| LeaveApproval.OnLeaveReaction | functions/index.js:380-428 | ignores other emojis and non-approvers, only replies on ❌, needs a date range, and on ✅ puts every entry of the requester on leave until the end of the range's last day, writing only when one matched |
| LeaveApproval.OnLeaveReactionAsWritten | functions/index.js:380-383 | as written the handler never changes the roster |
| LeaveApproval.OnLeaveReactionWithRole | functions/index.js:380-420 | with the role declared, an approver's ✅ on a request whose author is on the roster approves the leave |
| Messaging.SendOn | discord-bot/bot.js:974-993 | a send either fails, changing nothing, or adds the body under the next, fresh id, keeps every other message, advances the id counter by one and logs the send |
| Messaging.EditOn | discord-bot/bot.js:980-982 | an edit succeeds exactly when the bound message still exists |
| Messaging.DeleteOn | discord-bot/bot.js:739-746 | after a delete the message is gone; a missing message is not an error |
| Messaging.BindOp | discord-bot/bot.js:975-977 | the merge binds the queue view, marks the document present, and leaves every other field as it was |
| Messaging.BindStory | discord-bot/bot.js:1137-1140 | the merge binds the case view over the snapshot read earlier, marks the document present, and leaves every other field as it was |
| Messaging.CloseBatch | discord-bot/bot.js:1122-1126 | the merge clears the case-view binding and stores the summarized list and date, keeping the queue binding and the just-posted flag |
| Messaging.OpUpdated | discord-bot/bot.js:750-753 | `update` fails on a missing document; otherwise it sets the queue binding and the flag |
| Messaging.OnlyStoryMsg | functions/index.js:682 | a `set` without merge leaves a document holding only the case-view binding: no queue binding, an empty summarized list and date, the flag cleared |
| Messaging.MarkPostedOn | discord-bot/bot.js:786-789 | marking fails on a missing record and otherwise sets `postedToDiscord` |
| Messaging.Channel.Send | discord-bot/bot.js:757-776 | the channel's new state and the returned id are those of the send |
| Messaging.Channel.Edit | discord-bot/bot.js:981-982 | the channel's new state and the result are those of the edit |
| Messaging.Channel.Delete | discord-bot/bot.js:741-742 | the channel's new state is that of the delete |
| Messaging.ConfigDoc.SetOpMessage | discord-bot/bot.js:975-977 | the document becomes the queue binding merged in |
| Messaging.ConfigDoc.SetStoryMessage | discord-bot/bot.js:1146-1149 | the document becomes the snapshot with the case binding merged in |
| Messaging.ConfigDoc.SetClosedBatch | discord-bot/bot.js:1122-1126 | the document records the closed batch |
| Messaging.ConfigDoc.UpdateOpAndFlag | discord-bot/bot.js:780-783 | the update succeeds exactly on an existing document |
| Messaging.ConfigDoc.ReplaceWithStoryMessage | functions/index.js:682 | the document is replaced by the case binding alone |
| Messaging.PostRecord.MarkPosted | discord-bot/bot.js:587-590 | marking succeeds exactly on an existing record |
| NumericDate.NormalizeYear | functions/index.js:167-168 | below 100 add 2000; after that, above 2400 subtract 543 |
| NumericDate.ParseNumericDate | functions/index.js:159-171 | throws "Invalid Date Format" exactly when no token is found; otherwise the year, month index and day stay within the bounds three, two and two digits allow |
| NumericDate.ParseBuddhistYear | functions/index.js:159-171 | a date written with any separators, day and month with or without a leading zero and a four-digit Buddhist year above 2400 reads back as its day, its month counted from 0 and the year 543 lower |
| NumericDate.ParseChristianYear | functions/index.js:159-171 | written the same way, a four-digit year from 1000 to 2400 reads back unchanged with the day and month |
| NumericDate.ParseTwoDigitYear | functions/index.js:159-171 | every two-digit year from "00" to "99" is a year of the 2000s ("07" is 2007), with the day and month read back |
| OpUsers.Refreshed | functions/index.js:509-523 | a document that needs it gets the fresh url in both avatar fields, the username and the sync time; others are unchanged |
| OpUsers.CountZeroIffNoneNeeds | functions/index.js:517-528 | the update count is zero exactly when no document needs an update |
| OpUsers.RefreshedNeedsNothing | functions/index.js:515 | a refreshed document no longer needs an update |
| OpUsers.RerunCountsZero | functions/index.js:492-537 | a second run straight after the first refreshes nothing and counts zero |
| OpUsers.SyncOpUsersAvatars | functions/index.js:492-537 | without login or members nothing changes; otherwise every document is refreshed and the count is the number that needed it; a zero count means nothing changed |
| QueueView.QueueStep | discord-bot/bot.js:797-1002 | the channel stays well formed and the binding document stays consistent |
| QueueView.IdleRunSuppressed | discord-bot/bot.js:828-838 | with no operator, a raised summary flag or any bound view means nothing is sent or edited |
| QueueView.IdleRunPostsWaitingView | discord-bot/bot.js:834-978 | otherwise an idle run sends the waiting view and binds it, or changes nothing if the send fails |
| QueueView.ActiveRunEditsBoundView | discord-bot/bot.js:979-983 | during a shift a live bound view is edited in place and the binding kept |
| QueueView.ActiveRunShowsQueue | discord-bot/bot.js:979-998 | during a shift, when sends work, the bound message shows the queue and no other message changes; with no live bound message, exactly one message is sent and bound; only the queue binding and presence of the document change |
| QueueView.RerunChangesNothingVisible | discord-bot/bot.js:797-1002 | a second run on the same data changes no message and no binding |
| QueueView.UpdateOPChannelMessage | discord-bot/bot.js:797-1002 | the method reloads the identity cache and then does what the step does; a missing channel changes nothing |
| QueueView.Show | discord-bot/bot.js:979-998 | editing the bound view, else sending and binding a new one, has the effect the show step describes |
| QueueView.ShowStepEditsBoundView | discord-bot/bot.js:979-983 | for any body, a live bound view is edited in place: no new message and the binding kept |
| QueueView.ShowStepShowsBody | discord-bot/bot.js:979-998 | for any body, when sends work, the view ends bound to a live message showing it and no other message changes; with no live bound message, exactly one message is sent and bound; only the queue binding and presence of the document change |
| QueueView.ShowStepRerun | discord-bot/bot.js:979-998 | showing the same body a second time changes no message and no binding |
| Render.WaitingText | discord-bot/bot.js:839-844 | the waiting view starts with the summary-title line |
| Render.NameLinesAppend | discord-bot/bot.js:894-897 | the name listing of a concatenation is the concatenation of listings |
| Render.CappedListingHidesOnlyTheTail | discord-bot/bot.js:894-900 | up to the cap every name is listed; above it the first `cap` names are listed, then `...และอีก N คน` with N the rest |
| Render.RenderNames | discord-bot/bot.js:670-673 | the loop's text is the listing of all names |
| Render.RenderCappedNames | discord-bot/bot.js:894-900 | the loop's text is the capped listing |
| Render.RenderOnDuty | discord-bot/bot.js:872-885 | the loop's text is the on-duty listing with phones and icons |
| Render.AfkMinutes | discord-bot/bot.js:913 | the whole minutes since going AFK: `m` minutes have passed and `m + 1` have not |
| Render.RenderAfk | discord-bot/bot.js:909-917 | the loop's text is the AFK listing |
| Render.Mentions | discord-bot/bot.js:933 | each support medic is shown as its mention, in order |
| Render.RenderStoryBlocks | discord-bot/bot.js:926-947 | the loop's text is the case blocks |
| Render.RenderEvents | discord-bot/bot.js:957-963 | the loop's text is the event listing |
| Render.TodaysCases | discord-bot/bot.js:922-923 | exactly today's cases by the Bangkok date, in order and with their multiplicity: every kept case is today's and every case of today is kept |
| Render.QueueViewIgnoresOtherDays | discord-bot/bot.js:922-950 | cases of other days do not change the queue view |
| Render.BuildQueueText | discord-bot/bot.js:846-964 | the built text is the queue view |
| Render.SummaryHeadingIffAllClosed | discord-bot/bot.js:1047-1070 | the case view starts with the summary heading exactly when every case of the batch is closed |
| Render.BuildStoryViewText | discord-bot/bot.js:1069-1098 | the built text is the case view |
| Render.RenderMembers | discord-bot/bot.js:657-663 | the loop's text is the on-duty member listing with badges |
| Render.StartedStories | discord-bot/bot.js:687 | exactly the stories with a start time other than `-`, from the list |
| Render.StartedStoriesKeepOrderAndCopies | discord-bot/bot.js:687 | the started stories keep their order in the summary and every copy of each started story |
| Render.RenderClosedStories | discord-bot/bot.js:692-711 | the loop's text is the closed-story blocks |
| Render.RenderOngoing | discord-bot/bot.js:718-729 | the loop's text is the ongoing-story lines |
| Render.BuildSummaryText | discord-bot/bot.js:606-732 | the built text is the summary |
| Render.WardSegment | discord-bot/bot.js:578 | the ward segment is empty exactly when the ward is `-` |
| Render.CouncilSegment | discord-bot/bot.js:579 | the council segment is empty exactly when the council is `-` |
| Roster.Reverted | functions/index.js:275-286 | an expired leave becomes on duty with the end date cleared; any other entry is unchanged; name, id and url are kept |
| Roster.RevertIdempotent | functions/index.js:275-286 | reverting twice is reverting once |
| Roster.RevertChangesIffExpired | functions/index.js:275-310 | the roster changes exactly when some entry is on leave with a readable end date that has passed |
| Roster.RevertExpiredLeaves | functions/index.js:275-286 | the in-place map gives the reverted roster, and its flag is raised exactly when a leave expired |
| Roster.Approved | functions/index.js:403-410 | the requester's entries go on leave until the end date; others are unchanged |
| Roster.ApproveLeave | functions/index.js:398-410 | the in-place map approves every entry of the requester; `found` says whether one exists, and the name is the last match's |
| Roster.ApprovedLeaveLastsUntilEnd | functions/index.js:279-283 | an approved leave survives the daily revert exactly until its end instant |
| Roster.WithAvatar | functions/index.js:452-458 | the member's entries show the url; others are unchanged |
| Roster.SetAvatar | functions/index.js:450-458 | the in-place map sets the url, and its flag is raised exactly when the roster changed |
| Roster.Synced | functions/index.js:472-481 | an entry linked to a guild member shows that member's avatar; others are unchanged |
| Roster.SyncIdempotent | functions/index.js:472-481 | syncing twice is syncing once |
| Roster.SyncAllAvatars | functions/index.js:464-489 | null without login or members, or when no url changed; otherwise the synced roster |
| Roster.DailyFlagIffChanged | functions/index.js:274-308 | the job's `updated` flag is raised exactly when revert-then-sync changed the roster |
| Roster.RosterDoc.Write | functions/index.js:309 | the document holds the new items, counted as one write |
| Roster.RosterDoc.Load | functions/index.js:270 | the working copy holds the stored items |
| Roster.ApproveLeaveInDb | functions/index.js:395-413 | a missing roster changes nothing; otherwise the roster is approved and written once exactly when the requester has an entry |
| Roster.UpdateAvatarInDb | functions/index.js:444-461 | nothing for an empty id or a missing roster; otherwise the url is set and the roster written exactly when it changed |
| Roster.OnUserUpdate | functions/index.js:432-440 | only a changed display avatar leads to the roster update |
| Scheduler.MsUntilNextMidnight | discord-bot/bot.js:363-378 | the delay is positive, at most a day, and ends exactly at a Bangkok midnight |
| Scheduler.NoEarlierMidnight | discord-bot/bot.js:363-378 | no Bangkok midnight falls strictly before the end of the delay |
| Scheduler.DelayIndependentOfHostOffset | discord-bot/bot.js:366-374 | the delay does not depend on the host's time zone |
| Scheduler.AtMidnightWaitsOneDay | discord-bot/bot.js:363-378 | exactly at midnight the wait is a whole day |
| ShiftListener.OnShiftSnapshot | discord-bot/bot.js:468-483 | a missing document changes nothing; otherwise the queue step and then the case step run on the shared binding document; when both ids name one channel, the case step starts from the queue step's channel state |
| ShiftListener.StoryStepIgnoresQueueBinding | discord-bot/bot.js:1009-1156 | the case step neither reads nor changes the queue binding |
| ShiftSummaryPost.SummaryStep | discord-bot/bot.js:509-794 | a posted record produces no action; the stores stay consistent |
| ShiftSummaryPost.PostedSummaryIsSkipped | discord-bot/bot.js:509 | an already-posted summary changes nothing |
| ShiftSummaryPost.DeliveryPostsSummaryThenWaitingView | discord-bot/bot.js:735-790 | with working sends: the old view is deleted, the summary then the waiting view are sent, the waiting view is bound with the flag down, and the record is marked |
| ShiftSummaryPost.MarkedOnlyAfterBothSends | discord-bot/bot.js:757-790 | the record is marked only after the summary and then the waiting view were the last two sends |
| ShiftSummaryPost.FailedSendLeavesFlagRaised | discord-bot/bot.js:750-838 | if the summary send fails, the flag stays up with nothing bound and the record unmarked, so idle queue runs post nothing |
| ShiftSummaryPost.WaitingViewIsReusedByNextShift | discord-bot/bot.js:780-983 | after a delivery, an idle run does nothing and the next shift's queue view edits the waiting message in place |
| ShiftSummaryPost.PostSummaryToDiscord | discord-bot/bot.js:598-794 | the method's effect on channel, binding and record is the step's |
| ShiftSummaryPost.DeliverSummary | discord-bot/bot.js:735-789 | deleting the old view, clearing the binding with the flag raised, the two sends, the rebinding and the posted mark have the effect the summary step describes |
| StoryBinder.StoryLine | functions/index.js:660-663 | each listing starts with the bold number |
| StoryBinder.StoryLines | functions/index.js:659-662 | at most ten listings, listing i showing story i numbered i + 1 |
| StoryBinder.NoteIffNoStories | functions/index.js:659-667 | the empty-list note appears exactly when there are no stories |
| StoryBinder.DescriptionShowsFirstTen | functions/index.js:659 | stories after the tenth do not change the description |
| StoryBinder.StoryEmbed | functions/index.js:642-667 | the embed shows the operator and support operator (default `ไม่มี`), the total number of stories and the description |
| StoryBinder.BindStep | functions/index.js:670-690 | the binding document is either kept or replaced by the new message's id alone |
| StoryBinder.EditPathKeepsBinding | functions/index.js:673-677 | a live bound message is edited; nothing is sent and the binding document is kept |
| StoryBinder.SendPathReplacesBindings | functions/index.js:678-689 | otherwise one fresh message is sent, and the queue binding, summarized list, date and flag are lost |
| StoryBinder.NextRunEditsSameMessage | functions/index.js:670-690 | after a delivered run the next run edits the same message and sends none |
| StoryBinder.BinderSendDuplicatesWaitingView | functions/index.js:682 | with the waiting view bound an idle queue run does nothing, but after the binder's replace it posts a second waiting view beside the first |
| StoryBinder.OnStoryUpdated | functions/index.js:621-697 | nothing unless the bot is enabled, the stories changed and login works; with a channel, the effect is the bind step with the embed |
| StoryView.EffectiveSummarized | discord-bot/bot.js:1024-1035 | the summarized list is dropped only when its date is set and is not today |
| StoryView.ActiveBatch | discord-bot/bot.js:1037-1038 | exactly the cases whose id is not summarized, from the list |
| StoryView.ActiveBatchKeepsOrderAndCopies | discord-bot/bot.js:1037-1038 | the batch keeps the cases' order and every copy of each case whose id is not summarized |
| StoryView.Ids | discord-bot/bot.js:1119 | the ids of a batch, in order |
| StoryView.Publish | discord-bot/bot.js:1100-1151 | the document is kept, or gets the new case binding (open batch), or records the closed batch |
| StoryView.PublishIgnoresQueueBinding | discord-bot/bot.js:1100-1151 | publishing neither reads nor changes the queue binding |
| StoryView.StoryStep | discord-bot/bot.js:1009-1156 | the stores stay consistent |
| StoryView.NothingToShowNoAction | discord-bot/bot.js:1040-1044 | an empty active batch causes no channel or document action |
| StoryView.NewDayForgetsSummarized | discord-bot/bot.js:1031-1038 | on a new day all of today's cases are active again |
| StoryView.ActiveBatchOfNothing | discord-bot/bot.js:1038 | with nothing summarized the batch is every case |
| StoryView.ClosedBatchIsRecorded | discord-bot/bot.js:1100-1127 | an all-closed batch that is shown is appended to the summarized list with today's date and the case binding cleared; the queue binding is kept |
| StoryView.RecordGrowsWithinDay | discord-bot/bot.js:1119-1126 | within a day the summarized list only grows, keeping its prefix |
| StoryView.PublishExtendsRecord | discord-bot/bot.js:1119-1126 | for any body, publishing over the stored summarized list keeps it as a prefix of the new one |
| StoryView.BatchExhausted | discord-bot/bot.js:1119 | after a batch's ids are appended its cases are no longer active |
| StoryView.NothingActiveWhenAllRecorded | discord-bot/bot.js:1038-1044 | cases all of whose ids are recorded give an empty batch |
| StoryView.SummarizedBatchNotShownAgain | discord-bot/bot.js:1100-1127 | after a summary, the next run on the same data does nothing |
| StoryView.OpenBatchIsShown | discord-bot/bot.js:1128-1151 | with an open case and working sends, the bound message shows the batch; a live binding is edited in place with no new message, otherwise exactly one message is sent and bound; only the case binding and presence of the document change |
| StoryView.PublishOpenShowsBody | discord-bot/bot.js:1128-1151 | for any body, publishing an open batch with working sends binds a live message showing it; a live binding is edited in place, otherwise exactly one message is sent and bound; only the case binding and presence of the document change |
| StoryView.PublishOpenTwice | discord-bot/bot.js:1128-1151 | publishing an open batch twice changes nothing the second time |
| StoryView.OpenBatchRerunChangesNothingVisible | discord-bot/bot.js:1128-1151 | a second run on an open batch changes no message and no binding |
| StoryView.UpdateStoryChannelMessage | discord-bot/bot.js:1009-1156 | the method does what the step does; a missing channel changes nothing |
| StoryView.PublishBatch | discord-bot/bot.js:1100-1151 | editing or sending the case view, then recording a closed batch or binding a new message, has the effect of the publish step |
| ThaiDate.MonthIndex | discord-bot/bot.js:228-233 | an abbreviation is recognised exactly when it is one of the twelve, and then as its month |
| ThaiDate.ThaiMonthsDistinct | discord-bot/bot.js:228-233 | no abbreviation names two months |
| ThaiDate.MonthIndexOfName | discord-bot/bot.js:228-233 | each month's abbreviation is recognised as that month |
| ThaiDate.ParseThaiDate | discord-bot/bot.js:235-255 | a result has a month in 0..11 and the Buddhist year minus 543 |
| ThaiDate.ParseWrittenThaiDate | discord-bot/bot.js:235-255 | a date written as day, abbreviation and Buddhist year parses back to its day, month and Christian year |
| ThaiDate.UnknownMonthRejected | discord-bot/bot.js:247-249 | an unknown abbreviation gives no date |
| TodayFilter.FilterTodayItems | discord-bot/bot.js:258-301 | keeps, in order and with their multiplicity, exactly the cases that are today's |
| TodayFilter.StoryDateDecides | discord-bot/bot.js:272-279 | a non-empty `storyDate` alone decides, by equality with today |
| TodayFilter.CreatedAtDecidesNext | discord-bot/bot.js:281-288 | otherwise a valid `createdAt` decides by its UTC date |
| TodayFilter.BareStartTimeIsToday | discord-bot/bot.js:290-296 | otherwise a `HH:MM` start time is kept |
| TodayFilter.FilterKeepsTodaysList | discord-bot/bot.js:258-301 | a list of today's cases is kept whole |
| TodayFilter.FilterIdempotent | discord-bot/bot.js:258-301 | filtering twice is filtering once |

## Left out

- Discord and Firestore I/O is reduced to the abstract operations in `Messaging` and `Roster.RosterDoc`. This covers:
  - login, the `ready` and `error` handlers, `toggleBot` and the `isClientReady` flag (login results are parameters);
  - listener registration;
  - `logSystem` and `bot_logs`/`system_logs` writes;
  - reply messages, DMs and their deletion timers.
- The failure model is narrow:
  - Send failure is one flag per channel for a whole run. A failure between the summary send and the waiting-view send is not modelled.
  - Edits, deletes and store writes do not fail transiently. A missing message or document is modelled.
- Concurrency is left out. The `forEach(async …)` bodies that are not awaited, and races between listeners on `config/discord_message`, are not modelled. Each callback is one sequential run.
- Locale formatting is opaque. This covers the `th-TH` dates and times, the Bangkok date label and the host's date in the waiting view after a summary (`Render.Env`). So are host time-zone rules:
  - the end-of-day instant of a leave (`new Date(y, m, d)` then `setHours`, a parameter of `LeaveApproval.OnLeaveReaction`);
  - `Date` normalisation of out-of-range days and months.
- Regular-expression searches are left out. The parsers start from the isolated token: the Thai date groups, the numeric `d/m/y` token and the last date of a leave range.
- `Text.Lower` lowercases ASCII letters only.
- `JSON.stringify` equality in `onStoryUpdated` becomes value equality of the stories. Key order and fields not listed are folded into one `rest` field.
- Medics given as objects with an empty name: `m.name || m` shows the object itself. Medics are modelled as the names shown.
- The embed colour and `timestamp: new Date()` are left out. The timestamp is a parameter.
- Outside this model:
  - the approval-channel DM branch of the reaction handler;
  - the leave-request reactions in `messageCreate`;
  - `onMedicApproved`, `getDiscordMembers` beyond its badge loop, `getMemberRoles` and `linkDiscordAccount`;
  - the OAuth pages;
  - the Electron application and the build scripts.
- `Identity.IdentityCache.Load` takes the users snapshot as a parameter (`None` when the read fails).
- `Roster.SyncAllAvatars` and `OpUsers.SyncOpUsersAvatars` take the guild's members as a parameter (`None` when the fetch fails).
- CheckLeaveStatus: `DailyJob.CheckLeaveStatus` feeds one login result and one members fetch to both avatar syncs. In the source, `syncAllAvatars` (functions/index.js:464-470) and `syncOpUsersAvatars` (functions/index.js:492-500) each call `ensureBotLogin` and fetch the members themselves, so one sync can see members while the other does not.
- QueueStep, StoryStep and TodaysCases: the queue view (`QueueView.QueueStep`) and the case view (`StoryView.StoryStep`, through `StoryView.BatchOf`) show the cases of the Bangkok date (`Render.TodaysCases`), which is the intended behaviour. As written (discord-bot/bot.js:261-267, used at 922-923 and 1017-1018), the filter's "today" is `Calendar.FilterToday(now, getTimezoneOffset())`, which can differ from the Bangkok date on any host not at UTC. On a Bangkok host it differs every day from 00:00 to 07:00 Bangkok time. The handlers built on these steps (`QueueView.UpdateOPChannelMessage`, `StoryView.UpdateStoryChannelMessage`, `ShiftListener.OnShiftSnapshot`) inherit this. See "## Findings".
- BadgeOnlyForRanks: `Badges.FormatBadge` gives "" for a key inherited from `Object.prototype` such as "constructor" or "toString", where `badges[badge] || ''` (discord-bot/bot.js:100) gives a function. The model's tables answer only for their own keys. Rank names come from the bot's own data, so these keys do not reach the lookup in practice.
- StatusIconOnlyForMarkedStatuses: `Badges.FormatStatus` gives "" for an inherited key, where `statusIcons[status] || ''` (discord-bot/bot.js:317) gives a function.
- UnknownMonthRejected: `ThaiDate.MonthIndex` rejects "constructor", but `THAI_MONTHS[monthStr]` (discord-bot/bot.js:248) is a function there, so `parseThaiDate("15 constructor 2568")` gives an Invalid Date, not null.
- LookupByName: `Identity.LookupByName` finds nothing for an inherited key, where `discordIdCache[...]` (discord-bot/bot.js:177-185) returns a function and the mention shows it.

## Findings

| source | as written | input that shows it | evidently intended | confidence | as-written member | corrected member |
|---|---|---|---|---|---|---|
| discord-bot/bot.js:261-267 | "today" is the UTC date of `now` shifted by 420 minutes plus `getTimezoneOffset()`, which is the Bangkok date only on a UTC host | host clock at Bangkok time, any now from 1970-01-01T17:00Z to 24:00Z (00:00 to 07:00 on 2 January in Bangkok): the filter's "today" is 1970-01-01 | the Bangkok calendar date, whatever the host's zone | not executed | Calendar.FilterTodayLagsOnBangkokHost | Render.TodaysCases |
| functions/index.js:151 | `member.roles.cache.has(ROLE_ID)` reads a name the file never declares (only `ROLE_IDS`); the error is caught and the check answers false | any member, with any roles, reacting ✅ under a leave request: the roster is never updated | a configured approver role is checked | not executed | LeaveApproval.OnLeaveReactionAsWritten | LeaveApproval.ApproverRoleAuthorizes |
