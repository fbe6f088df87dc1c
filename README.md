# owork backend core, modelled in Dafny

owork is an agent workspace. Its backend runs agent conversations as background tasks. It bridges
chat platforms to those agents. It keeps the agent's skills in sync with the disk. It builds each
agent's system prompt. This project models the core of that backend and proves properties of the
model. Each source file maps to one Dafny module:

- `task_engine.dfy` (`TaskEngine`): the background task manager. It covers:
  - task records and their titles;
  - the runner that drives an agent conversation and parks it while it waits for a user answer;
  - the replay buffer of the last 100 events per task;
  - subscribers and their queues;
  - cancel, send-message, delete and buffer expiry.

  Class `TaskManager` holds the manager's tables. Pure functions specify each step, and the
  methods are proved against them. A ghost journal records what each task has published and
  persisted. The class invariant ties every replay buffer to the last 100 events of that journal.
- `rate_limiter.dfy` (`RateLimit`): the per-sender sliding-window rate limiter of the channel
  gateway (class `SlidingWindowLimiter`).
- `gateway.dfy` (`Gateway`): the channel gateway's handling of an inbound message. It covers:
  - access control;
  - rate limiting;
  - attachment staging and file-name sanitising with collision counters;
  - the reply chosen from the agent's event stream;
  - session resolution and the message-count update.
- `channel_base.dfy` (`ChannelBase`): the normalised inbound message, the attachment kinds and the
  attachment size limit.
- `feishu.dfy` (`Feishu`): the Feishu adapter (class `FeishuAdapter`). It covers:
  - start and stop;
  - parsing of message events;
  - removal of `@_user_N` mentions in group chats;
  - image and file download;
  - MIME guessing from the name and from magic bytes.
- `skills.dfy` (`Skills`): the skill manager. It covers:
  - SKILL.md metadata defaults;
  - checking an uploaded ZIP: a single root folder and a SKILL.md entry;
  - the refresh that compares local skill folders with database rows: added, updated and removed
    skills, with plugin skills skipped.
- `file_sender.dfy` (`FileSender`): the `send_file` tool an agent uses to send a workspace file to
  its chat. It covers:
  - classification by extension;
  - the order in which the request is validated;
  - the Feishu upload and delivery steps.
- `system_prompt.dfy` (`SystemPrompt`): the system prompt builder. The sections appear in a fixed
  order and empty sections are dropped. The project-context files are loaded and BOOTSTRAP.md is
  truncated.
- `registry.dfy` (`Registry`): the adapter registry (class `AdapterRegistry`) and the catalogue of
  channel types.
- `channel_schema.dfy` (`ChannelSchema`): validation of channel create and update requests.
- `text.dfy` (`Text`): shared string helpers. `Option` and `Result`, Python-style `strip`,
  `lower`, `endswith`, path suffixes and `join`.

Some things become parameters of the operations:

- The database and the file system become maps and values. Time, the host platform and the
  platform's REST responses are passed in (`now`, `Clock`, `Host`, `Network`, `fetched`).
- The agent conversation is a total function from an invocation to the list of steps it
  produces. A step yields an event, raises an error, or is interrupted by cancellation.
- Python's `mimetypes` guess is a function parameter (`NameGuess`).
- The regular-expression parse of SKILL.md is an input (`Parsed`).

Where the code and its design description disagree, the model follows the code:

- The design says a late subscriber whose replay already contains the terminal event stops at
  once. The code does not check the replayed events, so such a subscriber waits for live events.
  `TaskManager.Subscribe` returns the replay and `TaskManager.Receive` considers only live
  events.
- The ZIP check accepts any entry whose name ends in `SKILL.md`, such as `MYSKILL.md`
  (`SuffixTestAcceptsOtherFiles`).
- Feishu images are always named `<key>.png`. So the guess from the name settles the type and
  the magic bytes are never consulted for them (`DownloadImage`).

## Model

| member | source | states |
|---|---|---|
| TaskEngine.FirstText | backend/core/task_manager.py:66-70 | some text exists iff some content block is a text block with non-empty text; the result is the text of the first such block |
| TaskEngine.Title | backend/core/task_manager.py:78-79 | a non-empty message longer than 50 characters gives a title ending in "...", whatever the title came from |
| TaskEngine.TitleLength | backend/core/task_manager.py:65-79 | a task with content or a message gets a title of at most 53 characters |
| TaskEngine.TitleFromContent | backend/core/task_manager.py:66-79 | with a text block in the content, the title is the first 50 characters of the first such block, followed by "..." exactly when the message is longer than 50 characters |
| TaskEngine.TitleForAttachments | backend/core/task_manager.py:66-79 | content without any text block gives "[Attachment message]", followed by "..." exactly when the message is longer than 50 characters |
| TaskEngine.TitleFromMessage | backend/core/task_manager.py:73-79 | without content, a non-empty message gives its first 50 characters, with "..." exactly when it was cut, and the whole message otherwise |
| TaskEngine.TitleFallback | backend/core/task_manager.py:75-79 | no content and an empty or missing message give "Task with " and the agent's name, or "agent", with no "..." |
| TaskEngine.NewRecord | backend/core/task_manager.py:82-95 | a new record is pending and has no session, start time, completion time or error. It takes the agent's model, createdAt = now, the computed title, and as work dir the first add_dir when there is one |
| TaskEngine.ApplyPatch | backend/core/task_manager.py:133-200 | an update never changes a task's identity. A final update (completed, failed or cancelled) leaves a final status and a completion time |
| TaskEngine.ApplyAllKeepsIdentity | backend/core/task_manager.py:133-200 | any sequence of runner updates keeps id, agent, title, model and creation time |
| TaskEngine.ApplyAllNeverPending | backend/core/task_manager.py:133-200 | once a task has left pending, no update returns it to pending |
| TaskEngine.CountRunningAfterStart | backend/core/task_manager.py:133-135 | marking a pending task running raises the running count by exactly one |
| TaskEngine.CountRunningAfterFinish | backend/core/task_manager.py:159-173 | a final update of a running task lowers the running count by exactly one |
| TaskEngine.Window | backend/core/task_manager.py:270-273 | the buffer is the suffix of the history of length min(len, 100) |
| TaskEngine.BufferedWindow | backend/core/task_manager.py:269-273 | appending one event and trimming to 100 keeps the buffer equal to the last 100 events of the whole history |
| TaskEngine.BufferedAllWindow | backend/core/task_manager.py:267-278 | appending any number of events keeps the buffer equal to the last 100 of the whole history |
| TaskEngine.DeliverAll | backend/core/task_manager.py:275-278 | every subscriber queue receives the published events in order, and no subscriber is added or lost |
| TaskEngine.FirstCall | backend/core/task_manager.py:140-149 | the first run starts without a session and with the request's add_dirs |
| TaskEngine.ResumeCall | backend/core/task_manager.py:230-238 | a resumed run uses the parked session and the task's agent; add_dirs is [work_dir] iff the task has a non-empty work dir |
| TaskEngine.ServeOneIdentity | backend/core/task_manager.py:219-262 | how one user answer is served depends only on the task's identity, not on its mutable fields |
| TaskEngine.OutcomesNeverBlocked | backend/core/task_manager.py:219-262 | serving a queued answer never ends in the waiting state on its own |
| TaskEngine.WaitingTakesAllReplies | backend/core/task_manager.py:219-262 | the pending-interaction loop waits again only after it has taken every queued answer |
| TaskEngine.PendingLoopIdentity | backend/core/task_manager.py:219-262 | the pending-interaction loop depends only on the task's identity |
| TaskEngine.UnconcludedRunIsQuiet | backend/core/task_manager.py:141-179 | a run that neither concludes nor fails only records session ids and never changes status |
| TaskEngine.ServeOneQuiet | backend/core/task_manager.py:219-262 | serving an answer that does not end the loop only records session ids |
| TaskEngine.BlockedLoopIsQuiet | backend/core/task_manager.py:219-262 | a pending-interaction loop that waits again only records session ids |
| TaskEngine.StepPublishes | backend/core/task_manager.py:150-156 | a step publishes exactly the event it yields and nothing for an error or an interruption |
| TaskEngine.RunPublishesYields | backend/core/task_manager.py:141-179 | a run publishes exactly the yielded events of a prefix of its steps, and all of them when the stream is drained |
| TaskEngine.Conclusion | backend/core/task_manager.py:159-173 | a result or error event leads to a final update |
| TaskEngine.ConcludedRunShape | backend/core/task_manager.py:159-173 | a concluded run ends by publishing a result or error event and then persisting its final update; before that it only records session ids |
| TaskEngine.ConcludedRunStatus | backend/core/task_manager.py:159-173 | after a concluded run the task is completed (result) or failed with the event's error text, completed at now, and the last published event is the one that concluded it |
| TaskEngine.SettleOutcome | backend/core/task_manager.py:181-195 | an exception fails the task with its message and publishes an error event. Cancellation marks it cancelled and publishes a cancelled status. Both set the completion time and keep the identity |
| TaskEngine.WaitingActivationShape | backend/core/task_manager.py:120-179 | a first activation that ends up waiting has marked the task running, published running, invoked the agent, paused on a question and taken every queued answer |
| TaskEngine.FirstActivationWaitingIsRunning | backend/core/task_manager.py:133-179 | a task whose first activation is left waiting for an answer is running |
| TaskEngine.WaitingInteractionKeepsStatus | backend/core/task_manager.py:202-265 | an interaction that is left waiting does not change the task's status |
| TaskEngine.LiveTakeStopsAtFirstEnd | backend/core/task_manager.py:317-325 | a subscriber takes its pending events up to and including the first result, error or final status event; it is done iff such an event is pending |
| TaskEngine.FindQueue | backend/core/task_manager.py:329-330 | the index of the first subscriber with that queue, or none when no subscriber has it |
| TaskEngine.RemoveAt | backend/core/task_manager.py:329-330 | list.remove: the element at the index is dropped and the others keep their order |
| TaskEngine.DropAfterEffect | backend/core/task_manager.py:120-200 | a runner's actions touch only its own task's record, subscribers and buffer |
| TaskEngine.EffectOfPersist | backend/core/task_manager.py:133-200 | persisting an update changes only that task's record, which it patches |
| TaskEngine.EffectOfInvoke | backend/core/task_manager.py:141-149 | invoking the agent changes none of the manager's tables |
| TaskEngine.EffectOfPublish | backend/core/task_manager.py:267-278 | publishing an event appends it to the task's buffer and to each of its subscriber queues and changes nothing else |
| TaskEngine.EffectKeepsWindows | backend/core/task_manager.py:267-278 | any run of actions keeps every buffer equal to the last 100 events its task published |
| TaskEngine.NewTaskKeepsWindows | backend/core/task_manager.py:99-101 | a new task with an empty buffer keeps every buffer equal to the last 100 events published |
| TaskEngine.RunKeepsValid | backend/core/task_manager.py:120-200 | a runner's actions preserve the manager's invariant |
| TaskEngine.NewTaskKeepsValid | backend/core/task_manager.py:99-115 | registering a new pending task preserves the manager's invariant |
| TaskEngine.DropKeepsValid | backend/core/task_manager.py:381-392 | dropping a task's tables preserves the manager's invariant |
| TaskEngine.SubscribersKeepValid | backend/core/task_manager.py:304-330 | changing a task's subscribers preserves the invariant when all queue ids stay below the counter |
| TaskEngine.RunnerEvolves | backend/core/task_manager.py:133-200 | a runner's updates only move statuses forward (pending to running to a final status) |
| TaskEngine.TaskManager.constructor | backend/core/task_manager.py:24-36 | the manager starts with empty tables and satisfies its invariant |
| TaskEngine.TaskManager.RunningCount | backend/core/task_manager.py:394-396 | the number of running tasks is at most the number of tasks |
| TaskEngine.TaskManager.CreateTask | backend/core/task_manager.py:38-118 | an unknown agent gives "Agent … not found" and changes nothing. Otherwise the new pending record is stored with an empty buffer, empty subscriber list and empty answer queue, and the runner is scheduled with the request |
| TaskEngine.TaskManager.Emit | backend/core/task_manager.py:267-278 | publishing one event has exactly the effect EffectOfPublish describes |
| TaskEngine.TaskManager.Deliver | backend/core/task_manager.py:275-278 | the loop over subscribers puts the event on every queue |
| TaskEngine.TaskManager.Persist | backend/core/task_manager.py:133-200 | persisting one update has exactly the effect EffectOfPersist describes |
| TaskEngine.TaskManager.PerformAll | backend/core/task_manager.py:120-200 | performing a list of actions in order has the combined effect of the list |
| TaskEngine.TaskManager.ProcessStep | backend/core/task_manager.py:150-179 | one event from the agent is handled as the step function says, and its actions take effect |
| TaskEngine.TaskManager.Drive | backend/core/task_manager.py:141-179 | the event loop of a run performs exactly the actions of the run function and ends as it does |
| TaskEngine.TaskManager.AwaitReplies | backend/core/task_manager.py:219-262 | the answer loop performs exactly the pending-interaction loop's actions and consumes the answers it takes |
| TaskEngine.TaskManager.TakeReply | backend/core/task_manager.py:221-226 | taking one answer removes it from the queue; a vanished task ends the loop, otherwise the answer is served |
| TaskEngine.TaskManager.Serve | backend/core/task_manager.py:228-262 | serving one answer resumes the agent and performs the actions ServeOne specifies |
| TaskEngine.TaskManager.RunTask | backend/core/task_manager.py:120-200 | a scheduled runner performs its first activation. It ends by parking the task with its session, or by removing its handle. The invariant is kept and statuses only move forward |
| TaskEngine.TaskManager.Activate | backend/core/task_manager.py:120-200 | the first activation performs the actions FirstActivation specifies and consumes the answers it takes |
| TaskEngine.TaskManager.Start | backend/core/task_manager.py:133-179 | the task is marked running, running is published and the agent is invoked without a session, then the run proceeds |
| TaskEngine.TaskManager.Interact | backend/core/task_manager.py:202-265 | a parked task's interaction performs the actions Interaction specifies |
| TaskEngine.TaskManager.Wake | backend/core/task_manager.py:202-265 | a parked runner serves the queued answers. It stays parked, or finishes and removes its handle |
| TaskEngine.TaskManager.CancelTask | backend/core/task_manager.py:355-367 | succeeds iff the task has a runner. A parked task is settled as cancelled; an unstarted one is aborted and stays pending. Nothing else changes |
| TaskEngine.TaskManager.SendMessage | backend/core/task_manager.py:332-353 | succeeds iff the task has a queue and a running record; then the answer is appended to its queue and nothing else changes |
| TaskEngine.TaskManager.DeleteTask | backend/core/task_manager.py:381-392 | reports whether the record existed. It cancels any runner and removes the record, buffer, subscriber list and queue; the subscribers keep their queues, holding the cancelled status when the runner was waiting for a reply |
| TaskEngine.TaskManager.Drop | backend/core/task_manager.py:386-390 | the task's tables and record go; the queues its subscribers hold are kept under their identities |
| TaskEngine.Detach | backend/core/task_manager.py:386-390 | the queues a dropped subscriber list leaves behind are exactly its queue identities, each with the events its queue held |
| TaskEngine.DeletedTaskEndsStreams | backend/core/task_manager.py:355-392 | deleting a task whose runner waits for a reply still ends every live stream of it: the subscriber reads what it had, then the cancelled status, and stops |
| TaskEngine.LiveTakeThroughEnd | backend/core/task_manager.py:317-325 | a queue with no end event before its last one yields all of it and ends the stream |
| TaskEngine.TaskManager.Subscribe | backend/core/task_manager.py:294-314 | a fresh queue id is registered at the end of the task's subscriber list; the replay is the task's buffer, the last 100 events it published |
| TaskEngine.TaskManager.Receive | backend/core/task_manager.py:317-330 | a subscriber takes live events up to the first terminal one, and its queue is removed once it has one. A queue of a deleted task is read the same way from where its subscriber holds it; an unknown queue gets nothing |
| TaskEngine.TaskManager.TakeLive | backend/core/task_manager.py:317-325 | the loop takes exactly what LiveTake specifies |
| TaskEngine.TaskManager.Unsubscribe | backend/core/task_manager.py:327-330 | removes the subscriber's queue from the task's list when present, and nothing else; for a deleted task the held queue is released |
| TaskEngine.TaskManager.ExpireBuffers | backend/core/task_manager.py:280-292 | a finished task's buffer, subscribers and queue are dropped iff nobody is subscribed |
| RateLimit.Recent | backend/channels/gateway.py:53-55 | the kept timestamps are all after the cutoff and no more than the window held |
| RateLimit.RecentKeepsExactlyLater | backend/channels/gateway.py:55 | a timestamp survives pruning iff it was in the window and is after the cutoff |
| RateLimit.RecentTwice | backend/channels/gateway.py:53-55 | pruning at a cutoff then at a later cutoff is pruning at the later one |
| RateLimit.RecentSnoc | backend/channels/gateway.py:53-58 | pruning a window with a new timestamp appended is pruning the old window, then adding the new one if it is after the cutoff |
| RateLimit.Admit | backend/channels/gateway.py:47-59 | a message is allowed iff fewer than the limit remain in the last 60 seconds; an allowed message is recorded and the window never exceeds the limit |
| RateLimit.SlidingWindowLimiter.constructor | backend/channels/gateway.py:43-45 | the limiter starts with no windows |
| RateLimit.SlidingWindowLimiter.IsAllowed | backend/channels/gateway.py:47-59 | a non-positive limit allows everything and changes nothing. Otherwise the answer and the sender's new window are those of Admit, and other senders are untouched |
| RateLimit.SlidingWindowLimiter.Clear | backend/channels/gateway.py:61-65 | a named sender's window is removed; an empty or missing sender clears every window |
| RateLimit.ReplayWindow | backend/channels/gateway.py:47-59 | over ascending timestamps the stored window is exactly the allowed messages of the last 60 seconds, and never more than the limit |
| RateLimit.AtMostLimitPerMinute | backend/channels/gateway.py:37-59 | over ascending timestamps, at most limit messages are allowed in any 60-second window ending at a message |
| Gateway.CheckAccess | backend/channels/gateway.py:667-707 | open admits everyone, allowlist admits exactly the listed senders, blocklist admits exactly the unlisted ones; an unknown mode admits nobody |
| Gateway.AllowAndBlockAreComplementary | backend/channels/gateway.py:684-703 | the same list used as allowlist and as blocklist gives opposite answers for every sender |
| Gateway.UnconfiguredAdmitsNobody | backend/channels/gateway.py:679-693 | a channel with no access mode and no allowed senders admits nobody |
| Gateway.Screen | backend/channels/gateway.py:303-336 | no agent, then access, then the rate limit are checked in that order. Only the rate limit check updates the limiter, and only the sender's window |
| Gateway.Basename | backend/channels/gateway.py:721 | the name keeps only its last component after both kinds of separator |
| Gateway.SanitizeFilename | backend/channels/gateway.py:718-729 | the result is non-empty, free of unsafe characters, has no doubled underscores and does not start or end with one; it keeps every safe non-underscore character of the basename, in order, and is "attachment" exactly when the basename has none |
| Gateway.Cleaned | backend/channels/gateway.py:726-728 | replacing, collapsing and trimming keeps the kept characters and gives an empty name exactly when there are none |
| Gateway.SqueezeKeeps | backend/channels/gateway.py:728 | collapsing underscore runs keeps every other character, in order |
| Gateway.ReplaceUnsafeKeeps | backend/channels/gateway.py:726 | replacing unsafe characters keeps every safe non-underscore character, in order |
| Gateway.SanitizeIgnoresDirectory | backend/channels/gateway.py:725 | a name behind a '/'-separated directory sanitises like the name alone |
| Gateway.SafeNameIsKept | backend/channels/gateway.py:714-729 | a name that is already safe is left unchanged |
| Gateway.SanitizeIdempotent | backend/channels/gateway.py:714-729 | sanitising twice is sanitising once |
| Gateway.CandidateInjective | backend/channels/gateway.py:581-588 | different counters give different candidate names |
| Gateway.UniqueName | backend/channels/gateway.py:578-588 | the target is not taken. A free name is kept; otherwise it is stem_n plus the suffix for the first n from 1 that is free |
| Gateway.StagedLines | backend/channels/gateway.py:548-556 | at most one note per attachment |
| Gateway.PrepareMessageText | backend/channels/gateway.py:538-565 | the loop builds exactly MessageText of the message and its staged attachments |
| Gateway.NothingStagedKeepsText | backend/channels/gateway.py:545-559 | when nothing is staged the text is unchanged |
| Gateway.TextThenNotes | backend/channels/gateway.py:561-565 | text and notes are joined by a blank line, the notes by newlines |
| Gateway.EmptyAttachmentsAreSkipped | backend/channels/gateway.py:551-553 | attachments without bytes add no note |
| Gateway.OneNotePerStagedAttachment | backend/channels/gateway.py:549-556 | each staged attachment adds its note, in order |
| Gateway.ReplyOf | backend/channels/gateway.py:398-486 | the reply is never empty |
| Gateway.AccumulateReply | backend/channels/gateway.py:398-486 | the reply, the error flag (an exception or any error event) and the final session id are those of the event stream |
| Gateway.JoinTexts | backend/channels/gateway.py:424-431 | an assistant message's text is the concatenation of its text blocks |
| Gateway.LastAssistantTextWins | backend/channels/gateway.py:419-433 | the last assistant message with text is the reply |
| Gateway.FirstErrorSuppliesReply | backend/channels/gateway.py:450-476 | with no assistant text, the first error supplies the reply |
| Gateway.QuietStreamGetsNotice | backend/channels/gateway.py:485-486 | a stream with no text and no error gets "(No response generated)" |
| Gateway.ResolveSession | backend/channels/gateway.py:601-661 | an unknown chat gets a fresh session marked new. A known chat resumes its session and is new iff its message count is missing, null or zero |
| Gateway.ResumeWith | backend/channels/gateway.py:407 | a new session is started without a session id |
| Gateway.CountAfter | backend/channels/gateway.py:520-532 | the message count is updated iff no error occurred |
| Gateway.NewUntilFirstSuccess | backend/channels/gateway.py:520-532 | a chat stays new until its first exchange without an error, and its count never decreases |
| Feishu.GuessImageMime | backend/channels/adapters/feishu.py:515-523 | always an image type; an image type guessed from the name wins |
| Feishu.FirstMagicIsFirstMatch | backend/channels/adapters/feishu.py:520-522 | the type of the first table entry whose magic bytes prefix the data |
| Feishu.NoMagicNoType | backend/channels/adapters/feishu.py:520-523 | no entry matches, no type |
| Feishu.SniffedImageType | backend/channels/adapters/feishu.py:515-523 | without an image guess from the name, the first matching magic gives the type |
| Feishu.UnknownImageIsPng | backend/channels/adapters/feishu.py:523 | no name guess and no magic gives image/png |
| Feishu.JpegIsSniffed | backend/channels/adapters/feishu.py:506-508 | data starting FF D8 FF is image/jpeg when the name does not say |
| Feishu.GuessMimeType | backend/channels/adapters/feishu.py:526-529 | the name's guess, or application/octet-stream |
| Feishu.MentionAt | backend/channels/adapters/feishu.py:45 | a match exists iff the text starts with "@_user_" and a digit; it spans the longest run of digits and then the longest run of whitespace |
| Feishu.StripMentions | backend/channels/adapters/feishu.py:279 | removing mentions never lengthens the text |
| Feishu.StripPlainPrefix | backend/channels/adapters/feishu.py:279 | text with no '@' passes through untouched, whatever follows it |
| Feishu.MentionInsideRemoved | backend/channels/adapters/feishu.py:45 | a mention in the middle of the text goes with its digits and trailing whitespace, and the text around it stays |
| Feishu.NoMentionUnchanged | backend/channels/adapters/feishu.py:279 | text without "@_user_" is unchanged |
| Feishu.MentionIsRemoved | backend/channels/adapters/feishu.py:45 | a mention with its digits and trailing whitespace is removed entirely |
| Feishu.MentionOnlyGroupMessageIsEmpty | backend/channels/adapters/feishu.py:274-279 | a group message that is only a mention has empty text |
| Feishu.DirectTextUnchanged | backend/channels/adapters/feishu.py:274-279 | outside group chats the text is kept as sent |
| Feishu.FeishuAdapter.constructor | backend/channels/adapters/feishu.py:56-66 | a new adapter is not stopped and has no client or event loop |
| Feishu.FeishuAdapter.Start | backend/channels/adapters/feishu.py:108-131 | a started adapter has a client and a loop and is not stopped |
| Feishu.FeishuAdapter.Stop | backend/channels/adapters/feishu.py:191-223 | a stopped adapter has neither |
| Feishu.FeishuAdapter.DownloadImage | backend/channels/adapters/feishu.py:339-383 | an image is returned iff a client exists and the data arrived within the size limit; it holds the downloaded bytes, is named key.png and typed by GuessImageMime |
| Feishu.FeishuAdapter.DownloadFile | backend/channels/adapters/feishu.py:385-430 | a file is returned iff a client exists and the data arrived within the size limit; it holds the downloaded bytes, keeps its name and is typed by the name |
| Feishu.FeishuAdapter.HandleMessageEvent | backend/channels/adapters/feishu.py:230-330 | a stopped adapter, an unsupported type or unparsable content gives nothing. A message is forwarded iff it has text or a downloaded attachment; it carries the event's ids, its text, and exactly the attachment the download of its image or file key produced |
| Skills.ExtractMetadata | backend/core/skill_manager.py:67-99 | author is always unknown; each field missing from the parse takes its default (folder name, "Skill: " + folder name, 1.0.0) |
| Skills.NothingParsedIsDefault | backend/core/skill_manager.py:67-99 | a SKILL.md with nothing recognised gives the same metadata as a missing one |
| Skills.FirstSegment | backend/core/skill_manager.py:140-149 | the first path component of an entry name |
| Skills.RootFoldersAreEntryFolders | backend/core/skill_manager.py:140-149 | the root folders are exactly the first components of the entries inside a folder |
| Skills.SingleRootFolder | backend/core/skill_manager.py:140-149 | a root is found iff exactly one folder holds the entries, and it is that folder |
| Skills.TwoFoldersNoSingleRoot | backend/core/skill_manager.py:140-149 | entries in two different folders give no single root |
| Skills.HasSkillFile | backend/core/skill_manager.py:198-202 | true iff some entry name ends in SKILL.md |
| Skills.CheckPackage | backend/core/skill_manager.py:198-205 | a package is accepted iff it has a SKILL.md entry, otherwise rejected with "ZIP must contain a SKILL.md file" |
| Skills.SuffixTestAcceptsOtherFiles | backend/core/skill_manager.py:198-205 | MYSKILL.md is accepted though it is not SKILL.md |
| Skills.FolderKey | backend/core/skill_manager.py:259-262 | the stored folder name when it is non-empty; otherwise a key with no spaces, as long as the name |
| Skills.FolderKeyFromName | backend/core/skill_manager.py:262 | without a folder name, each character of the key is the name's character lower-cased, or '-' for a space |
| Skills.IndexOf | backend/core/skill_manager.py:258-269 | indexing the rows gives well-ordered plugin and user indexes |
| Skills.UserFolders | backend/core/skill_manager.py:258-269 | a folder is a user skill iff some non-plugin row has that key |
| Skills.PluginFolders | backend/core/skill_manager.py:258-269 | a folder is a plugin skill iff some plugin row has that key |
| Skills.Folders | backend/core/skill_manager.py:276-310 | exactly the folders found locally |
| Skills.Select | backend/core/skill_manager.py:276-310 | the selected folders satisfy the condition, and are distinct when the local folders are |
| Skills.SelectIff | backend/core/skill_manager.py:276-310 | every local folder meeting the condition is selected |
| Skills.NewRecords | backend/core/skill_manager.py:286-300 | one new local record per added folder, in order, created by sync, not a system skill, named by the metadata read from its folder |
| Skills.Removed | backend/core/skill_manager.py:313-319 | removed keys are indexed keys missing locally, without repeats |
| Skills.RemovedIff | backend/core/skill_manager.py:313-319 | a key is removed iff indexed, missing locally and of source user or local |
| Skills.IndexRows | backend/core/skill_manager.py:258-269 | the indexing loop builds IndexOf of the rows |
| Skills.ClassifyLocal | backend/core/skill_manager.py:276-310 | the loop over local folders builds the added, updated, error and new-record lists |
| Skills.CollectRemoved | backend/core/skill_manager.py:313-319 | the loop over indexed keys builds the removed list |
| Skills.Refresh | backend/core/skill_manager.py:235-321 | the sync result lists added, updated and removed skills, the skills whose metadata could not be read, and the local, plugin and database totals |
| Skills.AddedIff | backend/core/skill_manager.py:276-300 | a local folder is added iff neither a plugin nor a user skill has it and its metadata could be read |
| Skills.FailedIff | backend/core/skill_manager.py:286-310 | a local folder is reported as an error iff it is new and reading its metadata failed; it is then not added |
| Skills.UpdatedIff | backend/core/skill_manager.py:276-310 | with distinct local folders, a folder is updated iff it is a user skill whose stored path differs |
| Skills.PluginsAreSkipped | backend/core/skill_manager.py:281-284 | plugin folders are never added, updated or reported as errors |
| Skills.AddedIsDisjoint | backend/core/skill_manager.py:276-319 | an added folder is neither updated nor removed |
| Skills.RemovedIffOrphaned | backend/core/skill_manager.py:313-319 | removed exactly when a user or local skill has no folder on disk |
| FileSender.Extension | backend/mcp_servers/channel_file_sender.py:45-50 | the extension is empty or starts with a dot |
| FileSender.FeishuFileType | backend/mcp_servers/channel_file_sender.py:49-50 | the platform type for the extension, or stream |
| FileSender.ExtensionCaseIgnored | backend/mcp_servers/channel_file_sender.py:45-50 | FILE.PDF is classified like file.pdf |
| FileSender.SiblingIsOutside | backend/mcp_servers/channel_file_sender.py:227-231 | /ws-other is outside /ws |
| FileSender.BelowRootIsInside | backend/mcp_servers/channel_file_sender.py:227-231 | everything under root/ is inside |
| FileSender.SlashRootAdmitsOnlyItself | backend/mcp_servers/channel_file_sender.py:227-231 | with / as the workspace nothing else passes |
| FileSender.SendFile | backend/mcp_servers/channel_file_sender.py:210-259 | workspace, existence, regularity, size and channel are checked in that order; a file is delivered iff all pass |
| FileSender.SizeAtLimitAccepted | backend/mcp_servers/channel_file_sender.py:240-252 | a file exactly at its limit is sent |
| FileSender.SizeOverLimitRejected | backend/mcp_servers/channel_file_sender.py:240-252 | one byte over the limit is refused, as an image too large or a file too large according to the path |
| FileSender.BetweenLimits | backend/mcp_servers/channel_file_sender.py:240-252 | a size above 10 MB and at most 30 MB is refused as an image too large for an image and sent otherwise |
| FileSender.LimitFollowsKind | backend/mcp_servers/channel_file_sender.py:240-252 | a size between 10 MB and 30 MB is refused for a name with an image extension in any case, and sent for any other name |
| FileSender.MessageType | backend/mcp_servers/channel_file_sender.py:89-130 | image iff the file is an image, otherwise file |
| FileSender.SendViaFeishu | backend/mcp_servers/channel_file_sender.py:57-199 | a missing SDK, missing credentials or a missing chat stop the delivery before any upload, each with its error |
| FileSender.DeliveryOf | backend/mcp_servers/channel_file_sender.py:133-159 | a reply iff a message to reply to is configured |
| FileSender.UploadOf | backend/mcp_servers/channel_file_sender.py:89-130 | an image upload iff the file is an image |
| FileSender.TextFailureOnlyWarns | backend/mcp_servers/channel_file_sender.py:164-197 | a delivered file is reported sent even when the accompanying text fails |
| SystemPrompt.Identity | backend/core/system_prompt.py:60-66 | the line naming the agent (or Assistant), followed by a space and the description exactly when the description is non-empty |
| SystemPrompt.DirLines | backend/core/system_prompt.py:82-88 | a header then one line per directory, in order |
| SystemPrompt.SelectedDirs | backend/core/system_prompt.py:82-88 | absent iff no directories are selected |
| SystemPrompt.SelectedDirsSection | backend/core/system_prompt.py:82-88 | the loop builds SelectedDirs |
| SystemPrompt.SelectedDirsShape | backend/core/system_prompt.py:82-88 | the section opens with its header and ends with the last directory |
| SystemPrompt.ExtraPrompt | backend/core/system_prompt.py:102-106 | present iff the agent's prompt is non-empty |
| SystemPrompt.Truncated | backend/core/system_prompt.py:165-166 | only BOOTSTRAP.md over 20000 characters is cut, to 20000 plus the marker |
| SystemPrompt.LoadWorkspaceFile | backend/core/system_prompt.py:148-171 | absent iff the file is missing or blank; otherwise the header and the stripped, possibly truncated content |
| SystemPrompt.BootstrapIsBounded | backend/core/system_prompt.py:148-171 | the loaded BOOTSTRAP.md has a bounded length |
| SystemPrompt.ProjectContext | backend/core/system_prompt.py:108-127 | absent iff no context file is loaded |
| SystemPrompt.ProjectContextSection | backend/core/system_prompt.py:108-127 | the method builds ProjectContext |
| SystemPrompt.ProjectContextParts | backend/core/system_prompt.py:108-127 | the parts are the loaded identity, soul and bootstrap files, in that order |
| SystemPrompt.Channel | backend/core/system_prompt.py:129-142 | no channel context gives direct |
| SystemPrompt.Kept | backend/core/system_prompt.py:38-54 | a section is kept iff present and non-empty |
| SystemPrompt.Present | backend/core/system_prompt.py:38-54 | the kept sections are non-empty and no more than the sections given |
| SystemPrompt.PresentIff | backend/core/system_prompt.py:38-54 | a text is kept iff it is a non-empty section |
| SystemPrompt.Sections | backend/core/system_prompt.py:38-54 | nine sections in the builder's order |
| SystemPrompt.Build | backend/core/system_prompt.py:38-54 | the builder returns exactly Prompt |
| SystemPrompt.PresentFirst | backend/core/system_prompt.py:38-54 | a non-empty first section comes first |
| SystemPrompt.PresentLast | backend/core/system_prompt.py:38-54 | a non-empty last section comes last |
| SystemPrompt.PromptOpensAndCloses | backend/core/system_prompt.py:38-54 | the prompt opens with the identity and closes with the runtime line |
| Registry.Listing | backend/channels/registry.py:30-76 | the four catalogue entries in order, each available iff registered, otherwise unchanged |
| Registry.Lookup | backend/channels/registry.py:25-27 | a class iff the type is registered, and it is that class |
| Registry.LookupAfterRegister | backend/channels/registry.py:19-27 | a type looks up the last class registered for it; other types are unaffected |
| Registry.UnlistedTypeIsInvisible | backend/channels/registry.py:72-76 | registering a type outside the catalogue does not change the listing |
| Registry.OnlyFeishuAvailable | backend/channels/registry.py:30-89 | with only Feishu registered, only Feishu is available |
| Registry.AdapterRegistry.constructor | backend/channels/registry.py:16 | the registry starts empty |
| Registry.AdapterRegistry.RegisterAdapter | backend/channels/registry.py:19-22 | the type now maps to the class, replacing any earlier one |
| Registry.AdapterRegistry.GetAdapterClass | backend/channels/registry.py:25-27 | the registered class, or none |
| Registry.AdapterRegistry.ListSupportedTypes | backend/channels/registry.py:30-76 | the loop builds Listing of the registered types |
| Registry.AdapterRegistry.LoadAdapters | backend/channels/registry.py:79-89 | Feishu is registered iff the Lark SDK is installed |
| ChannelSchema.NameErrors | backend/schemas/channel.py:8 | no error iff the name is present with 1 to 255 characters |
| ChannelSchema.ChoiceErrors | backend/schemas/channel.py:9-12 | no error iff the value is allowed, or absent and optional |
| ChannelSchema.RateLimitErrors | backend/schemas/channel.py:14 | no error iff absent or between 1 and 100 |
| ChannelSchema.CreateErrors | backend/schemas/channel.py:6-16 | no errors iff the request is acceptable |
| ChannelSchema.ValidateCreate | backend/schemas/channel.py:6-16 | accepted iff acceptable. An accepted request is well formed, keeps the given fields and fills the defaults (allowlist, 10 per minute, empty config and senders, skills and MCP off) |
| ChannelSchema.ExplicitRoundTrip | backend/schemas/channel.py:6-16 | a well-formed request sent with every field validates to itself |
| ChannelSchema.MinimalCreateGetsDefaults | backend/schemas/channel.py:6-16 | the three required fields alone get every default |
| ChannelSchema.ErrorsInFieldOrder | backend/schemas/channel.py:6-16 | every field's error is reported, in field order |
| ChannelSchema.ValidateUpdate | backend/schemas/channel.py:19-29 | accepted iff access mode and rate limit are valid; accepted unchanged |
| ChannelSchema.EmptyUpdateIsValid | backend/schemas/channel.py:19-29 | an empty update is valid |
| ChannelSchema.UpdateRateBoundsMatchCreate | backend/schemas/channel.py:14-27 | update and create accept the same rate limits |
| ChannelSchema.UpdateNameIsUnbounded | backend/schemas/channel.py:21 | an update's name has no length bound |

## Left out

- I/O, the database, the file system, clocks, randomness (uuid), the network and logging are
  inputs or omitted. asyncio concurrency is replaced by explicit sequential operations: a runner
  is a value saying where its coroutine is suspended.
- TaskManager.Subscribe: the replay and the registration happen in one step; interleaving with a
  concurrent runner is not modelled.
- TaskManager.CancelTask: cancelling an unstarted task marks its runner aborted; it stays pending
  and keeps its handle, as asyncio never runs the coroutine body.
- FileSender.SendFile: the size-error texts include a float MB value; the model returns the size
  in bytes in an Outcome.
- FileSender.SendViaFeishu: the upload file stream and HTTP details are not modelled; only the
  response codes and messages are.
- Skills.ExtractMetadata: the regular-expression parse of SKILL.md is an input, not modelled.
- Skills.SourceOf: a stored null source_type is read like a missing one, as "user". In the code
  `.get('source_type', 'user')` gives None for it, so such a row is never removed. RemovedIff
  and RemovedIffOrphaned state the model's reading.
- Skills.FolderKey: a stored null name makes the code raise; the model reads it as "".
- Skills.Refresh: an error entry names the skill only; the exception's message is not modelled.
- Feishu.MentionAt: `\d` is modelled as the ASCII digits, while Python also matches other Unicode
  decimal digits. `\s` is the `str.isspace` set, as in Python (`Text.IsSpace`). The regex
  substitution is modelled as a left-to-right scan (`StripMentions`).
- TaskEngine.Title: an agent whose stored name is null is titled "Task with None" by the code;
  the model reads a null name like a missing one and writes "agent".
- SystemPrompt.Identity: a stored null name gives "You are None, ..." in the code; the model reads
  it like a missing one and writes "Assistant". A null description is dropped in both.
- Gateway.CountAfter: a stored null message_count makes `None + 2` raise in the code, and the
  exception handler then skips the whole counter update; the model counts it as 0.
- RateLimit.SlidingWindowLimiter.IsAllowed: `time.time()` is a float; the model uses exact reals,
  so floating-point rounding of timestamps and of the window cutoff is not modelled. The same
  holds for Gateway.Screen, which passes the time on.
- Feishu.FeishuAdapter.DownloadImage: mimetypes.guess_type is a function parameter.
- Feishu: sending outbound messages and validating the configuration are not modelled.
- Lower-casing is modelled as ASCII lower-casing.
- ChannelSchema.ValidateCreate: pydantic type coercion and an explicit null on create are not
  modelled.
- ChannelSchema.ValidateUpdate: extra fields such as channel_type, which pydantic ignores, are
  not modelled.
- The task title appends "..." whenever the message is longer than 50 characters, even when the
  title came from content blocks; the model keeps this behaviour.
- Platform and time for the system prompt are parameters (`Host`, `Clock`).
