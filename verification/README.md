# Channel layer and scripts: a verified model

This project models the IM channel layer of the service (`backend/app/channels`) and four of its
text and tree transformers (`scripts`, `backend/scripts`), and proves what they keep.

The channel layer is a small concurrent system: coroutines interleave at `await` points, SDK threads
and worker threads share state with the main loop. Its protocols are transition systems, one action
per stretch between two suspension points, and their main results hold on every run:

- `ThreadCreation`: double-checked thread creation under locks from a registry that every finishing task edits.
- `FeishuBatching`: file batches that an SDK thread fills while timers flush them.
- `FeishuCards`: single-flight creation of the running card, and the sends that patch it.
- `DiscordThreads`: the channel-to-thread map, its reverse set and its file, written by racing workers.
- `InboundDedupe`: the ordered window of recent messages, over whole logs of receives and releases.
- `StreamText`, `StreamingChat`: merging of message chunks, throttled updates and the final message.

The sequential parts are the code's own loops and classes, proved against functions whose meaning is
then proved against independent references:

- `ChannelStore`: colon-joined keys against per-conversation histories.
- `DiscordSplit`, `DingTalkTables`, `FeishuFiles`: splitting, table rewriting, placeholder substitution.
- `Redaction`: recursive masking, for arbitrary patterns and text rewriting.
- `EnvFile`: reading and writing `.env` files, down to line breaks.
- `FileTree`, `Migration`: the move into the per-user layout over a tree of files.
- `UvExtras`: the indentation parser against lookups in printed document trees.
- `Text`, `Options`: Python's string operations and `None`.

Several claims hold only under a hypothesis. The hypothesis is then explicit. For these it is exact,
and the lemma is an if-and-only-if on every run or input:

- a raise or return in thread creation (`ThreadCreation.DropSplitsIff`), a preparation after the final answer
  (`FeishuCards.LatePreparationSpoilsIff`), a send that fails (`FeishuCards.SendFailsIff`), a main loop that stops
  (`FeishuBatching.NothingLostIff`), a failing write (`DiscordThreads.DiskIsMemoryIff`), a record that repeats an id
  (`DiscordThreads.RecordIndexesIff`);
- occupied paths in the migration (`Migration.MigrationRaisesIff`, `Migration.EndsAtReportedIff`,
  `Migration.DryRunForecastsIff`, `Migration.WholeDryRunForecastsIff`);
- delta streams (`StreamText.DeltasConcatenateIff`), failed downloads (`FeishuFiles.SubstitutionIsExactIff`), the
  text rewriting of the redactor (`Redaction.IdempotentIff`), names in a `.env` file (`EnvFile.ReadBackIff`),
  store keys (`ChannelStore.ParsedInvertsKeyIff`).

Other hypotheses are sufficient only, chiefly these: in `ThreadCreation` the messages that share the place of a
mapping must share its lock key and read it where they write it (every exception splits the conversation on some
run without failures: `ThreadCreation.TwoLockKeysSplit`, `ThreadCreation.MisplacedMappingSplits`), and no command
may overwrite it; channel and chat names in the store must hold no colon (with a counterexample); the clock of
`InboundDedupe` must not run backwards; the ids recorded in `DiscordThreads` must not be used twice (with a
counterexample for the reverse set); the memory step of `Migration` must not replace an older backup (with a
counterexample).

The lock key names no connection, while the mapping of a connected message is a row of its connection. So
several conversations can share a lock key, and thread creation then splits without any failure
(`ThreadCreation.SharedLockKeySplitsConversation`).

Three places where code and documentation disagree, with the code followed: `remove` in the channel
store says it removes keys starting with `"<channel>:<chat>"`, but it needs the colon after the chat;
the redactor says it masks the value after a secret flag, but it masks only strings; the migration's dry
run is said to log what would happen, but it misreports agents whose names differ only in case.

Check everything with `dafny verify dfyconfig.toml`.

## Model

| member | source | states |
|---|---|---|
| `ThreadCreation.RegistryBounded` | backend/app/channels/manager.py:1380-1394 | On every run (raising creates, cancellations and overwriting commands included) each entry of the lock registry was inserted by a task of that conversation that is still in flight; the registry is never larger than the set of tasks in flight and is empty when none is. |
| `ThreadCreation.StepKeepsInv` | backend/app/channels/manager.py:1366-1394 | Every step of every task keeps the agreement between locks and tasks: a task in the lock block is the holder or in the queue of its lock, holders and waiters are such tasks, registry entries have a live inserter, and every mapped or carried id names an existing thread. |
| `ThreadCreation.NoDeadlock` | backend/app/channels/manager.py:1366-1394 | While some task is in flight, some task has an enabled step of its own: no lock hand-over is lost, even when registry entries are dropped under waiters. |
| `ThreadCreation.NobodyOvertakes` | backend/app/channels/manager.py:1380-1382 | From every state that keeps the invariant, while a task queues for a lock, nobody who came later gets it: whoever holds it or is before the task then held it or was before the task already. |
| `ThreadCreation.PlacesIff` | backend/app/channels/manager.py:1271-1299 | By their fields: a message reads what another reads if and only if both use the repository or neither does, with the same chat and topic (none and empty alike) and the same connection, or the same channel; it reads what another writes under the same condition, where a connected message without an owner writes to the store. (Channel and chat of messages that may be kept in the store hold no colon.) |
| `ThreadCreation.LockKeysIff` | backend/app/channels/manager.py:1380-1380 | Two messages contend for one lock if and only if channel, chat and topic are the same. |
| `ThreadCreation.StoredIsLastWritten` | backend/app/channels/manager.py:1271-1299 | In every reachable state the thread stored for the fields of a message is the last one written for these fields, by a task that shares them or by a command, or else the initial one. |
| `ThreadCreation.ReturnedIdsAreOwn` | backend/app/channels/manager.py:1301-1394 | On every run, an id returned without a creation was, when the task looked, the last one written for the fields of its message (or initially stored for them); an id returned as created came from the task's own call to the Gateway or is its confirmed preferred thread, and has been written. |
| `ThreadCreation.OnlyMissesCreate` | backend/app/channels/manager.py:1366-1394 | On every run a task queues for a lock only if nothing was stored for its fields when it looked first, and enters the creation only if that was still so when it looked again under the lock. |
| `ThreadCreation.SingleCreation` | backend/app/channels/manager.py:1366-1394 | Starting unmapped, with tasks of any number of other conversations, those under the same lock key included: if tasks of the conversation raise at most in their first lookup, no command overwrites its mapping and no task drops its registry entry harmfully (while it is unmapped and another of its tasks is inside), at most one task ever enters the creation, at most one returns created, all returned ids are equal, and once all its tasks have returned exactly one of them returned created. |
| `ThreadCreation.SurvivesHarmlessDrops` | backend/app/channels/manager.py:1366-1394 | Raises inside the lock are allowed as well, as long as no drop is harmful: at most one task that entered the creation has not raised, at most one returns created, and all returned ids are equal. |
| `ThreadCreation.DropSplitsIff` | backend/app/channels/manager.py:1376-1394 | The exact condition, for every step after any run without a harmful drop: the step can be followed by a split (two tasks returning created, or different ids) if and only if it raises or returns out of the lock block of that lock key, and so drops the registry entry, while the conversation is unmapped and another of its tasks is inside. |
| `ThreadCreation.HarmfulDropSplits` | backend/app/channels/manager.py:1376-1394 | From every harmful drop in a state that kept the invariant and has not split, a continuation without a raise in the conversation in which a task left inside and a newcomer at a second lock both return created, with different threads. |
| `ThreadCreation.ReadsWhereItWrites` | backend/app/channels/manager.py:1272-1299 | A message's mapping is read where it is written unless there is a repository and the message is connected but unowned, and then it is not. |
| `ThreadCreation.RaisedCreateSplitsConversation` | backend/app/channels/manager.py:1366-1394 | A concrete run of three messages in which one create raises and the two other tasks both return created, with different ids. |
| `ThreadCreation.SharedLockKeySplitsConversation` | backend/app/channels/manager.py:1272-1394 | A concrete run with no raise, no conflict and no command: one chat seen through two connections, whose mappings are separate rows while the lock key names no connection; the normal return of the first connection's task drops the entry, and two tasks of the second both return created, with different ids. |
| `ThreadCreation.TwoLockKeysSplit` | backend/app/channels/manager.py:1272-1394 | For any two messages that share the place of their mapping but not the lock key, a run with no raise, conflict or command in which both return created, with different ids. |
| `ThreadCreation.MisplacedMappingSplits` | backend/app/channels/manager.py:1272-1394 | For any message whose mapping is not read where it is written, a run with no raise, conflict or command in which it comes twice, one after the other, and both tasks return created, with different ids. |
| `InboundDedupe.RecentInbound.IsDuplicate` | backend/app/channels/manager.py:1102-1129 | The window after a receive is the evicted window, plus the key when it was new; the answer says whether the evicted window held the key. |
| `InboundDedupe.RecentInbound.Evict` | backend/app/channels/manager.py:1108-1117 | Popping expired entries and then overflow from the front leaves exactly the live entries, and of those the newest 4096. |
| `InboundDedupe.RecentInbound.Release` | backend/app/channels/manager.py:1131-1141 | Forgets exactly the one key. |
| `InboundDedupe.EvictedIsSuffix` | backend/app/channels/manager.py:1108-1117 | In a window sorted by accept time, filtering out every expired entry and keeping the newest 4096 yields a suffix: front-only eviction is enough. |
| `InboundDedupe.ReplayTracks` | backend/app/channels/manager.py:1102-1141 | On every run with a monotone clock the window stays sorted, with one entry per key and at most 4097 entries, and every acceptance not released or repeated since is in it, or expired, or followed by 4096 other acceptances. |
| `InboundDedupe.DuplicateIsRecent` | backend/app/channels/manager.py:1119-1126 | A message is called duplicate only if its key was accepted at most 600 s earlier and neither accepted again nor released since. |
| `InboundDedupe.RepeatsAreApart` | backend/app/channels/manager.py:1102-1141 | Two acceptances of one key with no release of it in between are more than 600 s apart or have at least 4096 acceptances of other keys between them. |
| `StreamText.SnapshotsGrow` | backend/app/channels/manager.py:356-366 | The texts shown while chunks are merged form a chain of prefixes, never longer than what was received. |
| `StreamText.CumulativeShowsLast` | backend/app/channels/manager.py:356-366 | A stream of cumulative snapshots, repeats of the latest included, shows its last snapshot. |
| `StreamText.DeltasConcatenateIff` | backend/app/channels/manager.py:356-366 | A delta stream is shown as its concatenation if and only if no delta is a suffix of, or starts with, the non-empty text shown before it. |
| `StreamText.StreamBuffers.AccumulateText` | backend/app/channels/manager.py:385-419 | The in-place update of the buffer dict, the new current id and the text to display, for every payload shape. |
| `StreamText.BufferIsOwnTexts` | backend/app/channels/manager.py:385-419 | Every buffer is the merge of exactly the texts that belong to its id: those of events that name it, and of events without an id while it spoke last. |
| `StreamText.ShownIsOwnTexts` | backend/app/channels/manager.py:385-419 | After an event with text, the text to display is the merge of all texts of its message, which is the one it names or the one that spoke last; after any other event there is none. |
| `StreamText.InterleavingIrrelevant` | backend/app/channels/manager.py:385-419 | When every text-bearing event names its message (tool events and events without text need not), a buffer depends only on that id's events, however other messages interleave. |
| `StreamingChat.HandleStream` | backend/app/channels/manager.py:1585-1701 | For every event stream and every ending, error and cancellation included, the handler publishes the throttled updates and then exactly one final message, last. By the last values snapshot of the stream: its text when it delivers one, the listing of its attachments when it delivers only these, else the busy or failure notice, the text on display or the no-response notice, with its clarification flag and attachments; without a snapshot the text on display, or else the notices. |
| `StreamingChat.DisplayIsLastBrought` | backend/app/channels/manager.py:1606-1620 | On display is the last text an event brought: the merge of all texts of its message, or the question of a clarification snapshot; nothing before the first. |
| `StreamingChat.UpdatesAreDisplays` | backend/app/channels/manager.py:1622-1652 | Every update shows the text on display after some event, with a cursor, at the time of that event, and later updates belong to later events. |
| `StreamingChat.UpdatesAreSpaced` | backend/app/channels/manager.py:1623-1652 | Consecutive updates of every stream differ in text and are at least one second apart or at least 60 characters longer. |
| `StreamingChat.NothingElseWithheld` | backend/app/channels/manager.py:1623-1633 | The throttle withholds nothing more: after each event the newest text is the one shown, or less than a second has passed and fewer than 60 characters are new. |
| `StreamingChat.UpdatesBoundedByRise` | backend/app/channels/manager.py:1585-1652 | Every stream of T ms whose display text grows by R characters in all, however it shrinks in between, publishes at most 1 + T/1000 + R/60 updates. |
| `StreamingChat.FewUpdates` | backend/app/channels/manager.py:1585-1652 | So a stream whose display text never shrinks, ending at L characters, publishes at most 1 + T/1000 + L/60 updates. |
| `StreamingChat.ShrinkingBreaksBound` | backend/app/channels/manager.py:1585-1652 | The final length alone bounds nothing: a short text after a long one makes the display shrink, and a stream of one second ending at two characters publishes three updates. |
| `StreamingChat.SingleMessageFewUpdates` | backend/app/channels/manager.py:1585-1652 | The same bound for every stream whose text belongs to one message. |
| `FeishuBatching.Batcher.QueueFileInbound` | backend/app/channels/feishu.py:756-799 | Queueing extends the pending batch of the (chat, user) inside the window, or opens a new one and hands over the expired one. |
| `FeishuBatching.Batcher.Pop` | backend/app/channels/feishu.py:801-809 | Popping takes the pending batch only if it still carries the timer's anchor, and otherwise changes nothing. |
| `FeishuBatching.ReceivePlaces` | backend/app/channels/feishu.py:756-799 | A message joins the pending batch of its chat and user if and only if that was opened at most 750 ms earlier; otherwise it opens a new one and the old one moves into the hand of the queueing thread, and no other place changes. |
| `FeishuBatching.ExactlyOnePlace` | backend/app/channels/feishu.py:749-825 | In all interleavings of arrivals, scheduling, timer firings and loop stops, every queued message occurrence is in exactly one place, and every batch holds one (chat, user) with ids, text parts and files aligned in arrival order within 750 ms of its first message, its text being their non-empty texts joined by blank lines. |
| `FeishuBatching.AllDispatchedAtRest` | backend/app/channels/feishu.py:749-825 | While every scheduling finds the main loop running (it may stop in between) nothing is lost, every pending batch has its own timer outstanding, and when no timer is left every message has been dispatched in exactly one batch. |
| `FeishuBatching.NothingLostIff` | backend/app/channels/feishu.py:732-799 | On every run, however often the main loop stops, the lost batches are exactly as many as the dispatches of an expired batch that found the loop down. Once the SDK thread is idle and no timer is left, the batches still pending are exactly those whose flush was scheduled while the loop was down, and every message has been dispatched in exactly one batch if and only if there is no such batch and was no such dispatch. |
| `FeishuBatching.DispatchedForAReason` | backend/app/channels/feishu.py:756-825 | On every run a batch is dispatched only if the timer set for it, with its own anchor, has fired, or a later message of its chat and user came more than 750 ms after its first. |
| `FeishuBatching.NothingWhileDown` | backend/app/channels/feishu.py:732-754 | While the main loop is down, nothing is dispatched. |
| `FeishuBatching.StoppedLoopLoses` | backend/app/channels/feishu.py:732-747 | A concrete run in which the loop is down when an expired batch is to be dispatched, and the batch is dropped. |
| `FeishuBatching.StoppedLoopStrands` | backend/app/channels/feishu.py:749-754 | A concrete run in which the loop is down when a flush is scheduled: nothing is lost, but the message stays pending with no timer, and only another arrival could move it. |
| `FeishuFiles.ReceiveFile` | backend/app/channels/feishu.py:316-337 | The loop over the files of a message replaces, file by file, the first placeholder of its kind. |
| `FeishuFiles.BatchText` | backend/app/channels/feishu.py:764-792 | The text of a batch of single-file messages is the placeholders of its files in order, joined by blank lines. |
| `FeishuFiles.BatchBecomesPaths` | backend/app/channels/feishu.py:316-337 | For a batch built by the queue, if no returned path holds the placeholder of a later file, the batch text becomes exactly the paths in file order, joined by blank lines, for any mix of images and files. |
| `FeishuFiles.SubstitutionIsExactIff` | backend/app/channels/feishu.py:316-357 | With failing downloads (whose failure text holds the placeholder itself) the batch comes out as the returned texts in order if and only if no failed file is followed by another file of its kind. |
| `FeishuFiles.FailureText` | backend/app/channels/feishu.py:339-357 | The failure text of a download contains the placeholder of its own kind, at its end, and no other. |
| `FeishuCards.RunningCards.EnsureStarted` | backend/app/channels/feishu.py:507-520 | Starts a creation only when the source has neither a card nor a task, and otherwise returns what is there. |
| `FeishuCards.StepIdsOwn` | backend/app/channels/feishu.py:497-505 | After every step the cached card of a source is an existing card of that source. |
| `FeishuCards.StepLeavesNoStale` | backend/app/channels/feishu.py:522-525 | After every step a registered task is of its own source and in flight, or has its done-callback still to run: a callback never drops another creation, and no finished one stays for good. |
| `FeishuCards.StepSendsOwn` | backend/app/channels/feishu.py:545-560 | After every step, whatever route a send takes, the card it patches or answers with is an existing card of its own source. |
| `FeishuCards.StepKeepsInv` | backend/app/channels/feishu.py:497-592 | Every step of preparations, creations, callbacks and sends keeps: a creation in flight is the registered task of its source, no registered task is stale, and every card id in use belongs to its own source. |
| `FeishuCards.SingleFlight` | backend/app/channels/feishu.py:507-536 | In every interleaving, per source at most one card creation is in flight. |
| `FeishuCards.OneCardWithFinalText` | backend/app/channels/feishu.py:545-592 | If the source's creations return ids, its patches and replies succeed, and no preparation after the start of the final send finds neither card nor task, then non-final sends followed by one final send leave exactly one card, showing the final text, and no entry for the source in either map, whatever other sources do. |
| `FeishuCards.FinalSendEnds` | backend/app/channels/feishu.py:545-592 | On every run, whatever fails: a final send fails only if its own reply raised or a creation it waited for raised, so a failing patch or a creation without an id is made up for; a final send that has finished put its text on a card of its source, and the entry of the source was removed. |
| `FeishuCards.UpdateSendEnds` | backend/app/channels/feishu.py:545-592 | Any other send fails only if its own patch raised or a creation it waited for raised; once finished, its text was put on a card of its source or it waited for a creation without an id; it never replies by itself. |
| `FeishuCards.SendFailsIff` | backend/app/channels/feishu.py:545-592 | The exact condition, on every run: a send that is over has failed if and only if its reply raised, or its patch raised and it is not final, or a creation it waited for raised. |
| `FeishuCards.LatePreparationSpoilsIff` | backend/app/channels/feishu.py:507-520 | The exact condition, after any such run in which the final send has started: a further preparation can spoil the outcome if and only if it finds neither a card nor a task. |
| `FeishuCards.LatePreparationDoubles` | backend/app/channels/feishu.py:507-592 | After such a preparation, on every continuation at all in which its creation returns an id and the final send is through, the source has two cards. |
| `FeishuCards.LatePreparationLeavesCard` | backend/app/channels/feishu.py:839-847 | A concrete run that leaves a second card and an entry nothing removes. |
| `DiscordThreads.ThreadIndex.Record` | backend/app/channels/discord.py:133-148 | Recording points the channel at the id and replaces the old id by the new one in the reverse set. |
| `DiscordThreads.ThreadIndex.Load` | backend/app/channels/discord.py:115-131 | Loading a file replaces the map and rebuilds the reverse set as its values; a missing file changes nothing. |
| `DiscordThreads.RecordIndexesIff` | backend/app/channels/discord.py:133-148 | Recording keeps the reverse set equal to the map's values if and only if the channel is new or keeps its id, or its old id is non-empty exactly when no other channel has it. |
| `DiscordThreads.RunKeepsIndex` | backend/app/channels/discord.py:133-165 | On every run with fresh ids, failing writes included, the reverse set is exactly the map's values and no thread serves two channels. |
| `DiscordThreads.DiskIsMemoryIff` | backend/app/channels/discord.py:133-165 | The exact condition, in every reachable state of every interleaving of records with persisting workers, failing writes included, when no thread id is used twice: the file equals the memory map if and only if no record came after the snapshot that the last successful write put there (or since loading). |
| `DiscordThreads.QuiescentDiskIsMemory` | backend/app/channels/discord.py:133-165 | Whenever no persist is outstanding and the last one to end has written its copy, the file equals the memory map, whatever failed before. |
| `DiscordThreads.ReloadRestores` | backend/app/channels/discord.py:115-165 | At any moment of such a run from a loaded injective file, loading what is on disk restores the map if and only if no record came after the snapshot of the last successful write, and then the reverse set too. |
| `DiscordThreads.FailedWriteForgets` | backend/app/channels/discord.py:150-165 | One failed write can leave the file behind the memory with nothing outstanding. |
| `DiscordThreads.SharedThreadMisfiles` | backend/app/channels/discord.py:133-148 | Two channels with one thread id break the reverse set at the next record. |
| `DiscordSplit.SplitText` | backend/app/channels/discord.py:627-643 | The loop terminates and returns the chunks of the specification. |
| `DiscordSplit.ChunkLengths` | backend/app/channels/discord.py:627-643 | Every chunk of a non-empty text has length 1 to 2000, and a text within 2000 characters is one chunk, unchanged. |
| `DiscordSplit.ChunksReassemble` | backend/app/channels/discord.py:627-643 | The text is the chunks in order, with nothing but runs of newlines dropped between or after them. |
| `DiscordSplit.FirstChunkIs` | backend/app/channels/discord.py:627-643 | A text over 2000 characters is cut at its last line end within the limit that leaves a piece, or at the limit when there is none, and the rest goes on at its first character that is not a newline. |
| `DiscordSplit.NeighboursAreLong` | backend/app/channels/discord.py:627-643 | Two adjacent chunks that are both not last total at least 1999 characters. |
| `DiscordSplit.FewChunks` | backend/app/channels/discord.py:627-643 | n chunks need a text of at least floor((n-1)/2) * 1999 characters. |
| `DingTalkTables.ConvertMarkdownTable` | backend/app/channels/dingtalk.py:80-100 | The nested loops compute the block-by-block rendering of the text. |
| `DingTalkTables.SeparatorIff` | backend/app/channels/dingtalk.py:77-77 | A line is a separator if and only if it is padding, a pipe, a non-empty run of dashes, colons, pipes and blanks, a pipe and padding. |
| `DingTalkTables.CellsOfRow` | backend/app/channels/dingtalk.py:89-93 | A row with any padding, and a closing pipe or none, is read as its cells without their padding. |
| `DingTalkTables.TableConverts` | backend/app/channels/dingtalk.py:80-100 | The whole conversion, on characters: a header row, a dash row and body rows between lines without pipes become exactly one bullet for each column that has both a header and a cell, and a blank line after each row; the other lines stay. |
| `DingTalkTables.BlocksWellParsed` | backend/app/channels/dingtalk.py:84-99 | Every text is a sequence of blocks: lines that stand alone, and tables of a header, a separator and all pipe lines that follow. |
| `DingTalkTables.ParseIsUnique` | backend/app/channels/dingtalk.py:84-99 | Such a sequence of blocks is the only reading of its lines. |
| `DingTalkTables.DocumentConverts` | backend/app/channels/dingtalk.py:80-100 | Every document of such blocks is converted block by block: lines outside tables keep content and order, tables become their rows. |
| `DingTalkTables.PrintedRow` | backend/app/channels/dingtalk.py:89-96 | A printed body row becomes min(#headers, #cells) bullets pairing header and cell, and one blank line. |
| `DingTalkTables.CellsOfPrinted` | backend/app/channels/dingtalk.py:89-93 | The cells of a printed row of pipe-free trimmed cells, empty ones included, are read back. |
| `DingTalkTables.NoTableLeft` | backend/app/channels/dingtalk.py:80-100 | The rendering never holds a pipe-started line followed by a separator. |
| `DingTalkTables.ConversionIdempotent` | backend/app/channels/dingtalk.py:80-100 | Converting twice is converting once, for every text. |
| `Redaction.RedactData` | scripts/support_bundle.py:104-122 | The recursive loops compute the specified redaction of every nested value. |
| `Redaction.RedactSecretFlagList` | scripts/support_bundle.py:78-92 | The mask flag of the list loop masks exactly the strings that follow a secret flag which is not itself such a value. |
| `Redaction.IdempotentIff` | scripts/support_bundle.py:76-122 | Redaction is idempotent on every value if and only if the text rewriting is idempotent and never makes a secret flag of other text. |
| `Redaction.StructureKept` | scripts/support_bundle.py:76-122 | Keys and list lengths survive at every level that is not masked, tuples become lists, and exactly what is to be masked is: values under secret keys, header values, env scalars but references, and strings that an odd number of flags stands before; flags stay and other strings are rewritten. |
| `Redaction.AfterFlagIff` | scripts/support_bundle.py:78-92 | An item is a flag's value if and only if an odd number of flags stands directly before it. |
| `Redaction.MaskedDoesNotShow` | scripts/support_bundle.py:76-122 | Two values that differ only at masked positions (under secret keys, plain env scalars, header values, strings after a secret flag) redact to the same value. |
| `Redaction.NumberAfterFlagShows` | scripts/support_bundle.py:78-92 | A number given to a secret flag is not masked, although the docstring speaks of the value after a flag. |
| `Migration.FileSystem.Migrate` | backend/scripts/migrate_user_isolation.py:30-69 | The loop over a legacy directory, its cleanup and its exceptions, for threads, agents and skills: new tree, report and whether it raised. |
| `Migration.ThreadEnds` | backend/scripts/migrate_user_isolation.py:40-63 | With the paths written out: a thread goes to its owner, or to default when it has none; if the place is free it ends there whole and the report names that user and path, otherwise it ends in its conflict slot, or below that when it is occupied, and the report names the slot. |
| `Migration.AgentEnds` | backend/scripts/migrate_user_isolation.py:102-124 | The same for agents, under their lower-case name, where an earlier listed agent with that name takes the place as well. |
| `Migration.SkillEnds` | backend/scripts/migrate_user_isolation.py:180-206 | The same for skills that are not hidden. |
| `Migration.HistoryEnds` | backend/scripts/migrate_user_isolation.py:165-178 | The history of the skills goes to the user or to its conflict slot in the same way. |
| `Migration.HiddenStays` | backend/scripts/migrate_user_isolation.py:183-185 | Other hidden skill directories are not touched. |
| `Migration.ReportNamesDirectories` | backend/scripts/migrate_user_isolation.py:40-63 | The report names exactly the directories of the legacy root, in the order of the listing, for skills without the hidden ones. |
| `Migration.MemoryKeepsFiles` | backend/scripts/migrate_user_isolation.py:228-244 | Unless it replaces an older backup, the memory step, which moves the legacy file to the user or, when that has one, to the backup, keeps every file: each is found, unchanged, where it goes. |
| `Migration.MemoryEnds` | backend/scripts/migrate_user_isolation.py:228-244 | With the paths written out: the legacy memory goes to the user, or to the backup when the user has a memory already, which then stays as it is. |
| `FileTree.RelocatedLookup` | backend/scripts/migrate_user_isolation.py:52-60 | A move to a free path: the directory is found there whole and gone from its old path, and nothing apart from the two paths differs. |
| `Migration.MigrationRaisesIff` | backend/scripts/migrate_user_isolation.py:30-69 | A migration raises if and only if the legacy root is a file, or some eligible directory has nowhere to go: a file stands where it needs a directory, or its destination is taken and its conflict slot is a file or holds the name already. |
| `Migration.EveryDirectorySettles` | backend/scripts/migrate_user_isolation.py:18-212 | When every directory has somewhere to go, each is gone from the legacy root and ends whole at one path: per-user, with its conflict slot as it was, or in the slot when the per-user path was taken. |
| `Migration.EndsAtReportedIff` | backend/scripts/migrate_user_isolation.py:18-212 | The exact condition, over whole runs on any tree: a directory ends whole at the path the report names if and only if no directory before it makes the run raise, and it is not taken or its conflict slot is free (and no file blocks the parents of that path). |
| `Migration.MigrationRenamesFiles` | backend/scripts/migrate_user_isolation.py:18-212 | When every directory has somewhere to go, every file of the new tree is a file of the old one at its origin, unchanged: nothing is overwritten or made up. |
| `Migration.EveryFileKept` | backend/scripts/migrate_user_isolation.py:18-212 | Every file of the old tree is found, unchanged, where it goes. |
| `Migration.OriginInvertsGoes` | backend/scripts/migrate_user_isolation.py:18-212 | No two files go to the same path. |
| `Migration.SecondRunIsNoOp` | backend/scripts/migrate_user_isolation.py:18-212 | A second run of one of the three migrations, dry or not, changes nothing and reports nothing. |
| `Migration.SecondWholeRunIsNoOp` | backend/scripts/migrate_user_isolation.py:291-294 | The script as a whole is a no-op when run again after a run in which no step raised, memory step included: for any owners, user and listings, dry or not, it raises nothing, changes nothing and reports nothing. |
| `Migration.WholeDryRunKeepsTree` | backend/scripts/migrate_user_isolation.py:291-294 | A dry run of the whole script raises if and only if a legacy root is a file, and leaves the tree as it is after each of its four steps. |
| `Migration.WholeDryRunForecastsIff` | backend/scripts/migrate_user_isolation.py:291-294 | The exact condition for the forecast of the whole script, where no step raises: its dry run returns the three reports of the run if and only if no two legacy agents go to one new destination, although each step of the run starts from what the one before left. |
| `Migration.DryRunForecastsIff` | backend/scripts/migrate_user_isolation.py:72-130 | A dry run leaves the tree alone, and the run returns the report it forecasts if and only if every directory has somewhere to go and no two eligible directories go to one new destination. |
| `Migration.OnlyAgentsClash` | backend/scripts/migrate_user_isolation.py:18-69 | Threads and skills never clash, so for them the dry run always forecasts the report. |
| `Migration.CaseClashMisreported` | backend/packages/harness/deerflow/config/paths.py:218-220 | The claim is false for agents, whose destination is lower-cased: with agents Foo and foo the dry run reports two moves, the run a move and a conflict. |
| `Migration.OccupiedSlotNests` | backend/scripts/migrate_user_isolation.py:109-115 | With an occupied conflict slot the directory ends one level below the reported path after the whole run, and what was in the slot stays. |
| `Migration.WholeRunKeepsFiles` | backend/scripts/migrate_user_isolation.py:291-294 | The script as a whole (threads, memory, agents, skills), even where one step lands in the conflict slots of the next: if no step raises and the memory step replaces no older backup, every file is found unchanged where the steps take it, and no two files end at one path. |
| `Migration.BackupReplaced` | backend/scripts/migrate_user_isolation.py:234-239 | The hypothesis is needed: when both the per-user memory and an older backup exist, the rename replaces the backup. |
| `UvExtras.SectionValue` | scripts/detect_uv_extras.py:105-142 | The line loop with its two state variables computes the scan over rows. |
| `UvExtras.NestedSectionValue` | scripts/detect_uv_extras.py:145-220 | The loop with four state variables computes the nested scan; a path that is not two names has no value. |
| `UvExtras.StripCommentLoop` | scripts/detect_uv_extras.py:79-96 | The quote-tracking loop returns the text up to a `#` outside quotes, without trailing white space. |
| `UvExtras.UnquoteExact` | scripts/detect_uv_extras.py:99-102 | Two equal quotes at both ends go, whatever is between them, and nothing else does. |
| `UvExtras.CommentCut` | scripts/detect_uv_extras.py:79-96 | A comment goes with the blanks before it, wherever no quote is open before its `#`. |
| `UvExtras.SectionNameExact` | scripts/detect_uv_extras.py:74-74 | A line is a section if and only if it is a name, blanks, a colon and blanks. |
| `UvExtras.SubsectionNameExact` | scripts/detect_uv_extras.py:75-75 | The same after at least one blank. |
| `UvExtras.KeyValueExact` | scripts/detect_uv_extras.py:76-76 | A line is an entry if and only if it is at least one blank, a name, blanks, a colon and a value with any blanks around it. |
| `UvExtras.RowOfLine` | scripts/detect_uv_extras.py:74-102 | A printed line is seen as what it is: an entry or section with its indent, key and value, with or without a comment; an item without a key; or nothing, when it is blank or only a comment. |
| `UvExtras.RowOfDeeper` | scripts/detect_uv_extras.py:74-102 | Any line at all that is indented further is seen as nothing, or as a row with that larger indent. |
| `UvExtras.SectionValueIsLookup` | scripts/detect_uv_extras.py:105-142 | On every printed document, each mapping with an indent step of its own, with blank, comment, item and arbitrary deeper lines, `section.key` is the first direct child of that key over all sections of that name; deeper nesting never answers. |
| `UvExtras.DedentEndsSection` | scripts/detect_uv_extras.py:128-136 | A line indented less than the entries of a section, but not at the margin, ends it: the lines after it answer only from the next section of that name on. |
| `UvExtras.NestedValueIsLookup` | scripts/detect_uv_extras.py:145-220 | On the same documents `parent.child.key` is the same lookup one level down. |
| `UvExtras.StrayJoinsChild` | scripts/detect_uv_extras.py:208-218 | An entry right after the head of the child section counts for it even when it is indented less than the head, and the section goes on after it. |
| `EnvFile.ReadEnvFile` | scripts/wizard/writer.py:32-44 | Reading folds the settings of the lines, later lines winning; a missing file has none. |
| `EnvFile.WriteEnvFile` | scripts/wizard/writer.py:47-73 | The two loops return the old lines with the pairs put in place and the missing ones appended. |
| `EnvFile.ReadBackIff` | scripts/wizard/writer.py:39-43 | For keys without line breaks, a written setting is read back with its value stripped if and only if the key is trimmed, has no equals sign and does not start with `#`. |
| `EnvFile.SettingExact` | scripts/wizard/writer.py:37-43 | A line is a setting if and only if it is a key, an equals sign and a value with any blanks around them, the key being trimmed, without equals sign and not starting with `#`. |
| `EnvFile.ReadAfterWrite` | scripts/wizard/writer.py:32-73 | Reading a written file gives the old settings overridden by the pairs with stripped values, however often a key occurs. |
| `EnvFile.UntouchedWritten` | scripts/wizard/writer.py:59-68 | Every line whose key is not in the pairs, comments and blanks included, survives verbatim and in order. |
| `EnvFile.WriteIdempotent` | scripts/wizard/writer.py:47-73 | Writing the same pairs twice is writing once. |
| `EnvFile.EqualsSignCutsKey` | scripts/wizard/writer.py:41-43 | A key with an equals sign is read back cut at the sign, with the rest in the value. |
| `ChannelStore.Store.SetThreadId` | backend/app/channels/store.py:87-107 | Exactly one entry is put, keeping `created_at` when there was one. |
| `ChannelStore.Store.Remove` | backend/app/channels/store.py:109-137 | With a topic exactly that key goes, without one every key under the prefix; the other keys keep their order, and the result says whether anything changed. |
| `ChannelStore.Store.ListEntries` | backend/app/channels/store.py:139-153 | The items of all keys in insertion order, filtered by channel. |
| `ChannelStore.ListingInOrder` | backend/app/channels/store.py:139-153 | Unfiltered, one item for each key, in insertion order. |
| `ChannelStore.ListingOfChannel` | backend/app/channels/store.py:139-153 | With a channel asked for, the items of that channel in the same order; an empty name asks for all. |
| `ChannelStore.ParsedInvertsKeyIff` | backend/app/channels/store.py:75-79 | Splitting a key inverts building it if and only if channel and chat have no colon, whatever colons the topic holds. |
| `ChannelStore.KeysInjective` | backend/app/channels/store.py:75-79 | Keys are injective on such conversations. |
| `ChannelStore.ColonInChatCollides` | backend/app/channels/store.py:75-79 | A colon in a chat name makes two conversations share a key. |
| `ChannelStore.UnderPrefixIff` | backend/app/channels/store.py:126-137 | The keys removed without a topic are exactly those of that channel and chat. |
| `ChannelStore.LookupIsHistory` | backend/app/channels/store.py:82-137 | After any run of sets and removals each conversation's lookup is the last id set since its own last removal, with the creation time of the first of those sets; other conversations do not interfere. |
| `ChannelStore.ListingIsHistory` | backend/app/channels/store.py:139-153 | After any run the listing names exactly the live conversations of the channel asked for, each with its own entry. |

## Left out

- Remote calls (LangGraph, Lark, Discord, DingTalk) are outcomes chosen by the run: success, failure, or an id. Retries inside them are not modelled.
- Logging, metadata building, message-bus fan-out and command dispatch. `/new` and `/goal` appear as one action that overwrites a mapping.
- Liveness and fairness of the schedulers: only safety and facts about states at rest are proved.
- Times are integers (milliseconds): rounding of floating-point clocks is not modelled.
- ThreadCreation: thread ids are non-empty strings; `""` stands for an absent connection or owner, which the code only tests for truth. A cancelled task is one whose awaited call raises.
- InboundDedupe: how a key is extracted from a message (`manager.py` 1075-1100) is a parameter.
- StreamingChat.HandleStream: what a snapshot yields (response text, clarification, delivered artifacts) is a field of the event; publishing and artifact delivery are assumed not to raise.
- StreamText: extraction of text from message content lists is a parameter of the payload.
- FeishuBatching: the batched message is a value, so the aliasing between the batch and a message already handed out is not captured; the connect-code and command paths that bypass batching are left out.
- FeishuFiles: downloads are outcomes; the thread reply and reaction calls are left out.
- FeishuCards: thread-mapping and clarification bookkeeping after a send, and messages without a source, are left out.
- DiscordThreads: the file is an abstract map; a partially written file and JSON syntax are not modelled. Records begin after loading has finished.
- DingTalkTables: the code-block and inline-code rewrites around the table conversion, which are regular-expression substitutions.
- Redaction: `redact_text` and the key and flag patterns are arbitrary functions; mapping keys are strings, and a mapping is its list of items.
- Migration.FileSystem.Migrate: the sorted listing is an argument; symbolic links, permissions and moves across devices are not modelled, names are single path components, and `str.lower` is ASCII. A directory called `memory.json` is left out.
- EnvFile: text decoding; the translation of newlines on reading does not change the lines.
- UvExtras: names are ASCII (the patterns also admit Unicode word characters); the mapping from values to extras, the environment variables and the command line are left out, as is a plain scalar with an open quote before a comment.
- FeishuCards.RunningCards.BeginSend: its contract, like those of `Cache`, `Finalize` and `EndSend`, only fixes one atomic stretch; what the stretches achieve together is stated by the lemmas over runs.
- ChannelStore: loading, saving and the store's lock; each method runs whole.
