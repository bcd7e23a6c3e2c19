# tgfilebot upload, mirroring and lookup core in Dafny

tgfilebot is a Telegram bot that stores the photos, videos and documents
users send it. Each stored item is one row of an sqlite `files` table,
found again by a random eight-character key. Messages a user sends in
quick succession are debounced into one batch row. A stored file or batch
is mirrored to a channel. Sending the key back replays the stored files,
and `/list`, `/update` and `/delete` manage a user's own rows.

This project models that core of `bot.py` and proves properties about it:

- `Media` (media.dfy): the incoming message, `_extract_file_info`, and the
  original name of a single file.
- `Keys` (keys.dfy): `generate_key` and the key format check of `handle_key`.
- `Store` (store.dfy): the `files` table, as a class over a map from row id
  to row, with its UNIQUE key and every query the bot runs.
- `Debounce` (debounce.dfy): the per-user buffers in `chat_data` and the
  job queue of `handle_any_file`, as a class.
- `Assembly` (assembly.dfy): the choice between the single-file path and
  the batch path, and the batch note and payload loop of
  `process_file_batch`.
- `Channel` (channel.dfy): the calls `_send_batch_to_channel` makes and
  the replay calls of `handle_key`.
- `Commands` (commands.dfy): `update_note`, `delete_key` and `list_files`.
- `Pipeline` (pipeline.dfy): `process_file_batch`, `_handle_single_file`,
  `_save_batch_to_db` and `handle_key` end to end.

I/O is replaced by parameters:

- `picks` is the eight indices `random.choices` draws.
- `diskOk` says whether sqlite accepts an INSERT.
- `replies` answers the Telegram transport calls in order. Entry k is the
  reply to the k-th call; `None`, or no entry at all, means that call raised.

Python's `None` caption and media-group id are the empty string. Every
place that tests them only asks whether they are truthy.

Some behaviours of the code that are easy to miss, all modelled as written:

- **Default note.** The default batch note counts every buffered message,
  including those without a file (bot.py:122).
- **Later documents.** In a mirrored batch, the documents after the first
  physical message carry the key alone (bot.py:181, 196). The replay of
  `handle_key` sends them with an empty caption (bot.py:315), and the model
  keeps both plans side by side.
- **Key collisions.** A key collision is not retried: the INSERT fails and
  the user is told the save failed (bot.py:138-141, 229-234).
- **Channel reference after a failure.** The channel reference is recorded
  as soon as the first call succeeds (bot.py:193, 197-198), even when a
  later call fails.

One defect of the code is corrected rather than reproduced (see
"## Findings"). `_handle_single_file` as written fails to save a video or
document sent without a file name. The pipeline stores it under the name
`<type>_<user_id>` instead. `Pipeline.SingleRowAsWritten` keeps the code
as written beside it, and `Pipeline.SingleSaveAsWrittenAgrees` proves the
two agree whenever the code as written saves.

## Model

| member | source | states |
|---|---|---|
| Media.Extract | bot.py:153-157 | a message yields a file exactly when it has a photo, video or document |
| Media.ExtractPriority | bot.py:153-157 | photo wins over video, and video over document; each kind is taken exactly when every earlier one is absent, and a video or document gives its own file id |
| Media.ExtractLargestPhoto | bot.py:154 | for a photo, the id of the last (largest) size is taken |
| Media.DecimalRoundTrip | bot.py:122 | the decimal rendering of a count or user id reads back as that number |
| Media.OriginalNameAsWritten | bot.py:220 | the name as written is missing exactly when the video or document exists but has no file name |
| Media.NamelessDocumentHasNoName | bot.py:220 | a nameless document is extracted, yet as written it gets no original name at all |
| Media.FallbackName | bot.py:220 | the fallback name is the type, an underscore and the sender's id in decimal, and both read back from it |
| Media.OriginalName | bot.py:220 | a photo, or a file without a name, gets `<type>_<user_id>`; otherwise the file's own name; agrees with the as-written name wherever that exists |
| Keys.Alphabet | bot.py:72 | the key alphabet has 62 characters |
| Keys.AlphabetMembership | bot.py:280 | a character is in `ascii_letters + digits` exactly when it is a letter or digit |
| Keys.ValidKeyIsAlphabetTest | bot.py:280 | the format test holds exactly for eight characters, each in `ascii_letters + digits` |
| Keys.IsSpace | bot.py:279 | the characters `str.strip()` removes: those for which `str.isspace()` holds |
| Keys.GenerateKey | bot.py:71-73 | a generated key is 8 alphabet characters, the i-th chosen by the i-th draw |
| Keys.EveryValidKeyIsGenerated | bot.py:71-73 | every string passing the format check is some draw of the generator |
| Keys.StripLeft | bot.py:279 | what is removed at the front is whitespace, and what remains starts with a non-space |
| Keys.StripRight | bot.py:279 | what is removed at the back is whitespace, and what remains ends with a non-space |
| Keys.Strip | bot.py:279 | the result is a contiguous middle part of the text with no whitespace at either end |
| Keys.CheckKey | bot.py:279-282 | a text is accepted exactly when its stripped form is 8 letters or digits, and then the key is that stripped form |
| Keys.StripLeftOfSpaces | bot.py:279 | leading whitespace before a non-space start is removed exactly |
| Keys.StripRightOfSpaces | bot.py:279 | trailing whitespace after a non-space end is removed exactly |
| Keys.GeneratedKeyAccepted | bot.py:279-282 | a generated key sent back with any surrounding whitespace is accepted as itself |
| Store.UniqueKeys | bot.py:55 | no two rows hold the same key, as the UNIQUE column demands |
| Store.FindKey | bot.py:286-287 | a found row has the key; no row is found only when no row holds it |
| Store.OwnerIds | bot.py:332 | exactly the owner's row ids, in strictly decreasing id order |
| Store.OwnerIdsFrame | bot.py:332 | the owner's list depends only on which rows exist and whose they are |
| Store.OwnerIdsAfterInsert | bot.py:332 | a row inserted under the new highest id comes first in its owner's list; other owners' lists are unchanged |
| Store.WithChannelRef | bot.py:206 | only the row with that id gets the reference; no such row, nothing changes |
| Store.WithChannelRefKeepsKeys | bot.py:206 | setting a channel reference keeps keys unique |
| Store.OwnershipByKey | bot.py:360 | a row with this key and this owner exists exactly when the row found by key belongs to the owner |
| Store.FileStore.constructor | bot.py:44-60 | a fresh table is empty and ids start at 1 |
| Store.FileStore.Insert | bot.py:164-166 | the INSERT succeeds exactly when the database works and the key is unused; it takes the next id and adds the row with no channel reference; on failure nothing changes |
| Store.FileStore.SetChannelMsgId | bot.py:201-211 | only that row's channel reference changes |
| Store.FileStore.FindByKey | bot.py:286-287 | no row is found exactly when no row holds the key |
| Store.FileStore.ListByOwner | bot.py:332-333 | the owner's (key, note) pairs, newest id first |
| Store.FileStore.UpdateNote | bot.py:360-366 | the note changes only on the row holding the key AND owned by the user; it hits exactly when such a row exists; otherwise nothing changes |
| Store.FileStore.Delete | bot.py:393-399 | only the row holding the key AND owned by the user goes, and its channel reference is returned; otherwise nothing changes |
| Debounce.Cancel | bot.py:258-259 | removing a user's jobs keeps exactly the jobs of other users |
| Debounce.CancelKeepsOnePerOwner | bot.py:258-262 | with at most one job per user before cancelling, that still holds after |
| Debounce.CancelJobs | bot.py:258-259 | the cancelling loop leaves the same queue as `Cancel` |
| Debounce.SubmitKeepsDebounced | bot.py:251-262 | submitting keeps one job and one non-empty buffer per user, living and dying together |
| Debounce.FireKeepsDebounced | bot.py:110 | a job popping its user's buffer keeps that invariant |
| Debounce.Aggregator.constructor | bot.py:251-262 | no buffers and no jobs at start |
| Debounce.Aggregator.Submit | bot.py:251-262 | the message is appended to its sender's buffer; the sender's old jobs go and one new job is scheduled |
| Debounce.Aggregator.Fire | bot.py:105-110 | a removed job never runs; a scheduled one pops its owner's whole buffer |
| Debounce.CancelOwnJob | bot.py:258-259 | cancelling the owner's only job empties the queue |
| Debounce.BurstScenario | bot.py:251-262 | three quick messages come out as one batch, in order; the earlier jobs never run |
| Debounce.QuietGapScenario | bot.py:251-262 | a message arriving after a batch fired starts a new batch |
| Assembly.FirstCaption | bot.py:126-128 | a found caption is non-empty |
| Assembly.FirstCaptionNone | bot.py:126-128 | no caption is found exactly when every caption is empty |
| Assembly.FirstCaptionIsFirst | bot.py:126-128 | the note is the caption of the first message with a non-empty one |
| Assembly.BatchNote | bot.py:122-128 | a batch note is never empty; with no caption in the buffer it is the default note counting every message |
| Assembly.BatchNoteIsFirstCaption | bot.py:126-128 | the batch note is the caption of the first captioned message |
| Assembly.Files | bot.py:129-131 | the payload has at most as many files as the buffer has messages |
| Assembly.FilesAppend | bot.py:125-131 | files keep buffer order across concatenation |
| Assembly.FilesEmpty | bot.py:133-135 | the payload is empty exactly when no message has a file |
| Assembly.FilesFromMessages | bot.py:129-131 | every payload file comes from some message in the buffer |
| Assembly.FilesAllKept | bot.py:129-131 | when every message has a file, the i-th file is the i-th message's |
| Assembly.AssembleBatch | bot.py:121-131 | the loop yields the batch note and the ordered payload |
| Assembly.SinglePath | bot.py:115-116 | the single path is taken exactly for one message outside any media group |
| Assembly.SingleDraft | bot.py:213-223 | a single file is stored under its sender with its original name; its note is the caption, else that name |
| Assembly.Assemble | bot.py:110-135 | a batch is never stored with an empty payload |
| Assembly.AssembleSomeIffFile | bot.py:112-135 | a buffer yields a record exactly when some message has a file |
| Assembly.AssembleSingle | bot.py:115-118 | one message outside a media group takes the single path with the sender's id and note |
| Assembly.AssembleBatchPath | bot.py:115-138 | two or more messages, or one in a media group, are one batch under the job's user, named "文件合集" |
| Assembly.ThreePhotoBurst | bot.py:121-131 | three photos, the last captioned "final", make one batch of three noted "final" |
| Assembly.NamedDocumentAlone | bot.py:213-223 | a lone uncaptioned "report.pdf" is noted by its name |
| Assembly.CaptionWithoutFileNamesBatch | bot.py:126-133 | a caption on a message without a file still names the batch |
| Channel.GroupItems | bot.py:177 | every group item is a photo or video |
| Channel.OtherFiles | bot.py:178 | no other file is a photo or video |
| Channel.PartitionLength | bot.py:177-178 | the two comprehensions together keep every file |
| Channel.PartitionIsPermutation | bot.py:177-178 | the two comprehensions are a permutation of the payload |
| Channel.GroupPosts | bot.py:184-190 | one post per photo or video, the full caption on the first only |
| Channel.DocumentSends | bot.py:195-199 | one single send per document, in payload order |
| Channel.Plan | bot.py:183-199 | the calls of a batch: the media group of its photos and videos, if any, then each document alone |
| Channel.EmissionPlan | bot.py:180-199 | the mirroring plan gives later documents the key alone |
| Channel.ReplayPlan | bot.py:298-317 | the replay plan gives later documents no caption |
| Channel.PayloadPlan | bot.py:239-242 | a single file goes out alone with the full caption, when mirrored and when replayed (bot.py:319-321); a batch follows its plan |
| Channel.PhysicalOfPlan | bot.py:183-199 | the physical messages are the group's posts, then the documents' posts |
| Channel.PlanPhysical | bot.py:180-199 | the physical messages are exactly the expected ones: photos and videos, then documents; the full caption only on the first |
| Channel.EmissionCaptionOnce | bot.py:180-199 | exactly one mirrored message has the key and note, and it is the first |
| Channel.EmissionSendsEveryFile | bot.py:177-199 | every payload file is mirrored exactly as often as it occurs |
| Channel.PlanShape | bot.py:183-199 | the media group, if any, is the first call; every later call sends one document, in order |
| Channel.ReplayVersusEmission | bot.py:298-317 | replay and mirroring send the same files in the same order; they differ only where mirroring gives a later document the key alone and replay gives it nothing |
| Channel.BuildMediaGroup | bot.py:184-190 | the album loop captions only its first item |
| Channel.Delivered | bot.py:192-199 | the count of calls before the first failure |
| Channel.DeliveredAt | bot.py:192-199 | delivery stops exactly at the first failing call |
| Channel.SendDocuments | bot.py:195-199 | the document loop makes the calls of the plan up to the first failure, and records the first successful call when nothing was sent before |
| Channel.SendBatchToChannel | bot.py:176-199 | the calls made are the emission plan up to the first failure; success means all were made; the id of the first call's message, if it succeeded, is recorded |
| Channel.ReplayBatch | bot.py:298-317 | the replay calls are the replay plan |
| Commands.Join | bot.py:355 | joining one word gives that word |
| Commands.JoinSplit | bot.py:355 | joining the pieces of a split gives the text back |
| Commands.SplitJoin | bot.py:355 | splitting the joined arguments gives them back |
| Commands.EditFor | bot.py:368-372 | a caption edit is asked exactly for a row with a non-zero channel reference that is not a batch |
| Commands.DeleteFor | bot.py:401-403 | a channel delete is asked exactly when the row has a non-zero reference |
| Commands.UpdateCommand | bot.py:348-380 | fewer than two arguments is a format error; otherwise only the user's own row with that key gets the joined note, and the caption edit follows `EditFor` |
| Commands.DeleteCommand | bot.py:382-411 | anything but one argument is a format error; otherwise only the user's own row goes, and its channel message is to be deleted |
| Commands.ListCommand | bot.py:326-346 | the list holds all of the user's rows and only theirs, newest first |
| Pipeline.DraftRow | bot.py:164-166 | the row holds the draft's owner, payload, name and note, and no channel reference |
| Pipeline.SaveEffect | bot.py:138-148 | a failed INSERT changes nothing and sends nothing; otherwise the row is added under the next id and the plan's calls are made up to the first failure |
| Pipeline.SingleRowAsWritten | bot.py:220-234 | as written, the single INSERT fails when the database refuses it, the key is taken, or the video or document has no file name |
| Pipeline.SingleSaveAsWrittenAgrees | bot.py:220-234 | the corrected single save stores the same row as the code as written whenever that code saves; they differ only for a nameless video or document |
| Pipeline.HandleSingleFile | bot.py:213-247 | no file, nothing happens; a failed INSERT sends nothing; otherwise one send with the full caption, whose message is recorded |
| Pipeline.SaveBatch | bot.py:159-174 | the batch row is stored under the job's user as "文件合集", or nothing changes |
| Pipeline.ProcessFileBatch | bot.py:105-150 | an empty buffer is ignored; no file, nothing is stored; otherwise the draft is saved and mirrored; nothing is sent when the save fails |
| Pipeline.RunJob | bot.py:105-150 | a removed job does nothing; with each handler and job run as one step, a scheduled job never finds an empty buffer, and it processes that buffer |
| Pipeline.Lookup | bot.py:278-324 | a bad format is reported exactly when the stripped text is not a key, and not found exactly when no row holds it; otherwise the stored payload is replayed |
| Pipeline.HandleKey | bot.py:278-324 | the handler answers as `Lookup` says |
| Pipeline.StoredRowFound | bot.py:286-287 | after a save, the key finds the new row holding the draft; its reference is the first call's message, if that call succeeded |
| Pipeline.SavedThenLookedUp | bot.py:279-317 | a saved key sent back, even with whitespace around it, replays what was stored |
| Pipeline.SavedListedFirst | bot.py:332 | a saved row heads its owner's list; other owners' lists are unchanged |
| Pipeline.BatchDeleteTargetsFirstCall | bot.py:399-403 | deleting a mirrored batch asks to delete only the first call's channel message |

## Left out

- The Telegram transport is left out. Reply texts, HTML markup, `parse_mode` and chat ids become the `Outcome`, `KeyReply`, `UpdateReply` and `DeleteReply` values and the `Caption` shapes.
- sqlite plumbing (connections, commits, `lastrowid`) is left out. The table is a map; a failing INSERT is the `diskOk` parameter.
- Store.FileStore.SetChannelMsgId: a failing UPDATE, which bot.py:208-209 logs and swallows, is not modelled; the reference is always recorded.
- Commands.UpdateCommand: a database error during the update (bot.py:376-378) is not modelled, and neither is a failed caption edit, which is logged and ignored. The command returns the edit it asks for.
- Commands.DeleteCommand: a database error (bot.py:407-409) and a failed channel delete (logged and ignored) are not modelled.
- Commands.ListCommand: a database error (bot.py:342-343) is not modelled. Numbering the entries for display is left out.
- Pipeline.HandleKey: the replay returns its calls and does not model their failure (bot.py:322-324). A database error there is uncaught in the source and not modelled.
- `json.dumps` and `json.loads` of a batch payload are an identity in the model: `Batch` holds the list itself.
- The 5-second timer of the job queue is abstract. A job runs when `Fire` or `RunJob` is called.
- Each handler and each job callback is one atomic step. Interleavings at the awaited Telegram calls are not modelled (bot.py:192-198, 240-243). For example, a `/delete` that runs while a batch is still being mirrored finds `channel_msg_id` still NULL and asks for no channel delete, and the channel message is left behind. A job that still runs after `schedule_removal()` (bot.py:259) is not modelled either, and that is the case the empty-buffer guard of bot.py:111-113 handles.
- Pipeline.RunJob: "a scheduled job never finds an empty buffer" holds only under the one-step assumption above. The source guards the empty case (bot.py:111-113), and the model never reaches it.
- Pipeline.BatchDeleteTargetsFirstCall and Pipeline.StoredRowFound: they describe the row once its save and mirroring step is complete. No other handler runs in between.
- `chat_data` is per chat, while the job name (bot.py:253) holds only the user id. The model keeps one buffer map keyed by user, so it assumes that each user uploads from one chat at a time. A user who uploads from two chats at once has the first chat's job cancelled, and that chat's buffered messages stay behind: they are merged into the next batch the user sends from that chat, if any (bot.py:254-255, 110), so a lone later file from that chat takes the batch path. The model does not capture this.
- Assembly.SingleDraft: uses the corrected `Media.OriginalName`. For a video or document without a file name, the code as written passes None to the NOT NULL `original_name` column (bot.py:56, 220), the INSERT fails (bot.py:233-234), and nothing is stored or sent. The draft instead carries `<type>_<user_id>`. `Pipeline.SingleRowAsWritten` models the code as written.
- Assembly.AssembleSingle: its note for a nameless video or document is the corrected fallback name, as for `Assembly.SingleDraft`.
- Pipeline.HandleSingleFile: stores a nameless video or document under `<type>_<user_id>`, where the code as written reports a failed save (bot.py:233-234). `Pipeline.SingleSaveAsWrittenAgrees` proves that this is the only difference.
- Pipeline.ProcessFileBatch: inherits the corrected single-file save of `Pipeline.HandleSingleFile`.
- Pipeline.RunJob: inherits the corrected single-file save of `Pipeline.HandleSingleFile`.
- Keys.GenerateKey: the randomness is the `picks` parameter, so the model says nothing about the distribution of keys.
- Commands.SplitOnSpace splits on single spaces. The library's own argument splitting (`context.args`, the command text split on any whitespace) is not part of this model; `Commands.SplitJoin` assumes words without whitespace, as the library's split of the command text yields them.
- The handler filters (bot.py:431-432) are not modelled. Every message given to `Submit` is a media message, and every text given to `HandleKey` is a non-command text.
- `start`, `main`, `init_db` beyond the table layout, `check_channel_connection`, `set_bot_commands`, `post_init` and the configuration and logging code are outside this model.
- Channel.SendBatchToChannel: a media group's reply is a list of messages. The model records only the first message's id, which is all bot.py:193 reads.

## Findings

| source | as written | input that shows it | evidently intended | confidence | as-written member | corrected member |
|---|---|---|---|---|---|---|
| bot.py:220 | `getattr(video_or_document, 'file_name', fallback)` yields None when the attribute exists but is None. The INSERT into the NOT NULL `original_name` column (bot.py:56) then fails, and the user is told the save failed. | a lone document or video sent without a file name (`Media.NamelessDocumentHasNoName`) | fall back to `<type>_<user_id>` whenever there is no file name | medium, not executed | Media.OriginalNameAsWritten | Media.OriginalName |
