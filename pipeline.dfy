/** What happens when a debounce job fires (`process_file_batch` and
    `_handle_single_file`) and when a user sends a key back (`handle_key`).
    The random key, the database's failure and the transport's replies are
    parameters: `picks` are the indices `random.choices` draws, `diskOk` says
    whether sqlite accepts the INSERT, `replies` answers the transport calls
    in order. */
module Pipeline {

  import opened Media
  import opened Keys
  import opened Store
  import opened Assembly
  import opened Channel
  import opened Commands
  import opened Debounce

  /** How a fired job ends, as the reply the user gets tells it. */
  datatype Outcome =
    | Ignored                                        // the buffer was already empty
    | NoFiles                                        // no message carried a file
    | SaveFailed                                     // the INSERT failed: nothing is sent
    | Saved(key: string, note: string, mirrored: bool)  // stored; mirrored: every channel call succeeded

  /** The row a draft is inserted as. */
  function DraftRow(d: Draft, key: string): (row: Row)
    ensures row.userId == d.userId && row.payload == d.payload && row.key == key
    ensures row.originalName == d.originalName && row.note == d.note && row.channelMsgId == None
  {
    Row(d.userId, d.payload, key, d.originalName, d.note, None)
  }

  /** The table after a draft is stored under `id` and mirrored: the new row,
      carrying the id of the first channel message when one was sent. */
  function StoredRows(rows: map<RowId, Row>, id: RowId, d: Draft, key: string, replies: seq<Option<MsgId>>)
    : map<RowId, Row>
  {
    RecordedRef(rows[id := DraftRow(d, key)], id, replies, |PayloadPlan(d.payload, KeyOnly)|)
  }

  /** Saving a draft under `key`: nothing changes and nothing is sent when the
      INSERT fails; otherwise the row is added under the next id, the
      calls of its emission plan are made up to the first failure, and the
      outcome tells whether all of them succeeded. */
  ghost predicate SaveEffect(rows: map<RowId, Row>, nextId: RowId, rows': map<RowId, Row>, nextId': RowId,
                             d: Draft, key: string, diskOk: bool, replies: seq<Option<MsgId>>,
                             outcome: Outcome, sent: seq<Dispatch>)
  {
    if !diskOk || KeyTaken(rows, key) then
      outcome == SaveFailed && sent == [] && rows' == rows && nextId' == nextId
    else
      var plan := PayloadPlan(d.payload, KeyOnly);
      var n := Delivered(replies, |plan|);
      outcome == Saved(key, d.note, n == |plan|) && sent == plan[..n]
      && rows' == StoredRows(rows, nextId, d, key, replies) && nextId' == nextId + 1
  }

  /** `_handle_single_file`: store the message's file under a fresh key, then
      send it to the channel with the full caption and record that message. */
  method HandleSingleFile(store: FileStore, m: Message, picks: seq<nat>, diskOk: bool, replies: seq<Option<MsgId>>)
    returns (outcome: Outcome, sent: seq<Dispatch>)
    requires store.Valid() && ValidPicks(picks)
    modifies store
    ensures store.Valid()
    ensures Extract(m).None? ==>
              outcome == NoFiles && sent == [] && store.rows == old(store.rows) && store.nextId == old(store.nextId)
    ensures Extract(m).Some? ==>
              SaveEffect(old(store.rows), old(store.nextId), store.rows, store.nextId,
                         SingleDraft(m, Extract(m).value), GenerateKey(picks), diskOk, replies, outcome, sent)
  {
    var info := Extract(m);
    if info.None? {
      return NoFiles, [];
    }
    var d := SingleDraft(m, info.value);
    var key := GenerateKey(picks);
    var id := store.Insert(d.userId, d.payload, key, d.originalName, d.note, diskOk);
    if id.None? {
      return SaveFailed, [];
    }
    var call := Solo(Post(info.value, Full));
    assert PayloadPlan(d.payload, KeyOnly) == [call];
    var reply := Reply(replies, 0);
    if reply.None? {
      DeliveredAt(replies, 1, 0);
      return Saved(key, d.note, false), [];
    }
    DeliveredAt(replies, 1, 1);
    store.SetChannelMsgId(id.value, reply.value);
    outcome, sent := Saved(key, d.note, true), [call];
  }

  /** The row the INSERT of `_handle_single_file` adds as the code is written,
      or nothing when it fails: a refused INSERT, a taken key, or a video or
      document sent without a file name, whose missing name the NOT NULL
      `original_name` column refuses. */
  ghost function SingleRowAsWritten(rows: map<RowId, Row>, m: Message, info: FileInfo, key: string, diskOk: bool)
    : (r: Option<Row>)
    ensures r.Some? ==> r.value.userId == m.sender && r.value.payload == One(info) && r.value.key == key
    ensures r.Some? ==> diskOk && !KeyTaken(rows, key)
  {
    match OriginalNameAsWritten(m, info.kind)
    case None => None
    case Some(name) =>
      if !diskOk || KeyTaken(rows, key) then None
      else Some(Row(m.sender, One(info), key, name, if m.caption != "" then m.caption else name, None))
  }

  /** `HandleSingleFile` stores the corrected draft. It agrees with the code as
      written whenever that code saves; the two differ only for a video or
      document without a file name, which the code as written fails to save
      and the corrected one stores under `<type>_<user_id>`. */
  lemma SingleSaveAsWrittenAgrees(rows: map<RowId, Row>, m: Message, info: FileInfo, key: string, diskOk: bool)
    requires Extract(m) == Some(info)
    ensures OriginalNameAsWritten(m, info.kind).None? ==>
              SingleRowAsWritten(rows, m, info, key, diskOk) == None
              && SingleDraft(m, info).originalName == FallbackName(info.kind, m.sender)
    ensures OriginalNameAsWritten(m, info.kind).Some? ==>
              SingleRowAsWritten(rows, m, info, key, diskOk)
              == if !diskOk || KeyTaken(rows, key) then None else Some(DraftRow(SingleDraft(m, info), key))
  {
  }

  /** `_save_batch_to_db`: the INSERT of a batch row, under the name every batch gets. */
  method SaveBatch(store: FileStore, owner: UserId, files: seq<FileInfo>, key: string, note: string, diskOk: bool)
    returns (id: Option<RowId>)
    requires store.Valid()
    modifies store
    ensures store.Valid()
    ensures id.Some? <==> diskOk && !KeyTaken(old(store.rows), key)
    ensures id.Some? ==> id.value == old(store.nextId) && store.nextId == old(store.nextId) + 1
                         && store.rows == old(store.rows)[id.value := Row(owner, Batch(files), key, BatchName, note, None)]
    ensures id.None? ==> store.rows == old(store.rows) && store.nextId == old(store.nextId)
  {
    id := store.Insert(owner, Batch(files), key, BatchName, note, diskOk);
  }

  /** `process_file_batch` for the buffer its job popped: an empty buffer is
      ignored, a lone message outside any media group is a single file, and
      anything else becomes one batch row under the job's owner, noted with
      the first caption, and is mirrored to the channel. */
  method ProcessFileBatch(store: FileStore, owner: UserId, messages: seq<Message>, picks: seq<nat>,
                          diskOk: bool, replies: seq<Option<MsgId>>)
    returns (outcome: Outcome, sent: seq<Dispatch>)
    requires store.Valid() && ValidPicks(picks)
    modifies store
    ensures store.Valid()
    ensures outcome == Ignored <==> messages == []
    ensures Assemble(owner, messages).None? ==>
              outcome in {Ignored, NoFiles} && sent == []
              && store.rows == old(store.rows) && store.nextId == old(store.nextId)
    ensures Assemble(owner, messages).Some? ==>
              SaveEffect(old(store.rows), old(store.nextId), store.rows, store.nextId,
                         Assemble(owner, messages).value, GenerateKey(picks), diskOk, replies, outcome, sent)
  {
    if |messages| == 0 {
      return Ignored, [];
    }
    if SinglePath(messages) {
      outcome, sent := HandleSingleFile(store, messages[0], picks, diskOk, replies);
      return;
    }
    var key := GenerateKey(picks);
    var note, files := AssembleBatch(messages);
    if files == [] {
      return NoFiles, [];
    }
    var id := SaveBatch(store, owner, files, key, note, diskOk);
    if id.None? {
      return SaveFailed, [];
    }
    var ok;
    sent, ok := SendBatchToChannel(store, id.value, files, replies);
    outcome := Saved(key, note, ok);
  }

  /** A job of the queue running: a job that was removed does nothing; a
      scheduled one pops its owner's buffer, which is never empty, and
      processes it. */
  method RunJob(agg: Aggregator, store: FileStore, job: Job, picks: seq<nat>,
                diskOk: bool, replies: seq<Option<MsgId>>)
    returns (outcome: Outcome, sent: seq<Dispatch>)
    requires agg.Valid() && store.Valid() && ValidPicks(picks)
    modifies agg, store
    ensures agg.Valid() && store.Valid() && agg.nextJob == old(agg.nextJob)
    ensures job !in old(agg.jobs) ==>
              outcome == Ignored && sent == [] && agg.buffers == old(agg.buffers) && agg.jobs == old(agg.jobs)
              && store.rows == old(store.rows) && store.nextId == old(store.nextId)
    ensures job in old(agg.jobs) ==>
              var batch := old(agg.buffers)[job.owner];
              batch != [] && outcome != Ignored
              && agg.buffers == old(agg.buffers) - {job.owner} && agg.jobs == Cancel(old(agg.jobs), job.owner)
              && (Assemble(job.owner, batch).None? ==>
                    outcome == NoFiles && sent == [] && store.rows == old(store.rows) && store.nextId == old(store.nextId))
              && (Assemble(job.owner, batch).Some? ==>
                    SaveEffect(old(store.rows), old(store.nextId), store.rows, store.nextId,
                               Assemble(job.owner, batch).value, GenerateKey(picks), diskOk, replies, outcome, sent))
  {
    var batch := agg.Fire(job);
    if batch.None? {
      return Ignored, [];
    }
    outcome, sent := ProcessFileBatch(store, job.owner, batch.value, picks, diskOk, replies);
  }

  /** What the key handler answers. */
  datatype KeyReply =
    | BadFormat                     // not eight letters or digits once stripped
    | NotFound                      // no row holds the key
    | Replay(calls: seq<Dispatch>)  // the calls that send the stored files back

  /** The answer to a text message, over the ids below `below`. */
  function Lookup(rows: map<RowId, Row>, below: nat, text: string): (r: KeyReply)
    ensures r == BadFormat <==> !ValidKey(Strip(text))
    ensures r == NotFound <==> ValidKey(Strip(text)) && FindKey(rows, Strip(text), below).None?
    ensures r.Replay? ==> var id := FindKey(rows, Strip(text), below).value;
                          r.calls == PayloadPlan(rows[id].payload, Empty)
  {
    match CheckKey(text)
    case None => BadFormat
    case Some(key) =>
      match FindKey(rows, key, below)
      case None => NotFound
      case Some(id) => Replay(PayloadPlan(rows[id].payload, Empty))
  }

  /** `handle_key`: check the format, look the key up, send the file or batch back. */
  method HandleKey(store: FileStore, text: string) returns (reply: KeyReply)
    requires store.Valid()
    ensures reply == Lookup(store.rows, store.nextId, text)
  {
    var checked := CheckKey(text);
    if checked.None? {
      return BadFormat;
    }
    var found := store.FindByKey(checked.value);
    if found.None? {
      return NotFound;
    }
    match store.rows[found.value].payload {
      case One(info) =>
        reply := Replay([Solo(Post(info, Full))]);
      case Batch(items) =>
        var calls := ReplayBatch(items);
        reply := Replay(calls);
    }
  }

  /** After a save, the new row is the one its key finds, and it holds the
      draft; the channel reference is the first call's message, if any. */
  lemma StoredRowFound(rows: map<RowId, Row>, id: RowId, d: Draft, key: string, replies: seq<Option<MsgId>>)
    requires forall other :: other in rows ==> other < id
    ensures var rows' := StoredRows(rows, id, d, key, replies);
            var n := Delivered(replies, |PayloadPlan(d.payload, KeyOnly)|);
            FindKey(rows', key, id + 1) == Some(id)
            && rows'[id].payload == d.payload && rows'[id].note == d.note && rows'[id].userId == d.userId
            && rows'[id].channelMsgId == (if n > 0 then Some(Reply(replies, 0).value) else None)
  {
  }

  /** A saved key sent back, with any surrounding whitespace, replays what was
      stored: the same files in the same grouping, later documents uncaptioned. */
  lemma SavedThenLookedUp(rows: map<RowId, Row>, id: RowId, d: Draft, picks: seq<nat>,
                          replies: seq<Option<MsgId>>, before: string, after: string)
    requires ValidPicks(picks)
    requires forall other :: other in rows ==> other < id
    requires forall i :: 0 <= i < |before| ==> IsSpace(before[i])
    requires forall i :: 0 <= i < |after| ==> IsSpace(after[i])
    ensures var key := GenerateKey(picks);
            Lookup(StoredRows(rows, id, d, key, replies), id + 1, before + key + after)
            == Replay(PayloadPlan(d.payload, Empty))
  {
    var key := GenerateKey(picks);
    GeneratedKeyAccepted(picks, before, after);
    StoredRowFound(rows, id, d, key, replies);
  }

  /** A saved row is the first its owner's list shows; every other owner's list is unchanged. */
  lemma SavedListedFirst(rows: map<RowId, Row>, id: RowId, d: Draft, key: string,
                         replies: seq<Option<MsgId>>, user: UserId)
    requires forall other :: other in rows ==> other < id
    ensures OwnerIds(StoredRows(rows, id, d, key, replies), user, id + 1)
            == (if d.userId == user then [id] else []) + OwnerIds(rows, user, id)
  {
    var inserted := rows[id := DraftRow(d, key)];
    OwnerIdsFrame(StoredRows(rows, id, d, key, replies), inserted, user, id + 1);
    OwnerIdsAfterInsert(rows, id, DraftRow(d, key), user);
  }

  /** A batch is mirrored as one record whose channel reference is the first
      call's message: deleting the batch later asks to delete that message
      alone, never the other documents'. */
  lemma BatchDeleteTargetsFirstCall(rows: map<RowId, Row>, id: RowId, owner: UserId, files: seq<FileInfo>,
                                    key: string, note: string, replies: seq<Option<MsgId>>)
    requires forall other :: other in rows ==> other < id
    requires files != [] && Reply(replies, 0).Some? && Reply(replies, 0).value != 0
    ensures var d := Draft(owner, Batch(files), BatchName, note);
            var rows' := StoredRows(rows, id, d, key, replies);
            OwnedBy(rows', id, key, owner) && DeleteFor(rows'[id]) == Some(Reply(replies, 0).value)
  {
    var d := Draft(owner, Batch(files), BatchName, note);
    StoredRowFound(rows, id, d, key, replies);
    PlanPhysical(files, KeyOnly);
    assert Delivered(replies, |EmissionPlan(files)|) > 0;
  }
}
