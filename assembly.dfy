/** Turning a popped buffer into at most one record: the single-file path of
    `_handle_single_file` or the batch path of `process_file_batch`. */
module Assembly {

  import opened Media
  import opened Store

  /** `any(msg.media_group_id for msg in messages)`. */
  predicate AnyMediaGroup(messages: seq<Message>) {
    exists i :: 0 <= i < |messages| && messages[i].mediaGroupId != ""
  }

  /** `len(messages) == 1 and not is_media_group`: the single path is taken
      for one message outside any media group, and only then. */
  function SinglePath(messages: seq<Message>): (r: bool)
    ensures r <==> |messages| == 1 && messages[0].mediaGroupId == ""
  {
    |messages| == 1 && !AnyMediaGroup(messages)
  }

  /** The caption of the first message, in buffer order, whose caption is non-empty. */
  function FirstCaption(messages: seq<Message>): (r: Option<string>)
    ensures r.Some? ==> r.value != ""
  {
    if messages == [] then None
    else
      var before := FirstCaption(messages[..|messages| - 1]);
      var last := messages[|messages| - 1];
      if before.Some? then before
      else if last.caption != "" then Some(last.caption)
      else None
  }

  /** No caption is found exactly when every caption is empty. */
  lemma {:induction false} FirstCaptionNone(messages: seq<Message>)
    ensures FirstCaption(messages).None? <==> forall j :: 0 <= j < |messages| ==> messages[j].caption == ""
  {
    if messages != [] {
      var init := messages[..|messages| - 1];
      FirstCaptionNone(init);
      assert forall j :: 0 <= j < |init| ==> init[j] == messages[j];
    }
  }

  /** The caption found is that of the first message with a non-empty one. */
  lemma {:induction false} FirstCaptionIsFirst(messages: seq<Message>, i: nat)
    requires i < |messages| && messages[i].caption != ""
    requires forall j :: 0 <= j < i ==> messages[j].caption == ""
    ensures FirstCaption(messages) == Some(messages[i].caption)
  {
    var init := messages[..|messages| - 1];
    assert forall j :: 0 <= j < |init| ==> init[j] == messages[j];
    if i < |messages| - 1 {
      FirstCaptionIsFirst(init, i);
    } else {
      FirstCaptionNone(init);
    }
  }

  /** `f"文件合集 (共 {len(messages)} 个)"`. */
  function DefaultNote(count: nat): string {
    "文件合集 (共 " + Decimal(count) + " 个)"
  }

  /** The original name every batch row is stored under. */
  const BatchName: string := "文件合集"

  /** The note of a batch: the first non-empty caption, else the default note,
      which counts every buffered message, with or without a file. */
  function BatchNote(messages: seq<Message>): (r: string)
    ensures r != ""
    ensures (forall j :: 0 <= j < |messages| ==> messages[j].caption == "") ==> r == DefaultNote(|messages|)
  {
    FirstCaptionNone(messages);
    match FirstCaption(messages)
    case Some(c) => c
    case None => DefaultNote(|messages|)
  }

  /** A batch is noted with the caption of its first captioned message. */
  lemma BatchNoteIsFirstCaption(messages: seq<Message>, i: nat)
    requires i < |messages| && messages[i].caption != ""
    requires forall j :: 0 <= j < i ==> messages[j].caption == ""
    ensures BatchNote(messages) == messages[i].caption
  {
    FirstCaptionIsFirst(messages, i);
  }

  /** The extracted files of a buffer, in buffer order, file-less messages dropped. */
  function Files(messages: seq<Message>): (r: seq<FileInfo>)
    ensures |r| <= |messages|
  {
    if messages == [] then []
    else
      var last := Extract(messages[|messages| - 1]);
      Files(messages[..|messages| - 1]) + (if last.Some? then [last.value] else [])
  }

  /** Extraction distributes over concatenation: files keep buffer order. */
  lemma {:induction false} FilesAppend(a: seq<Message>, b: seq<Message>)
    ensures Files(a + b) == Files(a) + Files(b)
  {
    if b == [] {
      assert a + b == a;
    } else {
      var init := b[..|b| - 1];
      assert (a + b)[..|a + b| - 1] == a + init;
      assert (a + b)[|a + b| - 1] == b[|b| - 1];
      FilesAppend(a, init);
    }
  }

  /** The payload is empty exactly when no message carries a file. */
  lemma {:induction false} FilesEmpty(messages: seq<Message>)
    ensures Files(messages) == [] <==> forall j :: 0 <= j < |messages| ==> !HasFile(messages[j])
  {
    if messages != [] {
      var init := messages[..|messages| - 1];
      FilesEmpty(init);
      assert forall j :: 0 <= j < |init| ==> init[j] == messages[j];
    }
  }

  /** Every extracted file comes from some buffered message. */
  lemma {:induction false} FilesFromMessages(messages: seq<Message>, k: nat)
    requires k < |Files(messages)|
    ensures exists j :: 0 <= j < |messages| && Extract(messages[j]) == Some(Files(messages)[k])
  {
    var init := messages[..|messages| - 1];
    if k < |Files(init)| {
      FilesFromMessages(init, k);
      var j :| 0 <= j < |init| && Extract(init[j]) == Some(Files(init)[k]);
      assert messages[j] == init[j];
    } else {
      assert Extract(messages[|messages| - 1]) == Some(Files(messages)[k]);
    }
  }

  /** When every message carries a file, none is dropped and the i-th file is the i-th message's. */
  lemma {:induction false} FilesAllKept(messages: seq<Message>)
    requires forall j :: 0 <= j < |messages| ==> HasFile(messages[j])
    ensures |Files(messages)| == |messages|
    ensures forall j :: 0 <= j < |messages| ==> Some(Files(messages)[j]) == Extract(messages[j])
  {
    if messages != [] {
      var init := messages[..|messages| - 1];
      FilesAllKept(init);
      assert forall j :: 0 <= j < |init| ==> init[j] == messages[j];
    }
  }

  /** The loop of `process_file_batch`: the note and the ordered payload. */
  method AssembleBatch(messages: seq<Message>) returns (note: string, files: seq<FileInfo>)
    ensures note == BatchNote(messages)
    ensures files == Files(messages)
  {
    files := [];
    note := DefaultNote(|messages|);
    var captionFound := false;
    var i := 0;
    while i < |messages|
      invariant 0 <= i <= |messages|
      invariant captionFound <==> FirstCaption(messages[..i]).Some?
      invariant note == if captionFound then FirstCaption(messages[..i]).value else DefaultNote(|messages|)
      invariant files == Files(messages[..i])
    {
      var message := messages[i];
      assert messages[..i + 1][..i] == messages[..i];
      if message.caption != "" && !captionFound {
        note := message.caption;
        captionFound := true;
      }
      var info := Extract(message);
      if info.Some? {
        files := files + [info.value];
      }
      i := i + 1;
    }
    assert messages[..i] == messages;
  }

  /** What one popped buffer becomes before it is stored. */
  datatype Draft = Draft(userId: UserId, payload: Payload, originalName: string, note: string)

  /** The note of a single file: its caption when non-empty, else its original name. */
  function SingleNote(m: Message, k: Kind): string {
    if m.caption != "" then m.caption else OriginalName(m, k)
  }

  /** The record `_handle_single_file` stores for a message and its file:
      the sender's, under the file's original name. */
  function SingleDraft(m: Message, info: FileInfo): (d: Draft)
    ensures d.userId == m.sender && d.payload == One(info)
    ensures d.originalName == OriginalName(m, info.kind)
    ensures d.note == if m.caption != "" then m.caption else d.originalName
  {
    Draft(m.sender, One(info), OriginalName(m, info.kind), SingleNote(m, info.kind))
  }

  /** The record a buffer becomes, or nothing when it is empty or yields no
      file. A single file is stored under its sender, a batch under the owner
      of the job. */
  function Assemble(owner: UserId, messages: seq<Message>): (r: Option<Draft>)
    ensures r.Some? ==> match r.value.payload
                        case One(_) => true
                        case Batch(items) => items != []
  {
    if messages == [] then None
    else if SinglePath(messages) then
      var m := messages[0];
      match Extract(m)
      case None => None
      case Some(info) => Some(SingleDraft(m, info))
    else if Files(messages) == [] then None
    else Some(Draft(owner, Batch(Files(messages)), BatchName, BatchNote(messages)))
  }

  /** A buffer yields a record exactly when some message in it carries a file. */
  lemma AssembleSomeIffFile(owner: UserId, messages: seq<Message>)
    ensures Assemble(owner, messages).Some? <==> exists j :: 0 <= j < |messages| && HasFile(messages[j])
  {
    FilesEmpty(messages);
  }

  /** The single path is taken exactly for one message outside any media group,
      and then the payload is that message's file and the note its caption or name. */
  lemma AssembleSingle(owner: UserId, m: Message)
    requires m.mediaGroupId == "" && HasFile(m)
    ensures var d := Assemble(owner, [m]);
            d.Some? && d.value.payload == One(Extract(m).value) && d.value.userId == m.sender
            && d.value.note == (if m.caption != "" then m.caption else OriginalName(m, Extract(m).value.kind))
  {
  }

  /** Any buffer of two or more messages, or one inside a media group, is a
      batch, even when it holds a single file. */
  lemma AssembleBatchPath(owner: UserId, messages: seq<Message>)
    requires |messages| >= 2 || (|messages| == 1 && messages[0].mediaGroupId != "")
    requires exists j :: 0 <= j < |messages| && HasFile(messages[j])
    ensures var d := Assemble(owner, messages);
            d.Some? && d.value == Draft(owner, Batch(Files(messages)), BatchName, BatchNote(messages))
  {
    FilesEmpty(messages);
  }

  /** Three photos captioned "", "" and "final" make one batch of three files
      noted "final". */
  lemma ThreePhotoBurst(owner: UserId, p1: string, p2: string, p3: string)
    ensures var ms := [Message(owner, "", "", [p1], None, None),
                       Message(owner, "", "", [p2], None, None),
                       Message(owner, "final", "", [p3], None, None)];
            Assemble(owner, ms)
            == Some(Draft(owner, Batch([FileInfo(Photo, p1), FileInfo(Photo, p2), FileInfo(Photo, p3)]),
                          BatchName, "final"))
  {
    var ms := [Message(owner, "", "", [p1], None, None),
               Message(owner, "", "", [p2], None, None),
               Message(owner, "final", "", [p3], None, None)];
    FirstCaptionIsFirst(ms, 2);
    FilesAllKept(ms);
    assert Files(ms) == [FileInfo(Photo, p1), FileInfo(Photo, p2), FileInfo(Photo, p3)];
  }

  /** One uncaptioned document named "report.pdf" is stored alone, noted "report.pdf". */
  lemma NamedDocumentAlone(sender: UserId, id: string)
    ensures var m := Message(sender, "", "", [], None, Some(Attachment(id, Some("report.pdf"))));
            Assemble(sender, [m])
            == Some(Draft(sender, One(FileInfo(Document, id)), "report.pdf", "report.pdf"))
  {
  }

  /** A caption on a file-less message still names the batch. */
  lemma CaptionWithoutFileNamesBatch(owner: UserId, text: string, photo: string)
    requires text != ""
    ensures var ms := [Message(owner, text, "", [], None, None), Message(owner, "", "", [photo], None, None)];
            Assemble(owner, ms) == Some(Draft(owner, Batch([FileInfo(Photo, photo)]), BatchName, text))
  {
    var ms := [Message(owner, text, "", [], None, None), Message(owner, "", "", [photo], None, None)];
    FirstCaptionIsFirst(ms, 0);
    assert ms[..1] == [ms[0]] && ms[..1][..0] == [];
    assert Files(ms[..1]) == [];
    assert Files(ms) == [FileInfo(Photo, photo)];
    assert BatchNote(ms) == text;
  }
}
