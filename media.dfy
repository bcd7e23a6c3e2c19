/** The shape of an incoming Telegram message as far as the upload pipeline
    looks at it, and the extraction of its one stored file. */
module Media {

  datatype Option<+T> = None | Some(value: T)

  type UserId = nat

  /** The three media kinds the bot stores (the `type` of a file-info pair). */
  datatype Kind = Photo | Video | Document

  /** One `(type, id)` pair as stored in the `files` table or in a batch payload. */
  datatype FileInfo = FileInfo(kind: Kind, id: string)

  /** A video or document attachment: its provider id and its optional file name. */
  datatype Attachment = Attachment(fileId: string, fileName: Option<string>)

  /** An incoming message. An absent caption or media-group id is "" (both
      are falsy wherever the bot tests them); `photo` lists the file ids of the
      photo sizes, smallest first, and is empty when the message has no photo. */
  datatype Message = Message(
    sender: UserId,
    caption: string,
    mediaGroupId: string,
    photo: seq<string>,
    video: Option<Attachment>,
    document: Option<Attachment>)

  predicate HasFile(m: Message) {
    |m.photo| > 0 || m.video.Some? || m.document.Some?
  }

  /** The file a message carries: photo before video before document, and
      for a photo the last (largest) size. */
  function Extract(m: Message): (r: Option<FileInfo>)
    ensures r.Some? <==> HasFile(m)
  {
    if |m.photo| > 0 then Some(FileInfo(Photo, m.photo[|m.photo| - 1]))
    else if m.video.Some? then Some(FileInfo(Video, m.video.value.fileId))
    else if m.document.Some? then Some(FileInfo(Document, m.document.value.fileId))
    else None
  }

  /** Extraction priority: a later kind is taken only when every earlier kind is absent. */
  lemma ExtractPriority(m: Message)
    ensures Extract(m).Some? && Extract(m).value.kind == Photo <==> |m.photo| > 0
    ensures Extract(m).Some? && Extract(m).value.kind == Video <==> |m.photo| == 0 && m.video.Some?
    ensures Extract(m).Some? && Extract(m).value.kind == Document
            <==> |m.photo| == 0 && m.video.None? && m.document.Some?
    ensures Extract(m).Some? && Extract(m).value.kind == Video ==> Extract(m).value.id == m.video.value.fileId
    ensures Extract(m).Some? && Extract(m).value.kind == Document ==> Extract(m).value.id == m.document.value.fileId
  {
  }

  /** The id taken for a photo is that of its last size, whatever the attachments. */
  lemma ExtractLargestPhoto(m: Message, sizes: seq<string>, big: string)
    requires m.photo == sizes + [big]
    ensures Extract(m) == Some(FileInfo(Photo, big))
  {
  }

  function KindName(k: Kind): string {
    match k
    case Photo => "photo"
    case Video => "video"
    case Document => "document"
  }

  /** Decimal rendering of a natural number, as Python's str() on an int. */
  function Decimal(n: nat): (r: string)
    ensures |r| >= 1 && forall i :: 0 <= i < |r| ==> '0' <= r[i] <= '9'
  {
    if n < 10 then [DigitChar(n)] else Decimal(n / 10) + [DigitChar(n % 10)]
  }

  function DigitChar(d: nat): (c: char)
    requires d < 10
    ensures '0' <= c <= '9' && c as int - '0' as int == d
  {
    ('0' as int + d) as char
  }

  /** The value of a string of decimal digits. */
  function DigitsValue(s: string): nat
    requires forall i :: 0 <= i < |s| ==> '0' <= s[i] <= '9'
  {
    if s == [] then 0 else DigitsValue(s[..|s| - 1]) * 10 + (s[|s| - 1] as int - '0' as int)
  }

  /** Decimal is read back as the number it renders. */
  lemma {:induction false} DecimalRoundTrip(n: nat)
    ensures DigitsValue(Decimal(n)) == n
  {
    var r := Decimal(n);
    if n >= 10 {
      DecimalRoundTrip(n / 10);
      assert r[..|r| - 1] == Decimal(n / 10);
    }
  }

  /** The name the bot synthesises when a file has none: `<type>_<user_id>`.
      The type and the sender can be read back from it. */
  function FallbackName(k: Kind, sender: UserId): (r: string)
    ensures var n := |KindName(k)|;
            |r| > n + 1 && r[..n] == KindName(k) && r[n] == '_'
            && (forall i :: n + 1 <= i < |r| ==> '0' <= r[i] <= '9')
            && DigitsValue(r[n + 1..]) == sender
  {
    DecimalRoundTrip(sender);
    var r := KindName(k) + "_" + Decimal(sender);
    assert r[|KindName(k)| + 1..] == Decimal(sender);
    r
  }

  /** The attachment object named by a kind; a photo is a list of sizes, which
      has no `file_name` attribute, so it has no attachment here. */
  function AttachmentOf(m: Message, k: Kind): Option<Attachment> {
    match k
    case Photo => None
    case Video => m.video
    case Document => m.document
  }

  /** `original_name` AS WRITTEN: `getattr(obj, 'file_name', fallback)` only
      falls back when the attribute is missing. A video or document always has
      the attribute, so a nameless one yields None (Python's None), which the
      NOT NULL column `original_name` then refuses. */
  function OriginalNameAsWritten(m: Message, k: Kind): (r: Option<string>)
    ensures AttachmentOf(m, k).Some? && AttachmentOf(m, k).value.fileName.None? <==> r.None?
  {
    match AttachmentOf(m, k)
    case None => Some(FallbackName(k, m.sender))
    case Some(a) => a.fileName
  }

  /** A document sent without a file name gets no original name at all. */
  lemma NamelessDocumentHasNoName(sender: UserId)
    ensures var m := Message(sender, "", "", [], None, Some(Attachment("BQAD", None)));
            Extract(m) == Some(FileInfo(Document, "BQAD"))
            && OriginalNameAsWritten(m, Document) == None
  {
  }

  /** `original_name` as evidently intended: the file's own name when it has
      one, else `<type>_<user_id>`; photos always take the fallback. */
  function OriginalName(m: Message, k: Kind): (r: string)
    ensures k == Photo ==> r == FallbackName(k, m.sender)
    ensures AttachmentOf(m, k).Some? && AttachmentOf(m, k).value.fileName.Some?
            ==> r == AttachmentOf(m, k).value.fileName.value
    ensures (AttachmentOf(m, k).None? || AttachmentOf(m, k).value.fileName.None?)
            ==> r == FallbackName(k, m.sender)
    ensures OriginalNameAsWritten(m, k).Some? ==> r == OriginalNameAsWritten(m, k).value
  {
    match AttachmentOf(m, k)
    case Some(Attachment(_, Some(name))) => name
    case _ => FallbackName(k, m.sender)
  }
}
