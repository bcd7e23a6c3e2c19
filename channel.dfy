/** Mirroring a stored batch to the channel (`_send_batch_to_channel`) and
    replaying one to a user (the batch branch of `handle_key`). Photos and
    videos go out as one media group, then each document on its own; only
    the first physical message carries the key and note. */
module Channel {

  import opened Media
  import opened Store

  /** The three caption shapes: key and note, key alone, nothing. */
  datatype Caption = Full | KeyOnly | Empty

  /** One physical message: a file and its caption. */
  datatype Post = Post(info: FileInfo, caption: Caption)

  /** One transport call: `send_media_group` of several posts, or a single send. */
  datatype Dispatch = MediaGroup(posts: seq<Post>) | Solo(post: Post)

  predicate Groupable(k: Kind) {
    k == Photo || k == Video
  }

  /** `[info for info in file_info_list if info['type'] in ['photo', 'video']]`. */
  function GroupItems(infos: seq<FileInfo>): (r: seq<FileInfo>)
    ensures forall i :: 0 <= i < |r| ==> Groupable(r[i].kind)
  {
    if infos == [] then []
    else
      var last := infos[|infos| - 1];
      GroupItems(infos[..|infos| - 1]) + (if Groupable(last.kind) then [last] else [])
  }

  /** `[info for info in file_info_list if info['type'] not in ['photo', 'video']]`. */
  function OtherFiles(infos: seq<FileInfo>): (r: seq<FileInfo>)
    ensures forall i :: 0 <= i < |r| ==> !Groupable(r[i].kind)
  {
    if infos == [] then []
    else
      var last := infos[|infos| - 1];
      OtherFiles(infos[..|infos| - 1]) + (if Groupable(last.kind) then [] else [last])
  }

  /** The two comprehensions split the payload between them. */
  lemma {:induction false} PartitionLength(infos: seq<FileInfo>)
    ensures |GroupItems(infos)| + |OtherFiles(infos)| == |infos|
  {
    if infos != [] {
      PartitionLength(infos[..|infos| - 1]);
    }
  }

  /** The two comprehensions split the payload: nothing lost, nothing added. */
  lemma {:induction false} PartitionIsPermutation(infos: seq<FileInfo>)
    ensures multiset(GroupItems(infos)) + multiset(OtherFiles(infos)) == multiset(infos)
  {
    if infos != [] {
      var init := infos[..|infos| - 1];
      PartitionIsPermutation(init);
      assert infos == init + [infos[|infos| - 1]];
    }
  }

  /** The media group: the first post carries the full caption, the rest none. */
  function GroupPosts(media: seq<FileInfo>): (r: seq<Post>)
    ensures |r| == |media|
  {
    seq(|media|, i requires 0 <= i < |media| => Post(media[i], if i == 0 then Full else Empty))
  }

  /** The documents' posts, in order: the first gets the full caption unless
      one was already sent, every later one gets `later`. */
  function DocumentPosts(docs: seq<FileInfo>, captionSent: bool, later: Caption): (r: seq<Post>)
    ensures |r| == |docs|
  {
    seq(|docs|, i requires 0 <= i < |docs| => Post(docs[i], if i == 0 && !captionSent then Full else later))
  }

  /** The documents, one call each, carrying the posts `DocumentPosts` captions. */
  function DocumentSends(docs: seq<FileInfo>, captionSent: bool, later: Caption): (r: seq<Dispatch>)
    ensures |r| == |docs|
    ensures forall i :: 0 <= i < |r| ==> r[i].Solo? && r[i].post.info == docs[i]
  {
    var posts := DocumentPosts(docs, captionSent, later);
    seq(|docs|, i requires 0 <= i < |docs| => Solo(posts[i]))
  }

  /** The transport calls for a batch, later documents captioned `later`. */
  function Plan(infos: seq<FileInfo>, later: Caption): seq<Dispatch> {
    var media := GroupItems(infos);
    (if media == [] then [] else [MediaGroup(GroupPosts(media))])
    + DocumentSends(OtherFiles(infos), media != [], later)
  }

  /** `_send_batch_to_channel`: later documents carry the key alone. */
  function EmissionPlan(infos: seq<FileInfo>): seq<Dispatch> {
    Plan(infos, KeyOnly)
  }

  /** The batch branch of `handle_key`: later documents carry no caption. */
  function ReplayPlan(infos: seq<FileInfo>): seq<Dispatch> {
    Plan(infos, Empty)
  }

  /** The calls that mirror or replay a stored payload; a single file goes out
      alone with the full caption. */
  function PayloadPlan(p: Payload, later: Caption): seq<Dispatch> {
    match p
    case One(info) => [Solo(Post(info, Full))]
    case Batch(items) => Plan(items, later)
  }

  /** The physical messages a sequence of calls produces, in order. */
  function Physical(plan: seq<Dispatch>): seq<Post> {
    if plan == [] then []
    else
      Physical(plan[..|plan| - 1])
      + match plan[|plan| - 1]
        case MediaGroup(posts) => posts
        case Solo(post) => [post]
  }

  lemma {:induction false} PhysicalAppend(a: seq<Dispatch>, b: seq<Dispatch>)
    ensures Physical(a + b) == Physical(a) + Physical(b)
  {
    if b == [] {
      assert a + b == a;
    } else {
      var init := b[..|b| - 1];
      assert (a + b)[..|a + b| - 1] == a + init;
      assert (a + b)[|a + b| - 1] == b[|b| - 1];
      PhysicalAppend(a, init);
    }
  }

  lemma {:induction false} PhysicalOfSolos(sends: seq<Dispatch>)
    requires forall i :: 0 <= i < |sends| ==> sends[i].Solo?
    ensures |Physical(sends)| == |sends|
    ensures forall i :: 0 <= i < |sends| ==> Physical(sends)[i] == sends[i].post
  {
    if sends != [] {
      PhysicalOfSolos(sends[..|sends| - 1]);
    }
  }

  /** A plan's physical messages: the media-group posts, then the documents' posts. */
  lemma PhysicalOfPlan(infos: seq<FileInfo>, later: Caption)
    ensures var media := GroupItems(infos);
            Physical(Plan(infos, later)) == GroupPosts(media) + DocumentPosts(OtherFiles(infos), media != [], later)
  {
    var media, docs := GroupItems(infos), OtherFiles(infos);
    var head: seq<Dispatch> := if media == [] then [] else [MediaGroup(GroupPosts(media))];
    var tail := DocumentSends(docs, media != [], later);
    PhysicalAppend(head, tail);
    PhysicalOfSolos(tail);
    if media != [] {
      assert head[..0] == [];
    }
  }

  /** The i-th physical message a batch should produce: the photos and
      videos first, then the documents; the very first message has the full
      caption, later group members none and later documents `later`. */
  function ExpectedPost(media: seq<FileInfo>, docs: seq<FileInfo>, later: Caption, i: nat): Post
    requires i < |media| + |docs|
  {
    var caption := if i == 0 then Full else if i < |media| then Empty else later;
    if i < |media| then Post(media[i], caption) else Post(docs[i - |media|], caption)
  }

  /** The physical messages of a plan are exactly the expected ones. */
  lemma PlanPhysical(infos: seq<FileInfo>, later: Caption)
    ensures |GroupItems(infos)| + |OtherFiles(infos)| == |infos|
    ensures |Physical(Plan(infos, later))| == |infos|
    ensures forall i :: 0 <= i < |infos| ==>
              Physical(Plan(infos, later))[i] == ExpectedPost(GroupItems(infos), OtherFiles(infos), later, i)
  {
    PartitionLength(infos);
    PhysicalOfPlan(infos, later);
    var media, docs := GroupItems(infos), OtherFiles(infos);
    var g, d := GroupPosts(media), DocumentPosts(docs, media != [], later);
    forall i | 0 <= i < |infos|
      ensures (g + d)[i] == ExpectedPost(media, docs, later, i)
    {
      if i >= |media| {
        assert (g + d)[i] == d[i - |media|];
      }
    }
  }

  /** Mirroring: exactly one physical message carries the full caption, and it is the first. */
  lemma EmissionCaptionOnce(infos: seq<FileInfo>)
    requires infos != []
    ensures var phys := Physical(EmissionPlan(infos));
            |phys| == |infos| && phys[0].caption == Full
            && forall i :: 0 < i < |phys| ==> phys[i].caption != Full
  {
    PlanPhysical(infos, KeyOnly);
  }

  /** Every file of the payload is sent exactly as often as it occurs in it. */
  lemma EmissionSendsEveryFile(infos: seq<FileInfo>)
    ensures var phys := Physical(EmissionPlan(infos));
            multiset(seq(|phys|, i requires 0 <= i < |phys| => phys[i].info)) == multiset(infos)
  {
    PlanPhysical(infos, KeyOnly);
    PartitionIsPermutation(infos);
    var phys := Physical(EmissionPlan(infos));
    var media, docs := GroupItems(infos), OtherFiles(infos);
    var sent := seq(|phys|, i requires 0 <= i < |phys| => phys[i].info);
    assert sent == media + docs;
  }

  /** The media group, when there is one, is the first call and the only one;
      every other call sends one document, in payload order. */
  lemma PlanShape(infos: seq<FileInfo>, later: Caption)
    ensures var media := GroupItems(infos);
            var offset := if media == [] then 0 else 1;
            |Plan(infos, later)| == offset + |OtherFiles(infos)|
            && (media != [] ==> Plan(infos, later)[0] == MediaGroup(GroupPosts(media)))
            && (forall i :: offset <= i < |Plan(infos, later)| ==>
                  Plan(infos, later)[i] == DocumentSends(OtherFiles(infos), media != [], later)[i - offset])
  {
    var media, docs := GroupItems(infos), OtherFiles(infos);
    var head: seq<Dispatch> := if media == [] then [] else [MediaGroup(GroupPosts(media))];
    var tail := DocumentSends(docs, media != [], later);
    assert Plan(infos, later) == head + tail;
  }

  /** Replay differs from mirroring only in the captions of later documents:
      the same files in the same order, with an empty caption exactly where
      mirroring puts the key alone. */
  lemma ReplayVersusEmission(infos: seq<FileInfo>)
    ensures var e, r := Physical(EmissionPlan(infos)), Physical(ReplayPlan(infos));
            |e| == |r| == |infos|
            && (forall i :: 0 <= i < |e| ==> e[i].info == r[i].info)
            && (forall i :: 0 <= i < |e| ==>
                  (e[i].caption == r[i].caption || (e[i].caption == KeyOnly && r[i].caption == Empty)))
            && (forall i :: 0 <= i < |e| ==> (e[i].caption == KeyOnly <==> !Groupable(e[i].info.kind) && i > 0))
  {
    PlanPhysical(infos, KeyOnly);
    PlanPhysical(infos, Empty);
  }

  /** The first loop of `_send_batch_to_channel` and of `handle_key`: the
      media-group posts, the caption toggled off after the first. */
  method BuildMediaGroup(media: seq<FileInfo>) returns (posts: seq<Post>)
    requires forall i :: 0 <= i < |media| ==> Groupable(media[i].kind)
    ensures posts == GroupPosts(media)
  {
    posts := [];
    var captionSent := false;
    var i := 0;
    while i < |media|
      invariant 0 <= i <= |media|
      invariant captionSent <==> i > 0
      invariant posts == GroupPosts(media[..i])
    {
      var caption := if !captionSent then Full else Empty;
      posts := posts + [Post(media[i], caption)];
      captionSent := true;
      i := i + 1;
    }
    assert media[..i] == media;
  }

  /** The reply of the k-th transport call; a call past the given replies fails. */
  function Reply(replies: seq<Option<MsgId>>, k: nat): Option<MsgId> {
    if k < |replies| then replies[k] else None
  }

  /** How many of the first `limit` calls succeed before the first failure. */
  function Delivered(replies: seq<Option<MsgId>>, limit: nat): (n: nat)
    ensures n <= limit
    ensures forall k :: 0 <= k < n ==> Reply(replies, k).Some?
    ensures n < limit ==> Reply(replies, n).None?
  {
    if limit == 0 then 0
    else
      var before := Delivered(replies, limit - 1);
      if before == limit - 1 && Reply(replies, limit - 1).Some? then limit else before
  }

  /** Delivery stops at the first failing call. */
  lemma DeliveredAt(replies: seq<Option<MsgId>>, limit: nat, n: nat)
    requires n <= limit
    requires forall k :: 0 <= k < n ==> Reply(replies, k).Some?
    requires n < limit ==> Reply(replies, n).None?
    ensures Delivered(replies, limit) == n
  {
  }

  /** The channel reference the first successful call records, if any. */
  function RecordedRef(rows: map<RowId, Row>, dbId: RowId, replies: seq<Option<MsgId>>, calls: nat): map<RowId, Row> {
    if Delivered(replies, calls) > 0 then WithChannelRef(rows, dbId, Reply(replies, 0).value) else rows
  }

  lemma PrefixGrows(sends: seq<Dispatch>, n: nat)
    requires n < |sends|
    ensures sends[..n + 1] == sends[..n] + [sends[n]]
  {
  }

  lemma PrefixOfAppend(head: seq<Dispatch>, tail: seq<Dispatch>, n: nat)
    requires n <= |tail|
    ensures (head + tail)[..|head| + n] == head + tail[..n]
  {
  }

  /** The second loop of `_send_batch_to_channel`: one call per document,
      the first `offset` calls having been made and answered already. The
      first document carries the full caption unless a caption went out
      before; the first successful call of the whole batch is recorded. */
  method SendDocuments(store: FileStore, dbId: RowId, docs: seq<FileInfo>, captionSent: bool,
                       replies: seq<Option<MsgId>>, offset: nat)
    returns (sent: seq<Dispatch>, ok: bool)
    requires store.Valid()
    requires captionSent <==> offset > 0
    requires forall k :: 0 <= k < offset ==> Reply(replies, k).Some?
    modifies store
    ensures store.Valid() && store.nextId == old(store.nextId)
    ensures offset <= Delivered(replies, offset + |docs|)
    ensures var n := Delivered(replies, offset + |docs|) - offset;
            sent == DocumentSends(docs, captionSent, KeyOnly)[..n] && (ok <==> n == |docs|)
    ensures store.rows == if captionSent then old(store.rows)
                          else RecordedRef(old(store.rows), dbId, replies, |docs|)
  {
    ghost var tail := DocumentSends(docs, captionSent, KeyOnly);
    var sentCaption := captionSent;
    sent := [];
    var i := 0;
    while i < |docs|
      invariant 0 <= i <= |docs|
      invariant store.Valid() && store.nextId == old(store.nextId)
      invariant sentCaption <==> offset + i > 0
      invariant sent == tail[..i]
      invariant forall k :: 0 <= k < offset + i ==> Reply(replies, k).Some?
      invariant store.rows == if captionSent || i == 0 then old(store.rows)
                              else WithChannelRef(old(store.rows), dbId, Reply(replies, 0).value)
    {
      var caption := if !sentCaption then Full else KeyOnly;
      var reply := Reply(replies, offset + i);
      if reply.None? {
        DeliveredAt(replies, offset + |docs|, offset + i);
        return sent, false;
      }
      if !sentCaption {
        store.SetChannelMsgId(dbId, reply.value);
      }
      sentCaption := true;
      assert tail[i] == Solo(Post(docs[i], caption));
      PrefixGrows(tail, i);
      sent := sent + [Solo(Post(docs[i], caption))];
      i := i + 1;
    }
    DeliveredAt(replies, offset + |docs|, offset + |docs|);
    assert sent == tail;
    ok := true;
  }

  /** `_send_batch_to_channel`, the k-th transport call answered by
      `Reply(replies, k)` (None: it raised). The calls made are a prefix of the
      emission plan, ending at the first failure; only the first call's
      message id is recorded. */
  method SendBatchToChannel(store: FileStore, dbId: RowId, infos: seq<FileInfo>, replies: seq<Option<MsgId>>)
    returns (sent: seq<Dispatch>, ok: bool)
    requires store.Valid()
    modifies store
    ensures store.Valid() && store.nextId == old(store.nextId)
    ensures var plan := EmissionPlan(infos);
            sent == plan[..Delivered(replies, |plan|)] && (ok <==> Delivered(replies, |plan|) == |plan|)
    ensures store.rows == RecordedRef(old(store.rows), dbId, replies, |EmissionPlan(infos)|)
  {
    var media := GroupItems(infos);
    var docs := OtherFiles(infos);
    PlanShape(infos, KeyOnly);
    var head: seq<Dispatch> := [];
    if media != [] {
      var posts := BuildMediaGroup(media);
      var reply := Reply(replies, 0);
      if reply.None? {
        DeliveredAt(replies, |EmissionPlan(infos)|, 0);
        return [], false;
      }
      store.SetChannelMsgId(dbId, reply.value);
      head := [MediaGroup(posts)];
    }
    var tail;
    tail, ok := SendDocuments(store, dbId, docs, media != [], replies, |head|);
    ghost var all := DocumentSends(docs, media != [], KeyOnly);
    assert EmissionPlan(infos) == head + all;
    PrefixOfAppend(head, all, Delivered(replies, |head| + |docs|) - |head|);
    sent := head + tail;
  }

  /** The batch branch of `handle_key`: the calls it makes to send a stored
      batch back to the user. */
  method ReplayBatch(infos: seq<FileInfo>) returns (calls: seq<Dispatch>)
    ensures calls == ReplayPlan(infos)
  {
    var media := GroupItems(infos);
    var docs := OtherFiles(infos);
    var captionSent := false;
    calls := [];
    if media != [] {
      var posts := BuildMediaGroup(media);
      captionSent := true;
      calls := [MediaGroup(posts)];
    }
    var i := 0;
    while i < |docs|
      invariant 0 <= i <= |docs|
      invariant captionSent <==> media != [] || i > 0
      invariant calls == (if media == [] then [] else [MediaGroup(GroupPosts(media))])
                         + DocumentSends(docs[..i], media != [], Empty)
    {
      var caption := if !captionSent then Full else Empty;
      calls := calls + [Solo(Post(docs[i], caption))];
      captionSent := true;
      i := i + 1;
    }
    assert docs[..i] == docs;
  }
}
