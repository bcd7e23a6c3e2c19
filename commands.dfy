/** The owner commands: `/update <key> <note...>`, `/delete <key>` and
    `/list`. Each acts only on the rows of the user who sends it; the
    Telegram side effects they ask for are returned as values. */
module Commands {

  import opened Media
  import opened Store

  /** `' '.join(words)`. */
  function Join(words: seq<string>): (r: string)
    ensures |words| == 1 ==> r == words[0]
  {
    if words == [] then ""
    else if |words| == 1 then words[0]
    else words[0] + " " + Join(words[1..])
  }

  /** The index of the first space in `s`, or `|s|` when there is none; a
      helper of `SplitOnSpace`. */
  function SpaceIndex(s: string): (i: nat)
    ensures i <= |s|
    ensures i < |s| ==> s[i] == ' '
    ensures forall j :: 0 <= j < i ==> s[j] != ' '
  {
    if s == [] || s[0] == ' ' then 0 else 1 + SpaceIndex(s[1..])
  }

  /** `s.split(' ')`: the pieces between single spaces, empty ones included.
      It is the inverse `Join` is proved against; the bot itself never splits. */
  function SplitOnSpace(s: string): (r: seq<string>)
    ensures r != []
    decreases |s|
  {
    var i := SpaceIndex(s);
    if i == |s| then [s] else [s[..i]] + SplitOnSpace(s[i + 1..])
  }

  /** Joining the pieces of a split gives the text back. */
  lemma {:induction false} JoinSplit(s: string)
    ensures Join(SplitOnSpace(s)) == s
    decreases |s|
  {
    var i := SpaceIndex(s);
    if i < |s| {
      var rest := s[i + 1..];
      JoinSplit(rest);
      assert SplitOnSpace(s) == [s[..i]] + SplitOnSpace(rest);
      assert s == s[..i] + " " + rest;
    }
  }

  /** Splitting the joined words of a command gives the words back, as long
      as no word holds a space (Telegram's arguments never do). */
  lemma {:induction false} SplitJoin(words: seq<string>)
    requires words != []
    requires forall k :: 0 <= k < |words| ==> ' ' !in words[k]
    ensures SplitOnSpace(Join(words)) == words
  {
    var w := words[0];
    var s := Join(words);
    var i := SpaceIndex(s);
    if |words| == 1 {
      assert s == w;
    } else {
      var rest := Join(words[1..]);
      assert s == w + " " + rest;
      assert forall j :: 0 <= j < |w| ==> s[j] == w[j];
      assert s[|w|] == ' ';
      assert i == |w|;
      assert s[..i] == w && s[i + 1..] == rest;
      SplitJoin(words[1..]);
      assert words == [w] + words[1..];
    }
  }

  /** A request to rewrite the caption of a channel message. */
  datatype CaptionEdit = CaptionEdit(msg: MsgId, key: string, note: string)

  /** The caption edit `update_note` asks for: only a row with a (non-zero)
      channel message that is not a batch has its caption rewritten. */
  function EditFor(row: Row, key: string, note: string): (r: Option<CaptionEdit>)
    ensures r.Some? <==> row.channelMsgId.Some? && row.channelMsgId.value != 0 && !row.payload.Batch?
    ensures r.Some? ==> r.value == CaptionEdit(row.channelMsgId.value, key, note)
  {
    match row.channelMsgId
    case Some(m) => if m != 0 && !row.payload.Batch? then Some(CaptionEdit(m, key, note)) else None
    case None => None
  }

  /** The channel message `delete_key` asks to delete: the row's reference when it is non-zero. */
  function DeleteFor(row: Row): (r: Option<MsgId>)
    ensures r.Some? <==> row.channelMsgId.Some? && row.channelMsgId.value != 0
    ensures r.Some? ==> r == row.channelMsgId
  {
    match row.channelMsgId
    case Some(m) => if m != 0 then Some(m) else None
    case None => None
  }

  datatype UpdateReply =
    | UpdateUsage
    | UpdateDenied
    | Updated(note: string, edit: Option<CaptionEdit>)

  /** `update_note`: fewer than two arguments is a format error; otherwise the
      first argument is the key and the rest, joined by spaces, the note. */
  method UpdateCommand(store: FileStore, user: UserId, args: seq<string>) returns (reply: UpdateReply)
    requires store.Valid()
    modifies store
    ensures store.Valid() && store.nextId == old(store.nextId)
    ensures |args| < 2 ==> reply == UpdateUsage && store.rows == old(store.rows)
    ensures |args| >= 2 ==>
              var key, note := args[0], Join(args[1..]);
              (reply == UpdateDenied <==> !exists id :: OwnedBy(old(store.rows), id, key, user))
              && (reply == UpdateDenied ==> store.rows == old(store.rows))
              && (reply != UpdateDenied ==>
                    exists id :: OwnedBy(old(store.rows), id, key, user)
                                 && store.rows == old(store.rows)[id := old(store.rows)[id].(note := note)]
                                 && reply == Updated(note, EditFor(old(store.rows)[id], key, note)))
  {
    if |args| < 2 {
      return UpdateUsage;
    }
    var key, note := args[0], Join(args[1..]);
    var before := store.rows;
    var hit := store.UpdateNote(key, user, note);
    if hit.None? {
      return UpdateDenied;
    }
    reply := Updated(note, EditFor(before[hit.value], key, note));
  }

  datatype DeleteReply =
    | DeleteUsage
    | DeleteDenied
    | Deleted(channelDelete: Option<MsgId>)

  /** `delete_key`: exactly one argument, the key; the owner's row goes and
      its channel message, if any, is to be deleted. */
  method DeleteCommand(store: FileStore, user: UserId, args: seq<string>) returns (reply: DeleteReply)
    requires store.Valid()
    modifies store
    ensures store.Valid() && store.nextId == old(store.nextId)
    ensures |args| != 1 ==> reply == DeleteUsage && store.rows == old(store.rows)
    ensures |args| == 1 ==>
              var key := args[0];
              (reply == DeleteDenied <==> !exists id :: OwnedBy(old(store.rows), id, key, user))
              && (reply == DeleteDenied ==> store.rows == old(store.rows))
              && (reply != DeleteDenied ==>
                    exists id :: OwnedBy(old(store.rows), id, key, user)
                                 && store.rows == old(store.rows) - {id}
                                 && reply == Deleted(DeleteFor(old(store.rows)[id])))
  {
    if |args| != 1 {
      return DeleteUsage;
    }
    var key := args[0];
    var hit, channelRef := store.Delete(key, user);
    if hit.None? {
      return DeleteDenied;
    }
    reply := Deleted(if channelRef.Some? && channelRef.value != 0 then channelRef else None);
  }

  /** `list_files`: the owner's keys and notes, newest first. */
  method ListCommand(store: FileStore, user: UserId) returns (entries: seq<(string, string)>)
    requires store.Valid()
    ensures |entries| == |OwnerIds(store.rows, user, store.nextId)|
    ensures forall i :: 0 <= i < |entries| ==>
              var id := OwnerIds(store.rows, user, store.nextId)[i];
              id in store.rows && store.rows[id].userId == user && entries[i] == (store.rows[id].key, store.rows[id].note)
    ensures forall id :: id in store.rows && store.rows[id].userId == user ==>
              exists i :: 0 <= i < |entries| && entries[i] == (store.rows[id].key, store.rows[id].note)
  {
    entries := store.ListByOwner(user);
    forall id | id in store.rows && store.rows[id].userId == user
      ensures exists i :: 0 <= i < |entries| && entries[i] == (store.rows[id].key, store.rows[id].note)
    {
      var ids := OwnerIds(store.rows, user, store.nextId);
      assert id in ids;
      var i :| 0 <= i < |ids| && ids[i] == id;
      assert entries[i] == (store.rows[id].key, store.rows[id].note);
    }
  }
}
