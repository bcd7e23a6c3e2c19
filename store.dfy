/** The `files` table: an AUTOINCREMENT id, the owner, the stored file or
    batch, a UNIQUE key, the original name, the note and the id of the
    channel message that mirrors the row. */
module Store {

  import opened Media

  type RowId = nat
  type MsgId = nat

  /** `file_type` and `file_id` together: one file (`file_type` is its kind)
      or a batch (`file_type` is 'batch' and `file_id` the encoded list). */
  datatype Payload = One(info: FileInfo) | Batch(items: seq<FileInfo>)

  datatype Row = Row(
    userId: UserId,
    payload: Payload,
    key: string,
    originalName: string,
    note: string,
    channelMsgId: Option<MsgId>)

  /** The UNIQUE constraint on `key`. */
  ghost predicate UniqueKeys(rows: map<RowId, Row>) {
    forall a, b :: a in rows && b in rows && rows[a].key == rows[b].key ==> a == b
  }

  ghost predicate KeyTaken(rows: map<RowId, Row>, key: string) {
    exists id :: id in rows && rows[id].key == key
  }

  ghost predicate OwnedBy(rows: map<RowId, Row>, id: RowId, key: string, user: UserId) {
    id in rows && rows[id].key == key && rows[id].userId == user
  }

  /** `WHERE key = ?` over the ids below `below`. */
  function FindKey(rows: map<RowId, Row>, key: string, below: nat): (r: Option<RowId>)
    ensures r.Some? ==> r.value < below && r.value in rows && rows[r.value].key == key
    ensures r.None? ==> forall id :: id in rows && id < below ==> rows[id].key != key
  {
    if below == 0 then None
    else if below - 1 in rows && rows[below - 1].key == key then Some(below - 1)
    else FindKey(rows, key, below - 1)
  }

  /** `WHERE user_id = ? ORDER BY id DESC` over the ids below `below`. */
  function OwnerIds(rows: map<RowId, Row>, user: UserId, below: nat): (r: seq<RowId>)
    ensures forall i :: 0 <= i < |r| ==> r[i] < below && r[i] in rows && rows[r[i]].userId == user
    ensures forall id :: id in rows && id < below && rows[id].userId == user ==> id in r
    ensures forall i, j :: 0 <= i < j < |r| ==> r[i] > r[j]
  {
    if below == 0 then []
    else if below - 1 in rows && rows[below - 1].userId == user then [below - 1] + OwnerIds(rows, user, below - 1)
    else OwnerIds(rows, user, below - 1)
  }

  /** The owner's ids below `below` depend only on which rows exist there and whose they are. */
  lemma {:induction false} OwnerIdsFrame(a: map<RowId, Row>, b: map<RowId, Row>, user: UserId, below: nat)
    requires forall id :: id < below ==> (id in a <==> id in b)
    requires forall id :: id < below && id in a ==> a[id].userId == b[id].userId
    ensures OwnerIds(a, user, below) == OwnerIds(b, user, below)
  {
    if below > 0 {
      OwnerIdsFrame(a, b, user, below - 1);
    }
  }

  /** A row inserted under a fresh, highest id is listed first to its owner
      and leaves every other owner's list as it was. */
  lemma OwnerIdsAfterInsert(rows: map<RowId, Row>, below: nat, row: Row, user: UserId)
    requires forall id :: id in rows ==> id < below
    ensures OwnerIds(rows[below := row], user, below + 1)
            == (if row.userId == user then [below] else []) + OwnerIds(rows, user, below)
  {
    OwnerIdsFrame(rows[below := row], rows, user, below);
  }

  /** `UPDATE files SET channel_msg_id = ? WHERE id = ?`: no row matches, nothing changes. */
  function WithChannelRef(rows: map<RowId, Row>, id: RowId, msg: MsgId): (r: map<RowId, Row>)
    ensures r.Keys == rows.Keys
    ensures forall other :: other in rows && other != id ==> r[other] == rows[other]
    ensures id in rows ==> r[id] == rows[id].(channelMsgId := Some(msg))
  {
    if id in rows then rows[id := rows[id].(channelMsgId := Some(msg))] else rows
  }

  /** Setting the channel reference leaves keys, owners and notes alone. */
  lemma WithChannelRefKeepsKeys(rows: map<RowId, Row>, id: RowId, msg: MsgId)
    requires UniqueKeys(rows)
    ensures UniqueKeys(WithChannelRef(rows, id, msg))
  {
  }

  /** With unique keys, the one row holding a key decides ownership: some row
      has this key and this owner exactly when the row found by key is the owner's. */
  lemma OwnershipByKey(rows: map<RowId, Row>, below: nat, key: string, user: UserId)
    requires UniqueKeys(rows) && forall id :: id in rows ==> id < below
    ensures (exists id :: OwnedBy(rows, id, key, user))
            <==> FindKey(rows, key, below).Some? && rows[FindKey(rows, key, below).value].userId == user
  {
    var found := FindKey(rows, key, below);
    if found.Some? {
      assert OwnedBy(rows, found.value, key, user) <==> rows[found.value].userId == user;
      assert forall id :: OwnedBy(rows, id, key, user) ==> id == found.value;
    }
  }

  class FileStore {
    var rows: map<RowId, Row>
    /** The next AUTOINCREMENT value; ids are never reused. */
    var nextId: RowId

    ghost predicate Valid()
      reads this
    {
      1 <= nextId
      && (forall id :: id in rows ==> 1 <= id < nextId)
      && UniqueKeys(rows)
    }

    /** `init_db` on a fresh database: the empty table. */
    constructor ()
      ensures Valid() && rows == map[] && nextId == 1
    {
      rows := map[];
      nextId := 1;
    }

    /** The INSERT of `_save_batch_to_db` and `_handle_single_file`. It fails,
        yielding no id, when the database errs (`diskOk` false) or the key is
        already taken; it is not retried. */
    method Insert(userId: UserId, payload: Payload, key: string, originalName: string, note: string, diskOk: bool)
      returns (id: Option<RowId>)
      requires Valid()
      modifies this
      ensures Valid()
      ensures id.Some? <==> diskOk && !KeyTaken(old(rows), key)
      ensures id.Some? ==> id.value == old(nextId) && nextId == old(nextId) + 1
                           && rows == old(rows)[id.value := Row(userId, payload, key, originalName, note, None)]
      ensures id.None? ==> rows == old(rows) && nextId == old(nextId)
    {
      if !diskOk || FindKey(rows, key, nextId).Some? {
        id := None;
        return;
      }
      id := Some(nextId);
      rows := rows[nextId := Row(userId, payload, key, originalName, note, None)];
      nextId := nextId + 1;
    }

    /** `_update_channel_msg_id`. */
    method SetChannelMsgId(id: RowId, msg: MsgId)
      requires Valid()
      modifies this
      ensures Valid()
      ensures rows == WithChannelRef(old(rows), id, msg) && nextId == old(nextId)
    {
      WithChannelRefKeepsKeys(rows, id, msg);
      rows := WithChannelRef(rows, id, msg);
    }

    /** `SELECT ... FROM files WHERE key = ?`. */
    function FindByKey(key: string): (r: Option<RowId>)
      reads this
      requires Valid()
      ensures r.Some? ==> r.value in rows && rows[r.value].key == key
      ensures r.None? <==> !KeyTaken(rows, key)
    {
      FindKey(rows, key, nextId)
    }

    /** `SELECT key, custom_note FROM files WHERE user_id = ? ORDER BY id DESC`. */
    function ListByOwner(user: UserId): (r: seq<(string, string)>)
      reads this
      requires Valid()
      ensures |r| == |OwnerIds(rows, user, nextId)|
      ensures forall i :: 0 <= i < |r| ==>
                var row := rows[OwnerIds(rows, user, nextId)[i]]; r[i] == (row.key, row.note)
    {
      var table, ids := rows, OwnerIds(rows, user, nextId);
      seq(|ids|, i requires 0 <= i < |ids| => (table[ids[i]].key, table[ids[i]].note))
    }

    /** The note update of `update_note`: only the row with this key AND this
        owner changes; `hit` is its id. */
    method UpdateNote(key: string, user: UserId, note: string) returns (hit: Option<RowId>)
      requires Valid()
      modifies this
      ensures Valid() && nextId == old(nextId)
      ensures hit.Some? <==> exists id :: OwnedBy(old(rows), id, key, user)
      ensures hit.Some? ==> OwnedBy(old(rows), hit.value, key, user)
                            && rows == old(rows)[hit.value := old(rows)[hit.value].(note := note)]
      ensures hit.None? ==> rows == old(rows)
    {
      OwnershipByKey(rows, nextId, key, user);
      var found := FindKey(rows, key, nextId);
      if found.None? || rows[found.value].userId != user {
        hit := None;
        return;
      }
      hit := found;
      rows := rows[found.value := rows[found.value].(note := note)];
    }

    /** The DELETE of `delete_key`: only the row with this key AND this owner
        goes; `channelRef` is the channel message it had. */
    method Delete(key: string, user: UserId) returns (hit: Option<RowId>, channelRef: Option<MsgId>)
      requires Valid()
      modifies this
      ensures Valid() && nextId == old(nextId)
      ensures hit.Some? <==> exists id :: OwnedBy(old(rows), id, key, user)
      ensures hit.Some? ==> OwnedBy(old(rows), hit.value, key, user)
                            && rows == old(rows) - {hit.value}
                            && channelRef == old(rows)[hit.value].channelMsgId
      ensures hit.None? ==> rows == old(rows) && channelRef == None
    {
      OwnershipByKey(rows, nextId, key, user);
      var found := FindKey(rows, key, nextId);
      if found.None? || rows[found.value].userId != user {
        hit, channelRef := None, None;
        return;
      }
      hit, channelRef := found, rows[found.value].channelMsgId;
      rows := rows - {found.value};
    }
  }
}
