/** The three remote stores every hook works against, as abstract state: the
    `folders` table, the `user_files` object bucket and the `user_storage`
    quota table, with the requests the hooks send them. Which request fails is
    decided by the remote side; it reaches the model as a `Faults` value. */
module Stores {
  import opened Options
  import opened Paths
  import Seqs

  type Bytes = seq<bv8>

  /** A row of the `folders` table. A `parentPath` of `None` is the SQL null
      that marks a folder at the root. */
  datatype FolderRow = FolderRow(id: string, name: string, path: string, parentPath: Option<string>, userId: string)

  /** A row of the `user_storage` table. */
  datatype QuotaRow = QuotaRow(used: int, limit: int)

  /** The user's quota row, as `.maybeSingle()` returns it. */
  function QuotaOf(quota: map<string, QuotaRow>, uid: string): (row: Option<QuotaRow>)
    ensures row.Some? <==> uid in quota
    ensures row.Some? ==> row.value == quota[uid]
  {
    if uid in quota then Some(quota[uid]) else None
  }

  /** A file picked in the browser (`File`); its `size` is its byte length. */
  datatype LocalFile = LocalFile(name: string, content: Bytes)

  function Size(file: LocalFile): nat
  {
    |file.content|
  }

  /** Which of the remote requests of one call come back with an error: a
      select (`read`), an insert/update/delete (`write`), a download, an
      upload, a remove, a ledger RPC. */
  datatype Faults = Faults(read: bool, write: bool, download: bool, upload: bool, remove: bool, rpc: bool)

  /** The row filter `.eq('id', id)`, followed by `.eq('user_id', owner)`
      when `owner` is given. */
  datatype RowMatch = RowMatch(id: string, owner: Option<string>) {
    predicate Selects(row: FolderRow)
    {
      row.id == id && (owner.None? || row.userId == owner.value)
    }
  }

  /** The table after `.delete()` with filter `m`: the rows it does not
      select, in their order. */
  function Remaining(rows: seq<FolderRow>, m: RowMatch): (r: seq<FolderRow>)
    ensures forall i :: 0 <= i < |r| ==> r[i] in rows && !m.Selects(r[i])
    ensures forall i :: 0 <= i < |rows| && !m.Selects(rows[i]) ==> rows[i] in r
  {
    Seqs.Filter(rows, (row: FolderRow) => !m.Selects(row))
  }

  function RenameRow(row: FolderRow, m: RowMatch, newName: string): FolderRow
  {
    if m.Selects(row) then row.(name := newName) else row
  }

  /** The table after `.update({ name: newName })` with filter `m`: only the
      `name` of the selected rows changes; ids, owners, paths and parent paths
      stay as they were. */
  function Renamed(rows: seq<FolderRow>, m: RowMatch, newName: string): (r: seq<FolderRow>)
    ensures |r| == |rows|
    ensures forall i :: 0 <= i < |rows| ==>
      && r[i].id == rows[i].id && r[i].userId == rows[i].userId
      && r[i].path == rows[i].path && r[i].parentPath == rows[i].parentPath
      && r[i].name == (if m.Selects(rows[i]) then newName else rows[i].name)
  {
    Seqs.Map(rows, (row: FolderRow) => RenameRow(row, m, newName))
  }

  /** The directory a row's `parentPath` names ("" for the root). */
  function ParentDir(parentPath: Option<string>): string
  {
    parentPath.GetOr("")
  }

  /** A row whose `path` is its parent's path joined with its name. */
  predicate PathConsistent(row: FolderRow)
  {
    row.path == JoinPath(ParentDir(row.parentPath), row.name)
  }

  /** The row a folder creation inserts for `name` inside `dir`. */
  function NewFolderRow(id: string, uid: string, dir: string, name: string): (row: FolderRow)
    ensures PathConsistent(row)
    ensures row.parentPath == ParentOf(dir) && row.name == name && row.userId == uid
  {
    FolderRow(id, name, JoinPath(dir, name), ParentOf(dir), uid)
  }

  /** Renaming a folder does not touch its `path`, so a consistent row stops
      being consistent as soon as the new name differs from the old one. */
  lemma RenameBreaksConsistency(row: FolderRow, m: RowMatch, newName: string)
    requires PathConsistent(row) && m.Selects(row) && newName != row.name
    ensures !PathConsistent(RenameRow(row, m, newName))
  {
    if PathConsistent(RenameRow(row, m, newName)) {
      JoinPathInjective(ParentDir(row.parentPath), row.name, newName);
    }
  }

  /** The ledger after `increment_storage_used` (positive `delta`) or
      `decrement_storage_used` (negative `delta`) for `uid`: the user's row,
      if there is one, moves by `delta`; no row is created and no other row
      changes. */
  function Adjust(quota: map<string, QuotaRow>, uid: string, delta: int): (q: map<string, QuotaRow>)
    ensures q.Keys == quota.Keys
    ensures uid in quota ==> q[uid] == QuotaRow(quota[uid].used + delta, quota[uid].limit)
    ensures forall u :: u in quota && u != uid ==> q[u] == quota[u]
  {
    if uid in quota then quota[uid := QuotaRow(quota[uid].used + delta, quota[uid].limit)] else quota
  }

  /** Two adjustments of the same ledger add up. */
  lemma AdjustTwice(quota: map<string, QuotaRow>, uid: string, a: int, b: int)
    ensures Adjust(Adjust(quota, uid, a), uid, b) == Adjust(quota, uid, a + b)
  {
  }

  /** The remote state. */
  class Cloud {
    var folders: seq<FolderRow>
    var blobs: map<string, Bytes>
    var quota: map<string, QuotaRow>

    constructor (folders: seq<FolderRow>, blobs: map<string, Bytes>, quota: map<string, QuotaRow>)
      ensures this.folders == folders && this.blobs == blobs && this.quota == quota
    {
      this.folders := folders;
      this.blobs := blobs;
      this.quota := quota;
    }

    /** `from('folders').insert(row)`. */
    method Insert(row: FolderRow)
      modifies this
      ensures folders == old(folders) + [row]
      ensures blobs == old(blobs) && quota == old(quota)
    {
      folders := folders + [row];
    }

    /** `from('folders').delete()` with filter `m`. */
    method DeleteRows(m: RowMatch)
      modifies this
      ensures folders == Remaining(old(folders), m)
      ensures blobs == old(blobs) && quota == old(quota)
    {
      folders := Remaining(folders, m);
    }

    /** `from('folders').update({ name: newName })` with filter `m`. */
    method UpdateName(m: RowMatch, newName: string)
      modifies this
      ensures folders == Renamed(old(folders), m, newName)
      ensures blobs == old(blobs) && quota == old(quota)
    {
      folders := Renamed(folders, m, newName);
    }

    /** `storage.from('user_files').upload(key, content)` without `upsert`:
        the bucket refuses to overwrite a key it already holds. */
    method Upload(key: string, content: Bytes) returns (stored: bool)
      modifies this
      ensures stored <==> key !in old(blobs)
      ensures blobs == if stored then old(blobs)[key := content] else old(blobs)
      ensures folders == old(folders) && quota == old(quota)
    {
      stored := key !in blobs;
      if stored {
        blobs := blobs[key := content];
      }
    }

    /** `storage.from('user_files').remove([key])`; removing a missing key is
        not an error. */
    method Remove(key: string)
      modifies this
      ensures blobs == old(blobs) - {key}
      ensures folders == old(folders) && quota == old(quota)
    {
      blobs := blobs - {key};
    }

    /** `rpc('increment_storage_used' | 'decrement_storage_used', ...)`. */
    method AdjustUsed(uid: string, delta: int)
      modifies this
      ensures quota == Adjust(old(quota), uid, delta)
      ensures folders == old(folders) && blobs == old(blobs)
    {
      quota := Adjust(quota, uid, delta);
    }
  }
}
