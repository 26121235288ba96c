/** The `useFileSystem(path)` hook of src/hooks/use-file-system.tsx: the
    listing of one directory, merged from the `folders` table and the object
    bucket, and the create-folder, batch-upload, delete and rename operations
    that write to the remote stores and then reload the listing. */
module FileSystem {
  import opened Options
  import opened Text
  import opened Paths
  import opened Stores
  import opened FileTypes
  import Seqs

  /** An entry of the listing (`FileItem`); `url` holds the key the public URL
      is derived from. */
  datatype FileItem = FileItem(id: string, name: string, kind: FileKind, size: Option<nat>, path: Option<string>, url: Option<string>)

  /** One object of the bucket's listing of a prefix; `size` is
      `metadata?.size`. */
  datatype StoredObject = StoredObject(id: string, name: string, size: Option<nat>)

  /** The remote answers to one `loadFiles`: the bucket's listing of the
      directory, and whether one of its three reads (folder rows, objects,
      quota row) fails with an error other than "no row". */
  datatype ListAnswer = ListAnswer(objects: seq<StoredObject>, fails: bool)

  /** The limit shown when the user has no quota row (10 GiB). */
  const DefaultLimit: int := 10 * 1024 * 1024 * 1024

  // ---------------------------------------------------------------- listing

  /** `.eq('user_id', uid).eq('parent_path', dir || null)`. */
  predicate InDirectory(row: FolderRow, uid: string, dir: string)
  {
    row.userId == uid && row.parentPath == ParentOf(dir)
  }

  /** `!file.name.endsWith('/')`. */
  predicate IsFileObject(obj: StoredObject)
  {
    !EndsWith(obj.name, '/')
  }

  function FoldersIn(rows: seq<FolderRow>, uid: string, dir: string): seq<FolderRow>
  {
    Seqs.Filter(rows, (row: FolderRow) => InDirectory(row, uid, dir))
  }

  function FilesOf(objects: seq<StoredObject>): seq<StoredObject>
  {
    Seqs.Filter(objects, IsFileObject)
  }

  function FolderEntry(row: FolderRow): FileItem
  {
    FileItem(row.id, row.name, Folder, None, Some(row.path), None)
  }

  function FileEntry(base: string, obj: StoredObject): FileItem
  {
    FileItem(obj.id, obj.name, FileType(obj.name), obj.size, Some(base + "/" + obj.name), Some(base + "/" + obj.name))
  }

  /** `mappedFolders`: one folder entry per row of `uid` whose parent is
      `dir` (null at the root), carrying that row's id, name and path. */
  function FolderItems(rows: seq<FolderRow>, uid: string, dir: string): (r: seq<FileItem>)
    ensures |r| == |FoldersIn(rows, uid, dir)|
    ensures forall i :: 0 <= i < |r| ==>
      var row := FoldersIn(rows, uid, dir)[i];
      && row in rows && InDirectory(row, uid, dir)
      && r[i].kind == Folder && r[i].id == row.id && r[i].name == row.name && r[i].path == Some(row.path)
  {
    Seqs.Map(FoldersIn(rows, uid, dir), FolderEntry)
  }

  /** `mappedFiles`: one entry per listed object whose name does not end in
      '/', typed by its extension, with path and URL key `base/name`. */
  function FileItems(objects: seq<StoredObject>, base: string): (r: seq<FileItem>)
    ensures |r| == |FilesOf(objects)|
    ensures forall i :: 0 <= i < |r| ==>
      var obj := FilesOf(objects)[i];
      && obj in objects && !EndsWith(obj.name, '/')
      && r[i].name == obj.name && r[i].kind == FileType(obj.name) && r[i].kind != Folder
      && r[i].size == obj.size && r[i].path == Some(base + "/" + obj.name) && r[i].url == r[i].path
  {
    Seqs.Map(FilesOf(objects), (obj: StoredObject) => FileEntry(base, obj))
  }

  /** The hook's `files` result `[...folders, ...files]` for a listing of
      `dir`: exactly the matching folder rows, then exactly the objects that
      are not directory placeholders, and the entries of type folder are
      precisely the first ones. */
  function Listing(rows: seq<FolderRow>, uid: string, dir: string, objects: seq<StoredObject>): (r: seq<FileItem>)
    ensures |r| == |FoldersIn(rows, uid, dir)| + |FilesOf(objects)|
    ensures forall i :: 0 <= i < |r| ==> (r[i].kind == Folder <==> i < |FoldersIn(rows, uid, dir)|)
  {
    FolderItems(rows, uid, dir) + FileItems(objects, BasePath(uid, dir))
  }

  /** A folder created in `dir` is the last folder entry of the next listing
      of `dir`, after the folders that were there before. */
  lemma NewFolderIsListed(rows: seq<FolderRow>, id: string, uid: string, dir: string, name: string)
    ensures FolderItems(rows + [NewFolderRow(id, uid, dir, name)], uid, dir)
         == FolderItems(rows, uid, dir) + [FolderEntry(NewFolderRow(id, uid, dir, name))]
  {
    var row := NewFolderRow(id, uid, dir, name);
    var keep := (r: FolderRow) => InDirectory(r, uid, dir);
    Seqs.FilterConcat(rows, [row], keep);
    assert Seqs.Filter([row], keep) == [row];
    Seqs.MapConcat(FoldersIn(rows, uid, dir), [row], FolderEntry);
  }

  /** The `.folder` marker written by a folder creation is not filtered out:
      listing the new folder shows it as a file of type other. */
  lemma MarkerIsListedAsFile(base: string, id: string, size: Option<nat>)
    ensures FileItems([StoredObject(id, ".folder", size)], base)
         == [FileEntry(base, StoredObject(id, ".folder", size))]
    ensures FileEntry(base, StoredObject(id, ".folder", size)).kind == Other
  {
    MarkerIsOther();
    assert IsFileObject(StoredObject(id, ".folder", size));
  }

  /** `storageData?.storage_used || 0`. */
  function UsedOrZero(row: Option<QuotaRow>): (used: int)
    ensures row.None? ==> used == 0
    ensures row.Some? ==> used == row.value.used
  {
    if row.Some? && row.value.used != 0 then row.value.used else 0
  }

  /** `storageData?.storage_limit || 10 GiB`: a missing row and a zero limit
      both give the default. */
  function LimitOrDefault(row: Option<QuotaRow>): (limit: int)
    ensures row.None? || row.value.limit == 0 ==> limit == DefaultLimit
    ensures row.Some? && row.value.limit != 0 ==> limit == row.value.limit
  {
    if row.Some? && row.value.limit != 0 then row.value.limit else DefaultLimit
  }

  // ----------------------------------------------------------- batch upload

  /** `files.reduce((acc, file) => acc + file.size, 0)`. */
  function TotalSize(batch: seq<LocalFile>): (total: nat)
    ensures batch == [] ==> total == 0
    ensures forall i :: 0 <= i < |batch| ==> Size(batch[i]) <= total
  {
    if batch == [] then 0 else TotalSize(batch[..|batch| - 1]) + Size(batch[|batch| - 1])
  }

  /** The admission test of `uploadFiles`: the batch is refused when
      `storageUsed + totalSize > storageLimit`. */
  predicate Admits(used: int, limit: int, batch: seq<LocalFile>)
    ensures Admits(used, limit, batch) ==> forall i :: 0 <= i < |batch| ==> used + Size(batch[i]) <= limit
    ensures batch == [] ==> (Admits(used, limit, batch) <==> used <= limit)
  {
    used + TotalSize(batch) <= limit
  }

  /** Whether the upload of `file` writes it into a bucket holding `blobs`:
      the request goes through and its key is not taken yet (the upload does
      not pass `upsert`, so the bucket refuses to overwrite). */
  predicate Lands(blobs: map<string, Bytes>, uid: string, dir: string, file: LocalFile, answer: Faults)
  {
    !answer.upload && ObjectKey(uid, dir, file.name) !in blobs
  }

  /** The bucket after the files of the batch have been uploaded, in batch
      order, at `uid/JoinPath(dir, name)`. */
  function StoredAfter(blobs: map<string, Bytes>, uid: string, dir: string, batch: seq<LocalFile>, answers: seq<Faults>): map<string, Bytes>
    requires |answers| == |batch|
  {
    if batch == [] then blobs
    else
      var n := |batch| - 1;
      var before := StoredAfter(blobs, uid, dir, batch[..n], answers[..n]);
      if Lands(before, uid, dir, batch[n], answers[n]) then before[ObjectKey(uid, dir, batch[n].name) := batch[n].content] else before
  }

  /** Whether `batch[i]` is written, after the files before it. */
  predicate LandsAt(blobs: map<string, Bytes>, uid: string, dir: string, batch: seq<LocalFile>, answers: seq<Faults>, i: nat)
    requires |answers| == |batch| && i < |batch|
  {
    Lands(StoredAfter(blobs, uid, dir, batch[..i], answers[..i]), uid, dir, batch[i], answers[i])
  }

  /** The names of the files whose upload succeeded, in batch order. */
  function SucceededNames(blobs: map<string, Bytes>, uid: string, dir: string, batch: seq<LocalFile>, answers: seq<Faults>): (names: seq<string>)
    requires |answers| == |batch|
    ensures |names| <= |batch|
  {
    if batch == [] then []
    else
      var n := |batch| - 1;
      SucceededNames(blobs, uid, dir, batch[..n], answers[..n])
        + (if LandsAt(blobs, uid, dir, batch, answers, n) then [batch[n].name] else [])
  }

  /** The names of the files whose upload failed or was refused, in batch
      order. */
  function FailedNames(blobs: map<string, Bytes>, uid: string, dir: string, batch: seq<LocalFile>, answers: seq<Faults>): (names: seq<string>)
    requires |answers| == |batch|
    ensures |names| <= |batch|
  {
    if batch == [] then []
    else
      var n := |batch| - 1;
      FailedNames(blobs, uid, dir, batch[..n], answers[..n])
        + (if LandsAt(blobs, uid, dir, batch, answers, n) then [] else [batch[n].name])
  }

  /** The bytes the ledger is credited with: the size of every file whose
      upload succeeded and whose `increment_storage_used` call went through. */
  function CreditedBytes(blobs: map<string, Bytes>, uid: string, dir: string, batch: seq<LocalFile>, answers: seq<Faults>): nat
    requires |answers| == |batch|
  {
    if batch == [] then 0
    else
      var n := |batch| - 1;
      CreditedBytes(blobs, uid, dir, batch[..n], answers[..n])
        + (if LandsAt(blobs, uid, dir, batch, answers, n) && !answers[n].rpc then Size(batch[n]) else 0)
  }

  /** Whether a file lands does not depend on the files after it. */
  lemma LandsAtPrefix(blobs: map<string, Bytes>, uid: string, dir: string, batch: seq<LocalFile>, answers: seq<Faults>, n: nat, i: nat)
    requires |answers| == |batch| && i < n <= |batch|
    ensures LandsAt(blobs, uid, dir, batch[..n], answers[..n], i) == LandsAt(blobs, uid, dir, batch, answers, i)
  {
    assert batch[..n][..i] == batch[..i] && answers[..n][..i] == answers[..i];
  }

  /** One more file of the batch extends each outcome by that file alone. */
  lemma BatchStep(blobs: map<string, Bytes>, uid: string, dir: string, batch: seq<LocalFile>, answers: seq<Faults>, i: nat)
    requires |answers| == |batch| && i < |batch|
    ensures SucceededNames(blobs, uid, dir, batch[..i + 1], answers[..i + 1])
         == SucceededNames(blobs, uid, dir, batch[..i], answers[..i])
            + (if LandsAt(blobs, uid, dir, batch, answers, i) then [batch[i].name] else [])
    ensures FailedNames(blobs, uid, dir, batch[..i + 1], answers[..i + 1])
         == FailedNames(blobs, uid, dir, batch[..i], answers[..i])
            + (if LandsAt(blobs, uid, dir, batch, answers, i) then [] else [batch[i].name])
    ensures CreditedBytes(blobs, uid, dir, batch[..i + 1], answers[..i + 1])
         == CreditedBytes(blobs, uid, dir, batch[..i], answers[..i])
            + (if LandsAt(blobs, uid, dir, batch, answers, i) && !answers[i].rpc then Size(batch[i]) else 0)
    ensures StoredAfter(blobs, uid, dir, batch[..i + 1], answers[..i + 1])
         == (var before := StoredAfter(blobs, uid, dir, batch[..i], answers[..i]);
             if LandsAt(blobs, uid, dir, batch, answers, i)
             then before[ObjectKey(uid, dir, batch[i].name) := batch[i].content] else before)
  {
    assert batch[..i + 1][..i] == batch[..i] && answers[..i + 1][..i] == answers[..i];
    LandsAtPrefix(blobs, uid, dir, batch, answers, i + 1, i);
  }

  /** Every file of a batch is reported exactly once, as a success or as a
      failure. */
  lemma {:induction false} OutcomesPartitionBatch(blobs: map<string, Bytes>, uid: string, dir: string, batch: seq<LocalFile>, answers: seq<Faults>)
    requires |answers| == |batch|
    ensures |SucceededNames(blobs, uid, dir, batch, answers)| + |FailedNames(blobs, uid, dir, batch, answers)| == |batch|
  {
    if batch != [] {
      var n := |batch| - 1;
      OutcomesPartitionBatch(blobs, uid, dir, batch[..n], answers[..n]);
    }
  }

  /** Nothing succeeded exactly when no file of the batch was written. */
  lemma {:induction false} NothingSucceededIffNoneLanded(blobs: map<string, Bytes>, uid: string, dir: string, batch: seq<LocalFile>, answers: seq<Faults>)
    requires |answers| == |batch|
    ensures SucceededNames(blobs, uid, dir, batch, answers) == []
        <==> forall i :: 0 <= i < |batch| ==> !LandsAt(blobs, uid, dir, batch, answers, i)
  {
    if batch != [] {
      var n := |batch| - 1;
      NothingSucceededIffNoneLanded(blobs, uid, dir, batch[..n], answers[..n]);
      forall i | 0 <= i < n
        ensures LandsAt(blobs, uid, dir, batch[..n], answers[..n], i) == LandsAt(blobs, uid, dir, batch, answers, i)
      {
        LandsAtPrefix(blobs, uid, dir, batch, answers, n, i);
      }
    }
  }

  /** A batch whose every upload request fails writes nothing and reports no
      success. */
  lemma {:induction false} AllFaultsStoreNothing(blobs: map<string, Bytes>, uid: string, dir: string, batch: seq<LocalFile>, answers: seq<Faults>)
    requires |answers| == |batch|
    requires forall i :: 0 <= i < |batch| ==> answers[i].upload
    ensures SucceededNames(blobs, uid, dir, batch, answers) == []
    ensures StoredAfter(blobs, uid, dir, batch, answers) == blobs
  {
    if batch != [] {
      var n := |batch| - 1;
      assert forall i :: 0 <= i < n ==> answers[..n][i] == answers[i];
      AllFaultsStoreNothing(blobs, uid, dir, batch[..n], answers[..n]);
    }
  }

  /** Each reported success is a new object of the bucket. */
  lemma {:induction false} SuccessesAreNewObjects(blobs: map<string, Bytes>, uid: string, dir: string, batch: seq<LocalFile>, answers: seq<Faults>)
    requires |answers| == |batch|
    ensures |StoredAfter(blobs, uid, dir, batch, answers).Keys| == |blobs.Keys| + |SucceededNames(blobs, uid, dir, batch, answers)|
  {
    if batch != [] {
      var n := |batch| - 1;
      SuccessesAreNewObjects(blobs, uid, dir, batch[..n], answers[..n]);
      var before := StoredAfter(blobs, uid, dir, batch[..n], answers[..n]);
      var key := ObjectKey(uid, dir, batch[n].name);
      if LandsAt(blobs, uid, dir, batch, answers, n) {
        assert before[key := batch[n].content].Keys == before.Keys + {key};
      }
    }
  }

  /** The ledger is never credited with more than the batch's total size. */
  lemma {:induction false} CreditedAtMostTotal(blobs: map<string, Bytes>, uid: string, dir: string, batch: seq<LocalFile>, answers: seq<Faults>)
    requires |answers| == |batch|
    ensures CreditedBytes(blobs, uid, dir, batch, answers) <= TotalSize(batch)
  {
    if batch != [] {
      var n := |batch| - 1;
      CreditedAtMostTotal(blobs, uid, dir, batch[..n], answers[..n]);
    }
  }

  /** A key the bucket lacks stays absent while files of other names are
      uploaded. */
  lemma {:induction false} OtherNamesLeaveKeyFree(blobs: map<string, Bytes>, uid: string, dir: string, batch: seq<LocalFile>, answers: seq<Faults>, name: string)
    requires |answers| == |batch|
    requires ObjectKey(uid, dir, name) !in blobs
    requires forall i :: 0 <= i < |batch| ==> batch[i].name != name
    ensures ObjectKey(uid, dir, name) !in StoredAfter(blobs, uid, dir, batch, answers)
  {
    if batch != [] {
      var n := |batch| - 1;
      assert forall i :: 0 <= i < n ==> batch[..n][i] == batch[i];
      OtherNamesLeaveKeyFree(blobs, uid, dir, batch[..n], answers[..n], name);
      ObjectKeyInjective(uid, dir, batch[n].name, name);
    }
  }

  /** With no failures, distinct names and none of their keys taken, every
      file is written and the ledger is credited with exactly the batch's
      total size. */
  lemma {:induction false} CreditedAllWhenNoFaults(blobs: map<string, Bytes>, uid: string, dir: string, batch: seq<LocalFile>, answers: seq<Faults>)
    requires |answers| == |batch|
    requires forall i :: 0 <= i < |batch| ==> !answers[i].upload && !answers[i].rpc
    requires forall i :: 0 <= i < |batch| ==> ObjectKey(uid, dir, batch[i].name) !in blobs
    requires forall i, j :: 0 <= i < j < |batch| ==> batch[i].name != batch[j].name
    ensures CreditedBytes(blobs, uid, dir, batch, answers) == TotalSize(batch)
    ensures |SucceededNames(blobs, uid, dir, batch, answers)| == |batch|
  {
    if batch != [] {
      var n := |batch| - 1;
      assert forall i :: 0 <= i < n ==> batch[..n][i] == batch[i] && answers[..n][i] == answers[i];
      CreditedAllWhenNoFaults(blobs, uid, dir, batch[..n], answers[..n]);
      OtherNamesLeaveKeyFree(blobs, uid, dir, batch[..n], answers[..n], batch[n].name);
      assert LandsAt(blobs, uid, dir, batch, answers, n);
    }
  }

  /** An admitted batch keeps a ledger that started at the snapshot within the
      snapshot's limit, whatever fails along the way. */
  lemma AdmittedBatchStaysWithinLimit(used: int, limit: int, blobs: map<string, Bytes>, uid: string, dir: string, batch: seq<LocalFile>, answers: seq<Faults>)
    requires |answers| == |batch|
    requires Admits(used, limit, batch)
    ensures used + CreditedBytes(blobs, uid, dir, batch, answers) <= limit
  {
    CreditedAtMostTotal(blobs, uid, dir, batch, answers);
  }

  /** The bucket keeps every key it had, and the key of every file whose
      upload request went through is taken afterwards: by that file, or by
      what was there before, since the bucket does not overwrite. */
  lemma {:induction false} StoredAfterGains(blobs: map<string, Bytes>, uid: string, dir: string, batch: seq<LocalFile>, answers: seq<Faults>)
    requires |answers| == |batch|
    ensures forall k :: k in blobs ==> k in StoredAfter(blobs, uid, dir, batch, answers) && StoredAfter(blobs, uid, dir, batch, answers)[k] == blobs[k]
    ensures forall i :: 0 <= i < |batch| && !answers[i].upload ==> ObjectKey(uid, dir, batch[i].name) in StoredAfter(blobs, uid, dir, batch, answers)
  {
    if batch != [] {
      var n := |batch| - 1;
      StoredAfterGains(blobs, uid, dir, batch[..n], answers[..n]);
      var before := StoredAfter(blobs, uid, dir, batch[..n], answers[..n]);
      var after := StoredAfter(blobs, uid, dir, batch, answers);
      assert forall k :: k in before ==> k in after && after[k] == before[k];
      forall i | 0 <= i < |batch| && !answers[i].upload
        ensures ObjectKey(uid, dir, batch[i].name) in after
      {
        if i < n {
          assert batch[..n][i] == batch[i] && answers[..n][i] == answers[i];
        }
      }
    }
  }

  /** Every key of the bucket afterwards was there before or belongs to a
      file of the batch that was written. */
  lemma {:induction false} StoredAfterOnlyBatchKeys(blobs: map<string, Bytes>, uid: string, dir: string, batch: seq<LocalFile>, answers: seq<Faults>, k: string)
    requires |answers| == |batch|
    requires k in StoredAfter(blobs, uid, dir, batch, answers) && k !in blobs
    ensures exists i :: 0 <= i < |batch| && LandsAt(blobs, uid, dir, batch, answers, i) && k == ObjectKey(uid, dir, batch[i].name)
  {
    var n := |batch| - 1;
    if k in StoredAfter(blobs, uid, dir, batch[..n], answers[..n]) {
      StoredAfterOnlyBatchKeys(blobs, uid, dir, batch[..n], answers[..n], k);
      var i :| 0 <= i < n && LandsAt(blobs, uid, dir, batch[..n], answers[..n], i) && k == ObjectKey(uid, dir, batch[..n][i].name);
      LandsAtPrefix(blobs, uid, dir, batch, answers, n, i);
      assert batch[..n][i] == batch[i];
    } else {
      assert LandsAt(blobs, uid, dir, batch, answers, n) && k == ObjectKey(uid, dir, batch[n].name);
    }
  }

  /** A deletion takes the ledger down only when the entry has a non-zero
      size and the `decrement_storage_used` call goes through. */
  predicate DebitsLedger(item: FileItem, f: Faults)
  {
    item.size.Some? && item.size.value != 0 && !f.rpc
  }

  /** `${file.path}` in a template string: an absent path renders as
      "undefined". */
  function PathText(path: Option<string>): (text: string)
    ensures path.Some? ==> text == path.value
    ensures path.None? ==> text == "undefined"
  {
    path.GetOr("undefined")
  }

  /** A usable `file.path`: present and not the empty string. */
  predicate HasPath(item: FileItem)
    ensures HasPath(item) <==> item.path.Some? && PathText(item.path) != ""
  {
    item.path.Some? && item.path.value != ""
  }

  // ------------------------------------------------------------------- hook

  /** The hook's React state over the remote stores; `user` is the signed-in
      user's id and `path` the directory the hook was created for. */
  class FileSystemHook {
    const cloud: Cloud
    const user: Option<string>
    const path: string
    var folders: seq<FileItem>
    var files: seq<FileItem>
    var loading: bool
    var storageUsed: int
    var storageLimit: int

    constructor (cloud: Cloud, user: Option<string>, path: string)
      ensures this.cloud == cloud && this.user == user && this.path == path
      ensures folders == [] && files == [] && loading && storageUsed == 0 && storageLimit == 0
    {
      this.cloud := cloud;
      this.user := user;
      this.path := path;
      folders, files := [], [];
      loading := true;
      storageUsed, storageLimit := 0, 0;
    }

    /** The `files` the hook returns. */
    function Entries(): seq<FileItem>
      reads this
    {
      folders + files
    }

    /** The state shows the stores as they are now, with the bucket listing
        `objects`. */
    ghost predicate Shows(objects: seq<StoredObject>)
      reads this, cloud
      requires user.Some?
    {
      && folders == FolderItems(cloud.folders, user.value, path)
      && files == FileItems(objects, BasePath(user.value, path))
      && storageUsed == UsedOrZero(QuotaOf(cloud.quota, user.value))
      && storageLimit == LimitOrDefault(QuotaOf(cloud.quota, user.value))
    }

    /** The state after `loadFiles` answered by `relist`, given the state
        before it: a failed load leaves the shown data as it was. */
    ghost predicate Reloaded(relist: ListAnswer, folders0: seq<FileItem>, files0: seq<FileItem>, used0: int, limit0: int)
      reads this, cloud
      requires user.Some?
    {
      && !loading
      && (relist.fails ==> folders == folders0 && files == files0 && storageUsed == used0 && storageLimit == limit0)
      && (!relist.fails ==> Shows(relist.objects))
    }

    /** `loadFiles`. */
    method LoadFiles(relist: ListAnswer)
      modifies this
      ensures user.None? ==> unchanged(this)
      ensures user.Some? ==> Reloaded(relist, old(folders), old(files), old(storageUsed), old(storageLimit))
      ensures user.Some? && !relist.fails ==> Entries() == Listing(cloud.folders, user.value, path, relist.objects)
    {
      if user.None? {
        return;
      }
      var uid := user.value;
      loading := true;
      if !relist.fails {
        var row := QuotaOf(cloud.quota, uid);
        folders := FolderItems(cloud.folders, uid, path);
        files := FileItems(relist.objects, BasePath(uid, path));
        storageUsed := UsedOrZero(row);
        storageLimit := LimitOrDefault(row);
      }
      loading := false;
    }

    /** `createFolder(name)`: insert the row, then write the marker object,
        then reload. The id the table assigns is `newId`. */
    method CreateFolder(name: string, newId: string, f: Faults, relist: ListAnswer) returns (created: Option<FolderRow>)
      modifies this, cloud
      ensures user.None? || f.write ==> created.None? && unchanged(this) && unchanged(cloud)
      ensures user.Some? && !f.write ==>
        && cloud.folders == old(cloud.folders) + [NewFolderRow(newId, user.value, path, name)]
        && cloud.quota == old(cloud.quota)
      ensures user.Some? && !f.write && (f.upload || MarkerKey(user.value, JoinPath(path, name)) in old(cloud.blobs)) ==>
        created.None? && cloud.blobs == old(cloud.blobs) && unchanged(this)
      ensures user.Some? && !f.write && !f.upload && MarkerKey(user.value, JoinPath(path, name)) !in old(cloud.blobs) ==>
        && created == Some(NewFolderRow(newId, user.value, path, name))
        && cloud.blobs == old(cloud.blobs)[MarkerKey(user.value, JoinPath(path, name)) := []]
        && Reloaded(relist, old(folders), old(files), old(storageUsed), old(storageLimit))
        && (!relist.fails ==> folders == FolderItems(old(cloud.folders), user.value, path) + [FolderEntry(created.value)])
    {
      created := None;
      if user.None? {
        return;
      }
      var uid := user.value;
      var newPath := JoinPath(path, name);
      if f.write {
        return;
      }
      var row := FolderRow(newId, name, newPath, ParentOf(path), uid);
      cloud.Insert(row);
      if f.upload {
        return;
      }
      var stored := cloud.Upload(MarkerKey(uid, newPath), []);
      if !stored {
        return;
      }
      LoadFiles(relist);
      NewFolderIsListed(old(cloud.folders), newId, uid, path, name);
      created := Some(row);
    }

    /** One file of `uploadFiles`: written when its upload succeeds, and the
        ledger credited with its size when the increment call also goes
        through. */
    method StoreOne(uid: string, file: LocalFile, answer: Faults) returns (stored: bool)
      modifies cloud
      ensures stored == Lands(old(cloud.blobs), uid, path, file, answer)
      ensures cloud.blobs == if stored then old(cloud.blobs)[ObjectKey(uid, path, file.name) := file.content] else old(cloud.blobs)
      ensures cloud.quota == if stored && !answer.rpc then Adjust(old(cloud.quota), uid, Size(file)) else old(cloud.quota)
      ensures cloud.folders == old(cloud.folders)
    {
      stored := false;
      if !answer.upload {
        stored := cloud.Upload(ObjectKey(uid, path, file.name), file.content);
        if stored && !answer.rpc {
          cloud.AdjustUsed(uid, Size(file));
        }
      }
    }

    /** The per-file loop of `uploadFiles`: each file is written, and the
        ledger credited, only after its own upload succeeded. */
    method StoreBatch(uid: string, batch: seq<LocalFile>, answers: seq<Faults>) returns (succeeded: seq<string>, failed: seq<string>)
      requires |answers| == |batch|
      modifies cloud
      ensures succeeded == SucceededNames(old(cloud.blobs), uid, path, batch, answers)
      ensures failed == FailedNames(old(cloud.blobs), uid, path, batch, answers)
      ensures cloud.blobs == StoredAfter(old(cloud.blobs), uid, path, batch, answers)
      ensures cloud.quota == Adjust(old(cloud.quota), uid, CreditedBytes(old(cloud.blobs), uid, path, batch, answers))
      ensures cloud.folders == old(cloud.folders)
    {
      succeeded, failed := [], [];
      var i := 0;
      while i < |batch|
        invariant 0 <= i <= |batch|
        invariant succeeded == SucceededNames(old(cloud.blobs), uid, path, batch[..i], answers[..i])
        invariant failed == FailedNames(old(cloud.blobs), uid, path, batch[..i], answers[..i])
        invariant cloud.blobs == StoredAfter(old(cloud.blobs), uid, path, batch[..i], answers[..i])
        invariant cloud.quota == Adjust(old(cloud.quota), uid, CreditedBytes(old(cloud.blobs), uid, path, batch[..i], answers[..i]))
        invariant cloud.folders == old(cloud.folders)
      {
        BatchStep(old(cloud.blobs), uid, path, batch, answers, i);
        ghost var credited := CreditedBytes(old(cloud.blobs), uid, path, batch[..i], answers[..i]);
        var stored := StoreOne(uid, batch[i], answers[i]);
        if !stored {
          failed := failed + [batch[i].name];
        } else {
          if !answers[i].rpc {
            AdjustTwice(old(cloud.quota), uid, credited, Size(batch[i]));
          }
          succeeded := succeeded + [batch[i].name];
        }
        i := i + 1;
      }
      assert batch[..|batch|] == batch && answers[..|answers|] == answers;
    }

    /** `uploadFiles(batch)`: refuse the whole batch when the shown usage plus
        its total size exceeds the shown limit; otherwise upload each file,
        credit the ledger with its size after its own upload succeeded, and
        reload when at least one file made it. `answers[i]` is what the
        stores answer for `batch[i]`. */
    method UploadFiles(batch: seq<LocalFile>, answers: seq<Faults>, relist: ListAnswer) returns (succeeded: seq<string>, failed: seq<string>)
      requires |answers| == |batch|
      modifies this, cloud
      ensures user.None? || !Admits(old(storageUsed), old(storageLimit), batch) ==>
        succeeded == [] && failed == [] && unchanged(this) && unchanged(cloud)
      ensures user.Some? && Admits(old(storageUsed), old(storageLimit), batch) ==>
        && succeeded == SucceededNames(old(cloud.blobs), user.value, path, batch, answers)
        && failed == FailedNames(old(cloud.blobs), user.value, path, batch, answers)
        && |succeeded| + |failed| == |batch|
        && cloud.blobs == StoredAfter(old(cloud.blobs), user.value, path, batch, answers)
        && cloud.quota == Adjust(old(cloud.quota), user.value, CreditedBytes(old(cloud.blobs), user.value, path, batch, answers))
        && cloud.folders == old(cloud.folders)
        && (succeeded == [] ==> unchanged(this))
        && (succeeded != [] ==> Reloaded(relist, old(folders), old(files), old(storageUsed), old(storageLimit)))
    {
      succeeded, failed := [], [];
      if user.None? {
        return;
      }
      var uid := user.value;
      if storageUsed + TotalSize(batch) > storageLimit {
        return;
      }
      succeeded, failed := StoreBatch(uid, batch, answers);
      OutcomesPartitionBatch(old(cloud.blobs), uid, path, batch, answers);
      if succeeded != [] {
        LoadFiles(relist);
      }
    }

    /** `deleteFile(item)`: a folder loses its row (by id alone) and then its
        marker object, and the ledger is left alone; a file needs a non-empty
        path, loses that key, and then the ledger is decremented by its size
        when the size is known and non-zero. The listing is reloaded when
        every step succeeded. */
    method DeleteFile(item: FileItem, f: Faults, relist: ListAnswer) returns (ok: bool)
      modifies this, cloud
      ensures user.None? ==> !ok && unchanged(this) && unchanged(cloud)
      ensures user.Some? && item.kind == Folder ==>
        && ok == (!f.write && !f.remove)
        && cloud.quota == old(cloud.quota)
        && cloud.folders == (if f.write then old(cloud.folders) else Remaining(old(cloud.folders), RowMatch(item.id, None)))
        && cloud.blobs == (if ok then old(cloud.blobs) - {MarkerKey(user.value, PathText(item.path))} else old(cloud.blobs))
      ensures user.Some? && item.kind != Folder ==>
        && ok == (HasPath(item) && !f.remove)
        && cloud.folders == old(cloud.folders)
        && cloud.blobs == (if ok then old(cloud.blobs) - {item.path.value} else old(cloud.blobs))
        && cloud.quota == (if ok && DebitsLedger(item, f) then Adjust(old(cloud.quota), user.value, -(item.size.value as int)) else old(cloud.quota))
      ensures user.Some? && !ok ==> unchanged(this)
      ensures user.Some? && ok ==> Reloaded(relist, old(folders), old(files), old(storageUsed), old(storageLimit))
    {
      ok := false;
      if user.None? {
        return;
      }
      var uid := user.value;
      if item.kind == Folder {
        if f.write {
          return;
        }
        cloud.DeleteRows(RowMatch(item.id, None));
        if f.remove {
          return;
        }
        cloud.Remove(MarkerKey(uid, PathText(item.path)));
      } else {
        if !HasPath(item) {
          return;
        }
        if f.remove {
          return;
        }
        cloud.Remove(item.path.value);
        if DebitsLedger(item, f) {
          cloud.AdjustUsed(uid, -(item.size.value as int));
        }
      }
      ok := true;
      LoadFiles(relist);
    }

    /** `renameFile(item, newName)`: a folder row (by id alone) gets the new
        name and keeps its path; a file is downloaded from its path, written
        at `DirPrefix(uid, path) + newName`, and then removed from its old
        key. The ledger never changes. */
    method RenameFile(item: FileItem, newName: string, f: Faults, relist: ListAnswer) returns (ok: bool)
      modifies this, cloud
      ensures user.None? ==> !ok && unchanged(this) && unchanged(cloud)
      ensures cloud.quota == old(cloud.quota)
      ensures user.Some? && item.kind == Folder ==>
        && ok == !f.write
        && cloud.blobs == old(cloud.blobs)
        && cloud.folders == (if ok then Renamed(old(cloud.folders), RowMatch(item.id, None), newName) else old(cloud.folders))
      ensures user.Some? && item.kind != Folder ==>
        var src := item.path.GetOr("");
        var dst := DirPrefix(user.value, path) + newName;
        var copied := HasPath(item) && !f.download && src in old(cloud.blobs) && !f.upload && dst !in old(cloud.blobs);
        && cloud.folders == old(cloud.folders)
        && ok == (copied && !f.remove)
        && (copied ==>
              cloud.blobs == (if f.remove then old(cloud.blobs)[dst := old(cloud.blobs)[src]]
                              else old(cloud.blobs)[dst := old(cloud.blobs)[src]] - {src}))
        && (!copied ==> cloud.blobs == old(cloud.blobs))
      ensures user.Some? && !ok ==> unchanged(this)
      ensures user.Some? && ok ==> Reloaded(relist, old(folders), old(files), old(storageUsed), old(storageLimit))
    {
      ok := false;
      if user.None? {
        return;
      }
      var uid := user.value;
      if item.kind == Folder {
        if f.write {
          return;
        }
        cloud.UpdateName(RowMatch(item.id, None), newName);
      } else {
        if !HasPath(item) {
          return;
        }
        var src := item.path.value;
        if f.download || src !in cloud.blobs {
          return;
        }
        var content := cloud.blobs[src];
        var dst := DirPrefix(uid, path) + newName;
        if f.upload {
          return;
        }
        var stored := cloud.Upload(dst, content);
        if !stored || f.remove {
          return;
        }
        cloud.Remove(src);
      }
      ok := true;
      LoadFiles(relist);
    }
  }

  /** A completed file rename moves the content to the new key and, when the
      name changed the key, the old key is gone; every other object stays. */
  lemma RenameMovesContent(blobs: map<string, Bytes>, src: string, dst: string, k: string)
    requires src in blobs && src != dst
    ensures var after := blobs[dst := blobs[src]] - {src};
      && dst in after && after[dst] == blobs[src] && src !in after
      && (k != src && k != dst ==> (k in after <==> k in blobs) && (k in blobs ==> after[k] == blobs[k]))
  {
  }
}
