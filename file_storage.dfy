/** The `useFileStorage()` hook of src/hooks/use-file-storage.ts: a single
    file upload that asks the quota table first, and a single file deletion,
    each with a `loading` flag around it. */
module FileStorage {
  import opened Options
  import opened Paths
  import opened Stores
  import Supabase
  import FileSystem

  class FileStorageHook {
    const cloud: Cloud
    const user: Option<string>
    var loading: bool

    constructor (cloud: Cloud, user: Option<string>)
      ensures this.cloud == cloud && this.user == user && !loading
    {
      this.cloud := cloud;
      this.user := user;
      loading := false;
    }

    /** `checkStorageLimit(fileSize)`: false with nobody signed in, when the
        read fails, or when the user has no quota row; otherwise whether the
        file fits under the row's limit. */
    function CheckStorageLimit(fileSize: int, readFails: bool): (fits: bool)
      reads cloud
      ensures user.None? || readFails || QuotaOf(cloud.quota, user.value).None? ==> !fits
      ensures user.Some? && !readFails && user.value in cloud.quota ==>
        (fits <==> cloud.quota[user.value].used + fileSize <= cloud.quota[user.value].limit)
    {
      if user.None? || readFails then false
      else match QuotaOf(cloud.quota, user.value)
        case None => false
        case Some(row) => row.used + fileSize <= row.limit
    }

    /** `uploadFile(file, dir)`: refused without writing when the file does
        not fit; otherwise written at `uid/JoinPath(dir, name)`, after which
        the ledger is credited with its size. `loading` is false afterwards
        whatever the outcome. */
    method UploadFile(file: LocalFile, dir: string, f: Faults) returns (ok: bool)
      modifies this, cloud
      ensures user.None? ==> !ok && unchanged(this) && unchanged(cloud)
      ensures user.Some? ==> !loading
      ensures ok == (user.Some? && old(CheckStorageLimit(Size(file), f.read)) && !f.upload
                     && ObjectKey(user.value, dir, file.name) !in old(cloud.blobs))
      ensures cloud.folders == old(cloud.folders)
      ensures !ok ==> cloud.blobs == old(cloud.blobs) && cloud.quota == old(cloud.quota)
      ensures ok ==> cloud.blobs == old(cloud.blobs)[ObjectKey(user.value, dir, file.name) := file.content]
      ensures ok ==> cloud.quota == (if f.rpc then old(cloud.quota) else Adjust(old(cloud.quota), user.value, Size(file)))
    {
      ok := false;
      if user.None? {
        return;
      }
      var uid := user.value;
      loading := true;
      var hasSpace := CheckStorageLimit(Size(file), f.read);
      if !hasSpace {
        loading := false;
        return;
      }
      if f.upload {
        loading := false;
        return;
      }
      var stored := cloud.Upload(ObjectKey(uid, dir, file.name), file.content);
      if !stored {
        loading := false;
        return;
      }
      if !f.rpc {
        cloud.AdjustUsed(uid, Size(file));
      }
      ok := true;
      loading := false;
    }

    /** `deleteFile(filePath, fileSize)`: removes `uid/filePath`, then debits
        the ledger by `fileSize` when that is given and non-zero. `loading` is
        false afterwards whatever the outcome. */
    method DeleteFile(filePath: string, fileSize: Option<nat>, f: Faults) returns (ok: bool)
      modifies this, cloud
      ensures user.None? ==> !ok && unchanged(this) && unchanged(cloud)
      ensures user.Some? ==> !loading
      ensures ok == (user.Some? && !f.remove)
      ensures cloud.folders == old(cloud.folders)
      ensures cloud.blobs == (if ok then old(cloud.blobs) - {user.value + "/" + filePath} else old(cloud.blobs))
      ensures cloud.quota == (if ok && fileSize.Some? && fileSize.value != 0 && !f.rpc
                              then Adjust(old(cloud.quota), user.value, -(fileSize.value as int))
                              else old(cloud.quota))
    {
      ok := false;
      if user.None? {
        return;
      }
      var uid := user.value;
      loading := true;
      if f.remove {
        loading := false;
        return;
      }
      cloud.Remove(uid + "/" + filePath);
      if fileSize.Some? && fileSize.value != 0 && !f.rpc {
        cloud.AdjustUsed(uid, -(fileSize.value as int));
      }
      ok := true;
      loading := false;
    }
  }

  /** When the read succeeds, `checkStorageLimit` and `hasEnoughStorage` in
      src/lib/supabase.ts give the same answer. */
  lemma CheckAgreesWithHasEnoughStorage(hook: FileStorageHook, fileSize: int)
    ensures hook.CheckStorageLimit(fileSize, false)
         == Supabase.HasEnoughStorage(hook.user, QuotaOf(hook.cloud.quota, hook.user.GetOr("")), fileSize)
  {
  }

  /** For a user without a quota row the hooks disagree: `uploadFile` refuses
      every file, while `uploadFiles` of src/hooks/use-file-system.tsx, whose
      shown usage and limit come from a load that found no row, admits any
      batch of at most 10 GiB. */
  lemma MissingQuotaRowDivergence(hook: FileStorageHook, fileSize: int, batch: seq<LocalFile>)
    requires hook.user.Some? && hook.user.value !in hook.cloud.quota
    requires FileSystem.TotalSize(batch) <= FileSystem.DefaultLimit
    ensures !hook.CheckStorageLimit(fileSize, false)
    ensures FileSystem.Admits(FileSystem.UsedOrZero(QuotaOf(hook.cloud.quota, hook.user.value)),
                              FileSystem.LimitOrDefault(QuotaOf(hook.cloud.quota, hook.user.value)), batch)
  {
  }
}
