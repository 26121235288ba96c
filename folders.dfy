/** The `useFolders(currentPath)` hook of src/hooks/use-folders.ts: folder
    rows created, deleted and renamed in the `folders` table alone, each
    restricted to the signed-in user's rows, with a `loading` flag around
    each call. */
module Folders {
  import opened Options
  import opened Paths
  import opened Stores

  class FoldersHook {
    const cloud: Cloud
    const user: Option<string>
    const currentPath: string
    var loading: bool

    constructor (cloud: Cloud, user: Option<string>, currentPath: string)
      ensures this.cloud == cloud && this.user == user && this.currentPath == currentPath && !loading
    {
      this.cloud := cloud;
      this.user := user;
      this.currentPath := currentPath;
      loading := false;
    }

    /** `createFolder(name)`: inserts the row only; unlike the folder creation
        of src/hooks/use-file-system.tsx it writes no marker object. */
    method CreateFolder(name: string, newId: string, f: Faults) returns (ok: bool)
      modifies this, cloud
      ensures user.None? ==> !ok && unchanged(this) && unchanged(cloud)
      ensures user.Some? ==> !loading
      ensures ok == (user.Some? && !f.write)
      ensures cloud.folders == (if ok then old(cloud.folders) + [NewFolderRow(newId, user.value, currentPath, name)] else old(cloud.folders))
      ensures cloud.blobs == old(cloud.blobs) && cloud.quota == old(cloud.quota)
    {
      ok := false;
      if user.None? {
        return;
      }
      loading := true;
      var newPath := JoinPath(currentPath, name);
      if !f.write {
        cloud.Insert(FolderRow(newId, name, newPath, ParentOf(currentPath), user.value));
        ok := true;
      }
      loading := false;
    }

    /** `deleteFolder(id)`: deletes the rows with that id owned by the user. */
    method DeleteFolder(id: string, f: Faults) returns (ok: bool)
      modifies this, cloud
      ensures user.None? ==> !ok && unchanged(this) && unchanged(cloud)
      ensures user.Some? ==> !loading
      ensures ok == (user.Some? && !f.write)
      ensures cloud.folders == (if ok then Remaining(old(cloud.folders), RowMatch(id, user)) else old(cloud.folders))
      ensures cloud.blobs == old(cloud.blobs) && cloud.quota == old(cloud.quota)
    {
      ok := false;
      if user.None? {
        return;
      }
      loading := true;
      if !f.write {
        cloud.DeleteRows(RowMatch(id, user));
        ok := true;
      }
      loading := false;
    }

    /** `renameFolder(id, newName)`: sets the name of the rows with that id
        owned by the user. */
    method RenameFolder(id: string, newName: string, f: Faults) returns (ok: bool)
      modifies this, cloud
      ensures user.None? ==> !ok && unchanged(this) && unchanged(cloud)
      ensures user.Some? ==> !loading
      ensures ok == (user.Some? && !f.write)
      ensures cloud.folders == (if ok then Renamed(old(cloud.folders), RowMatch(id, user), newName) else old(cloud.folders))
      ensures cloud.blobs == old(cloud.blobs) && cloud.quota == old(cloud.quota)
    {
      ok := false;
      if user.None? {
        return;
      }
      loading := true;
      if !f.write {
        cloud.UpdateName(RowMatch(id, user), newName);
        ok := true;
      }
      loading := false;
    }
  }

  /** Deleting by id and owner spares another user's row that carries the
      same id, which deleting by id alone (as src/hooks/use-file-system.tsx
      does) removes; rows with another id survive both. */
  lemma OwnerFilterSparesOtherUsers(rows: seq<FolderRow>, row: FolderRow, id: string, uid: string)
    requires row in rows
    ensures row.userId != uid ==> row in Remaining(rows, RowMatch(id, Some(uid)))
    ensures row.id == id ==> row !in Remaining(rows, RowMatch(id, None))
    ensures row.id != id ==> row in Remaining(rows, RowMatch(id, None)) && row in Remaining(rows, RowMatch(id, Some(uid)))
  {
    var i :| 0 <= i < |rows| && rows[i] == row;
  }
}
