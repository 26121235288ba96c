# Family cloud storage: a Dafny model of the file hooks and browsing components

This project models the client-side core of a family cloud-storage web
application. Signed-in users browse folders and files, upload and delete
files against a per-user storage quota, rename files and folders, and search
their photos. It covers:

- the `useFileSystem(path)` hook (`file_system.dfy`). Its listing merges the
  folder rows of a directory with the bucket's listing of the matching
  prefix. It also creates folders with a `.folder` marker object, uploads a
  batch under an all-or-nothing admission test, deletes and renames files and
  folders, and classifies file names with `getFileType` (`file_types.dfy`);
- the `useFileStorage()` hook (`file_storage.dfy`): single-file upload after a
  quota read, single-file deletion, and the `loading` flag around each;
- the `useFolders(currentPath)` hook (`folders.dfy`): folder rows created,
  deleted and renamed, restricted to the signed-in user's rows;
- the helpers of `src/lib/supabase.ts` (`supabase.dfy`): `isAdmin`,
  `getUserStorageUsed`, `hasEnoughStorage` over the rows they read;
- the `FileExplorer` component (`file_explorer.dfy`): the breadcrumb trail,
  the preview selection and the search filter;
- the `FileUploader` component (`file_uploader.dfy`): pending files, the
  per-name progress dictionary with its clamp at 100, the toast title and the
  extension-to-icon switch;
- the photos page (`photos.dfy`): the title/album search and the grouping of
  photos by album.

The three remote stores are the fields of one `Stores.Cloud` object. The
`folders` table is a sequence of rows, the `user_files` bucket is a map from
keys to bytes, and the `user_storage` ledger is a map from user id to
`(used, limit)`. No upload passes `upsert`, so the bucket refuses to write
a key it already holds (`Stores.Cloud.Upload`), and every caller treats that
refusal as a failed upload. Every remote call that can fail takes its outcome from a
`Faults` value given as a parameter. The bucket's listing of a prefix is a
`ListAnswer` parameter. The signed-in user is `Option<string>` (None when
nobody is signed in). The ids the database assigns are parameters. The SQL of the
`increment_storage_used` and `decrement_storage_used` procedures is not
part of the code; the model assumes that they add to or subtract from the
`used` column of an existing row and do nothing without one
(`Stores.Adjust`). The source ignores their outcome, so a failed call
leaves the ledger as it was while the operation still reports success.

Behaviour of the code worth noting:
- Folder creation does not check that the name is non-empty.
- A failed marker write makes `createFolder` report failure, although its
  folder row has already been inserted.
- The listing does not exclude the `.folder` markers
  (`FileSystem.MarkerIsListedAsFile`).
- The ledger decrement is not clamped at zero, because no clamp is visible
  in the code.
- The photo search lowercases the query as well as the title and album.

## Model

| member | source | states |
|---|---|---|
| FileTypes.Extension | src/hooks/use-file-system.tsx:339 | the extension is the lowercased tail of the name that holds no '.' and is preceded by a '.' unless it is the whole name: the text after the last '.' |
| FileTypes.KindOfExtension | src/hooks/use-file-system.tsx:340-350 | image exactly for jpg/jpeg/png/gif/webp, pdf exactly for "pdf", document exactly for doc/docx/txt/xls/xlsx/ppt/pptx, never folder; everything else, the empty extension included, is other |
| FileTypes.FileType | src/hooks/use-file-system.tsx:338-351 | `getFileType` is total and never answers folder |
| FileTypes.FileTypeOfDotted | src/hooks/use-file-system.tsx:339 | a dotted name's type depends only on the text after its last dot, whatever the stem |
| FileTypes.UndottedNameIsItsOwnExtension | src/hooks/use-file-system.tsx:339 | a name without '.' is its own (lowercased) extension, so "PDF" is a pdf |
| FileTypes.TrailingDotIsOther | src/hooks/use-file-system.tsx:339-340 | a name ending in '.' has an empty extension and is other |
| FileTypes.FileTypeIgnoresCase | src/hooks/use-file-system.tsx:339 | lowercasing the name changes neither the extension nor the type |
| FileTypes.MarkerIsOther | src/hooks/use-file-system.tsx:125 | the `.folder` marker has extension "folder" and is typed other |
| Paths.JoinPath | src/hooks/use-file-system.tsx:106 | at the root the path is the name; below it, the directory, one '/', then the name |
| Paths.ParentOf | src/hooks/use-file-system.tsx:113 | `parent_path` is null exactly at the root, else the directory itself |
| Paths.ObjectKey | src/hooks/use-file-system.tsx:163-167 | the key an upload writes: `uid/` followed by the name joined to the directory (its shape is `Paths.ObjectKeyShape`) |
| Paths.ObjectKeyShape | src/hooks/use-file-system.tsx:163-167 | an upload's key starts with `uid/`, is `uid/name` at the root and ends in `/name` below it |
| Paths.ObjectKeyInjective | src/hooks/use-file-system.tsx:163-167 | within one directory, two names share an upload key exactly when they are the same name |
| Paths.ListedPath | src/hooks/use-file-system.tsx:80 | a listed file's path starts with `uid/`, ends in `/name`, and is two characters longer than user id, directory and name together |
| Paths.MarkerKey | src/hooks/use-file-system.tsx:125 | a marker key starts with `uid/` and ends in `/.folder` |
| Paths.DirPrefix | src/hooks/use-file-system.tsx:292 | the rename prefix starts with `uid/`, ends in '/', and adds the directory and one more '/' below the root |
| Paths.ListedPathIsObjectKeyIff | src/hooks/use-file-system.tsx:27 | a listed file's `basePath/name` path equals its upload key exactly when not at the root; at the root it is `uid//name` |
| Paths.RenameTargetIsObjectKey | src/hooks/use-file-system.tsx:292-298 | the rename target `dirPath + newName` is the key an upload of `newName` into the same directory writes |
| Paths.MarkerKeyIsObjectKey | src/hooks/use-file-system.tsx:125 | the marker key of a folder is the key of an object named `.folder` inside it |
| Paths.JoinPathInjective | src/hooks/use-file-system.tsx:163 | within one directory, different names give different paths |
| Stores.QuotaOf | src/hooks/use-file-storage.ts:18-22 | the `maybeSingle` read finds a row exactly when the ledger has one for the user |
| Stores.Remaining | src/hooks/use-folders.ts:55-59 | a delete keeps exactly the rows the filter does not select |
| Stores.Renamed | src/hooks/use-folders.ts:87-91 | an update renames exactly the selected rows and changes nothing else of any row |
| Stores.NewFolderRow | src/hooks/use-file-system.tsx:106-115 | the inserted row's path is its parent's path joined with its name, its parent is null at the root, and its owner is the user |
| Stores.RenameBreaksConsistency | src/hooks/use-folders.ts:89 | renaming a folder row leaves its `path` stale: the path no longer ends in the name |
| Stores.Adjust | src/hooks/use-file-storage.ts:58-61 | the ledger procedures move only the user's `used` by the given amount, keep the limit and every other row, and create no row |
| Stores.AdjustTwice | src/hooks/use-file-system.tsx:172-175 | two ledger adjustments add up |
| Stores.Cloud.Insert | src/hooks/use-folders.ts:20-27 | the row is appended and the bucket and ledger are unchanged |
| Stores.Cloud.DeleteRows | src/hooks/use-folders.ts:55-59 | the table becomes the rows the filter does not select; nothing else changes |
| Stores.Cloud.UpdateName | src/hooks/use-folders.ts:87-91 | the selected rows are renamed; nothing else changes |
| Stores.Cloud.Upload | src/hooks/use-file-storage.ts:50-53 | the content is stored exactly when the key was free, and a taken key keeps what it held; nothing else changes |
| Stores.Cloud.Remove | src/hooks/use-file-storage.ts:82-85 | the key is gone; nothing else changes |
| Stores.Cloud.AdjustUsed | src/hooks/use-file-storage.ts:90-93 | the ledger becomes `Adjust` of the old ledger; the table and bucket stay |
| FileSystem.FolderItems | src/hooks/use-file-system.tsx:35-39 | one folder entry per row of the user whose `parent_path` is the directory (null at the root), with the row's id, name and path |
| FileSystem.FileItems | src/hooks/use-file-system.tsx:70-83 | one entry per listed object whose name does not end in '/', typed by `getFileType`, with path `basePath/name` |
| FileSystem.Listing | src/hooks/use-file-system.tsx:360 | the entries are `FolderItems` of the directory followed by `FileItems` of the bucket listing: the length is the folder count plus the file count, and an entry is a folder exactly when it comes before all file entries |
| FileSystem.NewFolderIsListed | src/hooks/use-file-system.tsx:106-115 | a folder just created in the directory is the last folder entry of the next listing of that directory, with the folder read answered in table order |
| FileSystem.MarkerIsListedAsFile | src/hooks/use-file-system.tsx:71 | the `.folder` marker survives the file filter and is listed as a file of type other |
| FileSystem.UsedOrZero | src/hooks/use-file-system.tsx:87 | the shown usage is the row's `storage_used`, or 0 without a row |
| FileSystem.LimitOrDefault | src/hooks/use-file-system.tsx:88 | the shown limit is the row's limit, or 10 GiB without a row or with a zero limit |
| FileSystem.TotalSize | src/hooks/use-file-system.tsx:151 | the total of an empty batch is 0, and no file of a batch is larger than its total |
| FileSystem.Admits | src/hooks/use-file-system.tsx:151-152 | a batch is admitted when shown usage plus its total is within the shown limit; an admitted batch has every single file within the limit, and an empty batch is admitted exactly when usage is within the limit |
| FileSystem.Lands | src/hooks/use-file-system.tsx:163-169 | one file's upload writes it exactly when the request goes through and its key `uid/JoinPath(dir, name)` is not yet taken |
| FileSystem.StoredAfter | src/hooks/use-file-system.tsx:161-169 | the bucket after the batch's uploads in batch order, each file written at its key only when it lands (its properties are `StoredAfterGains`, `StoredAfterOnlyBatchKeys`, `SuccessesAreNewObjects`) |
| FileSystem.SucceededNames | src/hooks/use-file-system.tsx:177-184 | the names of the files that landed, in batch order, never more than the batch |
| FileSystem.FailedNames | src/hooks/use-file-system.tsx:178-185 | the names of the files whose upload failed or was refused, in batch order, never more than the batch |
| FileSystem.CreditedBytes | src/hooks/use-file-system.tsx:171-175 | the sum of the sizes of the files that landed and whose `increment_storage_used` call went through (bounded by `CreditedAtMostTotal`) |
| FileSystem.OutcomesPartitionBatch | src/hooks/use-file-system.tsx:184-186 | every file of a batch is reported once, as a success or as a failure |
| FileSystem.NothingSucceededIffNoneLanded | src/hooks/use-file-system.tsx:184-196 | no reload happens exactly when no file of the batch was written |
| FileSystem.AllFaultsStoreNothing | src/hooks/use-file-system.tsx:164-169 | a batch whose every upload request fails writes nothing and reports no success |
| FileSystem.SuccessesAreNewObjects | src/hooks/use-file-system.tsx:164-169 | the bucket gains exactly one new key per reported success |
| FileSystem.OtherNamesLeaveKeyFree | src/hooks/use-file-system.tsx:163-167 | uploads of other names never take a free key |
| FileSystem.CreditedAtMostTotal | src/hooks/use-file-system.tsx:151 | the ledger is never credited with more than the batch's total size |
| FileSystem.CreditedAllWhenNoFaults | src/hooks/use-file-system.tsx:161-177 | with no failures, distinct names and free keys, every file succeeds and the ledger is credited with exactly the batch's total size |
| FileSystem.AdmittedBatchStaysWithinLimit | src/hooks/use-file-system.tsx:151-159 | an admitted batch keeps the snapshot usage plus the credited bytes within the snapshot limit |
| FileSystem.StoredAfterGains | src/hooks/use-file-system.tsx:161-169 | the bucket keeps every object it had unchanged, and the key of every file whose upload request went through is taken afterwards |
| FileSystem.StoredAfterOnlyBatchKeys | src/hooks/use-file-system.tsx:161-169 | every new key of the bucket is the key of a file of the batch that was written |
| FileSystem.PathText | src/hooks/use-file-system.tsx:225 | `${file.path}` in a template: the path itself when present, "undefined" when absent |
| FileSystem.HasPath | src/hooks/use-file-system.tsx:230-231 | the `if (!filePath) throw` guard passes exactly when the path is present and not the empty string |
| FileSystem.FileSystemHook.constructor | src/hooks/use-file-system.tsx:19-23 | empty lists, `loading` true, usage and limit 0 |
| FileSystem.FileSystemHook.LoadFiles | src/hooks/use-file-system.tsx:29-99 | without a user nothing changes; a failed read keeps the shown data; otherwise the entries are exactly `Listing` of the stores and the usage and limit come from the ledger row; `loading` is false afterwards |
| FileSystem.FileSystemHook.CreateFolder | src/hooks/use-file-system.tsx:101-145 | the row is appended unless the insert fails; the empty marker is written at `uid/path/.folder` unless that key is taken; only when both succeed is the row returned and the listing reloaded, showing the new folder last among the folders (table order) |
| FileSystem.FileSystemHook.StoreOne | src/hooks/use-file-system.tsx:161-180 | a file is written exactly when its upload request goes through and its key is free, and the ledger credited only when the increment also goes through |
| FileSystem.FileSystemHook.StoreBatch | src/hooks/use-file-system.tsx:161-186 | the success list is `SucceededNames`, the failure list `FailedNames`, the bucket `StoredAfter` and the ledger `Adjust` by `CreditedBytes` of the old bucket and the batch, with the folder table untouched |
| FileSystem.FileSystemHook.UploadFiles | src/hooks/use-file-system.tsx:147-205 | without a user, or when shown usage plus the batch total exceeds the shown limit, nothing at all changes; otherwise the reports are `SucceededNames` and `FailedNames` (every file once, a file whose key is taken among the failures), the bucket becomes `StoredAfter` and the ledger is adjusted by `CreditedBytes`, the folder table is untouched, and the listing is reloaded exactly when something succeeded |
| FileSystem.FileSystemHook.DeleteFile | src/hooks/use-file-system.tsx:207-264 | a folder loses its rows by id alone and then its marker, with the ledger untouched; a file needs a non-empty path, loses that key, and the ledger is debited by its size when the size is known and non-zero and the call goes through; a reload follows success |
| FileSystem.FileSystemHook.RenameFile | src/hooks/use-file-system.tsx:266-325 | a folder's rows are renamed by id alone; a file is downloaded, written at the new key when that key is free (renaming to its own name or onto another file fails and changes nothing), and then removed from the old one, and a failed removal leaves both copies; the ledger never changes |
| FileSystem.RenameMovesContent | src/hooks/use-file-system.tsx:295-308 | a completed file rename moves the content to the new key, drops the old key, and keeps every other object |
| Supabase.IsAdmin | src/lib/supabase.ts:13-24 | an admin exactly when a user is signed in and the role read is "admin" |
| Supabase.GetUserStorageUsed | src/lib/supabase.ts:27-38 | 0 without a user or a row, else the row's `storage_used` |
| Supabase.HasEnoughStorage | src/lib/supabase.ts:41-54 | false without a user or a row, else whether used plus size is within the limit |
| Supabase.HasEnoughStorageMonotone | src/lib/supabase.ts:53 | a size that fits leaves room for every smaller size |
| Supabase.EmptyFileFitsIffWithinLimit | src/lib/supabase.ts:53 | a zero-byte file fits exactly when the user is not already over the limit |
| FileStorage.FileStorageHook.constructor | src/hooks/use-file-storage.ts:9 | `loading` starts false |
| FileStorage.FileStorageHook.CheckStorageLimit | src/hooks/use-file-storage.ts:15-31 | false without a user, on a read error or without a row; else whether used plus size is within the limit |
| FileStorage.FileStorageHook.UploadFile | src/hooks/use-file-storage.ts:33-75 | success exactly when there is a user, the file fits, the upload request goes through and the key is free; only then is the file written at `uid/JoinPath(dir, name)` and the ledger credited with its size unless the increment fails; `loading` ends false |
| FileStorage.FileStorageHook.DeleteFile | src/hooks/use-file-storage.ts:77-108 | success exactly when there is a user and the removal succeeds; `uid/filePath` is removed and the ledger debited when the size is given and non-zero; `loading` ends false |
| FileStorage.CheckAgreesWithHasEnoughStorage | src/hooks/use-file-storage.ts:15-31 | when the read succeeds, `checkStorageLimit` answers as `hasEnoughStorage` does |
| FileStorage.MissingQuotaRowDivergence | src/hooks/use-file-storage.ts:29 | for a user without a ledger row, single uploads are always refused while batch uploads of up to 10 GiB are admitted |
| Folders.FoldersHook.constructor | src/hooks/use-folders.ts:9 | `loading` starts false |
| Folders.FoldersHook.CreateFolder | src/hooks/use-folders.ts:13-48 | success exactly when there is a user and the insert succeeds; only the row is added and no marker is written; `loading` ends false |
| Folders.FoldersHook.DeleteFolder | src/hooks/use-folders.ts:50-80 | on success exactly the user's rows with that id are gone; nothing else changes |
| Folders.FoldersHook.RenameFolder | src/hooks/use-folders.ts:82-112 | on success exactly the user's rows with that id carry the new name; nothing else changes |
| Folders.OwnerFilterSparesOtherUsers | src/hooks/use-folders.ts:58-59 | deleting by id and owner spares another user's row with the same id, which deleting by id alone removes |
| FileExplorer.FilteredFiles | src/components/file-explorer.tsx:49-53 | an empty query shows every item, and never more items are shown than there are; otherwise exactly the items whose lowercased name contains the lowercased query |
| FileExplorer.EmptyQueryMatchesAll | src/components/file-explorer.tsx:49-53 | the empty-query short cut shows what the filter would |
| FileExplorer.FilteredFilesKeepsOrder | src/components/file-explorer.tsx:50-52 | the search keeps the items' relative order |
| FileExplorer.FilteredFilesIgnoresQueryCase | src/components/file-explorer.tsx:51 | the query's case does not matter |
| FileExplorer.Truncated | src/components/file-explorer.tsx:64 | `slice(0, index + 1)` keeps the first `index + 1` crumbs, or all when there are fewer |
| FileExplorer.EnterThenBack | src/components/file-explorer.tsx:55-65 | entering a folder and then clicking the crumb before it restores the trail |
| FileExplorer.NavigateToLastIsNoOp | src/components/file-explorer.tsx:63-65 | navigating to the last crumb changes nothing |
| FileExplorer.Explorer.constructor | src/components/file-explorer.tsx:31-33 | the trail is `["Home"]`, nothing is selected and the query is empty |
| FileExplorer.Explorer.Shown | src/components/file-explorer.tsx:49-53 | the items shown are the search result for the current query: all items for an empty query, otherwise exactly the items whose lowercased name contains the lowercased query, and never more items than there are |
| FileExplorer.Explorer.SetSearchQuery | src/components/file-explorer.tsx:248 | the query is replaced; trail and selection stay |
| FileExplorer.Explorer.HandleFileClick | src/components/file-explorer.tsx:55-61 | a folder appends its name and keeps the selection; any other item becomes the selection and keeps the trail; the trail still starts at Home |
| FileExplorer.Explorer.NavigateToPath | src/components/file-explorer.tsx:63-65 | the trail becomes its first `index + 1` crumbs; selection and query stay |
| FileExplorer.Explorer.ClosePreview | src/components/file-explorer.tsx:67-69 | nothing is selected; trail and query stay |
| FileUploader.IconOfExtension | src/components/file-uploader.tsx:101-132 | the image icon exactly for jpg/jpeg/png/gif/webp, the pdf icon exactly for "pdf", the document icon exactly for doc/docx/txt, else the default icon |
| FileUploader.IconOf | src/components/file-uploader.tsx:98-133 | a name's icon is the image, pdf or document icon exactly when its extension is an image extension, "pdf" or doc/docx/txt |
| FileUploader.DocumentExtensionsSplit | src/components/file-uploader.tsx:98-133 | the document extensions of `getFileType` (src/hooks/use-file-system.tsx:347) are the icon's doc/docx/txt followed by xls/xlsx/ppt/pptx, which the icon list lacks |
| FileUploader.IconAgreesWithKind | src/components/file-uploader.tsx:98-133 | icon and type agree on images and pdfs, and differ exactly on xls/xlsx/ppt/pptx |
| FileUploader.IconAgreesWithFileType | src/components/file-uploader.tsx:98-133 | for every file name, `getFileIcon` and `getFileType` agree on images and pdfs and differ only on office extensions |
| FileUploader.AddedTitle | src/components/file-uploader.tsx:49-52 | the toast title starts with the count and a space, ends in " file added" for one file and in " files added" otherwise |
| FileUploader.TitleEnds | src/components/file-uploader.tsx:52 | whatever the count's text, the title starts with it and a space and ends in " file added" exactly for a single file, else in " files added" |
| FileUploader.Ticks | src/components/file-uploader.tsx:59-78 | the simulated progress never decreases and never exceeds 100 |
| FileUploader.TicksStopAtHundred | src/components/file-uploader.tsx:61-63 | once a tick reaches 100 the progress is 100 whatever ticks follow |
| FileUploader.WithoutName | src/components/file-uploader.tsx:82 | exactly the files with another name remain |
| FileUploader.WithoutNameKeepsOrder | src/components/file-uploader.tsx:82 | removal keeps the other files in their order |
| FileUploader.WithoutAbsentName | src/components/file-uploader.tsx:82 | removing a name nobody has changes nothing |
| FileUploader.Uploader.constructor | src/components/file-uploader.tsx:11-12 | no files and no progress |
| FileUploader.Uploader.HandleFiles | src/components/file-uploader.tsx:41-53 | the new files follow the old ones in order; the title counts them |
| FileUploader.Uploader.RemoveFile | src/components/file-uploader.tsx:81-88 | every file of that name and its progress entry go; all other files and entries stay; progress stays within 0..100 |
| FileUploader.Uploader.SimulateFileUpload | src/components/file-uploader.tsx:55-79 | the file's progress entry is the `Ticks` value of the draws, within 0..100; other entries and the files stay |
| Photos.FilteredPhotos | src/pages/photos.tsx:81-86 | an empty query keeps every photo, and no more photos are shown than there are; otherwise exactly the photos whose lowercased title or album contains the lowercased query |
| Photos.FilteredPhotosKeepsOrder | src/pages/photos.tsx:82-85 | the search keeps the photos' relative order |
| Photos.Albums | src/pages/photos.tsx:90-92 | every photo's album is among the albums |
| Photos.InAlbumMembers | src/pages/photos.tsx:93 | a group holds exactly the photos of its album |
| Photos.AlbumGroups | src/pages/photos.tsx:89-95 | the album groups built photo by photo, each photo appended to its album's group (pinned by `AlbumGroupsAreAlbums`) |
| Photos.AlbumGroupsAreAlbums | src/pages/photos.tsx:89-95 | the groups are keyed by exactly the albums that occur, and each group is its album's photos in their original order |
| Photos.EachPhotoInExactlyOneGroup | src/pages/photos.tsx:89-95 | every photo is in its album's group and in no other |
| Photos.NoEmptyGroups | src/pages/photos.tsx:90-92 | no group is empty, and there are no groups exactly when there are no photos |
| Photos.PhotosByAlbum | src/pages/photos.tsx:89-95 | the `reduce` builds exactly the album groups: keys are the albums, values the album's photos in order |

## Left out

- The Supabase client itself, the SQL of the ledger procedures and the
  bucket's listing rules are not visible. The stores are plain values, the
  procedures are `Stores.Adjust`, and listings and failures are parameters.
- `Promise.all` in `uploadFiles` runs the uploads concurrently, and another
  tab can change the ledger between the admission test and the writes. The
  model runs the files one after another against one snapshot of the shown
  usage and limit.
- FileSystem.FileSystemHook.UploadFiles: with two files of the same name in
  one batch, the concurrent uploads race for the key. The model lets the
  earlier file of the batch win and refuses the later one.
- FileSystem.FileSystemHook.DeleteFile and RenameFile: bucket keys are
  compared literally. At the root a listed file's path is `uid//name`
  (`Paths.ListedPathIsObjectKeyIff`), not the key `uid/name` it was uploaded
  at. So in the model, deleting a root file removes nothing yet reports
  success and debits the ledger, and renaming one fails at the download.
  Whether the storage service collapses the doubled '/' is not visible.
- FileSystem.FileSystemHook.LoadFiles: the folder read, the bucket listing
  and the quota read fail together as one `relist.fails`. The quota read's
  "no rows" code is not a failure.
- FileSystem.FolderItems, NewFolderIsListed and FileSystemHook.CreateFolder:
  the folder read `select('*')` has no `.order(...)`, and the database
  promises no row order without one. The model answers it in table order,
  with inserts appended and updated rows kept in place, so "the new folder
  is listed last" holds only under that ordering. Membership does not
  depend on it.
- FileSystem.FolderItems: `.eq('parent_path', null)` is taken to select the
  rows whose parent is null, as the code intends. A SQL equality with null
  matches no row (PostgREST's `is` filter is the one that does), so the
  service may well show no folders at the root.
- `formatFileSize`, `storagePercentage` and the storage percentages use
  floating-point logarithms, `toFixed` and division. They are not modelled.
- `getFileUrl` is modelled only as the key it is given. The public URL text
  is the storage service's.
- Timers and `Math.random` in `simulateFileUpload` become a sequence of
  draws in [0, 1). The model runs the ticks of one file in a single call, so
  a tick firing after `removeFile` and re-adding the entry is not modelled.
- `handleFiles` starts the timers, but their ticks are not part of its
  call; they are `SimulateFileUpload`.
- Toasts, console logging, dates (`toLocaleString`), JSX, icons as markup,
  drag-and-drop flags and view modes are presentation only.
- Authentication, routing, the admin, dashboard, settings, shared, recent
  and login pages, `storage-info.tsx` and `file-preview.tsx` are not part of
  this model.
- `useFileStorage` declares `storageUsed` and `storageLimit` but never sets
  them. They are left out.
- Lowercasing is ASCII only. Non-ASCII case mapping of `toLowerCase` is not
  modelled.
- JavaScript objects used as dictionaries (`uploadProgress`,
  `photosByAlbum`) are maps. Key enumeration order is not modelled, and
  neither are inherited prototype keys such as an album called
  "constructor".
- The hooks' `loading` flag between a call's start and its end is not
  observable in a model whose calls are atomic. Only its final value is
  stated.
