/** The helpers of src/lib/supabase.ts. Each one asks the identity provider
    for the current user and reads that user's row once; here the user is
    `user` (None when nobody is signed in) and the row is what `.single()`
    returned: None when there is no row or the read failed. */
module Supabase {
  import opened Options
  import opened Stores

  /** `isAdmin()`: `role` is the `role` column of the user's `user_roles`
      row. */
  function IsAdmin(user: Option<string>, role: Option<string>): (admin: bool)
    ensures user.None? ==> !admin
    ensures user.Some? ==> (admin <==> role == Some("admin"))
  {
    user.Some? && role.Some? && role.value == "admin"
  }

  /** `getUserStorageUsed()`: 0 with nobody signed in or no row, otherwise
      the row's `storage_used`. */
  function GetUserStorageUsed(user: Option<string>, row: Option<QuotaRow>): (used: int)
    ensures user.None? || row.None? ==> used == 0
    ensures user.Some? && row.Some? ==> used == row.value.used
  {
    if user.None? then 0
    else if row.Some? && row.value.used != 0 then row.value.used
    else 0
  }

  /** `hasEnoughStorage(fileSize)`: false with nobody signed in or no row,
      otherwise whether the file fits under the limit. */
  function HasEnoughStorage(user: Option<string>, row: Option<QuotaRow>, fileSize: int): (enough: bool)
    ensures user.None? || row.None? ==> !enough
    ensures user.Some? && row.Some? ==> (enough <==> row.value.used + fileSize <= row.value.limit)
  {
    if user.None? then false
    else if row.None? then false
    else row.value.used + fileSize <= row.value.limit
  }

  /** A size that fits leaves room for every smaller size. */
  lemma HasEnoughStorageMonotone(user: Option<string>, row: Option<QuotaRow>, small: int, large: int)
    requires small <= large && HasEnoughStorage(user, row, large)
    ensures HasEnoughStorage(user, row, small)
  {
  }

  /** A zero-byte file fits exactly when the user is not over the limit
      already. */
  lemma EmptyFileFitsIffWithinLimit(uid: string, row: QuotaRow)
    ensures HasEnoughStorage(Some(uid), Some(row), 0) <==> row.used <= row.limit
  {
  }
}
