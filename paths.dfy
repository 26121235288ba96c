/** How the hooks build folder paths and object-store keys from the signed-in
    user's id, the directory being shown and an item's name
    (src/hooks/use-file-system.tsx, src/hooks/use-file-storage.ts,
    src/hooks/use-folders.ts). A directory is a '/'-joined path with no
    leading '/', and "" is the root. */
module Paths {
  import opened Options
  import Text

  /** `dir ? `${dir}/${name}` : name`: the path of `name` inside `dir`. */
  function JoinPath(dir: string, name: string): (p: string)
    ensures dir == "" ==> p == name
    ensures dir != "" ==> |p| == |dir| + 1 + |name| && p[..|dir|] == dir && p[|dir|] == '/' && p[|dir| + 1..] == name
  {
    if dir == "" then name else dir + "/" + name
  }

  /** `dir || null`: the `parent_path` column of a folder created in `dir`, and
      the value the listing matches `parent_path` against. */
  function ParentOf(dir: string): (parent: Option<string>)
    ensures parent.None? <==> dir == ""
    ensures parent.Some? ==> parent.value == dir
  {
    if dir == "" then None else Some(dir)
  }

  /** `${user.id}/${filePath}` with `filePath = JoinPath(dir, name)`: the key an
      upload writes. */
  function ObjectKey(uid: string, dir: string, name: string): string
  {
    uid + "/" + JoinPath(dir, name)
  }

  /** An upload's key lies under the user's own folder and ends in the file's
      name; at the root it is the name right after `${user.id}/`. */
  lemma ObjectKeyShape(uid: string, dir: string, name: string)
    ensures Text.IsPrefix(uid + "/", ObjectKey(uid, dir, name))
    ensures dir == "" ==> ObjectKey(uid, dir, name) == uid + "/" + name
    ensures dir != "" ==> Text.HasSuffix(ObjectKey(uid, dir, name), "/" + name)
  {
    var key := ObjectKey(uid, dir, name);
    assert key[..|uid| + 1] == uid + "/";
    if dir != "" {
      assert key[|key| - |name| - 1..] == "/" + name;
    }
  }

  /** Distinct names give distinct keys in the same directory. */
  lemma ObjectKeyInjective(uid: string, dir: string, a: string, b: string)
    ensures ObjectKey(uid, dir, a) == ObjectKey(uid, dir, b) <==> a == b
  {
    if ObjectKey(uid, dir, a) == ObjectKey(uid, dir, b) {
      assert JoinPath(dir, a) == ObjectKey(uid, dir, a)[|uid| + 1..];
      assert JoinPath(dir, b) == ObjectKey(uid, dir, b)[|uid| + 1..];
      JoinPathInjective(dir, a, b);
    }
  }

  /** `basePath = `${user.id}/${path}``: the prefix the listing asks the object
      store for. */
  function BasePath(uid: string, dir: string): string
  {
    uid + "/" + dir
  }

  /** `${basePath}/${file.name}`: the `path` (and public-URL key) a listed
      file is given. */
  function ListedPath(uid: string, dir: string, name: string): (path: string)
    ensures Text.IsPrefix(uid + "/", path)
    ensures Text.HasSuffix(path, "/" + name)
    ensures |path| == |uid| + |dir| + |name| + 2
  {
    var path := BasePath(uid, dir) + "/" + name;
    assert path[|path| - |name| - 1..] == "/" + name;
    path
  }

  /** `${user.id}/${folderPath}/.folder`: the marker object of a folder. */
  function MarkerKey(uid: string, folderPath: string): (key: string)
    ensures Text.IsPrefix(uid + "/", key)
    ensures Text.HasSuffix(key, "/.folder")
  {
    var key := uid + "/" + folderPath + "/.folder";
    assert key[|key| - 8..] == "/.folder";
    key
  }

  /** `dir ? `${user.id}/${dir}/` : `${user.id}/``: the prefix a renamed file
      is written under. */
  function DirPrefix(uid: string, dir: string): (prefix: string)
    ensures Text.IsPrefix(uid + "/", prefix)
    ensures Text.EndsWith(prefix, '/')
    ensures |prefix| == if dir == "" then |uid| + 1 else |uid| + |dir| + 2
  {
    if dir == "" then uid + "/" else uid + "/" + dir + "/"
  }

  /** Outside the root, a listed file's path is the key its upload wrote; at
      the root it is not, because `basePath` already ends in '/' and the
      listing adds a second one. */
  lemma ListedPathIsObjectKeyIff(uid: string, dir: string, name: string)
    ensures ListedPath(uid, dir, name) == ObjectKey(uid, dir, name) <==> dir != ""
    ensures dir == "" ==> ListedPath(uid, dir, name) == uid + "//" + name
  {
    if dir == "" {
      assert |ListedPath(uid, dir, name)| == |ObjectKey(uid, dir, name)| + 1;
      assert uid + "/" + "" + "/" + name == uid + "//" + name;
    } else {
      assert uid + "/" + dir + "/" + name == uid + "/" + (dir + "/" + name);
    }
  }

  /** A file renamed to `name` lands exactly where an upload of `name` into
      the same directory would. */
  lemma RenameTargetIsObjectKey(uid: string, dir: string, name: string)
    ensures DirPrefix(uid, dir) + name == ObjectKey(uid, dir, name)
  {
    if dir != "" {
      assert uid + "/" + dir + "/" + name == uid + "/" + (dir + "/" + name);
    }
  }

  /** The marker of a folder with a non-empty path is the object named
      ".folder" inside that folder. */
  lemma MarkerKeyIsObjectKey(uid: string, folderPath: string)
    requires folderPath != ""
    ensures MarkerKey(uid, folderPath) == ObjectKey(uid, folderPath, ".folder")
  {
    assert uid + "/" + folderPath + "/.folder" == uid + "/" + (folderPath + "/" + ".folder");
  }

  /** Distinct names give distinct paths in the same directory. */
  lemma JoinPathInjective(dir: string, a: string, b: string)
    requires JoinPath(dir, a) == JoinPath(dir, b)
    ensures a == b
  {
    if dir != "" {
      assert a == JoinPath(dir, a)[|dir| + 1..];
    }
  }
}
