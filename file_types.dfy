/** Extension-based classification of a file name (`getFileType` in
    src/hooks/use-file-system.tsx). */
module FileTypes {
  import opened Text

  /** The `type` of a listed entry. */
  datatype FileKind = Folder | Image | Document | Pdf | Other

  const ImageExtensions: seq<string> := ["jpg", "jpeg", "png", "gif", "webp"]
  const DocumentExtensions: seq<string> := ["doc", "docx", "txt", "xls", "xlsx", "ppt", "pptx"]

  /** `fileName.split('.').pop()?.toLowerCase()`: the lowercased text after the
      last '.', or the whole lowercased name when it has no '.'. */
  function Extension(name: string): (ext: string)
    ensures '.' !in ext
    ensures |ext| <= |name|
    ensures ext == Lower(name[|name| - |ext|..])
    ensures |ext| < |name| ==> name[|name| - |ext| - 1] == '.'
  {
    var ext := Lower(AfterLastDot(name));
    assert forall i :: 0 <= i < |ext| ==> (ext[i] == '.' <==> AfterLastDot(name)[i] == '.');
    ext
  }

  /** The `type` of a file with lowercased extension `ext`: the branches of
      `getFileType` after the extension is taken. */
  function KindOfExtension(ext: string): (k: FileKind)
    ensures k != Folder
    ensures k == Image <==> ext in ImageExtensions
    ensures k == Pdf <==> ext == "pdf"
    ensures k == Document <==> ext in DocumentExtensions
  {
    if ext == "" then Other
    else if ext in ImageExtensions then Image
    else if ext == "pdf" then Pdf
    else if ext in DocumentExtensions then Document
    else Other
  }

  /** `getFileType`: total, never a folder. */
  function FileType(name: string): (k: FileKind)
    ensures k != Folder
  {
    KindOfExtension(Extension(name))
  }

  /** The type depends only on the text after the last dot: any stem, with any
      dots of its own, gives the same type for the same extension. */
  lemma FileTypeOfDotted(stem1: string, stem2: string, ext: string)
    requires '.' !in ext
    ensures Extension(stem1 + "." + ext) == Lower(ext)
    ensures FileType(stem1 + "." + ext) == FileType(stem2 + "." + ext)
  {
    AfterLastDotOfDotted(stem1, ext);
    AfterLastDotOfDotted(stem2, ext);
  }

  /** A name without any '.' is its own extension, so a file called "PDF" is
      classified as a pdf and one called "notes" as other. */
  lemma UndottedNameIsItsOwnExtension(name: string)
    requires '.' !in name
    ensures Extension(name) == Lower(name)
  {
  }

  /** A name ending in '.' has an empty extension and is classified as other. */
  lemma TrailingDotIsOther(stem: string)
    ensures Extension(stem + ".") == ""
    ensures FileType(stem + ".") == Other
  {
    AfterLastDotOfDotted(stem, "");
    assert stem + "." + "" == stem + ".";
  }

  /** The matching is case-insensitive: lowercasing the whole name does not
      change its type. */
  lemma FileTypeIgnoresCase(name: string)
    ensures Extension(Lower(name)) == Extension(name)
    ensures FileType(Lower(name)) == FileType(name)
  {
    AfterLastDotLower(name);
    LowerIdempotent(AfterLastDot(name));
  }

  /** The folder marker object ".folder" is an ordinary file of type other. */
  lemma MarkerIsOther()
    ensures Extension(".folder") == "folder"
    ensures FileType(".folder") == Other
  {
    FileTypeOfDotted("", "", "folder");
    assert "" + "." + "folder" == ".folder";
    assert Lower("folder") == "folder";
  }
}
