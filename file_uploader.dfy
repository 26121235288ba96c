/** The `FileUploader` component of src/components/file-uploader.tsx: the
    list of files picked for upload, a simulated progress per file name, and
    the icon chosen from a file's extension. */
module FileUploader {
  import opened Text
  import opened FileTypes
  import Seqs

  /** A picked file: its name and its size in bytes. */
  datatype PendingFile = PendingFile(name: string, size: nat)

  /** The icons `getFileIcon` draws. */
  datatype Icon = ImageIcon | PdfIcon | DocumentIcon | DefaultIcon

  /** The document extensions `getFileIcon` knows; a narrower list than the
      one `getFileType` of src/hooks/use-file-system.tsx uses. */
  const IconDocumentExtensions: seq<string> := ["doc", "docx", "txt"]

  /** The `switch` of `getFileIcon` on a lowercased extension. */
  function IconOfExtension(ext: string): (icon: Icon)
    ensures icon == ImageIcon <==> ext in ImageExtensions
    ensures icon == PdfIcon <==> ext == "pdf"
    ensures icon == DocumentIcon <==> ext in IconDocumentExtensions
  {
    if ext in ImageExtensions then ImageIcon
    else if ext == "pdf" then PdfIcon
    else if ext in IconDocumentExtensions then DocumentIcon
    else DefaultIcon
  }

  /** `getFileIcon(fileName)`: the extension is found as `getFileType` finds
      it (the text after the last '.', lowercased). */
  function IconOf(fileName: string): (icon: Icon)
    ensures icon == ImageIcon <==> Extension(fileName) in ImageExtensions
    ensures icon == PdfIcon <==> Extension(fileName) == "pdf"
    ensures icon == DocumentIcon <==> Extension(fileName) in IconDocumentExtensions
  {
    IconOfExtension(Extension(fileName))
  }

  /** The spreadsheet and presentation extensions: documents to
      `getFileType`, default icons to `getFileIcon`. */
  const OfficeExtensions: seq<string> := ["xls", "xlsx", "ppt", "pptx"]

  /** The two document lists: the icon's list, then the office extensions. */
  lemma DocumentExtensionsSplit()
    ensures DocumentExtensions == IconDocumentExtensions + OfficeExtensions
    ensures forall e :: e in OfficeExtensions ==> e !in IconDocumentExtensions
  {
  }

  /** The icon and the type of one extension agree on images and PDFs; they
      differ exactly on the office extensions. */
  lemma IconAgreesWithKind(ext: string)
    ensures IconOfExtension(ext) == ImageIcon <==> KindOfExtension(ext) == Image
    ensures IconOfExtension(ext) == PdfIcon <==> KindOfExtension(ext) == Pdf
    ensures IconOfExtension(ext) == DocumentIcon ==> KindOfExtension(ext) == Document
    ensures KindOfExtension(ext) == Document && IconOfExtension(ext) == DefaultIcon <==> ext in OfficeExtensions
  {
    DocumentExtensionsSplit();
  }

  /** The icon and the file type of a name agree on images and PDFs; they
      differ only on the spreadsheet and presentation extensions, which
      `getFileType` calls documents and `getFileIcon` draws with the default
      icon. */
  lemma IconAgreesWithFileType(fileName: string)
    ensures IconOf(fileName) == ImageIcon <==> FileType(fileName) == Image
    ensures IconOf(fileName) == PdfIcon <==> FileType(fileName) == Pdf
    ensures IconOf(fileName) == DocumentIcon ==> FileType(fileName) == Document
    ensures FileType(fileName) == Document && IconOf(fileName) == DefaultIcon
        <==> Extension(fileName) in OfficeExtensions
  {
    IconAgreesWithKind(Extension(fileName));
  }

  /** The title of the toast `handleFiles` shows: the count, then "file" or
      "files", then "added". */
  function AddedTitle(count: nat): (title: string)
    ensures HasSuffix(title, " file added") <==> count == 1
    ensures HasSuffix(title, if count == 1 then " file added" else " files added")
    ensures HasSuffix(title, " added")
    ensures IsPrefix(NatToString(count) + " ", title)
  {
    TitleEnds(NatToString(count), count == 1);
    NatToString(count) + " " + (if count == 1 then "file" else "files") + " added"
  }

  /** A title built from any count text ends in the words that follow it,
      and in " file added" only for a single file. */
  lemma TitleEnds(digits: string, one: bool)
    ensures var title := digits + " " + (if one then "file" else "files") + " added";
      && IsPrefix(digits + " ", title)
      && HasSuffix(title, if one then " file added" else " files added")
      && HasSuffix(title, " added")
      && (HasSuffix(title, " file added") <==> one)
  {
    var word := if one then "file" else "files";
    var title := digits + " " + word + " added";
    var rest := word + " added";
    assert title == (digits + " ") + rest;
    ConcatEnds(digits + " ", rest, rest);
    assert title[|title| - |rest| - 1..] == if one then " file added" else " files added";
    assert title[|title| - 6..] == " added";
    if !one {
      assert title[|title| - 11] == 'f';
      NotSuffixAt(title, " file added", 0);
    }
  }

  /** The largest step one tick of the simulated upload takes. */
  const TickStep: real := 20.0

  /** The progress `simulateFileUpload` reaches from `progress` when the
      ticks draw `draws` from `Math.random()`: each tick adds up to 20, and
      the first tick that reaches 100 sets it to exactly 100 and stops the
      timer, so the later draws are not used. */
  function Ticks(progress: real, draws: seq<real>): (final: real)
    requires 0.0 <= progress <= 100.0
    requires forall i :: 0 <= i < |draws| ==> 0.0 <= draws[i] < 1.0
    ensures progress <= final <= 100.0
    decreases |draws|
  {
    if draws == [] then progress
    else
      var next := progress + draws[0] * TickStep;
      if next >= 100.0 then 100.0 else Ticks(next, draws[1..])
  }

  /** Once a tick reaches 100, the progress is 100 whatever ticks follow. */
  lemma {:induction false} TicksStopAtHundred(progress: real, draws: seq<real>)
    requires 0.0 <= progress <= 100.0
    requires forall i :: 0 <= i < |draws| ==> 0.0 <= draws[i] < 1.0
    requires |draws| > 0 && progress + draws[0] * TickStep >= 100.0
    ensures forall more: seq<real> :: (forall i :: 0 <= i < |more| ==> 0.0 <= more[i] < 1.0) ==>
      Ticks(progress, draws + more) == 100.0
  {
    forall more: seq<real> | forall i :: 0 <= i < |more| ==> 0.0 <= more[i] < 1.0
      ensures Ticks(progress, draws + more) == 100.0
    {
      assert (draws + more)[0] == draws[0];
    }
  }

  /** The pending files not called `name`. */
  function WithoutName(files: seq<PendingFile>, name: string): (kept: seq<PendingFile>)
    ensures forall i :: 0 <= i < |kept| ==> kept[i] in files && kept[i].name != name
    ensures forall i :: 0 <= i < |files| && files[i].name != name ==> files[i] in kept
  {
    Seqs.Filter(files, NamedOtherThan(name))
  }

  function NamedOtherThan(name: string): PendingFile -> bool
  {
    (file: PendingFile) => file.name != name
  }

  /** Removing a name keeps the other files in their order. */
  lemma WithoutNameKeepsOrder(a: seq<PendingFile>, b: seq<PendingFile>, name: string)
    ensures WithoutName(a + b, name) == WithoutName(a, name) + WithoutName(b, name)
  {
    Seqs.FilterConcat(a, b, NamedOtherThan(name));
  }

  /** Removing a name nobody has changes nothing. */
  lemma WithoutAbsentName(files: seq<PendingFile>, name: string)
    requires forall i :: 0 <= i < |files| ==> files[i].name != name
    ensures WithoutName(files, name) == files
  {
    Seqs.FilterKeepAll(files, NamedOtherThan(name));
  }

  class Uploader {
    var files: seq<PendingFile>
    var uploadProgress: map<string, real>

    /** Every progress shown lies between 0 and 100. */
    predicate Valid()
      reads this
    {
      forall name :: name in uploadProgress ==> 0.0 <= uploadProgress[name] <= 100.0
    }

    constructor ()
      ensures Valid()
      ensures files == [] && uploadProgress == map[]
    {
      files := [];
      uploadProgress := map[];
    }

    /** `handleFiles(newFiles)`: the new files go after the ones already
        listed, and the toast title counts them. The progress of each new
        file appears only when its first timer tick fires, which is
        `SimulateFileUpload`. */
    method HandleFiles(newFiles: seq<PendingFile>) returns (title: string)
      modifies this
      ensures files == old(files) + newFiles
      ensures uploadProgress == old(uploadProgress)
      ensures title == AddedTitle(|newFiles|)
    {
      files := files + newFiles;
      title := AddedTitle(|newFiles|);
    }

    /** `removeFile(fileName)`: every file with that name and its progress
        entry go; everything else stays. */
    method RemoveFile(fileName: string)
      requires Valid()
      modifies this
      ensures Valid()
      ensures files == WithoutName(old(files), fileName)
      ensures uploadProgress == old(uploadProgress) - {fileName}
    {
      files := WithoutName(files, fileName);
      uploadProgress := uploadProgress - {fileName};
    }

    /** `simulateFileUpload(file)`, run for the ticks that drew `draws`: the
        progress of `file.name` is set at every tick, and the timer stops at
        the tick that reaches 100. */
    method SimulateFileUpload(file: PendingFile, draws: seq<real>) returns (progress: real)
      requires Valid()
      requires forall i :: 0 <= i < |draws| ==> 0.0 <= draws[i] < 1.0
      modifies this
      ensures Valid()
      ensures progress == Ticks(0.0, draws)
      ensures files == old(files)
      ensures uploadProgress == if draws == [] then old(uploadProgress) else old(uploadProgress)[file.name := progress]
    {
      progress := 0.0;
      var i := 0;
      var done := false;
      while i < |draws| && !done
        invariant 0 <= i <= |draws|
        invariant 0.0 <= progress <= 100.0
        invariant done ==> progress == 100.0
        invariant Ticks(0.0, draws) == if done then 100.0 else Ticks(progress, draws[i..])
        invariant i == 0 ==> !done && progress == 0.0 && uploadProgress == old(uploadProgress)
        invariant i > 0 ==> uploadProgress == old(uploadProgress)[file.name := progress]
        invariant files == old(files)
        decreases |draws| - i
      {
        progress := progress + draws[i] * TickStep;
        if progress >= 100.0 {
          progress := 100.0;
          done := true;
        }
        uploadProgress := uploadProgress[file.name := progress];
        i := i + 1;
      }
    }
  }
}
