/**
 * One document uploader (components/FileUploader.tsx): which of the session's
 * files it shows, and the records it creates for a selection or a drop.
 *
 * The clock, `Math.random()` and `URL.createObjectURL` become a supply of
 * arbitrary values, one per file of the batch; neither their freshness nor
 * the uniqueness of the ids built from them is modelled.
 */
module Uploader {
  import opened Wrappers
  import opened Types

  /** The props an uploader's behaviour depends on. */
  datatype UploaderProps = UploaderProps(
    id: string, category: DocumentCategory, multiple: Option<bool>, optional: Option<bool>)

  /** What the clock, the random generator and the object-URL factory give one file. */
  datatype FreshValues = FreshValues(time: string, random: string, preview: PreviewToken)

  /** The outcome of a selection or a drop: nothing, or one batch handed to `onFilesAdded`. */
  datatype UploadEffect = NoChange | FilesAdded(batch: seq<UploadedFile>, clearInput: bool)

  /** The two upload prompts; only `multiple` chooses between them. */
  datatype Prompt = UploadPrompt | AddFilePrompt

  /** A flag that may be absent counts as false (`multiple = false`, `optional = false`). */
  function Flag(o: Option<bool>): (r: bool)
    ensures r <==> o == Some(true)
  {
    o.GetOr(false)
  }

  /** A file is shown by an uploader when the category matches and the id starts with the uploader's id. */
  function BelongsTo(f: UploadedFile, id: string, category: DocumentCategory): (b: bool)
    ensures b <==> f.category == category && exists rest :: f.id == id + rest
  {
    var b := f.category == category && id <= f.id;
    assert id <= f.id ==> f.id == id + f.id[|id|..];
    b
  }

  /** `associatedFiles`: the files that belong to this uploader, in session order. */
  function AssociatedFiles(files: seq<UploadedFile>, id: string, category: DocumentCategory): (r: seq<UploadedFile>)
    ensures |r| <= |files|
    ensures forall f :: f in r ==> f in files && BelongsTo(f, id, category)
    ensures forall f :: f in files && BelongsTo(f, id, category) ==> f in r
  {
    if files == [] then []
    else
      var rest := AssociatedFiles(files[1..], id, category);
      assert forall f :: f in files[1..] ==> f in files;
      assert forall f :: f in files ==> f == files[0] || f in files[1..];
      if BelongsTo(files[0], id, category) then [files[0]] + rest else rest
  }

  /** Filtering works piecewise, so the shown files keep the session's order. */
  lemma {:induction false} AssociatedFilesAppend(a: seq<UploadedFile>, b: seq<UploadedFile>,
                                                 id: string, category: DocumentCategory)
    ensures AssociatedFiles(a + b, id, category) ==
              AssociatedFiles(a, id, category) + AssociatedFiles(b, id, category)
  {
    if a == [] {
      assert a + b == b;
    } else {
      assert (a + b)[1..] == a[1..] + b;
      AssociatedFilesAppend(a[1..], b, id, category);
    }
  }

  /** A list whose every file belongs to the uploader is shown whole. */
  lemma {:induction false} AssociatedFilesAll(files: seq<UploadedFile>, id: string, category: DocumentCategory)
    requires forall i :: 0 <= i < |files| ==> BelongsTo(files[i], id, category)
    ensures AssociatedFiles(files, id, category) == files
  {
    if files != [] {
      AssociatedFilesAll(files[1..], id, category);
    }
  }

  /** The id `${id}-${Date.now()}-${Math.random()}` of a new record. */
  function NewFileId(id: string, stamp: FreshValues): (r: string)
    ensures id + "-" <= r
  {
    id + "-" + stamp.time + "-" + stamp.random
  }

  /** The record built for one file: no base64 yet, the file's own type, the supplied preview. */
  function MakeRecord(id: string, category: DocumentCategory, file: FileHandle, stamp: FreshValues): (r: UploadedFile)
    ensures BelongsTo(r, id, category)
  {
    UploadedFile(NewFileId(id, stamp), file, category, Some(stamp.preview), None, file.mimeType)
  }

  /** `processFiles`: one record per file, in the order of the files. */
  function ProcessFiles(id: string, category: DocumentCategory, fileList: seq<FileHandle>,
                        supply: nat -> FreshValues): (r: seq<UploadedFile>)
    ensures |r| == |fileList|
    ensures forall i :: 0 <= i < |r| ==>
      && r[i].file == fileList[i]
      && r[i].category == category
      && r[i].mimeType == fileList[i].mimeType
      && id + "-" <= r[i].id
      && r[i].previewUrl == Some(supply(i).preview)
      && r[i].base64 == None
  {
    var r := seq(|fileList|, i requires 0 <= i < |fileList| => MakeRecord(id, category, fileList[i], supply(i)));
    assert forall i :: 0 <= i < |r| ==> id + "-" <= NewFileId(id, supply(i)) == r[i].id;
    r
  }

  /**
   * Round trip: after the session appends a batch this uploader created, the
   * uploader shows what it showed before followed by the whole batch, in order.
   */
  lemma CreatedFilesAreShown(existing: seq<UploadedFile>, id: string, category: DocumentCategory,
                             fileList: seq<FileHandle>, supply: nat -> FreshValues)
    ensures var batch := ProcessFiles(id, category, fileList, supply);
      AssociatedFiles(existing + batch, id, category) == AssociatedFiles(existing, id, category) + batch
  {
    var batch := ProcessFiles(id, category, fileList, supply);
    AssociatedFilesAppend(existing, batch, id, category);
    AssociatedFilesAll(batch, id, category);
  }

  /** `handleFileChange`: an absent or empty selection adds nothing; otherwise the batch is added and the input cleared. */
  function OnFileChange(props: UploaderProps, selection: Option<seq<FileHandle>>,
                        supply: nat -> FreshValues): (e: UploadEffect)
    ensures e == NoChange <==> selection.None? || selection.value == []
    ensures e.FilesAdded? ==> e.clearInput && |e.batch| == |selection.value|
    ensures e.FilesAdded? ==> e.batch == ProcessFiles(props.id, props.category, selection.value, supply)
  {
    if selection.Some? && |selection.value| > 0 then
      FilesAdded(ProcessFiles(props.id, props.category, selection.value, supply), true)
    else NoChange
  }

  /** `handleDrop`: every dropped file is added, whether or not the uploader allows several. */
  function OnDrop(props: UploaderProps, dropped: Option<seq<FileHandle>>,
                  supply: nat -> FreshValues): (e: UploadEffect)
    ensures e == NoChange <==> dropped.None? || dropped.value == []
    ensures e.FilesAdded? ==> !e.clearInput && |e.batch| == |dropped.value|
    ensures e.FilesAdded? ==> e.batch == ProcessFiles(props.id, props.category, dropped.value, supply)
  {
    if dropped.Some? && |dropped.value| > 0 then
      FilesAdded(ProcessFiles(props.id, props.category, dropped.value, supply), false)
    else NoChange
  }

  /** A drop of several files into a single-file uploader still adds all of them. */
  lemma DropIgnoresMultiple(props: UploaderProps, dropped: seq<FileHandle>, supply: nat -> FreshValues)
    requires !Flag(props.multiple) && |dropped| >= 2
    ensures OnDrop(props, Some(dropped), supply).FilesAdded?
    ensures |OnDrop(props, Some(dropped), supply).batch| == |dropped| >= 2
  {
  }

  /** The upload prompt: "add file" for a multi-file uploader, "upload" otherwise. */
  function PromptFor(props: UploaderProps): (p: Prompt)
    ensures p == AddFilePrompt <==> props.multiple == Some(true)
  {
    if Flag(props.multiple) then AddFilePrompt else UploadPrompt
  }

  /** The remove button of a shown record asks the session to remove exactly that record's id. */
  function RemoveRequest(shown: seq<UploadedFile>, k: nat): (fileId: string)
    requires k < |shown|
    ensures fileId == shown[k].id
  {
    shown[k].id
  }
}
