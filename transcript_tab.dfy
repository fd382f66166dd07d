/**
 * The upload area of the transcript tab: a drop zone that lights up while
 * something is dragged over it, a hidden file picker, a single slot holding
 * the file chosen last, and an "Upload" button enabled only when the slot is
 * filled. No file type or size is checked anywhere.
 */
module TranscriptTab {
  import opened Options

  /** A `File` chosen by the user, as an opaque handle (name, size and content are not modelled). */
  datatype FileRef = FileRef(handle: nat)

  /** A `FileList` as the handlers see it: `None` when the list itself is `null`. */
  type FileList = Option<seq<FileRef>>

  /** The tab's local state. */
  datatype Intake = Intake(dragActive: bool, uploadedFile: Option<FileRef>)

  const Initial := Intake(false, None)

  /** The file a handler takes from a list: element 0, when the list exists and has one. */
  function FirstFile(files: FileList): (r: Option<FileRef>)
    ensures r.Some? <==> files.Some? && |files.value| > 0
    ensures r.Some? ==> r.value == files.value[0]
  {
    match files
    case Some(fs) => if |fs| > 0 then Some(fs[0]) else None
    case None => None
  }

  /** `handleDrag`: the drop-zone flag after a drag event of the given `type`. */
  function DragFlag(active: bool, eventType: string): bool
  {
    if eventType == "dragenter" || eventType == "dragover" then true
    else if eventType == "dragleave" then false
    else active
  }

  function Drag(s: Intake, eventType: string): Intake
  {
    s.(dragActive := DragFlag(s.dragActive, eventType))
  }

  /** Store the first file of a list, if there is one; keep the slot otherwise. */
  function Store(slot: Option<FileRef>, files: FileList): Option<FileRef>
  {
    match FirstFile(files)
    case Some(f) => Some(f)
    case None => slot
  }

  /** `handleDrop`: the drag ends, and the first dropped file (if any) replaces the stored one. */
  function Drop(s: Intake, files: FileList): Intake
  {
    Intake(false, Store(s.uploadedFile, files))
  }

  /** `handleFileSelect`: the first picked file (if any) replaces the stored one. */
  function Select(s: Intake, files: FileList): Intake
  {
    s.(uploadedFile := Store(s.uploadedFile, files))
  }

  /** The "Upload" button is enabled, and the file name row shown, exactly when a file is stored. */
  predicate UploadEnabled(s: Intake) { s.uploadedFile.Some? }

  predicate ShowsFileName(s: Intake) { s.uploadedFile.Some? }

  /** The events the tab reacts to. */
  datatype Event = DragEvent(eventType: string) | DropEvent(dropped: FileList) | PickEvent(picked: FileList)

  function Apply(s: Intake, e: Event): Intake
  {
    match e
    case DragEvent(t) => Drag(s, t)
    case DropEvent(fs) => Drop(s, fs)
    case PickEvent(fs) => Select(s, fs)
  }

  /** The state after the events `es`, in order. */
  function Run(s: Intake, es: seq<Event>): Intake
    decreases |es|
  {
    if es == [] then s else Apply(Run(s, es[..|es| - 1]), es[|es| - 1])
  }

  /** The files an event offers for the slot (none for a drag event). */
  function Offers(e: Event): FileList
  {
    match e
    case DragEvent(_) => None
    case DropEvent(fs) => fs
    case PickEvent(fs) => fs
  }

  /** The first file of the latest drop or pick that carried one, if any did. */
  function LatestFile(es: seq<Event>): Option<FileRef>
    decreases |es|
  {
    if es == [] then None
    else match FirstFile(Offers(es[|es| - 1]))
      case Some(f) => Some(f)
      case None => LatestFile(es[..|es| - 1])
  }

  /** The drop-zone flag for each kind of drag event. */
  lemma DragRule(active: bool, eventType: string)
    ensures eventType in {"dragenter", "dragover"} ==> DragFlag(active, eventType)
    ensures eventType == "dragleave" ==> !DragFlag(active, eventType)
    ensures eventType !in {"dragenter", "dragover", "dragleave"} ==> DragFlag(active, eventType) == active
  {
  }

  /** Drag events never touch the slot; picking never touches the flag; a drop always clears it. */
  lemma HandlersFrame(s: Intake, t: string, fs: FileList)
    ensures Drag(s, t).uploadedFile == s.uploadedFile
    ensures Select(s, fs).dragActive == s.dragActive
    ensures !Drop(s, fs).dragActive
  {
  }

  /**
   * A drop or pick with at least one file stores exactly its first file,
   * whatever was stored before; an empty or missing list keeps the slot.
   */
  lemma StoreReplaces(s: Intake, fs: FileList)
    ensures fs.Some? && |fs.value| > 0 ==>
              Drop(s, fs).uploadedFile == Some(fs.value[0]) && Select(s, fs).uploadedFile == Some(fs.value[0])
    ensures !(fs.Some? && |fs.value| > 0) ==>
              Drop(s, fs).uploadedFile == s.uploadedFile && Select(s, fs).uploadedFile == s.uploadedFile
  {
  }

  /** After any sequence of events the slot holds the first file of the latest non-empty drop or pick. */
  lemma {:induction false} SlotHoldsLatest(es: seq<Event>)
    ensures Run(Initial, es).uploadedFile == LatestFile(es)
    decreases |es|
  {
    if es != [] {
      SlotHoldsLatest(es[..|es| - 1]);
    }
  }

  /** Upload stays disabled, and no file name is shown, until some drop or pick has carried a file. */
  lemma UploadEnabledIffFileOffered(es: seq<Event>)
    ensures UploadEnabled(Run(Initial, es)) <==> exists i :: 0 <= i < |es| && FirstFile(Offers(es[i])).Some?
    ensures ShowsFileName(Run(Initial, es)) <==> UploadEnabled(Run(Initial, es))
  {
    SlotHoldsLatest(es);
    LatestSomeIff(es);
  }

  lemma {:induction false} LatestSomeIff(es: seq<Event>)
    ensures LatestFile(es).Some? <==> exists i :: 0 <= i < |es| && FirstFile(Offers(es[i])).Some?
    decreases |es|
  {
    if es != [] {
      var init := es[..|es| - 1];
      LatestSomeIff(init);
      if LatestFile(es).Some? && FirstFile(Offers(es[|es| - 1])).None? {
        var i :| 0 <= i < |init| && FirstFile(Offers(init[i])).Some?;
        assert es[i] == init[i];
      }
      if exists i :: 0 <= i < |es| && FirstFile(Offers(es[i])).Some? {
        var i :| 0 <= i < |es| && FirstFile(Offers(es[i])).Some?;
        if i < |es| - 1 {
          assert init[i] == es[i];
        }
      }
    }
  }

  /** The transcript tab component: its state hooks as fields, its handlers as methods. */
  class TranscriptIntake {
    var dragActive: bool
    var uploadedFile: Option<FileRef>

    function Snapshot(): Intake
      reads this
    {
      Intake(dragActive, uploadedFile)
    }

    constructor ()
      ensures !dragActive && uploadedFile == None
      ensures Snapshot() == Initial
    {
      dragActive := false;
      uploadedFile := None;
    }

    /** `handleDrag`, bound to the drop zone's dragenter, dragleave and dragover. */
    method HandleDrag(eventType: string)
      modifies this
      ensures dragActive == DragFlag(old(dragActive), eventType)
      ensures uploadedFile == old(uploadedFile)
      ensures Snapshot() == Drag(old(Snapshot()), eventType)
    {
      if eventType == "dragenter" || eventType == "dragover" {
        dragActive := true;
      } else if eventType == "dragleave" {
        dragActive := false;
      }
    }

    method HandleDrop(files: FileList)
      modifies this
      ensures !dragActive
      ensures files.Some? && |files.value| > 0 ==> uploadedFile == Some(files.value[0])
      ensures !(files.Some? && |files.value| > 0) ==> uploadedFile == old(uploadedFile)
      ensures Snapshot() == Drop(old(Snapshot()), files)
    {
      dragActive := false;
      if files.Some? && |files.value| > 0 {
        uploadedFile := Some(files.value[0]);
      }
    }

    /** `handleFileSelect`, the hidden file input's change handler. */
    method HandleFileSelect(files: FileList)
      modifies this
      ensures dragActive == old(dragActive)
      ensures files.Some? && |files.value| > 0 ==> uploadedFile == Some(files.value[0])
      ensures !(files.Some? && |files.value| > 0) ==> uploadedFile == old(uploadedFile)
      ensures Snapshot() == Select(old(Snapshot()), files)
    {
      if files.Some? && |files.value| > 0 {
        uploadedFile := Some(files.value[0]);
      }
    }

    /**
     * `handleUpload`: changes nothing; it only reports (logs) the stored file,
     * and only when there is one.
     */
    method HandleUpload() returns (logged: Option<FileRef>)
      ensures logged == uploadedFile
      ensures logged.Some? <==> UploadEnabled(Snapshot())
    {
      if uploadedFile.Some? {
        logged := uploadedFile;
      } else {
        logged := None;
      }
    }
  }
}
