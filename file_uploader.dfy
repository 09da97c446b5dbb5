/** The `FileUploader` component of components/file-uploader.tsx: the
    extension test of a chosen file and the drag-highlight state. The
    `onFileSelect` callback and `alert` are recorded as the sequences of
    their calls. */
module FileUploader {
  import opened Wrappers
  import opened Text
  import opened Types
  import JsValue

  const UNSUPPORTED_PREFIX := "File type not supported. Please upload one of the following: "

  /** `.${file.name.split(".").pop()?.toLowerCase()}`: a '.' followed by the
      lower-cased text after the name's last '.'. */
  function DottedExtension(name: string): (ext: string)
    ensures |ext| >= 1 && ext[0] == '.'
    ensures '.' !in ext[1..]
    ensures forall i :: 0 <= i < |ext| ==> !IsAsciiUpper(ext[i])
  {
    "." + Extension(name)
  }

  /** `split('.').pop()` of a name ending in "." + ext, where ext has no
      '.', is ext. */
  lemma {:induction false} LastSegmentAfterDot(base: string, ext: string)
    requires '.' !in ext
    ensures LastSegment(base + "." + ext) == ext
    decreases |ext|
  {
    var s := base + "." + ext;
    if ext == [] {
      assert s[|s| - 1] == '.';
    } else {
      var init, last := ext[..|ext| - 1], ext[|ext| - 1];
      assert last in ext;
      assert s[|s| - 1] == last;
      assert '.' !in init by {
        assert forall k :: 0 <= k < |init| ==> init[k] == ext[k];
      }
      assert s[..|s| - 1] == base + "." + init;
      assert LastSegment(s) == LastSegment(base + "." + init) + [last];
      LastSegmentAfterDot(base, init);
      assert init + [last] == ext;
    }
  }

  /** The extension of "report.final.PDF" is ".pdf": the test ignores the
      case of the extension and looks only after the last '.'. */
  lemma ExtensionOfDottedName(base: string, ext: string)
    requires '.' !in ext
    ensures DottedExtension(base + "." + ext) == "." + ToLower(ext)
  {
    LastSegmentAfterDot(base, ext);
  }

  /** A name without '.' is its own extension. */
  lemma ExtensionWithoutDot(name: string)
    requires '.' !in name
    ensures DottedExtension(name) == "." + ToLower(name)
  {
    var r := LastSegment(name);
    assert forall i :: 0 <= i < |name| ==> name[i] != '.';
    assert r == name;
  }

  /** `acceptedFileTypes.includes(fileExtension)`. */
  predicate Accepts(acceptedFileTypes: seq<string>, file: File) {
    DottedExtension(file.name) in acceptedFileTypes
  }

  /** The alert text of a rejected file. */
  function UnsupportedAlert(acceptedFileTypes: seq<string>): (msg: string)
    ensures |UNSUPPORTED_PREFIX| <= |msg| && msg[..|UNSUPPORTED_PREFIX|] == UNSUPPORTED_PREFIX
    ensures |acceptedFileTypes| == 1 ==> msg == UNSUPPORTED_PREFIX + acceptedFileTypes[0]
    ensures forall i :: 0 <= i < |acceptedFileTypes| ==> JsValue.HasSubstring(msg, acceptedFileTypes[i])
  {
    var msg := UNSUPPORTED_PREFIX + Join(acceptedFileTypes, ", ");
    assert forall i :: 0 <= i < |acceptedFileTypes| ==> JsValue.HasSubstring(msg, acceptedFileTypes[i]) by {
      forall i | 0 <= i < |acceptedFileTypes|
        ensures JsValue.HasSubstring(msg, acceptedFileTypes[i])
      {
        ListedType(acceptedFileTypes, i);
      }
    }
    msg
  }

  /** The alert names each accepted type. */
  lemma ListedType(acceptedFileTypes: seq<string>, i: nat)
    requires i < |acceptedFileTypes|
    ensures JsValue.HasSubstring(UNSUPPORTED_PREFIX + Join(acceptedFileTypes, ", "), acceptedFileTypes[i])
  {
    var k := JoinOffset(acceptedFileTypes, ", ", i);
    OccursAfterPrefix(UNSUPPORTED_PREFIX, Join(acceptedFileTypes, ", "), acceptedFileTypes[i], k);
  }

  lemma OccursAfterPrefix(prefix: string, j: string, t: string, k: nat)
    requires k + |t| <= |j| && j[k..k + |t|] == t
    ensures JsValue.HasSubstring(prefix + j, t)
  {
    var msg := prefix + j;
    assert msg[|prefix| + k..|prefix| + k + |t|] == j[k..k + |t|];
    JsValue.HasSubstringAt(msg, t, |prefix| + k);
  }

  /** The drag-highlight after a drag event of the given type: on for
      "dragenter" and "dragover", off for "dragleave", unchanged otherwise. */
  function DragActiveAfter(active: bool, eventType: string): (r: bool)
    ensures eventType == "dragleave" ==> !r
    ensures r != active ==> eventType in {"dragenter", "dragover", "dragleave"}
  {
    if eventType == "dragenter" || eventType == "dragover" then true
    else if eventType == "dragleave" then false
    else active
  }

  /** The highlight after a sequence of drag events, oldest first. */
  function DragActiveAfterAll(active: bool, types: seq<string>): bool
    decreases |types|
  {
    if types == [] then active
    else DragActiveAfter(DragActiveAfterAll(active, types[..|types| - 1]), types[|types| - 1])
  }

  predicate IsDragChange(t: string) {
    t == "dragenter" || t == "dragover" || t == "dragleave"
  }

  /** `types[i]` is the last event that sets or clears the highlight. */
  predicate LastChange(types: seq<string>, i: int) {
    0 <= i < |types| && IsDragChange(types[i]) && forall j :: i < j < |types| ==> !IsDragChange(types[j])
  }

  /** Events that neither set nor clear the highlight leave it alone. */
  lemma {:induction false} DragUnchanged(active: bool, types: seq<string>)
    requires forall i :: 0 <= i < |types| ==> !IsDragChange(types[i])
    ensures DragActiveAfterAll(active, types) == active
    decreases |types|
  {
    if types != [] {
      var pre := types[..|types| - 1];
      assert forall j :: 0 <= j < |pre| ==> pre[j] == types[j];
      DragUnchanged(active, pre);
    }
  }

  /** The highlight is on after any sequence of drag events exactly when
      the last of them that was an enter, over or leave event was not a
      leave. */
  lemma {:induction false} DragHistory(active: bool, types: seq<string>, i: int)
    requires LastChange(types, i)
    ensures DragActiveAfterAll(active, types) == (types[i] != "dragleave")
    decreases |types|
  {
    var pre, t := types[..|types| - 1], types[|types| - 1];
    if i < |types| - 1 {
      assert !IsDragChange(t);
      assert pre[i] == types[i];
      assert forall j :: i < j < |pre| ==> pre[j] == types[j];
      DragHistory(active, pre, i);
    }
  }

  /** The component's state. `selected` lists the `onFileSelect` calls and
      `alerts` the `alert` calls, oldest first. */
  class FileUploaderState {
    const acceptedFileTypes: seq<string>
    var dragActive: bool
    var selectedFile: Option<File>
    var selected: seq<File>
    var alerts: seq<string>

    constructor(types: seq<string>)
      ensures acceptedFileTypes == types
      ensures !dragActive && selectedFile == None && selected == [] && alerts == []
    {
      acceptedFileTypes := types;
      dragActive := false;
      selectedFile := None;
      selected := [];
      alerts := [];
    }

    /** `handleDrag`. */
    method HandleDrag(eventType: string)
      modifies this
      ensures dragActive == DragActiveAfter(old(dragActive), eventType)
      ensures selectedFile == old(selectedFile) && selected == old(selected) && alerts == old(alerts)
    {
      if eventType == "dragenter" || eventType == "dragover" {
        dragActive := true;
      } else if eventType == "dragleave" {
        dragActive := false;
      }
    }

    /** `handleFile`: an accepted file becomes the selection and is passed
      to `onFileSelect` once; any other raises one alert listing the
      accepted types and changes nothing else. */
    method HandleFile(file: File)
      modifies this
      ensures Accepts(acceptedFileTypes, file) ==>
        selectedFile == Some(file) && selected == old(selected) + [file] && alerts == old(alerts)
      ensures !Accepts(acceptedFileTypes, file) ==>
        && selectedFile == old(selectedFile) && selected == old(selected)
        && alerts == old(alerts) + [UnsupportedAlert(acceptedFileTypes)]
      ensures dragActive == old(dragActive)
    {
      if Accepts(acceptedFileTypes, file) {
        Select(file);
      } else {
        Alert(UnsupportedAlert(acceptedFileTypes));
      }
    }

    /** `setSelectedFile(file)` and `onFileSelect(file)`. */
    method Select(file: File)
      modifies this
      ensures selectedFile == Some(file) && selected == old(selected) + [file]
      ensures alerts == old(alerts) && dragActive == old(dragActive)
    {
      selectedFile := Some(file);
      selected := selected + [file];
    }

    /** `alert(message)`. */
    method Alert(message: string)
      modifies this
      ensures alerts == old(alerts) + [message]
      ensures selectedFile == old(selectedFile) && selected == old(selected) && dragActive == old(dragActive)
    {
      alerts := alerts + [message];
    }

    /** `handleDrop`: the highlight goes off, and only the first dropped
      file is handled; an empty drop does nothing more. */
    method HandleDrop(files: seq<File>)
      modifies this
      ensures !dragActive
      ensures files == [] ==> selectedFile == old(selectedFile) && selected == old(selected) && alerts == old(alerts)
      ensures files != [] && Accepts(acceptedFileTypes, files[0]) ==>
        selectedFile == Some(files[0]) && selected == old(selected) + [files[0]] && alerts == old(alerts)
      ensures files != [] && !Accepts(acceptedFileTypes, files[0]) ==>
        && selectedFile == old(selectedFile) && selected == old(selected)
        && alerts == old(alerts) + [UnsupportedAlert(acceptedFileTypes)]
    {
      dragActive := false;
      if files != [] {
        HandleFile(files[0]);
      }
    }

    /** `handleChange` of the hidden input: the same as a drop, without
      touching the highlight. */
    method HandleChange(files: seq<File>)
      modifies this
      ensures dragActive == old(dragActive)
      ensures files == [] ==> selectedFile == old(selectedFile) && selected == old(selected) && alerts == old(alerts)
      ensures files != [] && Accepts(acceptedFileTypes, files[0]) ==>
        selectedFile == Some(files[0]) && selected == old(selected) + [files[0]] && alerts == old(alerts)
      ensures files != [] && !Accepts(acceptedFileTypes, files[0]) ==>
        && selectedFile == old(selectedFile) && selected == old(selected)
        && alerts == old(alerts) + [UnsupportedAlert(acceptedFileTypes)]
    {
      if files != [] {
        HandleFile(files[0]);
      }
    }
  }
}
