/** Bookkeeping rules of the script editor: the live file that watches an
    externally edited copy of the script, the "has changed" test, the text
    stored for an empty script, the save and search shortcuts, and closing a
    script window once its uploads have finished. */
module ScriptEditor {
  import opened Wrappers

  /** A watched file. `ignoreNextUpdate` suppresses the reaction to the
      change the editor itself causes when it writes the file. */
  class LiveLslFile {
    const filename: string
    var ignoreNextUpdate: bool
    /** The file names the change callback has been invoked with, in order. */
    var callbackCalls: seq<string>

    constructor (filename: string)
      ensures this.filename == filename && !ignoreNextUpdate && callbackCalls == []
    {
      this.filename := filename;
      ignoreNextUpdate := false;
      callbackCalls := [];
    }

    method IgnoreNextUpdate()
      modifies this
      ensures ignoreNextUpdate && callbackCalls == old(callbackCalls)
    {
      ignoreNextUpdate := true;
    }

    /** Reacts to a change of the file: a suppressed change only re-arms the
        watch; any other change is handed to `onChange`. */
    method LoadFile(onChange: string -> bool) returns (r: bool)
      modifies this
      ensures !ignoreNextUpdate
      ensures old(ignoreNextUpdate) ==> r && callbackCalls == old(callbackCalls)
      ensures !old(ignoreNextUpdate) ==> r == onChange(filename) && callbackCalls == old(callbackCalls) + [filename]
    {
      if ignoreNextUpdate {
        ignoreNextUpdate := false;
        return true;
      }
      callbackCalls := callbackCalls + [filename];
      r := onChange(filename);
    }
  }

  /** Of the text editor only its pristine flag matters here. */
  datatype TextEditor = TextEditor(pristine: bool)

  /** The parts of the editor core the change test reads; `editor` is None
      before the panel has been built. */
  datatype EdCore = EdCore(editor: Option<TextEditor>, enableSave: bool, hasScriptData: bool)

  /** Whether there is something to save. `core` is None for a missing core. */
  function HasChanged(core: Option<EdCore>): (r: bool)
    ensures core.None? || core.value.editor.None? ==> !r
    ensures r ==> core.value.hasScriptData
    ensures core.Some? && core.value.editor.Some? && core.value.hasScriptData ==>
            (r <==> !core.value.editor.value.pristine || core.value.enableSave)
  {
    match core
    case None => false
    case Some(c) =>
      match c.editor
      case None => false
      case Some(e) => (!e.pristine || c.enableSave) && c.hasScriptData
  }

  /** Saving disables the save button and makes the editor pristine, after
      which the core no longer counts as changed. */
  lemma SavedCoreUnchanged(c: EdCore)
    requires c.editor.Some?
    ensures !HasChanged(Some(c.(enableSave := false, editor := Some(TextEditor(true)))))
  {
  }

  /** The text written for a script: an empty script is stored as one space. */
  function StoredText(text: string): (r: string)
    ensures |r| > 0
    ensures text != "" ==> r == text
    ensures text == "" ==> r == " "
  {
    if |text| == 0 then " " else text
  }

  /** Two texts are stored alike only if they are equal or are the empty
      script and the one-space script. */
  lemma StoredTextCollisions(a: string, b: string)
    requires StoredText(a) == StoredText(b) && a != b
    ensures (a == "" && b == " ") || (a == " " && b == "")
  {
  }

  lemma StoredTextIdempotent(text: string)
    ensures StoredText(StoredText(text)) == StoredText(text)
  {
  }

  /** Modifier keys held with a key press; other mask bits play no part. */
  datatype Mask = Mask(control: bool, alt: bool, shift: bool)

  predicate JustControl(m: Mask)
  {
    m.control && !m.alt && !m.shift
  }

  datatype KeyAction = NoAction | Save(closeAfterSave: bool) | SearchReplace

  /** Ctrl-S saves (without closing) and Ctrl-F opens search and replace;
      either is consumed even without a callback to run. */
  function HandleKeyHere(key: char, mask: Mask, hasSaveCallback: bool, hasSearchCallback: bool)
    : (r: (bool, KeyAction))
    ensures r.0 <==> JustControl(mask) && (key == 'S' || key == 'F')
    ensures r.1 == Save(false) <==> r.0 && key == 'S' && hasSaveCallback
    ensures r.1 == SearchReplace <==> r.0 && key == 'F' && hasSearchCallback
    ensures r.1.Save? ==> !r.1.closeAfterSave
  {
    var justControl := JustControl(mask);
    if key == 'S' && justControl then
      (true, if hasSaveCallback then Save(false) else NoAction)
    else if key == 'F' && justControl then
      (true, if hasSearchCallback then SearchReplace else NoAction)
    else
      (false, NoAction)
  }

  /** What `closeIfNeeded` reads and changes in a script window. */
  datatype WindowState = WindowState(pendingUploads: int, closeAfterSave: bool, autosaveFilename: string,
                                     closed: bool, removedFiles: seq<string>)

  /** One upload finished: count it, and close (removing the autosave file)
      once nothing is pending and the save was meant to close the window. */
  function CloseIfNeededStep(w: WindowState): (r: WindowState)
    ensures r.pendingUploads == w.pendingUploads - 1
    ensures r.closeAfterSave == w.closeAfterSave && r.autosaveFilename == w.autosaveFilename
    ensures r.closed <==> w.closed || (r.pendingUploads <= 0 && w.closeAfterSave)
    ensures r.removedFiles == w.removedFiles +
      (if r.pendingUploads <= 0 && w.closeAfterSave && w.autosaveFilename != "" then [w.autosaveFilename] else [])
  {
    var pending := w.pendingUploads - 1;
    if pending <= 0 && w.closeAfterSave then
      var removed := if w.autosaveFilename != "" then w.removedFiles + [w.autosaveFilename] else w.removedFiles;
      WindowState(pending, w.closeAfterSave, w.autosaveFilename, true, removed)
    else
      w.(pendingUploads := pending)
  }

  /** The window after `k` uploads have reported back. */
  function AfterCompletions(w: WindowState, k: nat): WindowState
  {
    if k == 0 then w else CloseIfNeededStep(AfterCompletions(w, k - 1))
  }

  lemma {:induction false} CompletionsKeepFlag(w: WindowState, k: nat)
    ensures AfterCompletions(w, k).closeAfterSave == w.closeAfterSave
    ensures AfterCompletions(w, k).autosaveFilename == w.autosaveFilename
  {
    if k > 0 {
      CompletionsKeepFlag(w, k - 1);
    }
  }

  /** With `n` uploads pending and close-after-save set, the window stays
      open through the first `n - 1` completions and is closed by the n-th. */
  lemma {:induction false} ClosesOnLastUpload(w: WindowState, n: nat, k: nat)
    requires w.pendingUploads == n && w.closeAfterSave && !w.closed
    requires k <= n
    ensures AfterCompletions(w, k).pendingUploads == n - k
    ensures AfterCompletions(w, k).closed <==> k == n && n > 0
    ensures k < n ==> AfterCompletions(w, k).removedFiles == w.removedFiles
  {
    if k > 0 {
      ClosesOnLastUpload(w, n, k - 1);
      var before := AfterCompletions(w, k - 1);
      assert AfterCompletions(w, k) == CloseIfNeededStep(before);
      assert before.closeAfterSave && !before.closed by {
        CompletionsKeepFlag(w, k - 1);
      }
    }
  }

  /** The pending-upload bookkeeping shared by the inventory script preview
      and the in-world script editor. */
  class ScriptWindow {
    var pendingUploads: int
    var closeAfterSave: bool
    var autosaveFilename: string
    var closed: bool
    /** Autosave files removed so far. */
    var removedFiles: seq<string>

    function State(): WindowState
      reads this
    {
      WindowState(pendingUploads, closeAfterSave, autosaveFilename, closed, removedFiles)
    }

    /** A new window has no upload pending and is not closing after a save. */
    constructor (autosaveFilename: string)
      ensures State() == WindowState(0, false, autosaveFilename, false, [])
    {
      pendingUploads, closeAfterSave, closed, removedFiles := 0, false, false, [];
      this.autosaveFilename := autosaveFilename;
    }

    /** A save request records whether the window is to close once the save
        has been uploaded; the save itself is not modelled. */
    method OnSave(closeAfterSave: bool)
      modifies this
      ensures State() == old(State()).(closeAfterSave := closeAfterSave)
    {
      this.closeAfterSave := closeAfterSave;
    }

    method CloseIfNeeded()
      modifies this
      ensures State() == CloseIfNeededStep(old(State()))
    {
      pendingUploads := pendingUploads - 1;
      if pendingUploads <= 0 && closeAfterSave {
        if autosaveFilename != "" {
          removedFiles := removedFiles + [autosaveFilename];
        }
        closed := true;
      }
    }
  }
}
