/**
 * The action bar widget: the debounced status update, the choice of page it
 * shows, the show-thumbnail property and the paste button.
 *
 * The main loop is represented only by the timeout sources that will run this
 * bar's status update (`pendingSources`) and by the identifier the next
 * `g_timeout_add` hands out (`nextSourceId`); wall-clock time is not modelled.
 */
module ActionBarWidget {
  import opened Optional
  import opened Selection
  import opened SingleFile
  import opened Clipboard
  import opened Text

  /** What the view reports at the moment the status update runs. */
  datatype ViewState = ViewState(isLoading: bool, isSearching: bool, selection: seq<Entry>)

  /** The page the status update shows, with the text it puts on that page. */
  datatype Page =
    | Normal
    | Loading(caption: string)
    | SingleSelection(name: string, description: Option<string>, showsThumbnail: bool, previewSensitive: bool)
    | MultiSelection(status: Option<string>)

  /** The name of the stack child that shows the page. */
  function PageName(p: Page): (name: string)
    ensures name == "loading" <==> p.Loading?
    ensures name == "normal" <==> p.Normal?
    ensures name == "single-selection" <==> p.SingleSelection?
    ensures name == "multi-selection" <==> p.MultiSelection?
  {
    match p
    case Normal => "normal"
    case Loading(_) => "loading"
    case SingleSelection(_, _, _, _) => "single-selection"
    case MultiSelection(_) => "multi-selection"
  }

  /**
   * The status update's decision. Loading takes priority over any selection;
   * otherwise the number of selected files picks the page. The multi-selection
   * page only ever receives two or more files, so its status is always present
   * and never the quoted-name form.
   */
  function PageFor(view: ViewState, showThumbnail: bool, formatSize: nat -> string): (p: Page)
    ensures p.Loading? <==> view.isLoading
    ensures p.Loading? ==> p.caption == (if view.isSearching then "Searching" else "Loading")
    ensures !view.isLoading ==> (p.Normal? <==> |view.selection| == 0)
    ensures !view.isLoading ==> (p.SingleSelection? <==> |view.selection| == 1)
    ensures !view.isLoading ==> (p.MultiSelection? <==> |view.selection| > 1)
    ensures p.SingleSelection? ==>
      && p.name == view.selection[0].displayName
      && p.description == Description(view.selection[0], formatSize)
      && (p.previewSensitive ==> !view.selection[0].isDirectory)
    ensures p.MultiSelection? ==>
      p.status == MultiSelectionStatus(view.selection, formatSize)
      && p.status.Some? && !StartsWithQuote(p.status.value)
  {
    if view.isLoading then
      Loading(if view.isSearching then "Searching" else "Loading")
    else if |view.selection| == 0 then
      Normal
    else if |view.selection| == 1 then
      var file := view.selection[0];
      SingleSelection(file.displayName, Description(file, formatSize),
                      ShowsThumbnail(file, showThumbnail), PreviewSensitive(file, showThumbnail))
    else
      MultiSelectionNeverQuoted(view.selection, formatSize);
      MultiSelection(MultiSelectionStatus(view.selection, formatSize))
  }

  class ActionBar {
    var showThumbnail: bool
    /**
     * The pending debounce source, 0 for none. Held as the guint that
     * `g_timeout_add` returns; TimeoutId models the C struct's gint field.
     */
    var updateStatusTimeoutId: nat
    var pendingSources: set<nat>
    var nextSourceId: nat
    /** Property-change notifications emitted so far, by property name. */
    var notifications: seq<string>

    var visibleChildName: string
    var loadingLabel: string
    var fileNameLabel: string
    var fileSizeLabel: string
    var fileSizeLabelVisible: bool
    var previewShowsThumbnail: bool
    var previewSensitive: bool
    var multiSelectionLabel: Option<string>
    var pasteButtonVisible: bool
    var pasteButtonLabel: string

    /**
     * The timeout id is 0 exactly when no status update is pending; otherwise
     * it names the one pending source, which the main loop handed out earlier.
     */
    ghost predicate Valid()
      reads this
      ensures Valid() ==> |pendingSources| <= 1
    {
      && 0 < nextSourceId
      && (updateStatusTimeoutId == 0 ==> pendingSources == {})
      && (updateStatusTimeoutId != 0 ==>
            pendingSources == {updateStatusTimeoutId} && updateStatusTimeoutId < nextSourceId)
    }

    /** The labels and the visible child show page `p`. */
    ghost predicate Shows(p: Page)
      reads this
    {
      && visibleChildName == PageName(p)
      && match p
         case Normal => true
         case Loading(caption) => loadingLabel == caption
         case SingleSelection(name, description, thumbnail, sensitive) =>
           && fileNameLabel == name
           && fileSizeLabelVisible == description.Some?
           && fileSizeLabel == (if description.Some? then description.value else "")
           && previewShowsThumbnail == thumbnail
           && previewSensitive == sensitive
         case MultiSelection(status) => multiSelectionLabel == status
    }

    /**
     * A new bar shows thumbnails, has no update pending and has set up its
     * paste button from the clipboard. The labels start as the UI template
     * has them.
     */
    constructor (clipboard: Option<ClipboardInfo>)
      ensures Valid()
      ensures showThumbnail && updateStatusTimeoutId == 0 && pendingSources == {} && notifications == []
      ensures pasteButtonVisible == clipboard.Some?
      ensures clipboard.Some? ==> pasteButtonLabel == PasteLabel(clipboard.value)
    {
      showThumbnail := true;
      updateStatusTimeoutId := 0;
      pendingSources := {};
      nextSourceId := 1;
      notifications := [];
      new;
      UpdatePasteButton(clipboard);
    }

    /** `g_source_remove`: the source is detached and will not run. */
    method SourceRemove(id: nat)
      modifies this`pendingSources
      ensures pendingSources == old(pendingSources) - {id}
    {
      pendingSources := pendingSources - {id};
    }

    /** `g_timeout_add`: attaches a new source under an id never handed out before. */
    method TimeoutAdd() returns (id: nat)
      requires 0 < nextSourceId
      modifies this`pendingSources, this`nextSourceId
      ensures id == old(nextSourceId) && 0 < id < nextSourceId
      ensures pendingSources == old(pendingSources) + {id}
    {
      id := nextSourceId;
      nextSourceId := nextSourceId + 1;
      pendingSources := pendingSources + {id};
    }

    /**
     * A change of selection, loading or searching state: the pending update,
     * if any, is removed, and exactly one new one is pending.
     */
    method UpdateStatus()
      requires Valid()
      modifies this`updateStatusTimeoutId, this`pendingSources, this`nextSourceId
      ensures Valid()
      ensures old(updateStatusTimeoutId) != 0 ==> old(updateStatusTimeoutId) !in pendingSources
      ensures updateStatusTimeoutId != 0 && updateStatusTimeoutId !in old(pendingSources)
      ensures old(nextSourceId) <= updateStatusTimeoutId < nextSourceId
      ensures pendingSources == {updateStatusTimeoutId}
    {
      if updateStatusTimeoutId > 0 {
        SourceRemove(updateStatusTimeoutId);
        updateStatusTimeoutId := 0;
      }
      updateStatusTimeoutId := TimeoutAdd();
    }

    /**
     * The pending source fires: the page is chosen from the view's state at
     * this moment, the timeout id is reset, and returning G_SOURCE_REMOVE
     * detaches the source. Pages not shown keep their labels.
     */
    method RealUpdateStatus(source: nat, view: ViewState, formatSize: nat -> string)
      requires Valid() && source in pendingSources
      modifies this`visibleChildName, this`loadingLabel, this`fileNameLabel, this`fileSizeLabel,
               this`fileSizeLabelVisible, this`previewShowsThumbnail, this`previewSensitive,
               this`multiSelectionLabel, this`updateStatusTimeoutId, this`pendingSources
      ensures Valid() && updateStatusTimeoutId == 0 && pendingSources == {}
      ensures Shows(PageFor(view, showThumbnail, formatSize))
      ensures !view.isLoading ==> loadingLabel == old(loadingLabel)
      ensures (view.isLoading || |view.selection| != 1) ==>
        && fileNameLabel == old(fileNameLabel) && fileSizeLabel == old(fileSizeLabel)
        && fileSizeLabelVisible == old(fileSizeLabelVisible)
        && previewShowsThumbnail == old(previewShowsThumbnail) && previewSensitive == old(previewSensitive)
      ensures (view.isLoading || |view.selection| <= 1) ==> multiSelectionLabel == old(multiSelectionLabel)
    {
      if view.isLoading {
        loadingLabel := if view.isSearching then "Searching" else "Loading";
        visibleChildName := "loading";
      } else {
        var numberOfFiles := |view.selection|;
        if numberOfFiles == 0 {
          visibleChildName := "normal";
        } else if numberOfFiles == 1 {
          SetupSingleFileSelection(view.selection[0], formatSize);
        } else {
          SetupMultipleFilesSelection(view.selection, formatSize);
        }
      }
      updateStatusTimeoutId := 0;
      pendingSources := pendingSources - {source};
    }

    /** The single-selection page for `file`. */
    method SetupSingleFileSelection(file: Entry, formatSize: nat -> string)
      modifies this`visibleChildName, this`fileNameLabel, this`fileSizeLabel,
               this`fileSizeLabelVisible, this`previewShowsThumbnail, this`previewSensitive
      ensures visibleChildName == "single-selection"
      ensures fileNameLabel == file.displayName
      ensures previewShowsThumbnail == (file.hasThumbnail && showThumbnail)
      ensures previewSensitive == (file.hasThumbnail && showThumbnail && !file.isDirectory)
      ensures fileSizeLabelVisible == Description(file, formatSize).Some?
      ensures fileSizeLabel == if fileSizeLabelVisible then Description(file, formatSize).value else ""
    {
      var isDirectory := file.isDirectory;
      var sensitive: bool;
      if file.hasThumbnail && showThumbnail {
        sensitive := true;
        previewShowsThumbnail := true;
      } else {
        sensitive := false;
        previewShowsThumbnail := false;
      }
      previewSensitive := sensitive && !isDirectory;
      fileNameLabel := file.displayName;

      var description: Option<string> := None;
      if isDirectory {
        if file.directoryItemCount.Some? {
          var folderChildren := file.directoryItemCount.value;
          description := Some("Contains " + CountPhrase(folderChildren, " item", " items"));
        }
      } else {
        description := Some(formatSize(file.size));
      }
      fileSizeLabelVisible := description.Some?;
      fileSizeLabel := if description.Some? then description.value else "";
      visibleChildName := "single-selection";
    }

    /** The multi-selection page: the summary of the selection, rendered as the status line. */
    method SetupMultipleFilesSelection(selection: seq<Entry>, formatSize: nat -> string)
      modifies this`visibleChildName, this`multiSelectionLabel
      ensures visibleChildName == "multi-selection"
      ensures multiSelectionLabel == MultiSelectionStatus(selection, formatSize)
    {
      var summary := Summarize(selection);
      multiSelectionLabel := StatusText(summary, formatSize);
      visibleChildName := "multi-selection";
    }

    /** Teardown: a pending status update is cancelled, so none can run afterwards. */
    method Finalize()
      requires Valid()
      modifies this`updateStatusTimeoutId, this`pendingSources
      ensures Valid() && updateStatusTimeoutId == 0 && pendingSources == {}
    {
      if updateStatusTimeoutId > 0 {
        SourceRemove(updateStatusTimeoutId);
        updateStatusTimeoutId := 0;
      }
    }

    /** Sets the show-thumbnail property; only an actual change is stored and notified. */
    method SetShowThumbnail(value: bool)
      requires Valid()
      modifies this`showThumbnail, this`notifications
      ensures Valid()
      ensures showThumbnail == value
      ensures notifications == old(notifications) + (if old(showThumbnail) != value then ["show-thumbnail"] else [])
    {
      if showThumbnail != value {
        showThumbnail := value;
        notifications := notifications + ["show-thumbnail"];
      }
    }

    /** The paste button is visible only when the clipboard holds files; its label is set only then. */
    method UpdatePasteButton(clipboard: Option<ClipboardInfo>)
      requires Valid()
      modifies this`pasteButtonVisible, this`pasteButtonLabel
      ensures Valid()
      ensures pasteButtonVisible == clipboard.Some?
      ensures pasteButtonLabel == if clipboard.Some? then PasteLabel(clipboard.value) else old(pasteButtonLabel)
    {
      pasteButtonVisible := clipboard.Some?;
      if clipboard.Some? {
        pasteButtonLabel := PasteLabel(clipboard.value);
      }
    }
  }

  /**
   * A burst of three changes leaves one pending update; when it fires, the page
   * reflects the view as it is then; teardown after a further change leaves
   * nothing to run.
   */
  method DebounceScenario(view: ViewState, formatSize: nat -> string) returns (bar: ActionBar)
    ensures bar.Valid() && bar.pendingSources == {} && bar.updateStatusTimeoutId == 0
    ensures bar.Shows(PageFor(view, true, formatSize))
  {
    bar := new ActionBar(None);
    bar.UpdateStatus();
    var first := bar.updateStatusTimeoutId;
    bar.UpdateStatus();
    bar.UpdateStatus();
    assert first !in bar.pendingSources && |bar.pendingSources| == 1;
    bar.RealUpdateStatus(bar.updateStatusTimeoutId, view, formatSize);
    assert bar.Shows(PageFor(view, true, formatSize));
    bar.UpdateStatus();
    bar.Finalize();
  }
}
