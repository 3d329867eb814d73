/**
 * The general settings pane: the four paths the application needs (data folder, result
 * folder, backtest executable, makefile), the check that a picked location suits its
 * kind, and the handler that stores a picked location only when that check passes.
 * The file system is replaced by what it reveals about a picked location.
 */
module GeneralSettings {
  import opened Wrappers
  import opened Alerts

  datatype UTType = Directory | ExecutableFile | Makefile

  datatype FilePickerType = DataFolder | ResultFolder | Executable | MakeFile
  {
    /** Label of the setting. */
    function Title(): (t: string)
      ensures |t| > 0
    {
      match this
      case DataFolder => "Data Folder"
      case ResultFolder => "Result Folder"
      case Executable => "Executable"
      case MakeFile => "Makefile"
    }

    /** The content types the file picker offers for this kind. */
    function AllowedContentTypes(): (types: seq<UTType>)
      ensures |types| == 1
      ensures types[0] == Directory <==> (this == DataFolder || this == ResultFolder)
    {
      match this
      case DataFolder => [Directory]
      case ResultFolder => [Directory]
      case Executable => [ExecutableFile]
      case MakeFile => [Makefile]
    }
  }

  /** `CaseIterable.allCases`, the order of the rows. */
  const AllPickerTypes: seq<FilePickerType> := [DataFolder, ResultFolder, Executable, MakeFile]

  /** Titles tell the four kinds apart. */
  lemma TitlesDistinct(a: FilePickerType, b: FilePickerType)
    ensures a.Title() == b.Title() ==> a == b
    ensures a in AllPickerTypes
  {
  }

  /** What the file system shows of a picked location: its URL text, whether it holds
      `summary-results.json`, and the path extension of each entry, or nil when the
      location cannot be listed. */
  datatype PickedLocation = PickedLocation(
    absoluteString: string,
    hasSummaryResults: bool,
    entryExtensions: Option<seq<string>>)

  /** `isCorrectFolder(_:)`. */
  function IsCorrectFolder(kind: FilePickerType, loc: PickedLocation): (ok: bool)
    ensures kind == ResultFolder ==> (ok <==> loc.hasSummaryResults)
    ensures kind == DataFolder ==> (ok <==> loc.entryExtensions.Some? && "parquet" in loc.entryExtensions.value)
    ensures kind == Executable || kind == MakeFile ==> ok
  {
    match kind
    case ResultFolder => loc.hasSummaryResults
    case DataFolder =>
      (match loc.entryExtensions
       case Some(extensions) => exists i :: 0 <= i < |extensions| && extensions[i] == "parquet"
       case None => false)
    case _ => true
  }

  /** The four stored paths. */
  datatype Paths = Paths(dataFolder: string, resultFolder: string, executable: string, makeFile: string)
  {
    /** The stored path of one kind (the value shown in its row). */
    function Get(kind: FilePickerType): string {
      match kind
      case DataFolder => dataFolder
      case ResultFolder => resultFolder
      case Executable => executable
      case MakeFile => makeFile
    }

    /** The paths with the one of `kind` replaced. */
    function With(kind: FilePickerType, value: string): (p: Paths)
      ensures p.Get(kind) == value
      ensures forall other :: other != kind ==> p.Get(other) == Get(other)
    {
      match kind
      case DataFolder => this.(dataFolder := value)
      case ResultFolder => this.(resultFolder := value)
      case Executable => this.(executable := value)
      case MakeFile => this.(makeFile := value)
    }
  }

  /** `checkAllSet()`: every path has been chosen. */
  function CheckAllSet(p: Paths): (allSet: bool)
    ensures allSet <==> forall kind :: p.Get(kind) != ""
  {
    assert p.dataFolder == p.Get(DataFolder) && p.resultFolder == p.Get(ResultFolder);
    assert p.executable == p.Get(Executable) && p.makeFile == p.Get(MakeFile);
    !(p.dataFolder == "" || p.resultFolder == "" || p.executable == "" || p.makeFile == "")
  }

  /** What the file importer hands back. */
  datatype ImportResult = Picked(location: PickedLocation) | PickFailed(description: string)

  /** The message shown when a location does not suit its kind. */
  function RejectionMessage(kind: FilePickerType): (m: string)
    ensures |m| > |kind.Title()|
    ensures m[..|m| - |kind.Title()|] == "The selected folder is not correct for "
    ensures m[|m| - |kind.Title()|..] == kind.Title()
  {
    "The selected folder is not correct for " + kind.Title()
  }

  class GeneralSettingsView {
    var dataFolder: string
    var resultFolder: string
    var executable: string
    var makeFile: string
    var filePickerType: Option<FilePickerType>
    var showFilePicker: bool
    const alertManager: AlertManager
    const hasOnAllSet: bool

    function CurrentPaths(): Paths
      reads this
    {
      Paths(dataFolder, resultFolder, executable, makeFile)
    }

    /** The view over the persisted paths; `hasOnAllSet` says whether a callback was given. */
    constructor (stored: Paths, hasOnAllSet: bool)
      ensures CurrentPaths() == stored && filePickerType == None && !showFilePicker
      ensures this.hasOnAllSet == hasOnAllSet && fresh(alertManager)
      ensures !alertManager.isAlertPresented
    {
      dataFolder := stored.dataFolder;
      resultFolder := stored.resultFolder;
      executable := stored.executable;
      makeFile := stored.makeFile;
      filePickerType := None;
      showFilePicker := false;
      alertManager := new AlertManager();
      this.hasOnAllSet := hasOnAllSet;
    }

    /** `onAppear`: the callback fires when one was given and every path is set. */
    method OnAppear() returns (fired: bool)
      ensures fired <==> hasOnAllSet && forall kind :: CurrentPaths().Get(kind) != ""
    {
      fired := CheckAllSet(CurrentPaths()) && hasOnAllSet;
    }

    /** The "Change folder" button of a row: remembers the kind and opens the picker. */
    method ChooseLocation(kind: FilePickerType)
      modifies this
      ensures filePickerType == Some(kind) && showFilePicker
      ensures CurrentPaths() == old(CurrentPaths())
    {
      filePickerType := Some(kind);
      showFilePicker := true;
    }

    /** The `fileImporter` completion handler. A location that fails its kind's check
        raises an alert and stores nothing; an accepted one is stored as its URL text in
        exactly the setting of the current kind; a picker failure raises an alert. The
        callback fires after every pick that is not rejected, exactly when a callback
        was given and every path is set. */
    method HandleImport(result: ImportResult) returns (fired: bool)
      modifies this, alertManager
      ensures filePickerType == old(filePickerType) && showFilePicker == old(showFilePicker)
      ensures result.PickFailed? ==>
        CurrentPaths() == old(CurrentPaths()) && !fired &&
        alertManager.message == Some(result.description) && alertManager.isAlertPresented
      ensures result.Picked? && filePickerType.Some? && !IsCorrectFolder(filePickerType.value, result.location) ==>
        CurrentPaths() == old(CurrentPaths()) && !fired &&
        alertManager.message == Some(RejectionMessage(filePickerType.value)) && alertManager.isAlertPresented
      ensures result.Picked? && filePickerType.Some? && IsCorrectFolder(filePickerType.value, result.location) ==>
        CurrentPaths() == old(CurrentPaths()).With(filePickerType.value, result.location.absoluteString)
      ensures result.Picked? && filePickerType.None? ==> CurrentPaths() == old(CurrentPaths())
      ensures result.Picked? && (filePickerType.None? || IsCorrectFolder(filePickerType.value, result.location)) ==>
        (fired <==> hasOnAllSet && CheckAllSet(CurrentPaths())) &&
        alertManager.message == old(alertManager.message) &&
        alertManager.isAlertPresented == old(alertManager.isAlertPresented)
      ensures alertManager.error == old(alertManager.error)
      ensures CurrentPaths() != old(CurrentPaths()) ==>
        result.Picked? && filePickerType.Some? && IsCorrectFolder(filePickerType.value, result.location)
    {
      match result
      case Picked(location) =>
        if filePickerType.Some? && !IsCorrectFolder(filePickerType.value, location) {
          alertManager.ShowMessage(RejectionMessage(filePickerType.value));
          return false;
        }
        match filePickerType {
          case Some(DataFolder) => dataFolder := location.absoluteString;
          case Some(ResultFolder) => resultFolder := location.absoluteString;
          case Some(Executable) => executable := location.absoluteString;
          case Some(MakeFile) => makeFile := location.absoluteString;
          case None =>
        }
        fired := CheckAllSet(CurrentPaths()) && hasOnAllSet;
      case PickFailed(description) =>
        alertManager.ShowMessage(description);
        fired := false;
    }
  }
}
