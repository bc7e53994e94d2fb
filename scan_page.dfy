/** The scan page: the checks made before a scan is issued, the page state a scan
    attempt and a reset leave behind, and the rule that enables the Start button.
    `pageType` is the `type` route parameter, passed to the service unchecked. */
module ScanPage {
  import opened Results
  import opened ScanService
  import AuthService
  import Text

  /** A dropped file; only its name is read. */
  datatype File = File(name: string)

  const TextMissing: string := "Please enter some text to analyze"

  function FileMissing(pageType: string): string
  {
    "Please upload a " + pageType + " file to scan"
  }

  /** The content handleScan would send, or the message it would throw instead: the raw
      (untrimmed) text on the text page, the file name on the others. */
  function ScanInput(pageType: string, file: Option<File>, text: string): (r: Result<string, string>)
    ensures pageType == "text" ==> r == (if Text.Blank(text) then Err(TextMissing) else Ok(text))
    ensures pageType != "text" ==> r == (if file.None? then Err(FileMissing(pageType)) else Ok(file.value.name))
  {
    if pageType == "text" then
      if Text.Trim(text) == "" then Err(TextMissing) else Ok(text)
    else
      match file
      case None => Err(FileMissing(pageType))
      case Some(f) => Ok(f.name)
  }

  /** The Start button's `disabled` expression. */
  function StartDisabled(loading: bool, pageType: string, file: Option<File>, text: string): bool
  {
    loading || (file.None? && pageType != "text") || (pageType == "text" && Text.Trim(text) == "")
  }

  /** The button is enabled exactly when nothing is running and handleScan's checks
      would let the scan through. */
  lemma StartEnabledIffScanAccepted(loading: bool, pageType: string, file: Option<File>, text: string)
    ensures !StartDisabled(loading, pageType, file, text) <==> !loading && ScanInput(pageType, file, text).Ok?
  {
  }

  class ScanPageState {
    var file: Option<File>
    var preview: Option<string>
    var text: string
    var loading: bool
    var result: Option<ScanResult>
    var error: Option<string>

    constructor ()
      ensures file == None && preview == None && text == "" && !loading && result == None && error == None
    {
      file := None;
      preview := None;
      text := "";
      loading := false;
      result := None;
      error := None;
    }

    /** handleScan.  Without a signed-in user it only navigates to the login page.
        Otherwise it clears the error, checks the input, and either records the
        check's message or scans the content and shows the stored result. */
    method HandleScan(user: Option<AuthService.User>, pageType: string, store: ScanStore, now: int, draws: ScanDraws)
      returns (navigateTo: Option<string>)
      requires store.Valid() && ValidDraws(draws)
      modifies this, store
      ensures store.Valid()
      ensures file == old(file) && preview == old(preview) && text == old(text)
      ensures user.None? ==>
        && navigateTo == Some("/login")
        && loading == old(loading) && result == old(result) && error == old(error)
        && store.scans == old(store.scans) && store.keys == old(store.keys)
      ensures user.Some? ==> navigateTo == None && !loading
      ensures user.Some? && ScanInput(pageType, old(file), old(text)).Err? ==>
        && error == Some(ScanInput(pageType, old(file), old(text)).error) && result == old(result)
        && store.scans == old(store.scans) && store.keys == old(store.keys)
      ensures user.Some? && ScanInput(pageType, old(file), old(text)).Ok? ==>
        && error == None && result.Some?
        && result.value.id == ScanId(now) && result.value.userId == user.value.id
        && result.value.contentType == pageType
        && result.value.originalContent == ScanInput(pageType, old(file), old(text)).value
        && result.value.scanDate == now && Consistent(result.value)
        && store.scans == old(store.scans)[result.value.id := result.value]
    {
      var input := ScanInput(pageType, file, text);
      if user.None? {
        return Some("/login");
      }
      navigateTo := None;
      error := None;
      loading := true;
      match input {
        case Err(message) =>
          error := Some(message);
        case Ok(content) =>
          ShowScan(user.value.id, pageType, content, store, now, draws);
      }
      loading := false;
      assert input == ScanInput(pageType, old(file), old(text));
    }

    /** The successful half of handleScan: scan the content and show the stored result. */
    method ShowScan(userId: string, pageType: string, content: string, store: ScanStore, now: int, draws: ScanDraws)
      requires store.Valid() && ValidDraws(draws)
      modifies this, store
      ensures store.Valid()
      ensures file == old(file) && preview == old(preview) && text == old(text)
      ensures loading == old(loading) && error == old(error) && result.Some?
      ensures && result.value.id == ScanId(now) && result.value.userId == userId
        && result.value.contentType == pageType && result.value.originalContent == content
        && result.value.scanDate == now && Consistent(result.value)
        && store.scans == old(store.scans)[result.value.id := result.value]
    {
      var scan := store.ScanContent(userId, pageType, content, now, draws);
      result := Some(scan);
    }

    /** resetScan: clears the inputs, the result and the error; loading is left as it is. */
    method ResetScan()
      modifies this
      ensures file == None && preview == None && text == "" && result == None && error == None
      ensures loading == old(loading)
    {
      file := None;
      preview := None;
      text := "";
      result := None;
      error := None;
    }
  }
}
