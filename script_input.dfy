/**
 * The three-tab script input (`ScriptInput` in ScriptInput.tsx): the text
 * length check, the URL prefix check and the file extension and size checks
 * that run before each (mock) request.  A handler's effect on the component
 * is a `Step`: the new messages and loading flag, and whether the request
 * starts.
 */
module ScriptInput {
  import opened Wrappers
  import opened Text

  const MIN_SCRIPT_LENGTH := 50
  const MAX_FILE_BYTES := 5 * 1024 * 1024

  /** The state the checks touch: the loading flag and the message under each input. */
  datatype Ui = Ui(loading: bool, textError: string, urlError: string, fileError: string)

  const Initial := Ui(false, "", "", "")

  /** A handler's outcome: the state after its synchronous part, and whether the request starts. */
  datatype Step = Step(ui: Ui, started: bool)

  /** `handleTextValidation`: at least 50 characters, with no upper bound. */
  function ValidateText(ui: Ui, text: string): (r: Ui)
    ensures r.textError == "" <==> |text| >= MIN_SCRIPT_LENGTH
    ensures |text| < MIN_SCRIPT_LENGTH ==> r.textError == "Script must be at least 50 characters long"
    ensures r == ui.(textError := r.textError)
  {
    if |text| < MIN_SCRIPT_LENGTH then ui.(textError := "Script must be at least 50 characters long")
    else ui.(textError := "")
  }

  /** `handleTextSubmit`: the check; on success `loading` is set for the request. */
  function SubmitText(ui: Ui, text: string): (r: Step)
    ensures r.started <==> |text| >= MIN_SCRIPT_LENGTH
    ensures r.ui.textError == ValidateText(ui, text).textError
    ensures r.started ==> r.ui.loading
    ensures !r.started ==> r.ui == ui.(textError := r.ui.textError)
    ensures r.ui.urlError == ui.urlError && r.ui.fileError == ui.fileError
  {
    var checked := ValidateText(ui, text);
    if checked.textError != "" then Step(checked, false)
    else Step(checked.(loading := true), true)
  }

  /** `handleUrlFetch`: a URL that is empty or does not start with "http" is refused. */
  function FetchUrl(ui: Ui, url: string): (r: Step)
    ensures r.started <==> url != [] && StartsWith(url, "http")
    ensures !r.started ==> r.ui == ui.(urlError := "Please enter a valid URL")
    ensures r.started ==> r.ui == ui.(urlError := "", loading := true)
  {
    if url == [] || !StartsWith(url, "http") then Step(ui.(urlError := "Please enter a valid URL"), false)
    else Step(ui.(urlError := "", loading := true), true)
  }

  /** The prefix check accepts any scheme that begins with "http", such as "httpx:". */
  lemma PrefixOnly(ui: Ui)
    ensures FetchUrl(ui, "httpx:").started
    ensures !FetchUrl(ui, "ftp://host").started
  {
    assert "httpx:"[..4] == "http";
    assert "ftp://host"[..4][0] == 'f';
  }

  /** `name.split('.').pop()`: the text after the last '.', or the whole name when it has none. */
  function AfterLastDot(name: string): (r: string)
    ensures |r| <= |name| && r == name[|name| - |r|..]
    ensures '.' !in r
    ensures |r| < |name| ==> name[|name| - |r| - 1] == '.'
  {
    if name == [] then []
    else if name[|name| - 1] == '.' then []
    else
      var init := name[..|name| - 1];
      var r := AfterLastDot(init);
      assert name[|name| - 1 - |r|..] == init[|init| - |r|..] + [name[|name| - 1]];
      r + [name[|name| - 1]]
  }

  /** The extension the check compares: '.' and the lower-cased text after the last '.'. */
  function Extension(name: string): string {
    "." + Lower(AfterLastDot(name))
  }

  predicate ValidExtension(name: string) {
    Extension(name) in [".pdf", ".doc", ".docx"]
  }

  /** A name passes exactly when what follows its last dot is "pdf", "doc" or "docx" in any ASCII case. */
  lemma ValidExtensionIff(name: string)
    ensures ValidExtension(name) <==> Lower(AfterLastDot(name)) in ["pdf", "doc", "docx"]
  {
    DotThen(Lower(AfterLastDot(name)));
  }

  lemma DotThen(e: string)
    ensures "." + e in [".pdf", ".doc", ".docx"] <==> e in ["pdf", "doc", "docx"]
  {
    assert ("." + e)[1..] == e;
    if e == "pdf" { assert "." + e == ".pdf"; }
    if e == "doc" { assert "." + e == ".doc"; }
    if e == "docx" { assert "." + e == ".docx"; }
  }

  /** A name with no dot is its own extension text. */
  lemma {:induction false} DotlessName(name: string)
    requires '.' !in name
    ensures AfterLastDot(name) == name
  {
    if name != [] {
      DotlessName(name[..|name| - 1]);
    }
  }

  /** Whatever precedes the last dot is ignored. */
  lemma {:induction false} TextAfterLastDot(stem: string, ext: string)
    requires '.' !in ext
    ensures AfterLastDot(stem + "." + ext) == ext
  {
    if ext == [] {
      assert (stem + "." + ext)[|stem + "." + ext| - 1] == '.';
    } else {
      var n := stem + "." + ext;
      assert n[..|n| - 1] == stem + "." + ext[..|ext| - 1];
      TextAfterLastDot(stem, ext[..|ext| - 1]);
      assert ext == ext[..|ext| - 1] + [ext[|ext| - 1]];
    }
  }

  /** An upper-case extension passes. */
  lemma UpperCaseExtension()
    ensures ValidExtension("REPORT.PDF")
  {
    assert "REPORT.PDF" == "REPORT" + "." + "PDF";
    TextAfterLastDot("REPORT", "PDF");
    var e := Lower("PDF");
    assert e[0] == 'p' && e[1] == 'd' && e[2] == 'f';
    assert e == "pdf";
    assert Extension("REPORT.PDF") == ".pdf";
  }

  /** A dotless name that spells an extension passes. */
  lemma DotlessExtension()
    ensures ValidExtension("docx")
  {
    DotlessName("docx");
    var e := Lower("docx");
    assert e[0] == 'd' && e[1] == 'o' && e[2] == 'c' && e[3] == 'x';
    assert e == "docx";
    assert Extension("docx") == ".docx";
  }

  datatype File = File(name: string, size: nat)

  /**
   * `handleFileUpload`: no file does nothing; the extension is checked
   * before the size; the message is cleared only when both pass.
   */
  function UploadFile(ui: Ui, file: Option<File>): (r: Step)
    ensures r.started <==> file.Some? && ValidExtension(file.value.name) && file.value.size <= MAX_FILE_BYTES
    ensures file.None? ==> r.ui == ui
    ensures file.Some? && !ValidExtension(file.value.name) ==>
              r.ui == ui.(fileError := "Please upload a PDF or Word document")
    ensures file.Some? && ValidExtension(file.value.name) && file.value.size > MAX_FILE_BYTES ==>
              r.ui == ui.(fileError := "File size must be less than 5MB")
    ensures r.started ==> r.ui == ui.(fileError := "", loading := true)
  {
    match file
    case None => Step(ui, false)
    case Some(f) =>
      if !ValidExtension(f.name) then Step(ui.(fileError := "Please upload a PDF or Word document"), false)
      else if f.size > MAX_FILE_BYTES then Step(ui.(fileError := "File size must be less than 5MB"), false)
      else Step(ui.(fileError := "", loading := true), true)
  }

  /** A refused check never sets `loading`: every handler leaves it as it was unless its request starts. */
  lemma RefusalKeepsLoading(ui: Ui, text: string, url: string, file: Option<File>)
    ensures !SubmitText(ui, text).started ==> SubmitText(ui, text).ui.loading == ui.loading
    ensures !FetchUrl(ui, url).started ==> FetchUrl(ui, url).ui.loading == ui.loading
    ensures !UploadFile(ui, file).started ==> UploadFile(ui, file).ui.loading == ui.loading
  {
  }
}
