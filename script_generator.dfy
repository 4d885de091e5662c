/**
 * The "create video" page (`CreateVideo` in ScriptGenerator.tsx): the three
 * input validators, the configuration-name lookup, the configuration form
 * update, and the validation guard at the head of the submit handler.  The
 * page's state lives in a class whose methods mirror the handlers; the
 * requests themselves are left to the caller (the method returns the request
 * it would send).
 */
module ScriptGenerator {
  import opened Wrappers
  import opened Text

  /** A validator's outcome: whether it accepts, and the message it shows (empty on success). */
  datatype Verdict = Verdict(ok: bool, message: string)

  const MIN_SCRIPT_LENGTH := 50
  const MAX_SCRIPT_LENGTH := 5000
  const MAX_FILE_BYTES := 5 * 1024 * 1024

  const PDF := "application/pdf"
  const DOC := "application/msword"
  const DOCX := "application/vnd.openxmlformats-officedocument.wordprocessingml.document"

  /** A browser `File`: its name, its MIME type and its size in bytes. */
  datatype File = File(name: string, mime: string, size: nat)

  /** `validateText`: 50 to 5000 characters, with one message per way of failing. */
  function ValidateText(text: string): (r: Verdict)
    ensures r.ok <==> MIN_SCRIPT_LENGTH <= |text| <= MAX_SCRIPT_LENGTH
    ensures r.ok <==> r.message == ""
    ensures text == [] ==> r.message == "Script is required"
    ensures 0 < |text| < MIN_SCRIPT_LENGTH ==> r.message == "Script must be at least 50 characters"
    ensures |text| > MAX_SCRIPT_LENGTH ==> r.message == "Script cannot exceed 5000 characters"
  {
    if text == [] then Verdict(false, "Script is required")
    else if |text| < MIN_SCRIPT_LENGTH then Verdict(false, "Script must be at least 50 characters")
    else if |text| > MAX_SCRIPT_LENGTH then Verdict(false, "Script cannot exceed 5000 characters")
    else Verdict(true, "")
  }

  /** The characters a JavaScript regular expression's `.` does not match. */
  predicate LineTerminator(c: char) {
    c == '\n' || c == '\r' || c == '\U{2028}' || c == '\U{2029}'
  }

  /** `://` at position `i`, then one character `.` matches. */
  predicate SlashesThenAny(s: string, i: nat) {
    |s| > i + 3 && s[i] == ':' && s[i + 1] == '/' && s[i + 2] == '/' && !LineTerminator(s[i + 3])
  }

  /**
   * A matcher for `/^https?:\/\/.+/`: "http", then the optional "s" (tried
   * first, then skipped), then "://" and one character.  With no `$` anchor
   * `.+` succeeds as soon as one character matches.
   */
  predicate UrlPattern(s: string) {
    |s| >= 4 && s[0] == 'h' && s[1] == 't' && s[2] == 't' && s[3] == 'p'
    && ((|s| > 4 && s[4] == 's' && SlashesThenAny(s, 5)) || SlashesThenAny(s, 4))
  }

  /** The pattern read as prefixes: a scheme, then at least one character that is not a line terminator. */
  predicate SchemeThenText(s: string, scheme: string) {
    StartsWith(s, scheme) && |s| > |scheme| && !LineTerminator(s[|scheme|])
  }

  /** `validateUrl`: required, then the pattern. */
  function ValidateUrl(url: string): (r: Verdict)
    ensures r.ok <==> SchemeThenText(url, "http://") || SchemeThenText(url, "https://")
    ensures r.ok <==> r.message == ""
    ensures url == [] ==> r.message == "URL is required"
    ensures url != [] && !r.ok ==> r.message == "Please enter a valid URL"
  {
    assert SchemeThenText(url, "http://") <==> SlashesThenAny(url, 4) && url[..4] == "http" by {
      if |url| >= 7 { assert url[..7] == url[..4] + url[4..7]; }
    }
    assert SchemeThenText(url, "https://") <==> SlashesThenAny(url, 5) && url[..5] == "https" by {
      if |url| >= 8 { assert url[..8] == url[..5] + url[5..8]; }
    }
    if url == [] then Verdict(false, "URL is required")
    else if !UrlPattern(url) then Verdict(false, "Please enter a valid URL")
    else Verdict(true, "")
  }

  predicate AllowedType(mime: string) {
    mime == PDF || mime == DOC || mime == DOCX
  }

  /** `validateFile`: required, then the type allow-list, then the 5 MiB bound. */
  function ValidateFile(file: Option<File>): (r: Verdict)
    ensures r.ok <==> file.Some? && AllowedType(file.value.mime) && file.value.size <= MAX_FILE_BYTES
    ensures r.ok <==> r.message == ""
    ensures file.None? ==> r.message == "File is required"
    ensures file.Some? && !AllowedType(file.value.mime) ==> r.message == "Only PDF, DOC, or DOCX files are allowed"
    ensures file.Some? && AllowedType(file.value.mime) && file.value.size > MAX_FILE_BYTES ==>
              r.message == "File size cannot exceed 5MB"
  {
    match file
    case None => Verdict(false, "File is required")
    case Some(f) =>
      if !AllowedType(f.mime) then Verdict(false, "Only PDF, DOC, or DOCX files are allowed")
      else if f.size > MAX_FILE_BYTES then Verdict(false, "File size cannot exceed 5MB")
      else Verdict(true, "")
  }

  /** The type check runs first: a file of the wrong type is reported as such whatever its size. */
  lemma TypeCheckedBeforeSize(f: File, g: File)
    requires f.mime == g.mime && !AllowedType(f.mime)
    ensures ValidateFile(Some(f)) == ValidateFile(Some(g))
  {
  }

  /** One entry of a configuration list (styles, languages, voices, ...). */
  datatype Configuration = Configuration(id: string, name: string)

  /** `findNameById`: the name of the first entry with this id, else the id itself. */
  function FindNameById(configs: seq<Configuration>, id: string): (r: string)
    ensures (forall i | 0 <= i < |configs| :: configs[i].id != id) ==> r == id
    ensures forall k | 0 <= k < |configs| && configs[k].id == id && (forall j | 0 <= j < k :: configs[j].id != id) ::
              r == configs[k].name
  {
    if configs == [] then id
    else if configs[0].id == id then configs[0].name
    else
      var r := FindNameById(configs[1..], id);
      assert forall k | 1 <= k < |configs| :: configs[k] == configs[1..][k - 1];
      r
  }

  /** The six keys of the configuration form. */
  const FormFields: set<string> := {"style", "language", "voice", "visual_style", "target_audience", "duration"}

  /** The configuration form before any choice. */
  const InitialForm: map<string, string> := map["style" := "", "language" := "", "voice" := "", "visual_style" := "",
                                                 "target_audience" := "general", "duration" := "medium"]

  /** `handleChange`: one key takes the new value, every other key keeps its own. */
  function HandleChange(form: map<string, string>, field: string, value: string): (r: map<string, string>)
    ensures r.Keys == form.Keys + {field}
    ensures field in r && r[field] == value
    ensures forall f | f in form && f != field :: r[f] == form[f]
  {
    form[field := value]
  }

  /** The six configuration lists fetched when the page loads. */
  datatype Configs = Configs(styles: seq<Configuration>, languages: seq<Configuration>, voices: seq<Configuration>,
                             visualStyles: seq<Configuration>, targetAudiences: seq<Configuration>,
                             durations: seq<Configuration>)

  const NoConfigs := Configs([], [], [], [], [], [])

  /** The names sent with a request, each looked up from the form's chosen id. */
  datatype Names = Names(style: string, targetAudience: string, duration: string, voice: string,
                         language: string, visualStyle: string)

  function Resolve(c: Configs, form: map<string, string>): Names
    requires FormFields <= form.Keys
  {
    Names(FindNameById(c.styles, form["style"]), FindNameById(c.targetAudiences, form["target_audience"]),
          FindNameById(c.durations, form["duration"]), FindNameById(c.voices, form["voice"]),
          FindNameById(c.languages, form["language"]), FindNameById(c.visualStyles, form["visual_style"]))
  }

  /** A list's first name becomes the form's default for its key; an empty list leaves the key alone. */
  function WithDefault(form: map<string, string>, field: string, list: seq<Configuration>): map<string, string> {
    if |list| > 0 then HandleChange(form, field, list[0].name) else form
  }

  /** The request a submit would send next, by input method. */
  datatype Request = FromUrl(url: string, names: Names) | FromFile(file: File, names: Names)
                   | FromText(text: string, names: Names)

  /** The three inputs and the tab that selects among them. */
  datatype Inputs = Inputs(tab: string, text: string, url: string, file: Option<File>)

  /** The message under each input. */
  datatype Errors = Errors(text: string, url: string, file: string)

  /** The validator the active tab selects: "url", "file", and anything else meaning text. */
  function Active(inputs: Inputs): Verdict {
    if inputs.tab == "url" then ValidateUrl(inputs.url)
    else if inputs.tab == "file" then ValidateFile(inputs.file)
    else ValidateText(inputs.text)
  }

  /** The messages after the active validator has run: only its own message changes. */
  function Report(e: Errors, inputs: Inputs): Errors {
    if inputs.tab == "url" then e.(url := Active(inputs).message)
    else if inputs.tab == "file" then e.(file := Active(inputs).message)
    else e.(text := Active(inputs).message)
  }

  /** The request for the active tab, once its validator has accepted. */
  function RequestFor(inputs: Inputs, names: Names): Request
    requires Active(inputs).ok
  {
    if inputs.tab == "url" then FromUrl(inputs.url, names)
    else if inputs.tab == "file" then FromFile(inputs.file.value, names)
    else FromText(inputs.text, names)
  }

  class CreateVideo {
    var inputs: Inputs
    var errors: Errors
    var loading: bool
    var isLoadingConfigs: bool
    var progress: Option<string>
    var formData: map<string, string>
    var configs: Configs

    /** The form always holds the six configuration keys. */
    predicate Valid()
      reads this
    {
      FormFields <= formData.Keys
    }

    /** The submit button is disabled while a submit or the configuration fetch is in progress. */
    predicate SubmitDisabled()
      reads this
    {
      loading || isLoadingConfigs
    }

    constructor()
      ensures Valid()
      ensures inputs == Inputs("text", "", "", None) && errors == Errors("", "", "")
      ensures !loading && isLoadingConfigs && progress == None
      ensures formData == InitialForm && configs == NoConfigs
    {
      inputs := Inputs("text", "", "", None);
      errors := Errors("", "", "");
      loading, isLoadingConfigs, progress := false, true, None;
      formData, configs := InitialForm, NoConfigs;
    }

    /**
     * The end of the configuration fetch: on success the lists are stored
     * and each non-empty list's first name becomes its key's default; on
     * failure nothing but the loading flag changes.
     */
    method ConfigurationsFetched(fetched: Option<Configs>)
      requires Valid()
      modifies this
      ensures Valid() && !isLoadingConfigs
      ensures fetched.None? ==> configs == old(configs) && formData == old(formData)
      ensures fetched.Some? ==> configs == fetched.value
      ensures fetched.Some? ==>
                formData == WithDefault(WithDefault(WithDefault(WithDefault(WithDefault(WithDefault(old(formData),
                              "style", fetched.value.styles), "language", fetched.value.languages),
                              "voice", fetched.value.voices), "visual_style", fetched.value.visualStyles),
                              "target_audience", fetched.value.targetAudiences), "duration", fetched.value.durations)
      ensures inputs == old(inputs) && errors == old(errors) && loading == old(loading) && progress == old(progress)
    {
      if fetched.Some? {
        var c := fetched.value;
        configs := c;
        formData := WithDefault(formData, "style", c.styles);
        formData := WithDefault(formData, "language", c.languages);
        formData := WithDefault(formData, "voice", c.voices);
        formData := WithDefault(formData, "visual_style", c.visualStyles);
        formData := WithDefault(formData, "target_audience", c.targetAudiences);
        formData := WithDefault(formData, "duration", c.durations);
      }
      isLoadingConfigs := false;
    }

    /** A choice in the configuration form. */
    method Choose(field: string, value: string)
      requires Valid()
      modifies this
      ensures Valid() && formData == HandleChange(old(formData), field, value)
      ensures inputs == old(inputs) && errors == old(errors) && configs == old(configs)
      ensures loading == old(loading) && isLoadingConfigs == old(isLoadingConfigs) && progress == old(progress)
    {
      formData := HandleChange(formData, field, value);
    }

    /** `setActiveTab`. */
    method SelectTab(tab: string)
      modifies this
      ensures inputs == old(inputs).(tab := tab)
      ensures errors == old(errors) && formData == old(formData) && configs == old(configs)
      ensures loading == old(loading) && isLoadingConfigs == old(isLoadingConfigs) && progress == old(progress)
    {
      inputs := inputs.(tab := tab);
    }

    /** `handleTextChange`: store the text and validate it at once. */
    method TextChanged(text: string)
      modifies this
      ensures inputs == old(inputs).(text := text) && errors == old(errors).(text := ValidateText(text).message)
      ensures formData == old(formData) && configs == old(configs)
      ensures loading == old(loading) && isLoadingConfigs == old(isLoadingConfigs) && progress == old(progress)
    {
      inputs := inputs.(text := text);
      errors := errors.(text := ValidateText(text).message);
    }

    /** `handleUrlChange`: store the URL; a non-empty one is validated, an empty one clears the message. */
    method UrlChanged(url: string)
      modifies this
      ensures inputs == old(inputs).(url := url)
      ensures errors == old(errors).(url := if url == [] then "" else ValidateUrl(url).message)
      ensures formData == old(formData) && configs == old(configs)
      ensures loading == old(loading) && isLoadingConfigs == old(isLoadingConfigs) && progress == old(progress)
    {
      inputs := inputs.(url := url);
      if url != [] {
        errors := errors.(url := ValidateUrl(url).message);
      } else {
        errors := errors.(url := "");
      }
    }

    /** `handleFileChange`: a selection with a first file stores and validates it; an empty one changes nothing. */
    method FileChanged(selected: seq<File>)
      modifies this
      ensures selected == [] ==> inputs == old(inputs) && errors == old(errors)
      ensures selected != [] ==> inputs == old(inputs).(file := Some(selected[0]))
                                 && errors == old(errors).(file := ValidateFile(Some(selected[0])).message)
      ensures formData == old(formData) && configs == old(configs)
      ensures loading == old(loading) && isLoadingConfigs == old(isLoadingConfigs) && progress == old(progress)
    {
      if selected != [] {
        inputs := inputs.(file := Some(selected[0]));
        errors := errors.(file := ValidateFile(Some(selected[0])).message);
      }
    }

    /** The guard: the active tab's validator sets its message; success yields the request. */
    method Guard() returns (request: Option<Request>)
      requires Valid()
      modifies this
      ensures Valid()
      ensures errors == Report(old(errors), inputs)
      ensures request.Some? <==> Active(inputs).ok
      ensures request.Some? ==> request.value == RequestFor(inputs, Resolve(configs, formData))
      ensures inputs == old(inputs) && formData == old(formData) && configs == old(configs)
      ensures loading == old(loading) && isLoadingConfigs == old(isLoadingConfigs) && progress == old(progress)
    {
      var verdict := Active(inputs);
      errors := Report(errors, inputs);
      request := if verdict.ok then Some(RequestFor(inputs, Resolve(configs, formData))) else None;
    }

    /**
     * `handleSubmit` as written, up to the request: `loading` is set and the
     * progress reads "Initializing..." before the guard runs, and a rejected
     * input returns without undoing either, so the submit button stays
     * disabled.
     */
    method Submit() returns (request: Option<Request>)
      requires Valid()
      modifies this
      ensures Valid() && loading && progress == Some("Initializing...")
      ensures request.None? ==> SubmitDisabled()
      ensures errors == Report(old(errors), inputs)
      ensures request.Some? <==> Active(inputs).ok
      ensures request.Some? ==> request.value == RequestFor(inputs, Resolve(configs, formData))
      ensures inputs == old(inputs) && formData == old(formData) && configs == old(configs)
      ensures isLoadingConfigs == old(isLoadingConfigs)
    {
      loading := true;
      progress := Some("Initializing...");
      request := Guard();
    }

    /**
     * `handleSubmit` with a rejected input treated like a failed request:
     * `loading` and the progress are reset, so the button is enabled again
     * once the configurations have loaded.
     */
    method SubmitCorrected() returns (request: Option<Request>)
      requires Valid()
      modifies this
      ensures Valid()
      ensures request.Some? ==> loading && progress == Some("Initializing...")
      ensures request.None? ==> !loading && progress == None && (SubmitDisabled() <==> isLoadingConfigs)
      ensures errors == Report(old(errors), inputs)
      ensures request.Some? <==> Active(inputs).ok
      ensures request.Some? ==> request.value == RequestFor(inputs, Resolve(configs, formData))
      ensures inputs == old(inputs) && formData == old(formData) && configs == old(configs)
      ensures isLoadingConfigs == old(isLoadingConfigs)
    {
      loading := true;
      progress := Some("Initializing...");
      request := Guard();
      if request.None? {
        loading := false;
        progress := None;
      }
    }
  }

  /**
   * A 49-character script submitted once the configurations have loaded:
   * nothing is sent, and afterwards the submit button is disabled for good,
   * since only a request failure resets `loading`.
   */
  method ShortScriptLocksSubmit(fetched: Option<Configs>) returns (request: Option<Request>, message: string, disabled: bool)
    ensures request == None && message == "Script must be at least 50 characters" && disabled
  {
    var page := new CreateVideo();
    page.ConfigurationsFetched(fetched);
    page.TextChanged(seq(49, i => 'a'));
    request := page.Submit();
    message, disabled := page.errors.text, page.SubmitDisabled();
  }

  /** The same submit with the corrected handler: the message is shown and the button is enabled again. */
  method ShortScriptCorrected(fetched: Option<Configs>) returns (request: Option<Request>, message: string, disabled: bool)
    ensures request == None && message == "Script must be at least 50 characters" && !disabled
  {
    var page := new CreateVideo();
    page.ConfigurationsFetched(fetched);
    page.TextChanged(seq(49, i => 'a'));
    request := page.SubmitCorrected();
    message, disabled := page.errors.text, page.SubmitDisabled();
  }
}
