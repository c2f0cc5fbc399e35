/** The request-validation adapter of the broker's HTTP layer: it turns the
    validator's field errors into `{field, reason}` records, names struct
    fields after their `json` tags, admits only png/jpg/jpeg uploads, and
    decides, from what binding the request produced, whether a handler may
    go on or the request is aborted with which status and message.

    The web framework and the validator library are opaque here: what
    `ShouldBind`, `ShouldBindJSON` and `FormFile` produce for a request is
    given as data of the `Context`. */
module SchemaValidation {
  import opened GoStd

  datatype Option<+T> = None | Some(value: T)

  /** One failed constraint as the validator reports it:
      `Field()`, `ActualTag()` and `Param()`. */
  datatype FieldError = FieldError(field: string, actualTag: string, param: string)

  /** The uniform error record sent back to clients. */
  datatype ValidationError = ValidationError(field: string, reason: string)

  /** The reason text of one field error: the tag, then `=param` when the
      constraint has a parameter. */
  function Reason(f: FieldError): (reason: string)
    ensures |f.actualTag| <= |reason| && reason[..|f.actualTag|] == f.actualTag
    ensures f.param == "" <==> |reason| == |f.actualTag|
    ensures f.param != "" ==>
      reason[|f.actualTag|] == '=' && reason[|f.actualTag| + 1..] == f.param
  {
    if f.param != "" then f.actualTag + "=" + f.param else f.actualTag
  }

  /** A reason can be read back: for a tag without '=', splitting the reason
      at its first '=' gives the tag and, when there is one, the parameter,
      so the reason determines the tag and the parameter. */
  lemma ReasonRoundTrip(f: FieldError)
    requires '=' !in f.actualTag
    ensures SplitFirst(Reason(f), '=') ==
      if f.param == "" then [f.actualTag] else [f.actualTag, f.param]
  {
    if f.param != "" {
      SplitFirstJoin(f.actualTag, '=', f.param);
    }
  }

  /** `descriptive`: one record per field error, in the validator's order. */
  method Descriptive(verr: seq<FieldError>) returns (errs: seq<ValidationError>)
    ensures |errs| == |verr|
    ensures forall i :: 0 <= i < |verr| ==>
      errs[i].field == verr[i].field && errs[i].reason == Reason(verr[i])
  {
    errs := [];
    for i := 0 to |verr|
      invariant |errs| == i
      invariant forall j :: 0 <= j < i ==>
        errs[j].field == verr[j].field && errs[j].reason == Reason(verr[j])
    {
      var f := verr[i];
      var err := f.actualTag;
      if f.param != "" {
        err := err + "=" + f.param;
      }
      errs := errs + [ValidationError(f.field, err)];
    }
  }

  /** The list `descriptive` builds, as a value, for use in specifications. */
  function DescribeAll(verr: seq<FieldError>): seq<ValidationError> {
    seq(|verr|, i requires 0 <= i < |verr| => ValidationError(verr[i].field, Reason(verr[i])))
  }

  /** The name the validator reports for a field, from the value of its
      `json` struct tag: the part before the first ',', with "-" read as
      no name at all. The name is empty exactly when the tag is empty,
      starts with a comma, or is "-" alone or followed by a comma;
      `TagNameWithOptions` and `TagNameWithoutOptions` give the name of
      every tag. */
  function TagName(jsonTag: string): (name: string)
    ensures ',' !in name && name != "-"
    ensures name == "" <==>
      jsonTag == "" || jsonTag[0] == ',' || jsonTag == "-" ||
      (|jsonTag| >= 2 && jsonTag[..2] == "-,")
    ensures name != "" ==>
      |name| <= |jsonTag| && jsonTag[..|name|] == name &&
      (|name| == |jsonTag| || jsonTag[|name|] == ',')
  {
    var first := SplitFirst(jsonTag, ',')[0];
    assert |first| <= |jsonTag| && jsonTag[..|first|] == first;
    assert |first| < |jsonTag| ==> jsonTag[|first|] == ',';
    assert |first| >= 1 ==> jsonTag[0] == first[0] != ',';
    assert |first| >= 2 ==> jsonTag[1] == first[1] != ',';
    if first == "-" then "" else first
  }

  /** A tag with options, such as `name,omitempty`, is named by its part
      before the comma; a skipped field's tag `-,...` has no name. */
  lemma TagNameWithOptions(name: string, options: string)
    requires ',' !in name
    ensures TagName(name + "," + options) == if name == "-" then "" else name
  {
    SplitFirstJoin(name, ',', options);
  }

  /** A tag without options is the name itself, except "-". */
  lemma TagNameWithoutOptions(jsonTag: string)
    requires ',' !in jsonTag
    ensures TagName(jsonTag) == if jsonTag == "-" then "" else jsonTag
  {
  }

  /** The extensions an uploaded file may have, compared case-sensitively:
      each is a dot followed by lower-case letters only. */
  predicate AllowedExtension(ext: string)
    ensures AllowedExtension(ext) ==>
      4 <= |ext| <= 5 && ext[0] == '.' && forall i :: 0 < i < |ext| ==> 'a' <= ext[i] <= 'z'
  {
    ext == ".png" || ext == ".jpg" || ext == ".jpeg"
  }

  /** An upload is admitted exactly when its file name ends in one of the
      three lower-case extensions. */
  lemma AdmittedIffSuffix(filename: string)
    ensures AllowedExtension(Ext(filename)) <==>
      HasSuffix(filename, ".png") || HasSuffix(filename, ".jpg") || HasSuffix(filename, ".jpeg")
  {
    var n := |filename|;
    if HasSuffix(filename, ".png") {
      assert filename == filename[..n - 4] + ".png";
      ExtOfSuffix(filename[..n - 4], ".png");
    } else if HasSuffix(filename, ".jpg") {
      assert filename == filename[..n - 4] + ".jpg";
      ExtOfSuffix(filename[..n - 4], ".jpg");
    } else if HasSuffix(filename, ".jpeg") {
      assert filename == filename[..n - 5] + ".jpeg";
      ExtOfSuffix(filename[..n - 5], ".jpeg");
    } else {
      // the extension is a suffix of the name, so it is none of the three
      var ext := Ext(filename);
      assert HasSuffix(filename, ext);
      assert ext != ".png" && ext != ".jpg" && ext != ".jpeg";
    }
  }

  /** Upper-case extensions are refused. */
  lemma UpperCaseRefused(stem: string)
    ensures !AllowedExtension(Ext(stem + ".PNG"))
    ensures !AllowedExtension(Ext(stem + ".JPG"))
    ensures !AllowedExtension(Ext(stem + ".JPEG"))
  {
  }

  /** A file name whose final element has no '.' is refused. */
  lemma NoExtensionRefused(filename: string)
    requires '.' !in filename
    ensures Ext(filename) == "" && !AllowedExtension(Ext(filename))
  {
  }

  // Statuses and messages of the responses the adapter aborts with.

  const BadRequest: int := 400
  const UploadFailedMessage: string := "Could not complete uploading your file, please check your file"
  const WrongFormatMessage: string := "You can upload only png,jpg or jpeg file formats"
  const NotJsonMessage: string := "Body params have to be in JSON format"

  /** The JSON body of an aborted request: `{"message": text}` or
      `{"message": [records]}`. */
  datatype Body = Message(text: string) | Described(errors: seq<ValidationError>)

  datatype Response = Response(status: int, body: Body)

  /** What binding the request to the schema produced. */
  datatype BindOutcome = BindOk | BindValidationErrors(errors: seq<FieldError>) | BindOtherError

  /** The part of a multipart file header that matters here. */
  datatype FileHeader = FileHeader(filename: string)

  /** What `FormFile("file")` produced. */
  datatype FormFileOutcome = FormFileError | FormFileFound(header: FileHeader)

  /** A request context: the request's method and what the framework's
      binders produce for it, plus the responses written so far. */
  class Context {
    const requestMethod: string
    const shouldBind: BindOutcome
    const shouldBindJSON: BindOutcome
    const formFile: FormFileOutcome
    var aborted: bool
    var responses: seq<Response>

    constructor (requestMethod: string, shouldBind: BindOutcome,
                 shouldBindJSON: BindOutcome, formFile: FormFileOutcome)
      ensures this.requestMethod == requestMethod && this.shouldBind == shouldBind
      ensures this.shouldBindJSON == shouldBindJSON && this.formFile == formFile
      ensures !aborted && responses == []
    {
      this.requestMethod := requestMethod;
      this.shouldBind := shouldBind;
      this.shouldBindJSON := shouldBindJSON;
      this.formFile := formFile;
      aborted := false;
      responses := [];
    }

    /** `AbortWithStatusJSON`: stop the handler chain and write the response. */
    method AbortWithStatusJSON(status: int, body: Body)
      modifies this
      ensures aborted
      ensures responses == old(responses) + [Response(status, body)]
    {
      aborted := true;
      responses := responses + [Response(status, body)];
    }
  }

  /** The location the caller's `file` pointer designates. */
  class FileSlot {
    var header: FileHeader

    constructor (header: FileHeader)
      ensures this.header == header
    {
      this.header := header;
    }
  }

  /** What `validateSchema` decides: its two results, the response it aborts
      with, if any, and the header it stores through `file`, if any. */
  datatype SchemaOutcome = SchemaOutcome(
    verr: Option<seq<FieldError>>, errorExist: bool,
    abort: Option<Response>, upload: Option<FileHeader>)

  function SchemaDecision(requestMethod: string, shouldBind: BindOutcome,
                          shouldBindJSON: BindOutcome, formFile: FormFileOutcome,
                          containFile: bool, showableStatus: int): (o: SchemaOutcome)
    // validation errors are handed back, never aborted on here
    ensures o.verr.Some? ==> o.errorExist && o.abort.None?
    // every abort reports an error
    ensures o.abort.Some? ==> o.errorExist && o.verr.None?
    // an error is either handed back or aborted on
    ensures o.errorExist ==> o.verr.Some? || o.abort.Some?
    // a header is stored only for an admitted upload, and then nothing fails
    ensures o.upload.Some? <==>
      requestMethod != "GET" && containFile && formFile.FormFileFound? &&
      AllowedExtension(Ext(formFile.header.filename))
    ensures o.upload.Some? ==> o.upload.value == formFile.header && !o.errorExist
  {
    if requestMethod == "GET" then
      if shouldBind.BindValidationErrors? then
        SchemaOutcome(Some(shouldBind.errors), true, None, None)
      else
        SchemaOutcome(None, false, None, None)
    else if containFile then
      match formFile
      case FormFileError =>
        SchemaOutcome(None, true, Some(Response(showableStatus, Message(UploadFailedMessage))), None)
      case FormFileFound(header) =>
        if !AllowedExtension(Ext(header.filename)) then
          SchemaOutcome(None, true, Some(Response(showableStatus, Message(WrongFormatMessage))), None)
        else
          SchemaOutcome(None, false, None, Some(header))
    else
      match shouldBindJSON
      case BindOk => SchemaOutcome(None, false, None, None)
      case BindValidationErrors(errors) => SchemaOutcome(Some(errors), true, None, None)
      case BindOtherError =>
        SchemaOutcome(None, true, Some(Response(BadRequest, Message(NotJsonMessage))), None)
  }

  function AbortList(abort: Option<Response>): seq<Response> {
    if abort.Some? then [abort.value] else []
  }

  /** What `Validate` decides: its result, the responses it writes and the
      header `file` holds afterwards. */
  datatype Outcome = Outcome(ok: bool, aborts: seq<Response>, file: FileHeader)

  function ValidateDecision(requestMethod: string, shouldBind: BindOutcome,
                            shouldBindJSON: BindOutcome, formFile: FormFileOutcome,
                            containFile: bool, showableStatus: int,
                            file: FileHeader): (o: Outcome)
    // false exactly when one response was written, true exactly when none was
    ensures |o.aborts| <= 1
    ensures !o.ok <==> |o.aborts| == 1
    // `file` changes only on an admitted upload
    ensures o.file == file ||
      (o.ok && requestMethod != "GET" && containFile && formFile == FormFileFound(o.file))
  {
    var s := SchemaDecision(requestMethod, shouldBind, shouldBindJSON, formFile,
                            containFile, showableStatus);
    var stored := if s.upload.Some? then s.upload.value else file;
    if s.verr.Some? then
      Outcome(false, AbortList(s.abort) + [Response(BadRequest, Described(DescribeAll(s.verr.value)))], stored)
    else
      Outcome(!s.errorExist, AbortList(s.abort), stored)
  }

  /** `validateSchema`. */
  method ValidateSchema(c: Context, containFile: bool, file: FileSlot, showableStatus: int)
    returns (verr: Option<seq<FieldError>>, errorExist: bool)
    modifies c, file
    ensures var o := SchemaDecision(c.requestMethod, c.shouldBind, c.shouldBindJSON,
                                    c.formFile, containFile, showableStatus);
      verr == o.verr && errorExist == o.errorExist &&
      c.responses == old(c.responses) + AbortList(o.abort) &&
      c.aborted == (old(c.aborted) || o.abort.Some?) &&
      file.header == (if o.upload.Some? then o.upload.value else old(file.header))
  {
    if c.requestMethod == "GET" {
      var err := c.shouldBind;
      if err != BindOk {
        if err.BindValidationErrors? {
          return Some(err.errors), true;
        }
      }
    } else if containFile {
      var uploaded := c.formFile;
      if uploaded.FormFileError? {
        c.AbortWithStatusJSON(showableStatus, Message(UploadFailedMessage));
        return None, true;
      }
      var fileExt := Ext(uploaded.header.filename);
      if fileExt != ".png" && fileExt != ".jpg" && fileExt != ".jpeg" {
        c.AbortWithStatusJSON(showableStatus, Message(WrongFormatMessage));
        return None, true;
      }
      file.header := uploaded.header;
      return None, false;
    } else {
      var err := c.shouldBindJSON;
      if err != BindOk {
        if err.BindValidationErrors? {
          return Some(err.errors), true;
        }
        c.AbortWithStatusJSON(BadRequest, Message(NotJsonMessage));
        return None, true;
      }
    }
    return None, false;
  }

  /** `Validate`: true when the handler may go on. */
  method Validate(c: Context, containFile: bool, file: FileSlot, showableStatus: int)
    returns (ok: bool)
    modifies c, file
    ensures var o := ValidateDecision(c.requestMethod, c.shouldBind, c.shouldBindJSON,
                                      c.formFile, containFile, showableStatus, old(file.header));
      ok == o.ok && c.responses == old(c.responses) + o.aborts && file.header == o.file &&
      c.aborted == (old(c.aborted) || o.aborts != [])
  {
    var verr, errorExist := ValidateSchema(c, containFile, file, showableStatus);
    if verr.Some? {
      var errs := Descriptive(verr.value);
      assert errs == DescribeAll(verr.value);
      c.AbortWithStatusJSON(BadRequest, Described(errs));
      return false;
    }
    return !errorExist;
  }

  // What `Validate` does on each path through `validateSchema`.

  /** A multipart request whose file cannot be read is aborted with the
      showable status, and `file` keeps its value. */
  lemma MissingFileAborts(requestMethod: string, shouldBind: BindOutcome,
                          shouldBindJSON: BindOutcome, showableStatus: int, file: FileHeader)
    requires requestMethod != "GET"
    ensures ValidateDecision(requestMethod, shouldBind, shouldBindJSON, FormFileError,
                             true, showableStatus, file) ==
      Outcome(false, [Response(showableStatus, Message(UploadFailedMessage))], file)
  {
  }

  /** An upload whose name does not end in ".png", ".jpg" or ".jpeg" (upper
      case and no extension included) is aborted with the showable status,
      and `file` keeps its value. */
  lemma WrongFormatAborts(requestMethod: string, shouldBind: BindOutcome,
                          shouldBindJSON: BindOutcome, showableStatus: int,
                          upload: FileHeader, file: FileHeader)
    requires requestMethod != "GET"
    requires !HasSuffix(upload.filename, ".png") && !HasSuffix(upload.filename, ".jpg") &&
             !HasSuffix(upload.filename, ".jpeg")
    ensures ValidateDecision(requestMethod, shouldBind, shouldBindJSON, FormFileFound(upload),
                             true, showableStatus, file) ==
      Outcome(false, [Response(showableStatus, Message(WrongFormatMessage))], file)
  {
  }

  /** An upload with an admitted name passes and is stored through `file`. */
  lemma UploadStored(requestMethod: string, shouldBind: BindOutcome,
                     shouldBindJSON: BindOutcome, showableStatus: int,
                     upload: FileHeader, file: FileHeader)
    requires requestMethod != "GET"
    requires HasSuffix(upload.filename, ".png") || HasSuffix(upload.filename, ".jpg") ||
             HasSuffix(upload.filename, ".jpeg")
    ensures ValidateDecision(requestMethod, shouldBind, shouldBindJSON, FormFileFound(upload),
                             true, showableStatus, file) ==
      Outcome(true, [], upload)
  {
    AdmittedIffSuffix(upload.filename);
  }

  /** A body that is not JSON is aborted with 400. */
  lemma NotJsonAborts(requestMethod: string, shouldBind: BindOutcome, formFile: FormFileOutcome,
                      showableStatus: int, file: FileHeader)
    requires requestMethod != "GET"
    ensures ValidateDecision(requestMethod, shouldBind, BindOtherError, formFile,
                             false, showableStatus, file) ==
      Outcome(false, [Response(BadRequest, Message(NotJsonMessage))], file)
  {
  }

  /** A request that binds passes without a response: a GET whatever the
      file flag, any other method when no file is expected. */
  lemma BoundRequestPasses(requestMethod: string, shouldBind: BindOutcome,
                           shouldBindJSON: BindOutcome, formFile: FormFileOutcome,
                           containFile: bool, showableStatus: int, file: FileHeader)
    requires if requestMethod == "GET" then shouldBind == BindOk
             else !containFile && shouldBindJSON == BindOk
    ensures ValidateDecision(requestMethod, shouldBind, shouldBindJSON, formFile,
                             containFile, showableStatus, file) == Outcome(true, [], file)
  {
  }

  /** Validation errors from either binder are aborted on exactly once, with
      400 and the records `descriptive` builds. */
  lemma ValidationErrorsAbortOnce(requestMethod: string, shouldBind: BindOutcome,
                                  shouldBindJSON: BindOutcome, formFile: FormFileOutcome,
                                  containFile: bool, showableStatus: int, file: FileHeader,
                                  errors: seq<FieldError>)
    requires if requestMethod == "GET" then shouldBind == BindValidationErrors(errors)
             else !containFile && shouldBindJSON == BindValidationErrors(errors)
    ensures ValidateDecision(requestMethod, shouldBind, shouldBindJSON, formFile,
                             containFile, showableStatus, file) ==
      Outcome(false, [Response(BadRequest, Described(DescribeAll(errors)))], file)
  {
  }

  /** A GET whose query binding fails for another reason than validation
      passes without a response. */
  lemma GetOtherErrorPasses(shouldBindJSON: BindOutcome, formFile: FormFileOutcome,
                            containFile: bool, showableStatus: int, file: FileHeader)
    ensures ValidateDecision("GET", BindOtherError, shouldBindJSON, formFile,
                             containFile, showableStatus, file) == Outcome(true, [], file)
  {
  }
}
