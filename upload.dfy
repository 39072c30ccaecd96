/** Document upload (app/api/sop/route.ts, `POST`): an ordered chain of early
    returns (session, form, required fields, size limit, MIME allow-list),
    then text extraction, embedding and the insert of the new document. The
    session is the signed-in user's id, if any; reading the form, extracting
    the text, the embedding, the insert and `parseInt` are parameters, and
    `None` from one of them means it threw (or, for `parseInt`, gave `NaN`).
    Each external step is recorded in the run's `calls`, in order. */
module Upload {
  import opened Types
  import opened Text

  const DefaultMaxFileSize: int := 10485760
  const DefaultAllowedTypes: string := "application/pdf,text/plain"

  /** An uploaded `File`: its bytes and its MIME type. */
  datatype UploadedFile = UploadedFile(bytes: seq<bv8>, mimeType: string) {
    /** `file.size`: the number of bytes. */
    function Size(): nat {
      |bytes|
    }
  }

  /** The form fields as read; an absent field is `None`. */
  datatype UploadForm = UploadForm(title: Option<string>, category: Option<string>, file: Option<UploadedFile>)

  /** The two environment settings; an unset variable reads as "". */
  datatype UploadConfig = UploadConfig(maxFileSize: string, allowedFileTypes: string)

  /** The record inserted into `sop_documents`. */
  datatype NewDocument = NewDocument(
    title: string, category: string, content: string, fileType: string, userId: string, embedding: Embedding)

  /** A row the insert returns. */
  datatype StoredDocument = StoredDocument(id: string, document: NewDocument)

  datatype InsertResult = InsertFailed | Inserted(rows: seq<StoredDocument>)

  /** The responses, each commented with the error text it carries. */
  datatype UploadResponse =
    | Unauthorized          // "Unauthorized"
    | MissingFields         // "Missing required fields"
    | FileTooLarge          // "File size exceeds the limit"
    | UnsupportedFileType   // "File type not supported"
    | SaveFailed            // "Failed to save document"
    | ProcessingFailed      // "Failed to process document"
    | Created(data: Option<StoredDocument>)
  {
    function Status(): int {
      match this
      case Unauthorized => 401
      case MissingFields | FileTooLarge | UnsupportedFileType => 400
      case SaveFailed | ProcessingFailed => 500
      case Created(_) => 201
    }
  }

  /** An external step of the handler. */
  datatype UploadCall =
    | ReadForm
    | ExtractText(file: UploadedFile)
    | EmbedText(text: string)
    | InsertDocument(document: NewDocument)

  datatype UploadRun = UploadRun(response: UploadResponse, calls: seq<UploadCall>)

  /** The verdict of the field checks. */
  datatype Validation =
    | Rejected(response: UploadResponse)
    | Accepted(title: string, category: string, file: UploadedFile)

  /** `!field`: absent or the empty string. */
  predicate Blank(field: Option<string>) {
    field.None? || field.value == ""
  }

  /** `parseInt(process.env.MAX_FILE_SIZE || '10485760')`; `None` is `NaN`. */
  function MaxFileSize(config: UploadConfig, parseInt: string -> Option<int>): Option<int>
  {
    if config.maxFileSize == "" then Some(DefaultMaxFileSize) else parseInt(config.maxFileSize)
  }

  /** `!(size > maxSize)`: every comparison with `NaN` is false, so a limit that
      does not parse lets any size through. */
  predicate WithinSizeLimit(size: nat, limit: Option<int>) {
    limit.None? || size <= limit.value
  }

  /** `(process.env.ALLOWED_FILE_TYPES || 'application/pdf,text/plain').split(',')`. */
  function AllowedFileTypes(config: UploadConfig): seq<string>
  {
    Split(if config.allowedFileTypes == "" then DefaultAllowedTypes else config.allowedFileTypes, ',')
  }

  /** The field checks in the handler's order: required fields, then size, then type. */
  function ValidateForm(form: UploadForm, config: UploadConfig, parseInt: string -> Option<int>): (v: Validation)
    ensures v == Rejected(MissingFields) <==> Blank(form.title) || Blank(form.category) || form.file.None?
    ensures v == Rejected(FileTooLarge) <==>
      && !Blank(form.title) && !Blank(form.category) && form.file.Some?
      && !WithinSizeLimit(form.file.value.Size(), MaxFileSize(config, parseInt))
    ensures v == Rejected(UnsupportedFileType) <==>
      && !Blank(form.title) && !Blank(form.category) && form.file.Some?
      && WithinSizeLimit(form.file.value.Size(), MaxFileSize(config, parseInt))
      && form.file.value.mimeType !in AllowedFileTypes(config)
    ensures v.Accepted? <==>
      && !Blank(form.title) && !Blank(form.category) && form.file.Some?
      && WithinSizeLimit(form.file.value.Size(), MaxFileSize(config, parseInt))
      && form.file.value.mimeType in AllowedFileTypes(config)
    ensures v.Accepted? ==>
      v == Accepted(form.title.value, form.category.value, form.file.value)
  {
    if Blank(form.title) || Blank(form.category) || form.file.None? then
      Rejected(MissingFields)
    else if !WithinSizeLimit(form.file.value.Size(), MaxFileSize(config, parseInt)) then
      Rejected(FileTooLarge)
    else if form.file.value.mimeType !in AllowedFileTypes(config) then
      Rejected(UnsupportedFileType)
    else
      Accepted(form.title.value, form.category.value, form.file.value)
  }

  /** The whole handler. */
  function Post(
    session: Option<string>,
    form: Option<UploadForm>,
    config: UploadConfig,
    parseInt: string -> Option<int>,
    extract: UploadedFile -> Option<string>,
    embed: string -> Option<Embedding>,
    insert: NewDocument -> InsertResult): (run: UploadRun)
    ensures session.None? <==> run.response == Unauthorized
    ensures session.None? ==> run.calls == []
    ensures session.Some? ==> |run.calls| >= 1 && run.calls[0] == ReadForm
    ensures run.response.Status() == 400 <==>
      session.Some? && form.Some? && ValidateForm(form.value, config, parseInt).Rejected?
    ensures |run.calls| > 1 ==>
      session.Some? && form.Some? && ValidateForm(form.value, config, parseInt).Accepted?
    ensures |run.calls| <= 4
    ensures |run.calls| > 1 ==> run.calls[1] == ExtractText(form.value.file.value)
    ensures |run.calls| > 2 ==>
      && extract(form.value.file.value).Some?
      && run.calls[2] == EmbedText(extract(form.value.file.value).value)
    ensures |run.calls| > 3 ==>
      var content := extract(form.value.file.value).value;
      && embed(content).Some?
      && run.calls[3] == InsertDocument(NewDocument(
           form.value.title.value, form.value.category.value, content,
           form.value.file.value.mimeType, session.value, embed(content).value))
    ensures run.response.Created? ==> |run.calls| == 4
    ensures session.Some? && form.None? ==> run == UploadRun(ProcessingFailed, [ReadForm])
    ensures session.Some? && form.Some? && ValidateForm(form.value, config, parseInt).Rejected? ==>
      run == UploadRun(ValidateForm(form.value, config, parseInt).response, [ReadForm])
    ensures session.Some? && form.Some? && ValidateForm(form.value, config, parseInt).Accepted? ==>
      var file := form.value.file.value;
      && |run.calls| >= 2
      && (extract(file).None? ==> run.response == ProcessingFailed && |run.calls| == 2)
      && (extract(file).Some? ==> |run.calls| >= 3)
      && (extract(file).Some? && embed(extract(file).value).None? ==>
            run.response == ProcessingFailed && |run.calls| == 3)
    ensures session.Some? && form.Some? && ValidateForm(form.value, config, parseInt).Accepted? &&
            extract(form.value.file.value).Some? && embed(extract(form.value.file.value).value).Some? ==>
      var file := form.value.file.value;
      var content := extract(file).value;
      var document := NewDocument(
        form.value.title.value, form.value.category.value, content, file.mimeType, session.value, embed(content).value);
      && |run.calls| == 4
      && (insert(document).InsertFailed? ==> run.response == SaveFailed)
      && (insert(document).Inserted? ==>
            var rows := insert(document).rows;
            run.response == Created(if rows == [] then None else Some(rows[0])))
    ensures run.response.Status() == 500 <==> run.response == ProcessingFailed || run.response == SaveFailed
  {
    if session.None? then UploadRun(Unauthorized, [])
    else if form.None? then UploadRun(ProcessingFailed, [ReadForm])
    else
      match ValidateForm(form.value, config, parseInt)
      case Rejected(response) => UploadRun(response, [ReadForm])
      case Accepted(title, category, file) =>
        match extract(file)
        case None => UploadRun(ProcessingFailed, [ReadForm, ExtractText(file)])
        case Some(content) =>
          match embed(content)
          case None => UploadRun(ProcessingFailed, [ReadForm, ExtractText(file), EmbedText(content)])
          case Some(embedding) =>
            var document := NewDocument(title, category, content, file.mimeType, session.value, embedding);
            var calls := [ReadForm, ExtractText(file), EmbedText(content), InsertDocument(document)];
            match insert(document)
            case InsertFailed => UploadRun(SaveFailed, calls)
            case Inserted(rows) => UploadRun(Created(if rows == [] then None else Some(rows[0])), calls)
  }

  /** A rejected form makes the same response whatever the extraction,
      embedding and insert would have done: none of them is reached. */
  lemma RejectedFormReachesNoExternalStep(
    session: string, form: UploadForm, config: UploadConfig, parseInt: string -> Option<int>,
    extract1: UploadedFile -> Option<string>, embed1: string -> Option<Embedding>, insert1: NewDocument -> InsertResult,
    extract2: UploadedFile -> Option<string>, embed2: string -> Option<Embedding>, insert2: NewDocument -> InsertResult)
    requires ValidateForm(form, config, parseInt).Rejected?
    ensures Post(Some(session), Some(form), config, parseInt, extract1, embed1, insert1)
         == Post(Some(session), Some(form), config, parseInt, extract2, embed2, insert2)
         == UploadRun(ValidateForm(form, config, parseInt).response, [ReadForm])
  {
  }

  /** Without configuration the allow-list is exactly PDF and plain text. */
  lemma {:induction false} DefaultAllowList()
    ensures AllowedFileTypes(UploadConfig("", "")) == ["application/pdf", "text/plain"]
  {
    var parts := ["application/pdf", "text/plain"];
    assert Join(parts, [',']) == DefaultAllowedTypes;
    SplitJoin(parts, ',');
  }

  /** Without configuration a file of exactly 10485760 bytes passes the size
      check and one byte more does not; PDF and plain text pass the type check,
      other types do not. */
  lemma DefaultLimits(
    title: string, category: string, mimeType: string, atLimit: seq<bv8>, overLimit: seq<bv8>,
    parseInt: string -> Option<int>)
    requires title != "" && category != ""
    requires |atLimit| == 10485760 && |overLimit| == 10485761
    ensures var form := UploadForm(Some(title), Some(category), Some(UploadedFile(atLimit, mimeType)));
      (ValidateForm(form, UploadConfig("", ""), parseInt).Accepted?
       <==> mimeType == "application/pdf" || mimeType == "text/plain")
    ensures var form := UploadForm(Some(title), Some(category), Some(UploadedFile(overLimit, mimeType)));
      ValidateForm(form, UploadConfig("", ""), parseInt) == Rejected(FileTooLarge)
  {
    DefaultAllowList();
  }

  /** The allow-list is not trimmed: with `application/pdf, text/plain`
      configured, `text/plain` is refused and ` text/plain` is accepted. */
  lemma {:induction false} AllowListIsNotTrimmed()
    ensures "text/plain" !in AllowedFileTypes(UploadConfig("", "application/pdf, text/plain"))
    ensures " text/plain" in AllowedFileTypes(UploadConfig("", "application/pdf, text/plain"))
  {
    var parts := ["application/pdf", " text/plain"];
    assert Join(parts, [',']) == "application/pdf, text/plain";
    SplitJoin(parts, ',');
  }

  /** A maximum size that does not parse (`NaN`) lets a file of any size through. */
  lemma UnparsableLimitAcceptsAnySize(form: UploadForm, config: UploadConfig, parseInt: string -> Option<int>)
    requires config.maxFileSize != "" && parseInt(config.maxFileSize).None?
    ensures ValidateForm(form, config, parseInt) != Rejected(FileTooLarge)
  {
  }
}
