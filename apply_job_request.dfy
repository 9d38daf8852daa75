/**
 * ApplyJobRequest: the form request that guards processApplication. Its
 * rules are evaluated the way Laravel's validator evaluates them:
 * attribute by attribute in the order the rules are listed, each
 * attribute's rules left to right, a failed `required`/`required_if`
 * ending that attribute's checks, and the other rules skipped for an
 * absent value or a blank string.
 */
module ApplyJob {
  import opened Common
  import opened Php
  import opened Platform

  /** An uploaded file as the validator sees it. */
  datatype UploadedFile = UploadedFile(
    originalName: string,             // getClientOriginalName()
    guessedExtension: Option<string>, // guessExtension(), from the sniffed MIME type
    content: Bytes)

  /** A request value: PHP null, a string, an array (only its size matters here), or an uploaded file. */
  datatype Input = NullValue | Text(s: string) | List(size: nat) | Upload(file: UploadedFile)

  /** The two fields the rules name; None when the field is absent from the request. */
  datatype ApplyRequest = ApplyRequest(resumeOption: Option<Input>, resumeFile: Option<Input>)

  const NewResume := "new_resume"

  /** `max:5120` on a file: kilobytes. */
  const MaxKilobytes := 5120

  /** The rules of rules(), one constructor per rule that can fail. */
  datatype Rule = FileRequiredIf | FileIsFile | FileMimes | FileMax | OptionRequired | OptionString

  /** authorize(): every user may submit. */
  function Authorize(): (allowed: bool)
    ensures allowed
  {
    true
  }

  /** The custom message messages() gives each rule. */
  function Message(rule: Rule): string {
    match rule
    case OptionRequired => "The resume option is required."
    case OptionString => "The resume option must be a string."
    case FileRequiredIf => "The resume file is required if the resume option is new resume."
    case FileIsFile => "The resume file must be a file."
    case FileMimes => "The resume file must be a PDF file."
    case FileMax => "The resume file must be less than 5MB."
  }

  /** `required`: present, not null, not a string trim() empties, not an empty array. */
  predicate Filled(v: Option<Input>) {
    match v
    case None => false
    case Some(NullValue) => false
    case Some(Text(s)) => !Blank(s)
    case Some(List(n)) => n > 0
    case Some(Upload(_)) => true
  }

  /** A rule that is not implicit runs only on a present value that is not a blank string. */
  predicate Validatable(v: Option<Input>) {
    v.Some? && !(v.value.Text? && Blank(v.value.s))
  }

  /** `file` */
  predicate IsFile(v: Input) {
    v.Upload?
  }

  /** `mimes:pdf`: a file whose guessed extension is pdf. */
  predicate IsPdf(v: Input) {
    v.Upload? && v.file.guessedExtension == Some("pdf")
  }

  /** `max:5120`: kilobytes for a file, characters for a string, elements for an array. */
  predicate WithinMax(v: Input) {
    match v
    case NullValue => true
    case Text(s) => |s| <= MaxKilobytes
    case List(n) => n <= MaxKilobytes
    case Upload(f) => |f.content| <= MaxKilobytes * 1024
  }

  /** `required_if:resume_option,new_resume` applies. */
  predicate WantsNewResume(req: ApplyRequest) {
    req.resumeOption == Some(Text(NewResume))
  }

  /** The failures of `resume_file`, in rule order. */
  function FileErrors(req: ApplyRequest): (errs: seq<Rule>)
    ensures |errs| <= 3
    ensures WantsNewResume(req) && !Filled(req.resumeFile) ==> errs == [FileRequiredIf]
    ensures !WantsNewResume(req) && !Validatable(req.resumeFile) ==> errs == []
  {
    var file := req.resumeFile;
    if WantsNewResume(req) && !Filled(file) then [FileRequiredIf]
    else if !Validatable(file) then []
    else
      (if IsFile(file.value) then [] else [FileIsFile])
      + (if IsPdf(file.value) then [] else [FileMimes])
      + (if WithinMax(file.value) then [] else [FileMax])
  }

  /** The failures of `resume_option`, in rule order. */
  function OptionErrors(req: ApplyRequest): (errs: seq<Rule>)
    ensures errs == [] <==> req.resumeOption.Some? && req.resumeOption.value.Text? && !Blank(req.resumeOption.value.s)
    ensures |errs| <= 1
  {
    var option := req.resumeOption;
    if !Filled(option) then [OptionRequired]
    else if !option.value.Text? then [OptionString]
    else []
  }

  /** All failures: resume_file's rules are listed, and so checked, first. */
  function Errors(req: ApplyRequest): seq<Rule> {
    FileErrors(req) + OptionErrors(req)
  }

  /** The messages the error bag holds, in order. */
  function Messages(req: ApplyRequest): seq<string> {
    var errs := Errors(req);
    seq(|errs|, i requires 0 <= i < |errs| => Message(errs[i]))
  }

  predicate Passes(req: ApplyRequest) {
    Errors(req) == []
  }

  /** What an accepted request looks like, stated field by field. */
  predicate Acceptable(req: ApplyRequest) {
    && req.resumeOption.Some? && req.resumeOption.value.Text?
    && var option := req.resumeOption.value.s;
    && !Blank(option)
    && match req.resumeFile
       case None => option != NewResume
       case Some(Text(s)) => Blank(s) && option != NewResume
       case Some(Upload(f)) => f.guessedExtension == Some("pdf") && |f.content| <= 5 * 1024 * 1024
       case Some(_) => false
  }

  /** The validator accepts exactly the acceptable requests. */
  lemma PassesIff(req: ApplyRequest)
    ensures Passes(req) <==> Acceptable(req)
  {
    if req.resumeFile.Some? && req.resumeFile.value.Text? && Blank(req.resumeFile.value.s) {
      assert !Filled(req.resumeFile);
    }
  }

  /** When the new_resume option passes validation, the request carries a PDF upload of at most 5 MB. */
  lemma NewResumeHasUpload(req: ApplyRequest)
    requires Passes(req) && WantsNewResume(req)
    ensures req.resumeFile.Some? && req.resumeFile.value.Upload?
    ensures req.resumeFile.value.file.guessedExtension == Some("pdf")
    ensures |req.resumeFile.value.file.content| <= 5 * 1024 * 1024
  {
    PassesIff(req);
  }

  /** Any other option that passes is a non-blank string. */
  lemma OtherOptionIsText(req: ApplyRequest)
    requires Passes(req) && !WantsNewResume(req)
    ensures req.resumeOption.Some? && req.resumeOption.value.Text?
    ensures req.resumeOption.value.s != NewResume && !Blank(req.resumeOption.value.s)
  {
    PassesIff(req);
  }

  /** Choosing new_resume without a usable file gets exactly the required_if message. */
  lemma MissingFileReportedOnce(req: ApplyRequest)
    requires WantsNewResume(req) && !Filled(req.resumeFile)
    ensures Messages(req) == ["The resume file is required if the resume option is new resume."]
  {
    var option := req.resumeOption.value.s;
    assert option == NewResume && !IsTrimChar(option[0]);
    assert Errors(req) == [FileRequiredIf];
  }

  /** A form without an option and without a file only lacks the option: the file rules do not run. */
  lemma EmptyFormMessages(req: ApplyRequest)
    requires !Filled(req.resumeOption) && !Validatable(req.resumeFile)
    ensures Messages(req) == ["The resume option is required."]
  {
    assert !Blank(NewResume) by {
      assert !IsTrimChar(NewResume[0]);
    }
    assert FileErrors(req) == [] && OptionErrors(req) == [OptionRequired];
    assert Errors(req) == [OptionRequired];
  }

  /** A long text sent as the file gets every file rule's message, in rule order, before the option's messages. */
  lemma TextFileAllFailures(req: ApplyRequest, s: string)
    requires req.resumeFile == Some(Text(s)) && !Blank(s) && MaxKilobytes < |s|
    ensures |Messages(req)| == 3 + |OptionErrors(req)|
    ensures Messages(req)[..3] ==
      ["The resume file must be a file.", "The resume file must be a PDF file.", "The resume file must be less than 5MB."]
  {
    assert FileErrors(req) == [FileIsFile, FileMimes, FileMax];
    var m := Messages(req);
    assert m[0] == Message(FileIsFile) && m[1] == Message(FileMimes) && m[2] == Message(FileMax);
  }
}
