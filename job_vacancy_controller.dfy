/**
 * JobVacancyController::processApplication: a job seeker applies to a
 * vacancy with a newly uploaded resume or one stored earlier; the resume
 * is scored against the vacancy and one pending application is recorded.
 */
module JobVacancies {
  import opened Common
  import opened Php
  import opened Platform
  import opened Models
  import opened ResumeAnalysis
  import opened ApplyJob

  predicate NotDot(c: char) {
    c != '.'
  }

  /** getClientOriginalExtension(): what follows the last '.', or '' when there is none. */
  function ClientExtension(name: string): string {
    var k := TrailingSpan(name, NotDot, |name|);
    if k == 0 then "" else name[k..]
  }

  /** The extension has no '.', and unless it is empty the name is its stem, a '.', and the extension. */
  lemma ClientExtensionAfterLastDot(name: string)
    ensures var ext := ClientExtension(name);
      && (forall i :: 0 <= i < |ext| ==> ext[i] != '.')
      && (ext == "" || (|ext| < |name| && name == name[..|name| - |ext| - 1] + "." + ext))
      && ((forall i :: 0 <= i < |name| ==> name[i] != '.') ==> ext == "")
  {
    var k := TrailingSpan(name, NotDot, |name|);
    if k > 0 {
      assert name == name[..k - 1] + "." + name[k..];
    }
  }

  /** `'resume_' . time() . '.' . $extension` */
  function ResumeFilename(now: nat, originalName: string): string {
    "resume_" + NatToString(now) + "." + ClientExtension(originalName)
  }

  /** The path storeAs('resumes', $filename, 'cloud') stores the upload at and returns. */
  function StoredPath(now: nat, originalName: string): string {
    "resumes/" + ResumeFilename(now, originalName)
  }

  /** Resume::findOrFail($resumeId) for the option string: a decimal id, else no row. */
  function ParseId(s: string): (id: Option<nat>)
    ensures id.Some? <==> |s| > 0 && AllDigits(s)
  {
    if |s| > 0 && AllDigits(s) then Some(DigitsValue(s)) else None
  }

  /** The extracted info processApplication rebuilds from a stored resume, missing columns as ''. */
  function StoredInfo(resume: Resume): ExtractedInfo {
    ExtractedInfo(resume.summary.GetOr(""), resume.skills.GetOr(""),
                  resume.experience.GetOr(""), resume.education.GetOr(""))
  }

  /** The row Resume::create stores for a new upload; reading its fields back gives the info it was built from. */
  function ResumeRow(file: UploadedFile, path: string, user: User, info: ExtractedInfo): (row: Resume)
    ensures StoredInfo(row) == info
    ensures row.filename == file.originalName && row.fileUrl == path && row.userId == user.id
    ensures row.contactDetails == ContactDetails(user.name, user.email)
  {
    Resume(file.originalName, path, user.id, ContactDetails(user.name, user.email),
           Some(info.summary), Some(info.skills), Some(info.experience), Some(info.education))
  }

  /** The upload is stored under resumes/ with the client's extension after the time stamp. */
  lemma StoredPathShape(now: nat, originalName: string)
    ensures StartsWith(StoredPath(now, originalName), "resumes/resume_")
    ensures EndsWith(StoredPath(now, originalName), "." + ClientExtension(originalName))
  {
    var p := StoredPath(now, originalName);
    var ext := ClientExtension(originalName);
    assert p == "resumes/resume_" + NatToString(now) + ("." + ext);
  }

  /** `$request->input('resume_option')` once validation has passed: a string. */
  function OptionText(req: ApplyRequest): string {
    if req.resumeOption.Some? && req.resumeOption.value.Text? then req.resumeOption.value.s else ""
  }

  /** `$request->file('resume_file')` */
  function UploadOf(req: ApplyRequest): Option<UploadedFile> {
    if req.resumeFile.Some? && req.resumeFile.value.Upload? then Some(req.resumeFile.value.file) else None
  }

  /** The resume an application is made with and the info it is scored on. */
  datatype Chosen = Chosen(resumeId: nat, info: ExtractedInfo)

  /** What processApplication can change or observe, as it was when a call began. */
  datatype Snapshot = Snapshot(
    resumes: map<nat, Resume>,
    nextResumeId: nat,
    files: map<string, Bytes>,   // the local disk
    runs: seq<ProcessRun>,       // the processes run so far
    prompts: seq<string>)        // the prompts posted to Gemini so far

  /** Resume::findOrFail on the option string among `resumes`, and the info read back from the row. */
  function StoredChoice(option: string, resumes: map<nat, Resume>): (r: Result<Chosen>)
    ensures r.Ok? <==> ParseId(option).Some? && ParseId(option).value in resumes
    ensures r.Err? ==> r.error == ModelNotFound("Resume")
    ensures r.Ok? ==> r.value.resumeId == ParseId(option).value && r.value.info == StoredInfo(resumes[r.value.resumeId])
  {
    match ParseId(option)
    case None => Err(ModelNotFound("Resume"))
    case Some(rid) => if rid in resumes then Ok(Chosen(rid, StoredInfo(resumes[rid]))) else Err(ModelNotFound("Resume"))
  }

  class JobVacancyController {
    const service: ResumeAnalysisService
    const db: Database

    constructor (service: ResumeAnalysisService, db: Database)
      ensures this.service == service && this.db == db
    {
      this.service := service;
      this.db := db;
    }

    function State(): Snapshot
      reads db, service.local, service.runner, service.gemini
    {
      Snapshot(db.resumes, db.nextResumeId, service.local.files, service.runner.log, service.gemini.prompts)
    }

    /** The text extracted from the stored upload `file`. */
    function UploadText(file: UploadedFile, token: string, s: Snapshot): Result<string> {
      service.PdfText(Some(file.content), s.files, s.runs, token)
    }

    /** What extractResumeInformation returns for the stored upload `file`. */
    function UploadInfo(file: UploadedFile, token: string, s: Snapshot): Result<ExtractedInfo> {
      service.ExtractionOutcome(UploadText(file, token, s), s.prompts)
    }

    /**
     * The resume the if/else of processApplication chooses from state `s`:
     * the new upload, created under the next id once its fields are
     * extracted, or the stored resume the option names.
     */
    function ChoiceOutcome(request: ApplyRequest, token: string, s: Snapshot): Result<Chosen> {
      if WantsNewResume(request) && UploadOf(request).Some? then
        var info := UploadInfo(UploadOf(request).value, token, s);
        if info.Err? then Err(info.error) else Ok(Chosen(s.nextResumeId, info.value))
      else
        StoredChoice(OptionText(request), s.resumes)
    }

    /** The prompts posted once the resume is chosen: the extraction prompt for a new upload with text. */
    function PromptsAfterChoice(request: ApplyRequest, token: string, s: Snapshot): seq<string> {
      if WantsNewResume(request) && UploadOf(request).Some? then
        s.prompts + service.ExtractionPrompts(UploadText(UploadOf(request).value, token, s))
      else
        s.prompts
    }

    /** The resumes table once the resume is chosen: one more row when a new upload's fields were extracted. */
    function ResumesAfterChoice(request: ApplyRequest, user: User, now: nat, token: string, s: Snapshot): map<nat, Resume> {
      if WantsNewResume(request) && UploadOf(request).Some? then
        var file := UploadOf(request).value;
        var info := UploadInfo(file, token, s);
        if info.Err? then s.resumes
        else s.resumes[s.nextResumeId := ResumeRow(file, StoredPath(now, file.originalName), user, info.value)]
      else
        s.resumes
    }

    /** The new_resume branch: store the upload, extract its fields, create the Resume row. */
    method StoreNewResume(file: UploadedFile, user: User, now: nat, token: string) returns (r: Result<Chosen>)
      requires RandomToken(token) && db.Valid()
      modifies db, service.cloud, service.local, service.runner, service.gemini
      ensures db.Valid() && db.vacancies == old(db.vacancies) && db.applications == old(db.applications)
      ensures service.cloud.objects == old(service.cloud.objects)[StoredPath(now, file.originalName) := file.content]
      // the extraction runs on the uploaded bytes and cleans up after itself
      ensures service.local.files == old(service.local.files) - {ScratchPath(service.settings, token)}
      ensures service.runner.log == old(service.runner.log) + [service.PdfRun(old(service.local.files), file.content, token)]
      ensures service.gemini.prompts == old(service.gemini.prompts) + service.ExtractionPrompts(UploadText(file, token, old(State())))
      ensures var info := UploadInfo(file, token, old(State()));
        && (info.Err? ==> r == Err(info.error) && db.resumes == old(db.resumes) && db.nextResumeId == old(db.nextResumeId))
        && (info.Ok? ==>
             && r == Ok(Chosen(old(db.nextResumeId), info.value))
             && db.resumes == old(db.resumes)[old(db.nextResumeId) :=
                                              ResumeRow(file, StoredPath(now, file.originalName), user, info.value)])
    {
      var extension := ClientExtension(file.originalName);
      var filename := "resume_" + NatToString(now) + "." + extension;
      var path := "resumes/" + filename;
      service.cloud.Put(path, file.content);

      var extracted := service.ExtractResumeInformation(path, token);
      if extracted.Err? {
        return Err(extracted.error);
      }
      var resumeId := db.CreateResume(ResumeRow(file, path, user, extracted.value));
      return Ok(Chosen(resumeId, extracted.value));
    }

    /** The other branch: Resume::findOrFail on the option, and the info read back from the row. */
    method FindStoredResume(option: string) returns (r: Result<Chosen>)
      ensures r == StoredChoice(option, db.resumes)
    {
      var rid := ParseId(option);
      if rid.None? {
        return Err(ModelNotFound("Resume"));
      }
      var resume := db.FindResume(rid.value);
      if resume.None? {
        return Err(ModelNotFound("Resume"));
      }
      return Ok(Chosen(rid.value, StoredInfo(resume.value)));
    }

    /** The if/else of processApplication: the resume the application is made with. */
    method ChooseResume(request: ApplyRequest, user: User, now: nat, token: string) returns (r: Result<Chosen>)
      requires Passes(request) && RandomToken(token) && db.Valid()
      modifies db, service.cloud, service.local, service.runner, service.gemini
      ensures db.Valid() && db.vacancies == old(db.vacancies) && db.applications == old(db.applications)
      ensures r == ChoiceOutcome(request, token, old(State()))
      ensures service.gemini.prompts == PromptsAfterChoice(request, token, old(State()))
      ensures db.resumes == ResumesAfterChoice(request, user, now, token, old(State()))
      ensures r.Ok? ==> r.value.resumeId in db.resumes && StoredInfo(db.resumes[r.value.resumeId]) == r.value.info
      ensures !WantsNewResume(request) ==>
        && db.nextResumeId == old(db.nextResumeId)
        && unchanged(service.cloud, service.local, service.runner, service.gemini)
      ensures WantsNewResume(request) ==>
        && UploadOf(request).Some?
        && var file := UploadOf(request).value;
        && service.cloud.objects == old(service.cloud.objects)[StoredPath(now, file.originalName) := file.content]
        && service.local.files == old(service.local.files) - {ScratchPath(service.settings, token)}
        && service.runner.log == old(service.runner.log) + [service.PdfRun(old(service.local.files), file.content, token)]
    {
      if request.resumeOption == Some(Text(NewResume)) {
        NewResumeHasUpload(request);
        r := StoreNewResume(request.resumeFile.value.file, user, now, token);
      } else {
        OtherOptionIsText(request);
        r := FindStoredResume(request.resumeOption.value.s);
      }
    }

    /** analyzeResume on the chosen resume's fields, then JobApplication::create with the evaluation. */
    method RecordApplication(id: nat, job: JobVacancy, user: User, chosen: Chosen) returns (r: Result<JobApplication>)
      requires db.Valid()
      modifies db, service.gemini
      ensures db.Valid() && db.vacancies == old(db.vacancies)
      ensures db.resumes == old(db.resumes) && db.nextResumeId == old(db.nextResumeId)
      ensures service.gemini.prompts == old(service.gemini.prompts) + [service.ScoringPrompt(job, chosen.info)]
      ensures var outcome := service.AnalysisOutcome(service.gemini.prompts);
        && (outcome.Err? ==> r == Err(outcome.error) && db.applications == old(db.applications))
        && (outcome.Ok? ==>
             && r == Ok(JobApplication("pending", outcome.value.aiGeneratedScore, outcome.value.aiGeneratedFeedback,
                                       id, user.id, chosen.resumeId))
             && db.applications == old(db.applications) + [r.value])
    {
      var evaluation := service.AnalyzeResume(job, chosen.info);
      if evaluation.Err? {
        return Err(evaluation.error);
      }
      var application := JobApplication("pending", evaluation.value.aiGeneratedScore,
                                        evaluation.value.aiGeneratedFeedback, id, user.id, chosen.resumeId);
      db.CreateApplication(application);
      return Ok(application);
    }

    /**
     * Records the application of `user` to vacancy `id` at time `now`;
     * `token` is the Str::random(10) the text extraction draws.
     */
    method ProcessApplication(request: ApplyRequest, id: nat, user: User, now: nat, token: string)
      returns (r: Result<JobApplication>)
      requires Passes(request) && RandomToken(token) && db.Valid()
      modifies db, service.cloud, service.local, service.runner, service.gemini
      ensures db.Valid() && db.vacancies == old(db.vacancies)
      // findOrFail on the vacancy comes first
      ensures id !in old(db.vacancies) ==>
        && r == Err(ModelNotFound("JobVacancy"))
        && unchanged(db, service.cloud, service.local, service.runner, service.gemini)
      // exactly one pending application on success, none on failure
      ensures r.Err? ==> db.applications == old(db.applications)
      ensures r.Ok? ==> db.applications == old(db.applications) + [r.value]
      ensures r.Ok? ==>
        && r.value.status == "pending" && r.value.jobVacancyId == id && r.value.userId == user.id
        && r.value.resumeId in db.resumes
        && 0 <= r.value.aiGeneratedScore <= 100
        && |service.gemini.prompts| > 0
        && service.gemini.prompts[|service.gemini.prompts| - 1]
           == service.ScoringPrompt(db.vacancies[id], StoredInfo(db.resumes[r.value.resumeId]))
      // with the vacancy found: the call succeeds exactly when the resume is chosen and scored
      ensures id in old(db.vacancies) ==>
        var chosen := ChoiceOutcome(request, token, old(State()));
        var asked := PromptsAfterChoice(request, token, old(State()));
        && db.resumes == ResumesAfterChoice(request, user, now, token, old(State()))
        && (chosen.Err? ==> r == Err(chosen.error) && service.gemini.prompts == asked)
        && (chosen.Ok? ==>
             && service.gemini.prompts == asked + [service.ScoringPrompt(old(db.vacancies[id]), chosen.value.info)]
             && var outcome := service.AnalysisOutcome(service.gemini.prompts);
             && (outcome.Err? ==> r == Err(outcome.error))
             && (outcome.Ok? ==>
                  r == Ok(JobApplication("pending", outcome.value.aiGeneratedScore, outcome.value.aiGeneratedFeedback,
                                         id, user.id, chosen.value.resumeId))))
      // an existing resume: looked up by id, nothing stored, extracted or created
      ensures !WantsNewResume(request) ==>
        && db.nextResumeId == old(db.nextResumeId)
        && unchanged(service.cloud, service.local, service.runner)
      // a new resume: stored on the cloud disk and extracted, whatever happens next
      ensures WantsNewResume(request) && id in old(db.vacancies) ==>
        && UploadOf(request).Some?
        && var file := UploadOf(request).value;
        && service.cloud.objects == old(service.cloud.objects)[StoredPath(now, file.originalName) := file.content]
        && service.local.files == old(service.local.files) - {ScratchPath(service.settings, token)}
        && service.runner.log == old(service.runner.log) + [service.PdfRun(old(service.local.files), file.content, token)]
    {
      var job := db.FindVacancy(id);
      if job.None? {
        return Err(ModelNotFound("JobVacancy"));
      }
      var chosen := ChooseResume(request, user, now, token);
      if chosen.Err? {
        return Err(chosen.error);
      }
      r := RecordApplication(id, job.value, user, chosen.value);
    }
  }
}
