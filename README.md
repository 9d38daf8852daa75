# TalentConnect: resume scoring, applications and the job dashboard in Dafny

TalentConnect is a Laravel job board. A job seeker applies to a vacancy with
a PDF resume, either a new upload or one stored earlier. The application:

- extracts the PDF's text with `pdftotext`, run in a docker-compose container;
- asks Gemini for the resume's summary, skills, experience and education;
- asks Gemini again for a score from 0 to 100 and feedback on the fit
  between the resume and the vacancy;
- records one pending job application with that score and feedback.

The dashboard lists vacancies filtered by a search text and a job type,
newest first, ten per page.

This project models that core and proves properties of the model.

- `common.dfy` (module `Common`): `Option`, `Result`, and the exceptions that
  escape the application's code.
- `php.dfy` (module `Php`): the parts of PHP the code relies on:
  - decoded JSON values, `isset` and `??`;
  - the `(string)` and `(int)` casts;
  - `trim()`, `dirname()`, `basename()`, and `str_replace('\\', '/', …)`.
- `platform.dfy` (module `Platform`): the collaborators, each a class that
  keeps what the service can observe of it:
  - the cloud disk and the local disk, as maps from path to bytes;
  - the external process and the Gemini endpoint, each as a fixed answer
    function plus a log of the calls made to it.
- `models.dfy` (module `Models`): the Eloquent records and an in-memory
  database of vacancies, resumes and applications.
- `resume_analysis.dfy` (module `ResumeAnalysis`): `ResumeAnalysisService`.
  It is a class whose methods follow the PHP statement by statement. Each
  method is proved against specification functions. Lemmas about those
  functions state:
  - the fence-stripping round trips;
  - the fallback answers;
  - the clamped score;
  - the shape of the pdftotext command.
- `apply_job_request.dfy` (module `ApplyJob`): the form request's rules and
  messages, evaluated the way Laravel's validator evaluates them.
- `job_vacancy_controller.dfy` (module `JobVacancies`):
  `JobVacancyController::processApplication`, split into its two resume
  branches and its evaluation-and-create tail.
- `dashboard_controller.dfy` (module `Dashboard`): `DashboardController::index`.
  - The query builder is a class that collects constraints.
  - `Listed` states the three exclusive branches as one reference predicate.
  - The method's result is a page of `Paginate(Latest(Select(…)))`.

Three behaviours of the code are easy to miss. The model follows the code in
all three:

- `extractTextFromPdf` has a `finally` block but no `catch`. A pdftotext run
  that times out or cannot start therefore throws out of it rather than
  giving `''`. The model returns `Err(ProcessFailed)`, and the scratch file
  is still removed.
- The existing-resume branch looks the resume up by id alone. It does not
  check that the resume belongs to the applicant.
- In the new_resume branch the Resume row is created before the scoring
  call. A scoring call that throws leaves that row behind without an
  application, and the model states this.

## Model

| member | source | states |
|---|---|---|
| `ResumeAnalysis.ResumeAnalysisService.constructor` | app/Services/ResumeAnalysisService.php:21-29 | The service keeps the disks, runner, Gemini client, decoder and configuration it is built with, and the two fixed prompt texts. |
| `ResumeAnalysis.ResumeAnalysisService.ExtractTextFromPdf` | app/Services/ResumeAnalysisService.php:121-197 | A PDF missing from the cloud disk gives `''`; no local file is written and no process is run. Otherwise exactly one pdftotext run is logged, and while it runs the local disk holds the cloud object's bytes at the scratch path. The text is the run's output on success, `''` on a failed exit, and the exception when the run aborts. The scratch file is gone afterwards in every case. |
| `ResumeAnalysis.ResumeAnalysisService.PdfText` | app/Services/ResumeAnalysisService.php:124-127 | A missing cloud object yields `Ok("")` whatever the process would do. |
| `ResumeAnalysis.ResumeAnalysisService.PdfRun` | app/Services/ResumeAnalysisService.php:138-170 | The pdftotext run: the docker-compose invocation, started while the local disk holds the PDF at the scratch path (no ensures; its properties are `PdfRunReadsThePdf`). |
| `ResumeAnalysis.ResumeAnalysisService.PdfRunReadsThePdf` | app/Services/ResumeAnalysisService.php:139-170 | The run uses the pdftotext invocation. It sees the PDF's bytes at the scratch path and every other local file as it was. |
| `ResumeAnalysis.TextFromProcess` | app/Services/ResumeAnalysisService.php:168-190 | The result is an exception exactly when the run aborted. Otherwise it is the standard output for exit code 0 and `''` for any other exit. |
| `ResumeAnalysis.PdfCommandShape` | app/Services/ResumeAnalysisService.php:138-160 | For a scratch directory that does not end in a separator and a 10-character alphanumeric token, the command has 11 arguments. The volume argument is the scratch directory with forward slashes followed by `:/data`. Neither it nor the compose binary contains a backslash. The shell command runs pdftotext on `/data/resume_<token>.pdf`. |
| `ResumeAnalysis.ScratchPathSplits` | app/Services/ResumeAnalysisService.php:138-147 | dirname() and basename() of the scratch path give back the scratch directory and the scratch file name. |
| `ResumeAnalysis.ScratchNameHasNoSeparator` | app/Services/ResumeAnalysisService.php:138 | `resume_<Str::random(10)>.pdf` is non-empty and has no directory separator. |
| `Php.Dirname` | app/Services/ResumeAnalysisService.php:146 | dirname(): the path without its last component and trailing separators (no ensures; see `DirnameBasenameOfJoin`). |
| `Php.Basename` | app/Services/ResumeAnalysisService.php:147 | basename(): the last component (no ensures; see `DirnameBasenameOfJoin`). |
| `Php.DirnameBasenameOfJoin` | app/Services/ResumeAnalysisService.php:139-147 | Joining a directory and a name with DIRECTORY_SEPARATOR, then splitting with dirname() and basename(), returns both parts. |
| `ResumeAnalysis.ScratchName` | app/Services/ResumeAnalysisService.php:138 | `'resume_' . Str::random(10) . '.pdf'` for the token (no ensures; see `ScratchNameHasNoSeparator`). |
| `ResumeAnalysis.ScratchPath` | app/Services/ResumeAnalysisService.php:139 | The temp directory, DIRECTORY_SEPARATOR, then the scratch name (no ensures; see `ScratchPathSplits`). |
| `ResumeAnalysis.PdfInvocation` | app/Services/ResumeAnalysisService.php:146-160 | The docker-compose argument list, with the scratch file's directory in forward slashes mounted at /data, run in the compose directory (no ensures; see `PdfCommandShape`). |
| `Php.ForwardSlashes` | app/Services/ResumeAnalysisService.php:146 | `str_replace('\\', '/', $s)`. The result has the input's length (its contents are stated in `ForwardSlashesReplaces`). |
| `Php.ForwardSlashesReplaces` | app/Services/ResumeAnalysisService.php:146-150 | str_replace turns every backslash into a slash and leaves every other character in place. |
| `ResumeAnalysis.ResumeAnalysisService.ExtractResumeInformation` | app/Services/ResumeAnalysisService.php:34-70 | The result is `ExtractionOutcome` of the extracted text. Gemini is sent exactly one prompt, the instructions followed by the text, and only when the text is not blank. The disks and the process log change exactly as in `ExtractTextFromPdf`. |
| `ResumeAnalysis.ResumeAnalysisService.ExtractionOutcome` | app/Services/ResumeAnalysisService.php:36-46 | An exception from text extraction propagates. Text that `trim()` empties gives the fixed "Could not extract text" information with three empty fields. |
| `ResumeAnalysis.ResumeAnalysisService.ExtractionPrompt` | app/Services/ResumeAnalysisService.php:48-60 | The fixed extraction instructions followed by the resume text (no ensures). |
| `Php.Coalesce` | app/Services/ResumeAnalysisService.php:65-68 | `$a[$k] ?? $default`: the entry when it is set and not null, the default otherwise (no ensures; used by `ExtractionResult`). |
| `ResumeAnalysis.InfoFrom` | app/Services/ResumeAnalysisService.php:62-69 | An exception from callGeminiJson propagates. Otherwise the four fields are read from the decoded array. |
| `ResumeAnalysis.ExtractionResult` | app/Services/ResumeAnalysisService.php:64-69 | The result is an exception (ErrorException) exactly when one of the four entries is set and an array. Otherwise each of summary, skills, experience and education is the string cast of the answer's entry when it is set and not null, and `''` otherwise. |
| `ResumeAnalysis.FieldText` | app/Services/ResumeAnalysisService.php:65-68 | `(string) ($data[$k] ?? '')` for an entry that is not an array (no ensures; used by the contracts above). |
| `ResumeAnalysis.ListedSkillsThrow` | app/Services/ResumeAnalysisService.php:66 | An answer whose `skills` is a JSON array makes extraction throw, whatever the other entries hold. |
| `ResumeAnalysis.FallbackExtractsNothing` | app/Services/ResumeAnalysisService.php:64-69 | The fallback array of a failed request yields four empty fields and no exception. |
| `Php.StringCast` | app/Services/ResumeAnalysisService.php:65-68 | `(string)` throws exactly for an array, and gives a string back unchanged. |
| `Php.AsString` | app/Services/ResumeAnalysisService.php:258 | `(string)` of a non-array: null and false give `''`, true gives `1`, an int its decimal digits (no ensures). |
| `Php.ToInt` | app/Services/ResumeAnalysisService.php:108 | `(int)`: null and false give 0, true 1, an array 0 when empty and 1 otherwise, a string its leading integer (no ensures). |
| `Php.LeadingInt` | app/Services/ResumeAnalysisService.php:108 | `(int)` of a string: leading white space, an optional sign, then the longest run of digits (no ensures). |
| `ResumeAnalysis.ResumeAnalysisService.AnalyzeResume` | app/Services/ResumeAnalysisService.php:75-116 | Exactly one prompt is sent, built from the job's title, description and requirements (`''` when null) and the four resume fields. The result is `AnalysisOutcome` of the answer, and the score is in [0, 100]. |
| `ResumeAnalysis.Score` | app/Services/ResumeAnalysisService.php:108-110 | The score is 0 when unset, 0 when the cast is negative, 100 when it is above 100, and the cast otherwise. It always lies in [0, 100]. |
| `ResumeAnalysis.EvaluationOf` | app/Services/ResumeAnalysisService.php:108-115 | The result is an exception exactly when `feedback` is set and an array. Otherwise the score is `Score` of the answer, within [0, 100], and the feedback is the string cast of `feedback`, or `''`. |
| `ResumeAnalysis.EvaluationFrom` | app/Services/ResumeAnalysisService.php:106-115 | An exception from callGeminiJson propagates. Otherwise the evaluation comes from the decoded array, and its score is within bounds. |
| `ResumeAnalysis.ResumeAnalysisService.ScoringPrompt` | app/Services/ResumeAnalysisService.php:77-104 | The scoring prompt for a vacancy and resume info. A null title, description or requirements reads as `''` (no ensures). |
| `ResumeAnalysis.ScoringPromptText` | app/Services/ResumeAnalysisService.php:86-104 | The heredoc: the fixed instructions, then the three job fields and the four resume fields on their labelled lines (no ensures). |
| `ResumeAnalysis.FallbackScoresZero` | app/Services/ResumeAnalysisService.php:230-249 | The fallback array scores 0 and does not throw. Its feedback is the quota message for status 429 and the generic failure message for any other status. |
| `Php.Trim` | app/Services/ResumeAnalysisService.php:258 | The result is an infix of the input, with only trim characters before and after it, and no trim character at either of its own ends. It is `''` exactly for a blank string, and an already trimmed string is unchanged. |
| `Php.StripsAreEnds` | app/Services/ResumeAnalysisService.php:258 | Stripping trim characters from the start and then from the end leaves an infix with only trim characters around it. |
| `ResumeAnalysis.ResumeAnalysisService.CallGeminiJson` | app/Services/ResumeAnalysisService.php:203-274 | Exactly the given prompt is posted. The result is `GeminiResult` of the reply Gemini gives to the prompts posted so far. |
| `ResumeAnalysis.GeminiResult` | app/Services/ResumeAnalysisService.php:223-273 | A non-2xx status gives the fallback array. Otherwise the text is cast to a string, its fences are stripped, and it is decoded (no ensures; its properties are `FailedRequestFallsBack` and `FencedAnswerIsDecoded`). |
| `ResumeAnalysis.Fallback` | app/Services/ResumeAnalysisService.php:231-249 | The quota array for status 429, the generic failure array for any other status (no ensures; see `FailedRequestFallsBack`). |
| `ResumeAnalysis.FallbackMapping` | app/Services/ResumeAnalysisService.php:232-248 | The literal fallback array with the given feedback (no ensures). |
| `ResumeAnalysis.StripFences` | app/Services/ResumeAnalysisService.php:258-264 | trim, the three preg_replace calls, then trim again (no ensures; its properties are the round-trip lemmas below). |
| `ResumeAnalysis.StripJsonOpening` | app/Services/ResumeAnalysisService.php:261 | `/^```json\s*/i` (no ensures; see `JsonOpeningRemoved` and `PlainOpeningNotJson`). |
| `ResumeAnalysis.StripOpening` | app/Services/ResumeAnalysisService.php:262 | `/^```\s*/` (no ensures; see `OpeningFenceRemoved`). |
| `ResumeAnalysis.StripClosing` | app/Services/ResumeAnalysisService.php:263 | `/\s*```$/`, where `$` also matches before a final newline (no ensures; see `ClosingFenceRemoved`). |
| `ResumeAnalysis.FailedRequestFallsBack` | app/Services/ResumeAnalysisService.php:223-250 | A non-2xx response never throws. It yields an array with exactly score, feedback, summary, skills, experience and education: score 0, empty text fields, and a feedback that tells 429 apart from other statuses. |
| `ResumeAnalysis.DecodedArray` | app/Services/ResumeAnalysisService.php:266-273 | The answer is accepted exactly when json_decode produced an array, which is then returned unchanged. Anything else raises the invalid-JSON RuntimeException. |
| `ResumeAnalysis.FencedAnswerIsDecoded` | app/Services/ResumeAnalysisService.php:255-273 | For a 2xx answer fenced as ```json … ```, json_decode receives exactly the payload. |
| `ResumeAnalysis.JsonFenceRoundTrip` | app/Services/ResumeAnalysisService.php:258-264 | A ```json fence, in any letter case, with white space around the payload, is stripped and returns the payload exactly. |
| `ResumeAnalysis.PlainFenceRoundTrip` | app/Services/ResumeAnalysisService.php:258-264 | A bare ``` fence with white space around the payload is stripped and returns the payload exactly, provided the text after the fence cannot be read as a `json` tag: white space follows the fence, or the payload does not start with j or J. |
| `ResumeAnalysis.UnfencedTextIsTrimmedOnly` | app/Services/ResumeAnalysisService.php:258-264 | Text that neither starts nor ends with a fence only loses its surrounding white space. |
| `ResumeAnalysis.JsonOpeningRemoved` | app/Services/ResumeAnalysisService.php:261 | The first pattern removes a ```json opening and the white space after it. |
| `ResumeAnalysis.PlainOpeningNotJson` | app/Services/ResumeAnalysisService.php:261 | The first pattern leaves a bare fence untouched when white space, or a letter other than j, follows it. |
| `ResumeAnalysis.OpeningFenceRemoved` | app/Services/ResumeAnalysisService.php:262 | The second pattern removes a bare opening fence and the white space after it. |
| `ResumeAnalysis.ClosingFenceRemoved` | app/Services/ResumeAnalysisService.php:262-264 | After the opening is gone, the closing pattern and trim() remove the closing fence and the white space before it. |
| `ResumeAnalysis.FencedIsTrimmed` | app/Services/ResumeAnalysisService.php:258 | Fenced text has nothing for trim() to remove. |
| `ApplyJob.Authorize` | app/Http/Requests/ApplyJobRequest.php:12-15 | Every user may submit the form. |
| `ApplyJob.Message` | app/Http/Requests/ApplyJobRequest.php:27-37 | The custom message of each rule (no ensures). |
| `ApplyJob.Filled` | app/Http/Requests/ApplyJobRequest.php:21-22 | `required`: present, not null, not a blank string, not an empty array (no ensures). |
| `ApplyJob.Validatable` | app/Http/Requests/ApplyJobRequest.php:21 | The non-implicit rules run only on a present value that is not a blank string (no ensures). |
| `ApplyJob.Errors` | app/Http/Requests/ApplyJobRequest.php:18-25 | resume_file's failures, then resume_option's (no ensures; see `PassesIff`). |
| `ApplyJob.Messages` | app/Http/Requests/ApplyJobRequest.php:27-37 | The messages of the failures, in order (no ensures; see the message lemmas). |
| `ApplyJob.FileErrors` | app/Http/Requests/ApplyJobRequest.php:21 | resume_file fails with at most three rules. With new_resume and no file, the only failure is `required_if`. Without new_resume, an absent or blank file is not checked at all. |
| `ApplyJob.IsFile` | app/Http/Requests/ApplyJobRequest.php:21 | `file`: the value is an uploaded file (no ensures). |
| `ApplyJob.IsPdf` | app/Http/Requests/ApplyJobRequest.php:21 | `mimes:pdf`: an upload whose guessed extension is pdf (no ensures). |
| `ApplyJob.WithinMax` | app/Http/Requests/ApplyJobRequest.php:21 | `max:5120`: kilobytes for a file, characters for a string, elements for an array (no ensures). |
| `ApplyJob.WantsNewResume` | app/Http/Requests/ApplyJobRequest.php:21 | The condition of `required_if:resume_option,new_resume` (no ensures). |
| `ApplyJob.Passes` | app/Http/Requests/ApplyJobRequest.php:18-25 | Validation passes when no rule fails (no ensures; see `PassesIff`). |
| `ApplyJob.Acceptable` | app/Http/Requests/ApplyJobRequest.php:21-22 | The accepted requests stated field by field, independently of the rule order (no ensures; the reference side of `PassesIff`). |
| `ApplyJob.OptionErrors` | app/Http/Requests/ApplyJobRequest.php:22 | resume_option passes exactly when it is a string that trim() does not empty. Otherwise it fails one rule. |
| `ApplyJob.PassesIff` | app/Http/Requests/ApplyJobRequest.php:18-25 | A request passes exactly when the option is a non-blank string and one of two things holds. Either a PDF of at most 5120 KB is uploaded. Or the option is not new_resume and no file, or a blank one, is sent. |
| `ApplyJob.NewResumeHasUpload` | app/Http/Requests/ApplyJobRequest.php:21 | A passing new_resume request carries a PDF upload of at most 5 MB. |
| `ApplyJob.OtherOptionIsText` | app/Http/Requests/ApplyJobRequest.php:22 | Any other passing option is a non-blank string other than new_resume. |
| `ApplyJob.MissingFileReportedOnce` | app/Http/Requests/ApplyJobRequest.php:21-32 | Every new_resume request without a usable file produces exactly the custom `required_if` message. |
| `ApplyJob.EmptyFormMessages` | app/Http/Requests/ApplyJobRequest.php:27-37 | Every request without an option and without a file to check produces only the custom "resume option is required" message. |
| `ApplyJob.TextFileAllFailures` | app/Http/Requests/ApplyJobRequest.php:21-36 | Every request whose file is a non-blank text of more than 5120 characters fails `file`, `mimes` and `max`, in that order, with their custom messages. The option's messages follow. |
| `JobVacancies.ClientExtension` | app/Http/Controllers/JobVacancyController.php:43 | getClientOriginalExtension(): the text after the last dot, or `''` (no ensures; see `ClientExtensionAfterLastDot`). |
| `JobVacancies.ClientExtensionAfterLastDot` | app/Http/Controllers/JobVacancyController.php:43 | The extension contains no dot. A non-empty extension is what follows the name's last dot. A name without a dot has an empty extension. |
| `Php.NatToString` | app/Http/Controllers/JobVacancyController.php:45 | `time()` prints as a non-empty run of decimal digits. |
| `JobVacancies.StoredPathShape` | app/Http/Controllers/JobVacancyController.php:45-48 | The upload is stored under `resumes/resume_`, and the path ends with a dot and the client extension. |
| `Models.Database.FindVacancy` | app/Http/Controllers/JobVacancyController.php:35 | The vacancy is found exactly when its id is in the table. |
| `JobVacancies.ResumeRow` | app/Http/Controllers/JobVacancyController.php:53-65 | The new row keeps the original file name, the stored path, the user's id, and the user's name and email as contact details. Reading its four text columns back gives the extracted fields. |
| `JobVacancies.ResumeFilename` | app/Http/Controllers/JobVacancyController.php:45 | `'resume_' . time() . '.' . $extension` (no ensures; see `StoredPathShape`). |
| `JobVacancies.StoredPath` | app/Http/Controllers/JobVacancyController.php:48 | The path storeAs('resumes', …) stores the upload at and returns (no ensures; see `StoredPathShape`). |
| `JobVacancies.OptionText` | app/Http/Controllers/JobVacancyController.php:69 | `$request->input('resume_option')` as the string validation guarantees, `''` otherwise (no ensures). |
| `JobVacancies.UploadOf` | app/Http/Controllers/JobVacancyController.php:41 | `$request->file('resume_file')`: the upload, if one was sent (no ensures). |
| `JobVacancies.StoredInfo` | app/Http/Controllers/JobVacancyController.php:72-77 | The info rebuilt from a stored resume, a null column read as `''` (no ensures; see `ResumeRow`, whose ensures states that it inverts the row). |
| `Models.Database.CreateResume` | app/Http/Controllers/JobVacancyController.php:53-67 | The row is stored under the next auto-increment id and that id is returned. No other row changes. |
| `JobVacancies.JobVacancyController.StoreNewResume` | app/Http/Controllers/JobVacancyController.php:40-67 | The upload is put on the cloud disk at its stored path. Extraction then runs on the uploaded bytes: one pdftotext run, the scratch file removed, and the extraction prompt posted only for non-blank text. An extraction exception propagates with no row created. Otherwise the row is created under the next id, and the chosen resume carries the extracted fields. |
| `JobVacancies.ParseId` | app/Http/Controllers/JobVacancyController.php:69-70 | The option names a resume id exactly when it is a non-empty string of decimal digits. |
| `Models.Database.FindResume` | app/Http/Controllers/JobVacancyController.php:70 | The resume is found exactly when its id is in the table. |
| `JobVacancies.StoredChoice` | app/Http/Controllers/JobVacancyController.php:69-77 | findOrFail succeeds exactly when the option is a decimal id of an existing resume, and otherwise fails with ModelNotFound for Resume. The info is the row's four columns, with null read as `''`. |
| `JobVacancies.JobVacancyController.FindStoredResume` | app/Http/Controllers/JobVacancyController.php:68-77 | The lookup branch returns exactly `StoredChoice` on the current resumes. |
| `JobVacancies.JobVacancyController.ChoiceOutcome` | app/Http/Controllers/JobVacancyController.php:40-78 | The resume the if/else chooses. For new_resume, the extraction outcome on the upload, with the next id. Otherwise the lookup (no ensures; used by the contracts below). |
| `JobVacancies.JobVacancyController.PromptsAfterChoice` | app/Http/Controllers/JobVacancyController.php:40-78 | The prompts posted once the resume is chosen (no ensures). |
| `JobVacancies.JobVacancyController.ResumesAfterChoice` | app/Http/Controllers/JobVacancyController.php:40-78 | The resumes table once the resume is chosen: one new row exactly when a new upload's fields were extracted (no ensures). |
| `JobVacancies.JobVacancyController.ChooseResume` | app/Http/Controllers/JobVacancyController.php:40-78 | Vacancies and applications are untouched. The result, the prompts and the resumes are `ChoiceOutcome`, `PromptsAfterChoice` and `ResumesAfterChoice` of the state before the call, for every outcome. For new_resume, the upload is stored, one pdftotext run is logged on its bytes, and the scratch file is removed. For any other option, the disks, the process log and Gemini are untouched. A chosen resume exists and its columns hold the chosen info. |
| `JobVacancies.JobVacancyController.RecordApplication` | app/Http/Controllers/JobVacancyController.php:80-90 | Exactly one scoring prompt is sent. An exception leaves the applications unchanged. Otherwise exactly one application is appended: pending, with the evaluation's score and feedback, the vacancy id, the user's id and the chosen resume. |
| `Models.Database.CreateApplication` | app/Http/Controllers/JobVacancyController.php:83-90 | The application is appended and nothing else changes. |
| `JobVacancies.JobVacancyController.ProcessApplication` | app/Http/Controllers/JobVacancyController.php:33-96 | A missing vacancy fails first and changes nothing. With the vacancy found, the call succeeds exactly when the resume is chosen (`ChoiceOutcome`) and then scored. Otherwise it fails with that step's exception. The resumes table is `ResumesAfterChoice` whatever the result, so a row created before a failed scoring call stays. A failure appends no application; success appends exactly the returned one. That application is pending, for this vacancy and user, on an existing resume, with a score in [0, 100]. Its score and feedback are Gemini's evaluation of the last prompt, built from the vacancy and the resume's stored fields. For new_resume, the upload is stored, extracted and cleaned up whatever the result. |
| `JobVacancies.JobVacancyController.constructor` | app/Http/Controllers/JobVacancyController.php:15-18 | The controller keeps the service it is given, and the database. |
| `Platform.CloudDisk.Put` | app/Http/Controllers/JobVacancyController.php:48 | storeAs writes the bytes at the path and leaves every other object alone. |
| `Platform.CloudDisk.Exists` | app/Services/ResumeAnalysisService.php:124 | exists() is true exactly for a stored path. |
| `Platform.CloudDisk.Get` | app/Services/ResumeAnalysisService.php:130 | get() returns the stored bytes. |
| `Platform.LocalDisk.Write` | app/Services/ResumeAnalysisService.php:142 | file_put_contents writes the bytes at the path and leaves every other file alone. |
| `Platform.LocalDisk.Exists` | app/Services/ResumeAnalysisService.php:193 | file_exists() is true exactly for a written path. |
| `Platform.LocalDisk.Unlink` | app/Services/ResumeAnalysisService.php:194 | unlink() removes exactly that path. |
| `Platform.ProcessRunner.Run` | app/Services/ResumeAnalysisService.php:168-170 | The run, the command and the local files it can read, is appended to the log. It ends as the process behaviour dictates for the runs so far. |
| `Platform.GeminiClient.Post` | app/Services/ResumeAnalysisService.php:221 | The prompt is appended to the log, and the response is Gemini's reply to the prompts so far. |
| `Dashboard.Index` | app/Http/Controllers/DashboardController.php:10-42 | The page shown is page `page` of the listed vacancies, newest first: at most 10 of them. Each is a vacancy of the table that the search and filter branches admit. |
| `Dashboard.Given` | app/Http/Controllers/DashboardController.php:15 | `has(k) && k != null`: present and neither null nor `''` (no ensures). |
| `Dashboard.MatchesSearch` | app/Http/Controllers/DashboardController.php:16-21 | The title, the location or the company's name contains the search text (no ensures). |
| `Dashboard.Contains` | app/Http/Controllers/DashboardController.php:17-20 | The search text occurs as a contiguous run in the column's text (no ensures). |
| `Dashboard.Like` | app/Http/Controllers/DashboardController.php:17-20 | `column LIKE '%s%'`: a null column never matches (no ensures). |
| `Dashboard.HasType` | app/Http/Controllers/DashboardController.php:22 | `where('type', $filter)`: the type column equals the filter (no ensures). |
| `Dashboard.Listed` | app/Http/Controllers/DashboardController.php:15-39 | Search and filter, search only, filter only, or neither: the reference description of the listing (no ensures; see `Select`, `WhereSelects` and `Index`). |
| `Dashboard.Select` | app/Http/Controllers/DashboardController.php:12-39 | A vacancy is selected exactly when it is in the table and `Listed` admits it. |
| `Dashboard.BranchesExclusive` | app/Http/Controllers/DashboardController.php:15-37 | At most one of the three guarded blocks adds constraints. |
| `Dashboard.NoCriteriaListsAll` | app/Http/Controllers/DashboardController.php:12-39 | With neither search nor filter, every vacancy is listed, in table order. |
| `Dashboard.Where` | app/Http/Controllers/DashboardController.php:16-22 | A row matches the query exactly when it satisfies every constraint collected. |
| `Dashboard.WhereSelects` | app/Http/Controllers/DashboardController.php:15-39 | Constraints that accept exactly the listed vacancies select exactly `Select`'s rows, in the same order. |
| `Dashboard.JobQuery.constructor` | app/Http/Controllers/DashboardController.php:12 | A fresh query over the table has no constraints. |
| `Dashboard.JobQuery.AddWhere` | app/Http/Controllers/DashboardController.php:16-38 | Each `where` ANDs one more constraint onto the query. |
| `Dashboard.JobQuery.LatestPage` | app/Http/Controllers/DashboardController.php:41 | The result is the requested page of the matching rows, sorted newest first. |
| `Dashboard.Latest` | app/Http/Controllers/DashboardController.php:41 | latest() returns a permutation of the rows ordered by created_at, newest first. |
| `Dashboard.Insert` | app/Http/Controllers/DashboardController.php:41 | Inserting into newest-first rows keeps them newest first and adds exactly that row. |
| `Dashboard.CurrentPage` | app/Http/Controllers/DashboardController.php:41 | A page number below 1 shows page 1. Any other page number is kept. |
| `Dashboard.Paginate` | app/Http/Controllers/DashboardController.php:41 | A page holds at most `perPage` rows: the consecutive rows starting at the page's offset. |
| `Dashboard.EveryRowOnItsPage` | app/Http/Controllers/DashboardController.php:41 | Row i appears at position i mod 10 of page i div 10 + 1, so every row is on some page (this follows from `Paginate`'s contract directly). |
| `Dashboard.PageIsFullBeforeTheEnd` | app/Http/Controllers/DashboardController.php:41 | Every page before the last holds exactly `perPage` rows. |
| `Dashboard.PageOfSortedIsSorted` | app/Http/Controllers/DashboardController.php:41 | A page of newest-first rows is newest first. |
| `Dashboard.PageRowsComeFromRows` | app/Http/Controllers/DashboardController.php:41 | A page holds only rows it was cut from. |
| `Dashboard.PageOfLatest` | app/Http/Controllers/DashboardController.php:41 | A page of the sorted listing is newest first and holds only rows of the listing. |

## Left out

- HTTP transport is not modelled: the Gemini URL, API key, payload and 60 s timeout. Gemini is an answer function of the prompts posted so far, reduced to the status code and the `candidates.0.content.parts.0.text` value.
- The ConnectionException that `Http::timeout(60)->post` throws on a time-out or a failed connection is not modelled: every post gets a response. In the source that exception escapes processApplication, after `Resume::create` in the new_resume branch.
- `json_decode` is a parameter of the service, a function from the stripped text to an optional value. Floats, and the order of keys in a decoded array, are not modelled.
- The regular expressions of callGeminiJson are written out as functions for those three patterns only. `$` matching before a final newline is modelled. `/i` case folding affects only the letters of `json`.
- Docker, docker-compose and pdftotext are not modelled. The process is an answer function of the runs so far, each run being the command line and the local files it could read. It yields a success flag and standard output, or an abort that stands for the 180 s timeout or a failed start. Standard error and the `mkdir` of the scratch directory are not modelled. A failed file_put_contents or storeAs is not modelled either: both are taken to succeed.
- Logging is left out, as is the configuration lookup done in the constructor. The Settings value holds the results of `config()`, `base_path()` and `storage_path()`, and the OS's DIRECTORY_SEPARATOR. `dockerBin` and the Gemini model name are not used by the modelled code.
- Php.LeadingInt: a numeric string with a fraction or an exponent is cast through a float in PHP, so `(int) "1e2"` is 100. The model reads only the leading integer digits and gives 1. Integers are unbounded, so the 64-bit range of PHP ints and the saturation of huge numeric strings are not modelled either.
- dirname() does not model Windows drive letters or UNC prefixes.
- `time()` and `Str::random(10)` are inputs. The random token is assumed alphanumeric and 10 characters long, as the helper promises.
- Authentication is left out. `auth()->user()` and `auth()->id()` are an explicit User argument.
- Eloquent is replaced by an in-memory Database. Ids are natural numbers, and resumes get consecutive auto-increment ids (`Models.Database.CreateResume` advances the next id by one). Timestamps and the JSON encoding of contactDetails are not modelled: contact details are a datatype.
- JobVacancies.ParseId: findOrFail receives the raw option string. MySQL's loose comparison would also find a row for strings such as `"5abc"` or `" 5"`. The model accepts only strings of decimal digits.
- The `?? ''` and `?? 0` at app/Http/Controllers/JobVacancyController.php:61-64 and 85-86 apply to keys that are always set and non-null, so the model reads those values directly. The `?? ''` at lines 73-76 applies to Resume columns, which can be null, and `StoredInfo` reads a null column as `''`.
- ApplyJob.FileErrors: the `uploaded` check of the `file` rule (a failed upload) is not modelled, and neither is the rejection of PHP-like extensions that `mimes` adds. `max:5120` allows exactly 5 MB, although the custom message says "less than 5MB".
- The framework's input middleware is not modelled: TrimStrings and ConvertEmptyStringsToNull. Request values are taken as the controller and validator receive them.
- Dashboard.Contains: SQL `LIKE '%…%'` is modelled as a case-sensitive substring test. The database collation's case folding, and `%` or `_` inside the search text, are not modelled. The type filter is exact equality.
- Dashboard.Latest: the database orders rows with equal `created_at` arbitrarily. The model keeps their table order.
- Pagination internals are not modelled. The page number arrives as an integer, and the parsing of the `page` query parameter is left out. So are `withQueryString()`, the paginator's links and its total count.
- The view rendering and the redirect with its flash message are not modelled.
- `JobVacancyController::show` and `apply` only render views and are not modelled. app/Http/Controllers/jobApplicationsController.php is not part of this model.
- The Gemini reply and the process outcome depend on the whole log so far. The model does not say whether a repeated prompt gets the same answer.
- The arrays returned by extractResumeInformation and analyzeResume are datatypes with exactly their keys: `ExtractedInfo` and `Evaluation`. The fixed instruction texts of the prompts are fields of the service that its constructor sets.
