/**
 * ResumeAnalysisService: PDF resume -> text (pdftotext in a container) ->
 * structured fields (Gemini), and resume + job -> score and feedback
 * (Gemini). The cloud disk, the local disk, the process and the Gemini
 * endpoint are the objects of module Platform; json_decode is the
 * service's `decode` function.
 */
module ResumeAnalysis {
  import opened Common
  import opened Php
  import opened Platform
  import opened Models

  const CouldNotExtractMessage := "Could not extract text from this PDF. Please upload a text-based PDF."
  const QuotaMessage := "AI evaluation quota exceeded. Please try again later."
  const GeminiErrorMessage := "AI evaluation failed (Gemini API error). Please try again later."

  /** The keys of the array extractResumeInformation returns. */
  const ExtractionKeys: set<string> := {"summary", "skills", "experience", "education"}

  /**
   * The array extractResumeInformation returns (and processApplication
   * passes on): exactly the keys summary, skills, experience and education,
   * each holding a string.
   */
  datatype ExtractedInfo = ExtractedInfo(summary: string, skills: string, experience: string, education: string)

  /** The array analyzeResume returns: exactly the keys aiGeneratedScore and aiGeneratedFeedback. */
  datatype Evaluation = Evaluation(aiGeneratedScore: int, aiGeneratedFeedback: string)

  /** What extractResumeInformation returns for a PDF without text. */
  const CouldNotExtract: ExtractedInfo := ExtractedInfo(CouldNotExtractMessage, "", "", "")

  // ---------------------------------------------------------------------
  // Removing a markdown code fence around the model's answer
  // ---------------------------------------------------------------------

  const Fence := "```"

  /** Four characters that match `json` case-insensitively. */
  predicate IsJsonTag(t: string) {
    |t| == 4 && LowerAscii(t[0]) == 'j' && LowerAscii(t[1]) == 's'
    && LowerAscii(t[2]) == 'o' && LowerAscii(t[3]) == 'n'
  }

  /** preg_replace('/^```json\s*' + '/i', '', $s) */
  function StripJsonOpening(s: string): string {
    if |s| >= 7 && s[..3] == Fence && IsJsonTag(s[3..7]) then LStrip(s[7..], IsAsciiSpace) else s
  }

  /** preg_replace('/^```\s*' + '/', '', $s) */
  function StripOpening(s: string): string {
    if StartsWith(s, Fence) then LStrip(s[3..], IsAsciiSpace) else s
  }

  /**
   * preg_replace('/\s*```$/', '', $s). Without the D modifier `$` also
   * matches before a final newline, which then stays.
   */
  function StripClosing(s: string): string {
    if EndsWith(s, Fence) then RStrip(s[..|s| - 3], IsAsciiSpace)
    else if EndsWith(s, Fence + "\n") then RStrip(s[..|s| - 4], IsAsciiSpace) + "\n"
    else s
  }

  /** The text callGeminiJson hands to json_decode. */
  function StripFences(s: string): string {
    Trim(StripClosing(StripOpening(StripJsonOpening(Trim(s)))))
  }

  predicate AllSpace(w: string) {
    forall i :: 0 <= i < |w| ==> IsAsciiSpace(w[i])
  }

  /** A fenced payload that is recovered exactly: it does not begin with a backtick and has no white space at its ends. */
  predicate RecoverableBody(body: string) {
    && |body| > 0
    && body[0] != '`'
    && !IsAsciiSpace(body[0]) && !IsAsciiSpace(body[|body| - 1])
    && Trimmed(body)
  }

  /** Text that neither starts nor ends with a fence only loses its surrounding white space. */
  lemma UnfencedTextIsTrimmedOnly(s: string)
    requires !StartsWith(Trim(s), Fence) && !EndsWith(Trim(s), Fence)
    ensures StripFences(s) == Trim(s)
  {
    var t := Trim(s);
    assert StripJsonOpening(t) == t;
    assert StripOpening(t) == t;
    assert t != [] ==> !IsTrimChar(t[|t| - 1]);
    assert !EndsWith(t, Fence + "\n");
    assert StripClosing(t) == t;
  }

  /** Stripping after removing the opening: `body + ws2 + Fence` gives back `body`. */
  lemma ClosingFenceRemoved(body: string, ws2: string)
    requires RecoverableBody(body) && AllSpace(ws2)
    ensures StripOpening(body + ws2 + Fence) == body + ws2 + Fence
    ensures Trim(StripClosing(body + ws2 + Fence)) == body
  {
    var t := body + ws2 + Fence;
    assert t[0] == body[0];
    assert !StartsWith(t, Fence);
    assert EndsWith(t, Fence);
    assert t[..|t| - 3] == body + ws2;
    RStripSkips(body, ws2, IsAsciiSpace);
  }

  /** Text between two fences has no white space at its ends, so trim() keeps all of it. */
  lemma FencedIsTrimmed(x: string)
    ensures Trim(Fence + x + Fence) == Fence + x + Fence
  {
    var s := Fence + x + Fence;
    assert s[0] == '`' && s[|s| - 1] == '`';
  }

  /** A fence, white space, then text that does not start with white space: the opening is removed. */
  lemma OpeningFenceRemoved(ws1: string, rest: string)
    requires AllSpace(ws1) && |rest| > 0 && !IsAsciiSpace(rest[0])
    ensures StripOpening(Fence + ws1 + rest) == rest
  {
    var s := Fence + ws1 + rest;
    assert s[..3] == Fence;
    assert s[3..] == ws1 + rest;
    LStripSkips(ws1, rest, IsAsciiSpace);
  }

  /** A bare fence followed by white space or by a letter other than j is not a ```json opening. */
  lemma PlainOpeningNotJson(ws1: string, rest: string)
    requires AllSpace(ws1) && |rest| > 0
    requires |ws1| > 0 || LowerAscii(rest[0]) != 'j'
    ensures StripJsonOpening(Fence + ws1 + rest) == Fence + ws1 + rest
  {
    var s := Fence + ws1 + rest;
    var c := if |ws1| > 0 then ws1[0] else rest[0];
    assert s[3] == c;
    assert LowerAscii(c) != 'j' by {
      if |ws1| > 0 {
        assert IsAsciiSpace(ws1[0]);
      }
    }
    if |s| >= 7 {
      assert s[3..7][0] == c;
    }
  }

  /** A ```json opening (any case) and the white space after it are removed. */
  lemma JsonOpeningRemoved(tag: string, ws1: string, rest: string)
    requires IsJsonTag(tag) && AllSpace(ws1) && |rest| > 0 && !IsAsciiSpace(rest[0])
    ensures StripJsonOpening(Fence + tag + ws1 + rest) == rest
  {
    var s := Fence + tag + ws1 + rest;
    assert s[..3] == Fence && s[3..7] == tag;
    assert s[7..] == ws1 + rest;
    LStripSkips(ws1, rest, IsAsciiSpace);
  }

  /** A ```json fence (any case) is removed and the payload comes back exactly. */
  lemma JsonFenceRoundTrip(tag: string, ws1: string, body: string, ws2: string)
    requires IsJsonTag(tag) && AllSpace(ws1) && AllSpace(ws2) && RecoverableBody(body)
    ensures StripFences(Fence + tag + ws1 + body + ws2 + Fence) == body
  {
    var rest := body + ws2 + Fence;
    var s := Fence + tag + ws1 + rest;
    assert Fence + tag + ws1 + body + ws2 + Fence == s == Fence + (tag + ws1 + body + ws2) + Fence;
    FencedIsTrimmed(tag + ws1 + body + ws2);
    assert rest[0] == body[0];
    JsonOpeningRemoved(tag, ws1, rest);
    ClosingFenceRemoved(body, ws2);
  }

  /** A bare ``` fence is removed and the payload comes back exactly. */
  lemma PlainFenceRoundTrip(ws1: string, body: string, ws2: string)
    requires AllSpace(ws1) && AllSpace(ws2) && RecoverableBody(body)
    requires |ws1| > 0 || LowerAscii(body[0]) != 'j'
    ensures StripFences(Fence + ws1 + body + ws2 + Fence) == body
  {
    var rest := body + ws2 + Fence;
    var s := Fence + ws1 + rest;
    assert Fence + ws1 + body + ws2 + Fence == s == Fence + (ws1 + body + ws2) + Fence;
    FencedIsTrimmed(ws1 + body + ws2);
    assert rest[0] == body[0];
    PlainOpeningNotJson(ws1, rest);
    OpeningFenceRemoved(ws1, rest);
    ClosingFenceRemoved(body, ws2);
  }

  // ---------------------------------------------------------------------
  // Interpreting Gemini's response
  // ---------------------------------------------------------------------

  /** The literal array callGeminiJson returns on a non-2xx response. */
  function FallbackMapping(feedback: string): PhpArray {
    map["score" := Int(0), "feedback" := Str(feedback), "summary" := Str(""),
        "skills" := Str(""), "experience" := Str(""), "education" := Str("")]
  }

  function Fallback(status: int): PhpArray {
    FallbackMapping(if status == 429 then QuotaMessage else GeminiErrorMessage)
  }

  /** `is_array($decoded)`, else RuntimeException. */
  function DecodedArray(decoded: Option<Value>): (r: Result<PhpArray>)
    ensures r.Ok? <==> decoded.Some? && decoded.value.Arr?
    ensures r.Ok? ==> decoded == Some(Arr(r.value))
    ensures r.Err? ==> r.error == InvalidJson
  {
    match decoded
    case Some(Arr(entries)) => Ok(entries)
    case _ => Err(InvalidJson)
  }

  /** What callGeminiJson returns for `res`, json_decode being `decode`. */
  function GeminiResult(res: HttpResponse, decode: string -> Option<Value>): Result<PhpArray> {
    if !Successful(res.status) then Ok(Fallback(res.status))
    else
      var text :- StringCast(res.text);
      DecodedArray(decode(StripFences(text)))
  }

  /** A failed request never throws: score 0, empty extraction fields, and a feedback that tells a 429 apart. */
  lemma FailedRequestFallsBack(res: HttpResponse, decode: string -> Option<Value>)
    requires !Successful(res.status)
    ensures var r := GeminiResult(res, decode);
      && r.Ok?
      && r.value.Keys == ExtractionKeys + {"score", "feedback"}
      && r.value["score"] == Int(0)
      && (forall k :: k in ExtractionKeys ==> r.value[k] == Str(""))
      && r.value["feedback"] == Str(if res.status == 429 then QuotaMessage else GeminiErrorMessage)
  {
  }

  /** A 2xx answer wrapped in a ```json fence decodes as its payload; only an array comes back. */
  lemma FencedAnswerIsDecoded(status: int, tag: string, ws1: string, body: string, ws2: string,
                              decode: string -> Option<Value>)
    requires Successful(status)
    requires IsJsonTag(tag) && AllSpace(ws1) && AllSpace(ws2) && RecoverableBody(body)
    ensures GeminiResult(HttpResponse(status, Str(Fence + tag + ws1 + body + ws2 + Fence)), decode)
            == DecodedArray(decode(body))
  {
    var answer := Fence + tag + ws1 + body + ws2 + Fence;
    assert StringCast(Str(answer)) == Ok(answer);
    JsonFenceRoundTrip(tag, ws1, body, ws2);
    assert StripFences(answer) == body;
  }

  // ---------------------------------------------------------------------
  // Post-processing the decoded arrays
  // ---------------------------------------------------------------------

  /** `(string) ($data[$k] ?? '')` does not throw: the entry is unset, null or not an array. */
  predicate Castable(data: PhpArray, k: string) {
    !(Present(data, k) && data[k].Arr?)
  }

  /** What `(string) ($data[$k] ?? '')` gives when it does not throw. */
  function FieldText(data: PhpArray, k: string): string
    requires Castable(data, k)
  {
    if Present(data, k) then AsString(data[k]) else ""
  }

  /**
   * The array extractResumeInformation builds from Gemini's answer. Each
   * field is the string cast of its entry, or ''; an entry that is an
   * array makes the cast throw.
   */
  function ExtractionResult(data: PhpArray): (r: Result<ExtractedInfo>)
    ensures r.Ok? <==>
      Castable(data, "summary") && Castable(data, "skills") && Castable(data, "experience") && Castable(data, "education")
    ensures r.Err? ==> r.error == ArrayToString
    ensures r.Ok? ==> r.value == ExtractedInfo(FieldText(data, "summary"), FieldText(data, "skills"),
                                               FieldText(data, "experience"), FieldText(data, "education"))
  {
    var summary :- StringCast(Coalesce(data, "summary", Str("")));
    var skills :- StringCast(Coalesce(data, "skills", Str("")));
    var experience :- StringCast(Coalesce(data, "experience", Str("")));
    var education :- StringCast(Coalesce(data, "education", Str("")));
    Ok(ExtractedInfo(summary, skills, experience, education))
  }

  /** The score analyzeResume derives from Gemini's answer: the int cast of `score`, clamped to [0, 100]. */
  function Score(data: PhpArray): (score: int)
    ensures 0 <= score <= 100
    ensures !Present(data, "score") ==> score == 0
    ensures Present(data, "score") && ToInt(data["score"]) < 0 ==> score == 0
    ensures Present(data, "score") && ToInt(data["score"]) > 100 ==> score == 100
    ensures Present(data, "score") && 0 <= ToInt(data["score"]) <= 100 ==> score == ToInt(data["score"])
  {
    var raw := ToInt(Coalesce(data, "score", Int(0)));
    if raw < 0 then 0 else if raw > 100 then 100 else raw
  }

  /** The score and feedback analyzeResume returns; a `feedback` that is an array makes the cast throw. */
  function EvaluationOf(data: PhpArray): (r: Result<Evaluation>)
    ensures r.Ok? <==> Castable(data, "feedback")
    ensures r.Err? ==> r.error == ArrayToString
    ensures r.Ok? ==> r.value == Evaluation(Score(data), FieldText(data, "feedback"))
    ensures r.Ok? ==> 0 <= r.value.aiGeneratedScore <= 100
  {
    var feedback :- StringCast(Coalesce(data, "feedback", Str("")));
    Ok(Evaluation(Score(data), feedback))
  }

  /** Both callers tolerate the mixed fallback array: extraction gets four empty fields. */
  lemma FallbackExtractsNothing(status: int)
    ensures ExtractionResult(Fallback(status)) == Ok(ExtractedInfo("", "", "", ""))
  {
  }

  /** Both callers tolerate the mixed fallback array: scoring gets 0 and the failure message. */
  lemma FallbackScoresZero(status: int)
    ensures EvaluationOf(Fallback(status)) ==
      Ok(Evaluation(0, if status == 429 then QuotaMessage else GeminiErrorMessage))
  {
  }

  /** An answer listing the skills as a JSON array makes extractResumeInformation throw, whatever the other fields hold. */
  lemma ListedSkillsThrow(data: PhpArray)
    requires "skills" in data && data["skills"].Arr?
    ensures ExtractionResult(data) == Err(ArrayToString)
  {
    assert !Castable(data, "skills");
  }

  // ---------------------------------------------------------------------
  // Prompts
  // ---------------------------------------------------------------------

  /**
   * The fixed part of extractResumeInformation's prompt; the resume text
   * follows it. The service holds it in a field of its own, which the
   * constructor sets to this text.
   */
  const ExtractionInstructions: string :=
    "Return ONLY valid JSON (no markdown, no explanation).\nExtract these fields from the resume text:\n{\n"
    + "  \"summary\": \"string\",\n  \"skills\": \"string\",\n  \"experience\": \"string\",\n"
    + "  \"education\": \"string\"\n}\n\nResume text:\n"

  /** The fixed opening of analyzeResume's prompt; the job and resume fields follow it (held like the one above). */
  const ScoringInstructions: string :=
    "Return ONLY valid JSON (no markdown, no explanation).\nYou are evaluating resume fit for a job.\n\n"
    + "Output format:\n{\n  \"score\": 0-100,\n"
    + "  \"feedback\": \"short helpful feedback (missing skills, strengths, suggestions)\"\n}\n\n"

  function ScoringPromptText(instructions: string, jobTitle: string, jobDesc: string, jobReq: string, resumeSummary: string,
                             resumeSkills: string, resumeExp: string, resumeEdu: string): string
  {
    instructions
    + "Job Title: " + jobTitle + "\nJob Description: " + jobDesc + "\nJob Requirements: " + jobReq
    + "\n\nResume Summary: " + resumeSummary + "\nResume Skills: " + resumeSkills
    + "\nResume Experience: " + resumeExp + "\nResume Education: " + resumeEdu
  }


  // ---------------------------------------------------------------------
  // The pdftotext command
  // ---------------------------------------------------------------------

  /** The configuration the service reads in its constructor, after defaults (and the OS). */
  datatype Settings = Settings(
    tmpDir: string,            // storage_path('app/tmp')
    composeDir: string,        // services.pdf.compose_dir, else base_path()
    dockerComposeBin: string,  // services.docker_compose.bin, else 'docker-compose'
    windows: bool)             // DIRECTORY_SEPARATOR is '\'

  predicate IsAlphaNumeric(c: char) {
    ('a' <= c <= 'z') || ('A' <= c <= 'Z') || ('0' <= c <= '9')
  }

  /** What Str::random(10) returns. */
  predicate RandomToken(t: string) {
    |t| == 10 && forall i :: 0 <= i < |t| ==> IsAlphaNumeric(t[i])
  }

  function ScratchName(token: string): string {
    "resume_" + token + ".pdf"
  }

  /** The local scratch copy of the PDF. */
  function ScratchPath(settings: Settings, token: string): string {
    settings.tmpDir + [DirectorySeparator(settings.windows)] + ScratchName(token)
  }

  /** The docker-compose run that prints the text of the scratch PDF. */
  function PdfInvocation(settings: Settings, token: string): Invocation {
    var localPath := ScratchPath(settings, token);
    var dir := ForwardSlashes(Dirname(localPath, settings.windows));
    var file := Basename(localPath, settings.windows);
    Invocation([ForwardSlashes(settings.dockerComposeBin), "-f", "docker-compose.yml", "run", "--rm",
                "-v", dir + ":/data", "pdf", "sh", "-lc", "pdftotext -layout -nopgbrk /data/" + file + " -"],
               settings.composeDir)
  }

  /**
   * The command mounts the scratch directory, written with forward
   * slashes, on /data and runs pdftotext on the scratch file's name there.
   */
  lemma PdfCommandShape(settings: Settings, token: string)
    requires RandomToken(token)
    requires |settings.tmpDir| > 0 && !IsSeparator(settings.tmpDir[|settings.tmpDir| - 1], settings.windows)
    ensures var argv := PdfInvocation(settings, token).argv;
      && |argv| == 11
      && argv[6] == ForwardSlashes(settings.tmpDir) + ":/data"
      && (forall i :: 0 <= i < |argv[6]| ==> argv[6][i] != '\\')
      && (forall i :: 0 <= i < |argv[0]| ==> argv[0][i] != '\\')
      && argv[10] == "pdftotext -layout -nopgbrk /data/" + ScratchName(token) + " -"
  {
    ScratchPathSplits(settings, token);
    ForwardSlashesReplaces(settings.dockerComposeBin);
    ForwardSlashesReplaces(settings.tmpDir);
    var mount := ForwardSlashes(settings.tmpDir) + ":/data";
    forall i | 0 <= i < |mount|
      ensures mount[i] != '\\'
    {
      if i >= |settings.tmpDir| {
        assert mount[i] == ":/data"[i - |settings.tmpDir|];
      }
    }
  }

  /** The scratch path splits back into the scratch directory and the scratch file's name. */
  lemma ScratchPathSplits(settings: Settings, token: string)
    requires RandomToken(token)
    requires |settings.tmpDir| > 0 && !IsSeparator(settings.tmpDir[|settings.tmpDir| - 1], settings.windows)
    ensures Dirname(ScratchPath(settings, token), settings.windows) == settings.tmpDir
    ensures Basename(ScratchPath(settings, token), settings.windows) == ScratchName(token)
  {
    ScratchNameHasNoSeparator(token, settings.windows);
    DirnameBasenameOfJoin(settings.tmpDir, ScratchName(token), settings.windows);
  }

  lemma ScratchNameHasNoSeparator(token: string, windows: bool)
    requires RandomToken(token)
    ensures |ScratchName(token)| > 0
    ensures forall i :: 0 <= i < |ScratchName(token)| ==> !IsSeparator(ScratchName(token)[i], windows)
  {
    var name := ScratchName(token);
    forall i | 0 <= i < |name|
      ensures !IsSeparator(name[i], windows)
    {
      if 7 <= i < 17 {
        assert name[i] == token[i - 7];
      }
    }
  }

  /** The bytes stored at `path`, if any. */
  function Lookup(objects: map<string, Bytes>, path: string): Option<Bytes> {
    if path in objects then Some(objects[path]) else None
  }

  /** extractTextFromPdf's answer once the process has run. */
  function TextFromProcess(outcome: ProcessOutcome): (r: Result<string>)
    ensures r.Err? <==> outcome.Aborted?
    ensures r.Ok? ==> r.value == if outcome.successful then outcome.stdout else ""
  {
    match outcome
    case Aborted => Err(ProcessFailed)
    case Finished(successful, stdout) => Ok(if successful then stdout else "")
  }

  /** extractResumeInformation after callGeminiJson: an exception propagates, an array is post-processed. */
  function InfoFrom(answer: Result<PhpArray>): (r: Result<ExtractedInfo>)
    ensures answer.Err? ==> r == Err(answer.error)
    ensures answer.Ok? ==> r == ExtractionResult(answer.value)
    ensures r.Ok? ==> answer.Ok?
  {
    match answer
    case Err(e) => Err(e)
    case Ok(data) => ExtractionResult(data)
  }

  /** analyzeResume after callGeminiJson: an exception propagates, an array is scored. */
  function EvaluationFrom(answer: Result<PhpArray>): (r: Result<Evaluation>)
    ensures answer.Err? ==> r == Err(answer.error)
    ensures answer.Ok? ==> r == EvaluationOf(answer.value)
    ensures r.Ok? ==> 0 <= r.value.aiGeneratedScore <= 100
  {
    match answer
    case Err(e) => Err(e)
    case Ok(data) => EvaluationOf(data)
  }

  class ResumeAnalysisService {
    const cloud: CloudDisk
    const local: LocalDisk
    const runner: ProcessRunner
    const gemini: GeminiClient
    const decode: string -> Option<Value>
    const settings: Settings
    const extractionInstructions: string
    const scoringInstructions: string

    constructor (cloud: CloudDisk, local: LocalDisk, runner: ProcessRunner, gemini: GeminiClient,
                 decode: string -> Option<Value>, settings: Settings)
      ensures this.cloud == cloud && this.local == local && this.runner == runner && this.gemini == gemini
      ensures this.decode == decode && this.settings == settings
      ensures extractionInstructions == ExtractionInstructions && scoringInstructions == ScoringInstructions
    {
      extractionInstructions := ExtractionInstructions;
      scoringInstructions := ScoringInstructions;
      this.cloud := cloud;
      this.local := local;
      this.runner := runner;
      this.gemini := gemini;
      this.decode := decode;
      this.settings := settings;
    }

    /** The pdftotext run on `pdf`: the local disk holds `files` and the scratch copy of `pdf`. */
    function PdfRun(files: map<string, Bytes>, pdf: Bytes, token: string): ProcessRun {
      ProcessRun(PdfInvocation(settings, token), files[ScratchPath(settings, token) := pdf])
    }

    /** The pdftotext run reads the PDF at the scratch path, and every other local file as it was. */
    lemma PdfRunReadsThePdf(files: map<string, Bytes>, pdf: Bytes, token: string)
      ensures var run := PdfRun(files, pdf, token);
        && run.invocation == PdfInvocation(settings, token)
        && ScratchPath(settings, token) in run.files && run.files[ScratchPath(settings, token)] == pdf
        && forall p :: p in files && p != ScratchPath(settings, token) ==> p in run.files && run.files[p] == files[p]
    {
    }

    /**
     * What extractTextFromPdf returns for the cloud object `pdf`: '' when
     * there is none, else what the pdftotext run on it gives, `before`
     * being the runs so far and `files` the local disk.
     */
    function PdfText(pdf: Option<Bytes>, files: map<string, Bytes>, before: seq<ProcessRun>, token: string): (r: Result<string>)
      ensures pdf.None? ==> r == Ok("")
    {
      if pdf.None? then Ok("") else TextFromProcess(runner.behaviour(before + [PdfRun(files, pdf.value, token)]))
    }

    /** The prompt extractResumeInformation sends for the resume text `text`. */
    function ExtractionPrompt(text: string): string {
      extractionInstructions + text
    }

    /** The prompt analyzeResume sends; missing job columns and resume fields read as ''. */
    function ScoringPrompt(job: JobVacancy, info: ExtractedInfo): string {
      ScoringPromptText(scoringInstructions, job.title.GetOr(""), job.description.GetOr(""),
                        job.requirements.GetOr(""), info.summary, info.skills, info.experience, info.education)
    }

    /** What callGeminiJson returns for the request whose prompt is the last of `posted`. */
    function Answer(posted: seq<string>): Result<PhpArray> {
      GeminiResult(gemini.reply(posted), decode)
    }

    /** What extractResumeInformation returns for the text `text`, `before` having been posted already. */
    function ExtractionOutcome(text: Result<string>, before: seq<string>): (r: Result<ExtractedInfo>)
      ensures text.Err? ==> r == Err(text.error)
      ensures text.Ok? && Blank(text.value) ==> r == Ok(CouldNotExtract)
    {
      match text
      case Err(e) => Err(e)
      case Ok(t) => if Blank(t) then Ok(CouldNotExtract) else InfoFrom(Answer(before + [ExtractionPrompt(t)]))
    }

    /** The Gemini prompts extractResumeInformation sends for the text `text`. */
    function ExtractionPrompts(text: Result<string>): seq<string> {
      if text.Ok? && !Blank(text.value) then [ExtractionPrompt(text.value)] else []
    }

    /** What analyzeResume returns when its prompt is the last of `posted`. */
    function AnalysisOutcome(posted: seq<string>): Result<Evaluation> {
      EvaluationFrom(Answer(posted))
    }

    /** PDF on the cloud disk -> text, through a scratch copy on the local disk that is always removed. */
    method ExtractTextFromPdf(cloudPath: string, token: string) returns (text: Result<string>)
      requires RandomToken(token)
      modifies local, runner
      ensures text == PdfText(Lookup(cloud.objects, cloudPath), old(local.files), old(runner.log), token)
      ensures cloudPath !in cloud.objects ==> local.files == old(local.files) && runner.log == old(runner.log)
      ensures cloudPath in cloud.objects ==>
        && local.files == old(local.files) - {ScratchPath(settings, token)}
        && runner.log == old(runner.log) + [PdfRun(old(local.files), cloud.objects[cloudPath], token)]
    {
      var found := cloud.Exists(cloudPath);
      if !found {
        return Ok("");
      }
      var pdfBytes := cloud.Get(cloudPath);
      var tmpName := "resume_" + token + ".pdf";
      var localPath := settings.tmpDir + [DirectorySeparator(settings.windows)] + tmpName;

      // try
      local.Write(localPath, pdfBytes);
      var dir := ForwardSlashes(Dirname(localPath, settings.windows));
      var file := Basename(localPath, settings.windows);
      var dockerCompose := ForwardSlashes(settings.dockerComposeBin);
      var cmd := [dockerCompose, "-f", "docker-compose.yml", "run", "--rm", "-v", dir + ":/data",
                  "pdf", "sh", "-lc", "pdftotext -layout -nopgbrk /data/" + file + " -"];
      var outcome := runner.Run(Invocation(cmd, settings.composeDir), local.files);
      match outcome {
        case Aborted =>
          text := Err(ProcessFailed);
        case Finished(successful, stdout) =>
          if !successful {
            text := Ok("");
          } else {
            text := Ok(stdout);
          }
      }

      // finally
      var leftover := local.Exists(localPath);
      if leftover {
        local.Unlink(localPath);
      }
    }

    /** Sends `prompt` to Gemini and returns the decoded JSON array, or a fallback array on a non-2xx status. */
    method CallGeminiJson(prompt: string) returns (r: Result<PhpArray>)
      modifies gemini
      ensures gemini.prompts == old(gemini.prompts) + [prompt]
      ensures r == Answer(gemini.prompts)
    {
      var res := gemini.Post(prompt);
      if !Successful(res.status) {
        if res.status == 429 {
          return Ok(FallbackMapping(QuotaMessage));
        }
        return Ok(FallbackMapping(GeminiErrorMessage));
      }
      var text :- StringCast(res.text);
      text := Trim(text);
      text := StripJsonOpening(text);
      text := StripOpening(text);
      text := StripClosing(text);
      text := Trim(text);
      var decoded := decode(text);
      if !(decoded.Some? && decoded.value.Arr?) {
        return Err(InvalidJson);
      }
      return Ok(decoded.value.entries);
    }

    /** Resume PDF on the cloud disk -> its summary, skills, experience and education. */
    method ExtractResumeInformation(cloudPath: string, token: string) returns (r: Result<ExtractedInfo>)
      requires RandomToken(token)
      modifies local, runner, gemini
      ensures var text := PdfText(Lookup(cloud.objects, cloudPath), old(local.files), old(runner.log), token);
        && r == ExtractionOutcome(text, old(gemini.prompts))
        && gemini.prompts == old(gemini.prompts) + ExtractionPrompts(text)
      ensures cloudPath !in cloud.objects ==> local.files == old(local.files) && runner.log == old(runner.log)
      ensures cloudPath in cloud.objects ==>
        && local.files == old(local.files) - {ScratchPath(settings, token)}
        && runner.log == old(runner.log) + [PdfRun(old(local.files), cloud.objects[cloudPath], token)]
    {
      var text := ExtractTextFromPdf(cloudPath, token);
      if text.Err? {
        return Err(text.error);
      }
      var t := text.value;
      if Blank(t) {
        return Ok(CouldNotExtract);
      }
      var prompt := ExtractionPrompt(t);
      var data := CallGeminiJson(prompt);
      r := InfoFrom(data);
    }

    /** Job vacancy + extracted resume fields -> a score in [0, 100] and feedback. */
    method AnalyzeResume(job: JobVacancy, info: ExtractedInfo) returns (r: Result<Evaluation>)
      modifies gemini
      ensures gemini.prompts == old(gemini.prompts) + [ScoringPrompt(job, info)]
      ensures r == AnalysisOutcome(gemini.prompts)
      ensures r.Ok? ==> 0 <= r.value.aiGeneratedScore <= 100
    {
      var jobTitle := job.title.GetOr("");
      var jobDesc := job.description.GetOr("");
      var jobReq := job.requirements.GetOr("");
      var resumeSummary := info.summary;
      var resumeSkills := info.skills;
      var resumeExp := info.experience;
      var resumeEdu := info.education;
      var prompt := ScoringPromptText(scoringInstructions, jobTitle, jobDesc, jobReq, resumeSummary, resumeSkills, resumeExp, resumeEdu);

      var data :- CallGeminiJson(prompt);

      var score := ToInt(Coalesce(data, "score", Int(0)));
      if score < 0 {
        score := 0;
      }
      if score > 100 {
        score := 100;
      }
      var feedback :- StringCast(Coalesce(data, "feedback", Str("")));
      return Ok(Evaluation(score, feedback));
    }
  }
}
