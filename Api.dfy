/** The HTTP endpoints' bookkeeping: a process-wide map from candidate id to
    the pipeline of an evaluation in progress. Start validates its inputs and
    inserts; a successful submit deletes; cancel deletes; status and health
    only read. The stage calls the endpoints make are function parameters. */
module Api {
  import opened Wrappers
  import opened Text
  import Pipeline
  import McqScorer

  const GithubPrefix: string := "https://github.com/"
  const PdfSuffix: string := ".pdf"
  /** A resume smaller than this many bytes is rejected as empty or corrupted. */
  const MinResumeBytes := 1000

  const InvalidRepoLink: string := "Invalid GitHub repository URL"
  const ResumeNotPdf: string := "Resume must be a PDF file"
  const ResumeTooSmall: string := "Resume file appears to be empty or corrupted"
  const NoVideos: string := "No interview videos provided"
  const InvalidMcqAnswers: string := "Invalid MCQ answers format. Expected JSON array like [\"A\", \"B\", \"C\"]"
  const SessionNotFound: string := "Session not found. Please restart the evaluation from /evaluate/start"
  const StartErrorPrefix: string := "Evaluation start error: "
  const SubmitErrorPrefix: string := "Response processing error: "

  /** An HTTP error response: status code and detail text. */
  datatype HttpError = HttpError(statusCode: int, detail: string)

  /** An exception reaching an endpoint's handlers, by class. */
  datatype Raised =
    | ValueErrorRaised(message: string)
    | RuntimeErrorRaised(message: string)
    | HttpExceptionRaised(statusCode: nat, detail: string)
    | OtherRaised(message: string)

  /** What stage 1 reports back to the start endpoint. */
  datatype InitialEvaluation = InitialEvaluation(
    codeQualityScore: int, codeDescription: string,
    interviewQuestions: seq<string>, mcqQuestions: seq<McqScorer.McqQuestion>,
    resumeFitScore: int, codeFitScore: int)

  datatype StartReply = StartReply(candidateId: string, jdId: string, evaluation: InitialEvaluation)

  /** What the response-processing call reports back to the submit endpoint. */
  datatype FinalReport = FinalReport(
    overallScore: int, recommendation: string, scores: map<string, int>,
    summary: string, strengths: seq<string>, weaknesses: seq<string>)

  datatype StatusReply = InProgress(candidateId: string, jdId: string) | NotFound
  datatype CancelReply = Cancelled | NothingToCancel
  datatype HealthReply = Healthy(activeEvaluations: nat)

  /** Stage 1 as the start endpoint calls it, with the repository link and the resume bytes. */
  type Stage1Runner = (string, seq<byte>) -> Result<InitialEvaluation, Raised>
  /** Response processing as the submit endpoint calls it on the stored pipeline,
      with the videos and the decoded answers. */
  type Stage3Runner = (Pipeline.CandidateEvaluationPipeline, seq<seq<byte>>, seq<string>) -> Result<FinalReport, Raised>
  /** What JSON decoding of the answers field yields: a decoding error, a
      value without a length (a number, a boolean or `null`, named by its
      Python type), or a list of answers. */
  datatype DecodedAnswers = Undecodable | NoLength(typeName: string) | AnswerList(answers: seq<string>)

  /** JSON decoding of the answers field. */
  type AnswerDecoder = string -> DecodedAnswers

  /** The `TypeError` text of `len()` on a value of the named type. */
  function NoLenMessage(typeName: string): string {
    "object of type '" + typeName + "' has no len()"
  }

  /** The start endpoint's input checks, in the order it makes them: the
      message of the first that fails, or `None`. */
  function StartInputError(repoLink: string, resumeFilename: string, resumeBytes: seq<byte>): (err: Option<string>)
    ensures err.None? <==>
      StartsWith(repoLink, GithubPrefix) && EndsWith(resumeFilename, PdfSuffix) && |resumeBytes| >= MinResumeBytes
    ensures err.Some? ==> err.value in {InvalidRepoLink, ResumeNotPdf, ResumeTooSmall}
    ensures !StartsWith(repoLink, GithubPrefix) ==> err == Some(InvalidRepoLink)
    ensures StartsWith(repoLink, GithubPrefix) && !EndsWith(resumeFilename, PdfSuffix) ==>
      err == Some(ResumeNotPdf)
    ensures (StartsWith(repoLink, GithubPrefix) && EndsWith(resumeFilename, PdfSuffix)
             && |resumeBytes| < MinResumeBytes) ==> err == Some(ResumeTooSmall)
  {
    if !StartsWith(repoLink, GithubPrefix) then Some(InvalidRepoLink)
    else if !EndsWith(resumeFilename, PdfSuffix) then Some(ResumeNotPdf)
    else if |resumeBytes| < MinResumeBytes then Some(ResumeTooSmall)
    else None
  }

  /** The number a string of decimal digits denotes, most significant first. */
  function DigitsValue(s: string): int {
    if |s| == 0 then 0
    else DigitsValue(s[..|s| - 1]) * 10 + (s[|s| - 1] as int - '0' as int)
  }

  /** Decimal digits of `n`, as Python's `str` writes a non-negative int:
      digits only, denoting `n`, with a leading zero only for 0 itself. */
  function Decimal(n: nat): (s: string)
    ensures |s| >= 1
    ensures forall i :: 0 <= i < |s| ==> '0' <= s[i] <= '9'
    ensures DigitsValue(s) == n
    ensures s[0] == '0' <==> n == 0
    ensures n == 0 ==> s == "0"
  {
    var digit := ['0' + (n % 10) as char];
    if n < 10 then digit
    else
      var prefix := Decimal(n / 10);
      assert (prefix + digit)[..|prefix|] == prefix;
      prefix + digit
  }

  /** `str(e)` of a raised exception; an `HTTPException` reads "<code>: <detail>". */
  function ExceptionText(e: Raised): string {
    match e
    case ValueErrorRaised(m) => m
    case RuntimeErrorRaised(m) => m
    case HttpExceptionRaised(code, detail) => Decimal(code) + ": " + detail
    case OtherRaised(m) => m
  }

  /** The start endpoint's handlers: `ValueError` is 400, `RuntimeError` 503,
      anything else 500. */
  function StartError(e: Raised): (err: HttpError)
    ensures err.statusCode in {400, 503, 500}
    ensures err.statusCode == 400 <==> e.ValueErrorRaised?
    ensures err.statusCode == 503 <==> e.RuntimeErrorRaised?
    ensures (e.ValueErrorRaised? || e.RuntimeErrorRaised?) ==> err.detail == ExceptionText(e)
    ensures err.statusCode == 500 ==> err.detail == StartErrorPrefix + ExceptionText(e)
  {
    match e
    case ValueErrorRaised(m) => HttpError(400, m)
    case RuntimeErrorRaised(m) => HttpError(503, m)
    case _ => HttpError(500, StartErrorPrefix + ExceptionText(e))
  }

  /** The submit endpoint's handlers as written: `ValueError` is 400, and every
      other exception, the endpoint's own `HTTPException` included, becomes a
      500. */
  function SubmitErrorAsWritten(e: Raised): (err: HttpError)
    ensures err.statusCode in {400, 500}
    ensures err.statusCode == 400 <==> e.ValueErrorRaised?
    ensures err.statusCode == 400 ==> err.detail == ExceptionText(e)
    ensures err.statusCode == 500 ==> err.detail == SubmitErrorPrefix + ExceptionText(e)
  {
    match e
    case ValueErrorRaised(m) => HttpError(400, m)
    case _ => HttpError(500, SubmitErrorPrefix + ExceptionText(e))
  }

  /** As written, an unknown candidate id is answered with 500, not 404. */
  lemma UnknownSessionIs500AsWritten()
    ensures SubmitErrorAsWritten(HttpExceptionRaised(404, SessionNotFound))
      == HttpError(500, SubmitErrorPrefix + "404: " + SessionNotFound)
  {
    assert Decimal(404) == "404";
  }

  /** The submit endpoint's handlers with an `HTTPException` passed through, as
      the 404 for an unknown session evidently intends. */
  function SubmitError(e: Raised): (err: HttpError)
    ensures e.HttpExceptionRaised? ==> err == HttpError(e.statusCode, e.detail)
    ensures !e.HttpExceptionRaised? ==> err == SubmitErrorAsWritten(e)
  {
    match e
    case HttpExceptionRaised(code, detail) => HttpError(code, detail)
    case _ => SubmitErrorAsWritten(e)
  }

  /** With the pass-through, an unknown candidate id is answered with 404. */
  lemma UnknownSessionIs404()
    ensures SubmitError(HttpExceptionRaised(404, SessionNotFound)) == HttpError(404, SessionNotFound)
  {
  }

  /** The in-memory session storage. */
  class SessionStore {
    var sessions: map<string, Pipeline.CandidateEvaluationPipeline>

    /** The storage is empty when the process starts. */
    constructor ()
      ensures sessions == map[]
    {
      sessions := map[];
    }

    /** `start_evaluation`: rejects bad input with 400 before anything is
        stored; otherwise builds a pipeline, runs stage 1 and, only if that
        succeeds, stores the pipeline under `candidateId`, replacing any
        earlier entry and leaving every other entry as it was. */
    method StartEvaluation(
      repoLink: string, jobDescription: string, idealCandidateProfile: string, taskDescription: string,
      candidateId: string, jdId: string, resumeFilename: string, resumeBytes: seq<byte>,
      createdAt: string, runStage1: Stage1Runner)
      returns (r: Result<StartReply, HttpError>)
      modifies this
      ensures StartInputError(repoLink, resumeFilename, resumeBytes).Some? ==>
        r == Failure(HttpError(400, StartInputError(repoLink, resumeFilename, resumeBytes).value))
        && sessions == old(sessions)
      ensures StartInputError(repoLink, resumeFilename, resumeBytes).None? ==>
        match runStage1(repoLink, resumeBytes)
        case Failure(e) => r == Failure(StartError(e)) && sessions == old(sessions)
        case Success(ev) =>
          && r == Success(StartReply(candidateId, jdId, ev))
          && candidateId in sessions && sessions == old(sessions)[candidateId := sessions[candidateId]]
          && fresh(sessions[candidateId])
          && sessions[candidateId].jdText == jobDescription
          && sessions[candidateId].idealCandidateProfile == idealCandidateProfile
          && sessions[candidateId].taskDescription == taskDescription
          && sessions[candidateId].candidateId == candidateId
          && sessions[candidateId].jdId == jdId
    {
      var inputError := StartInputError(repoLink, resumeFilename, resumeBytes);
      if inputError.Some? {
        return Failure(HttpError(400, inputError.value));
      }
      var pipeline := new Pipeline.CandidateEvaluationPipeline(
        jobDescription, idealCandidateProfile, taskDescription, candidateId, jdId, createdAt);
      match runStage1(repoLink, resumeBytes)
      case Failure(e) =>
        r := Failure(StartError(e));
      case Success(ev) =>
        sessions := sessions[candidateId := pipeline];
        r := Success(StartReply(candidateId, jdId, ev));
    }

    /** `submit_interview_responses`: an unknown id fails (404 with the
        handler corrected), no videos or undecodable answers fail with 400,
        answers with no length fail with 500 when they are counted for the
        log line, and the session is kept in all of these; small videos are not
        rejected. The session is deleted only after response processing
        succeeds. */
    method SubmitInterviewResponses(
      candidateId: string, interviewVideos: seq<seq<byte>>, mcqAnswers: string,
      decodeAnswers: AnswerDecoder, runStage3: Stage3Runner)
      returns (r: Result<FinalReport, HttpError>)
      modifies this
      ensures candidateId !in old(sessions) ==>
        r == Failure(SubmitError(HttpExceptionRaised(404, SessionNotFound))) && sessions == old(sessions)
      ensures candidateId in old(sessions) && |interviewVideos| == 0 ==>
        r == Failure(HttpError(400, NoVideos)) && sessions == old(sessions)
      ensures candidateId in old(sessions) && |interviewVideos| > 0 && decodeAnswers(mcqAnswers).Undecodable? ==>
        r == Failure(HttpError(400, InvalidMcqAnswers)) && sessions == old(sessions)
      ensures candidateId in old(sessions) && |interviewVideos| > 0 && decodeAnswers(mcqAnswers).NoLength? ==>
        r == Failure(HttpError(500, SubmitErrorPrefix + NoLenMessage(decodeAnswers(mcqAnswers).typeName)))
        && sessions == old(sessions)
      ensures candidateId in old(sessions) && |interviewVideos| > 0 && decodeAnswers(mcqAnswers).AnswerList? ==>
        match runStage3(old(sessions)[candidateId], interviewVideos, decodeAnswers(mcqAnswers).answers)
        case Success(report) => r == Success(report) && sessions == old(sessions) - {candidateId}
        case Failure(e) => r == Failure(SubmitError(e)) && sessions == old(sessions)
    {
      if candidateId !in sessions {
        return Failure(SubmitError(HttpExceptionRaised(404, SessionNotFound)));
      }
      var pipeline := sessions[candidateId];
      if |interviewVideos| == 0 {
        return Failure(SubmitError(ValueErrorRaised(NoVideos)));
      }
      var answers := decodeAnswers(mcqAnswers);
      if answers.Undecodable? {
        return Failure(SubmitError(ValueErrorRaised(InvalidMcqAnswers)));
      }
      if answers.NoLength? {
        return Failure(SubmitError(OtherRaised(NoLenMessage(answers.typeName))));
      }
      match runStage3(pipeline, interviewVideos, answers.answers)
      case Failure(e) =>
        r := Failure(SubmitError(e));
      case Success(report) =>
        sessions := sessions - {candidateId};
        r := Success(report);
    }

    /** `get_evaluation_status`: in progress, with the stored job id, exactly
        when the id has a session. */
    method GetEvaluationStatus(candidateId: string) returns (r: StatusReply)
      ensures r.InProgress? <==> candidateId in sessions
      ensures r.InProgress? ==> r == InProgress(candidateId, sessions[candidateId].jdId)
    {
      if candidateId in sessions {
        var pipeline := sessions[candidateId];
        return InProgress(candidateId, pipeline.jdId);
      }
      return NotFound;
    }

    /** `cancel_evaluation`: removes the id's session if there is one; no other entry changes. */
    method CancelEvaluation(candidateId: string) returns (r: CancelReply)
      modifies this
      ensures sessions == old(sessions) - {candidateId}
      ensures r == Cancelled <==> candidateId in old(sessions)
    {
      if candidateId in sessions {
        sessions := sessions - {candidateId};
        return Cancelled;
      }
      return NothingToCancel;
    }

    /** `health_check`: the number of evaluations in progress. */
    method HealthCheck() returns (r: HealthReply)
      ensures r.activeEvaluations == |sessions|
    {
      return Healthy(|sessions|);
    }
  }
}
