/** The evaluation pipeline object: five text inputs fixed at construction,
    four result slots filled by the stage methods, guards that raise before
    any slot is written, read accessors with empty defaults, and a completion
    step that hands the final record to the index. The model-backed code
    evaluator, the vector scorer, the MCQ calculator, the final analyser and
    the indexer are function parameters whose results are stored verbatim;
    `Failure` stands for the exception they raise. */
module Pipeline {
  import opened Wrappers
  import McqScorer

  /** Stage 1: the code evaluator's reply. */
  datatype CodeEvaluation = CodeEvaluation(
    codeQualityScore: int, codeDescription: string,
    interviewQuestions: seq<string>, mcqQuestions: seq<McqScorer.McqQuestion>)

  /** Stage 2: the two similarity scores and the resume text they were computed from. */
  datatype FitScores = FitScores(resumeFitScore: int, codeFitScore: int, resumeText: string)

  /** What the MCQ calculator returns. */
  datatype McqResult = McqResult(mcqScore: int, correctCount: int, totalCount: int)

  /** Stage 3: the transcripts as given, and the MCQ calculator's result. */
  datatype ResponseAssessment = ResponseAssessment(interviewTranscripts: seq<string>, mcqResult: McqResult)

  /** Stage 4: the final analyser's reply. */
  datatype FinalAnalysis = FinalAnalysis(
    overallScore: int, summary: string,
    resumeFitScore: int, codeFitScore: int, codeQualityScore: int, videoInterviewScore: int, mcqScore: int,
    strengths: seq<string>, weaknesses: seq<string>, recommendation: string)

  /** The arguments of the final-analysis call. */
  datatype FinalAnalysisRequest = FinalAnalysisRequest(
    jdText: string, resumeText: string, codeSolution: string, taskDescription: string,
    resumeFitScore: int, codeFitScore: int, codeQualityScore: int, mcqScore: int,
    interviewQuestions: seq<string>, interviewTranscripts: seq<string>)

  /** The record handed to the index on completion: stage 4's fields plus identity and times. */
  datatype IndexRecord = IndexRecord(
    analysis: FinalAnalysis, candidateId: string, jdId: string, createdAt: string, completedAt: string)

  /** The snapshot returned by `get_full_evaluation`. */
  datatype FullEvaluation = FullEvaluation(
    candidateId: string, jdId: string, createdAt: string,
    stage1: Option<CodeEvaluation>, stage2: Option<FitScores>,
    stage3: Option<ResponseAssessment>, stage4: Option<FinalAnalysis>)

  /** `StageMissing` is the `ValueError` of a guard; `CallFailed` an exception
      escaping from a collaborator. */
  datatype PipelineError = StageMissing(message: string) | CallFailed(message: string)

  const Stage1BeforeStage2: string := "Stage 1 must be completed before Stage 2"
  const Stage1BeforeStage3: string := "Stage 1 must be completed before Stage 3"
  const AllBeforeStage4: string := "All previous stages must be completed before Stage 4"
  const Stage4BeforeCompletion: string := "Stage 4 must be completed before completion"

  /** Code evaluation, given the code, the task description and the job description. */
  type CodeEvaluator = (string, string, string) -> Result<CodeEvaluation, string>
  /** Vector scoring, given the ideal profile, the resume, the task description and
      the code description: the resume fit and the code fit. */
  type VectorScorer = (string, string, string, string) -> Result<(int, int), string>
  /** MCQ scoring, given stage 1's questions and the candidate's answers. */
  type McqCalculator = (seq<McqScorer.McqQuestion>, seq<string>) -> Result<McqResult, string>
  type FinalAnalyzer = FinalAnalysisRequest -> Result<FinalAnalysis, string>
  /** Indexing a record under a candidate id; returns the id it was stored under. */
  type Indexer = (IndexRecord, string) -> Result<string, string>

  /** The final-analysis call's arguments, drawn from the three earlier stages;
      the code itself is passed as the empty string. */
  function FinalRequest(
    jdText: string, taskDescription: string, s1: CodeEvaluation, s2: FitScores, s3: ResponseAssessment)
    : FinalAnalysisRequest
  {
    FinalAnalysisRequest(
      jdText, s2.resumeText, "", taskDescription,
      s2.resumeFitScore, s2.codeFitScore, s1.codeQualityScore, s3.mcqResult.mcqScore,
      s1.interviewQuestions, s3.interviewTranscripts)
  }

  /** Slots are filled in dependency order: stages 2 and 3 need stage 1, and
      stage 4 needs all three. */
  predicate StagesInOrder(e: FullEvaluation) {
    && (e.stage2.Some? ==> e.stage1.Some?)
    && (e.stage3.Some? ==> e.stage1.Some?)
    && (e.stage4.Some? ==> e.stage1.Some? && e.stage2.Some? && e.stage3.Some?)
  }

  class CandidateEvaluationPipeline {
    const jdText: string
    const idealCandidateProfile: string
    const taskDescription: string
    const candidateId: string
    const jdId: string
    const createdAt: string

    var stage1Result: Option<CodeEvaluation>
    var stage2Result: Option<FitScores>
    var stage3Result: Option<ResponseAssessment>
    var stage4Result: Option<FinalAnalysis>

    /** No slot is ever filled before the slots it reads from. */
    ghost predicate Valid()
      reads this
    {
      StagesInOrder(GetFullEvaluation())
    }

    /** `createdAt` is the construction timestamp, passed in. */
    constructor (jdText: string, idealCandidateProfile: string, taskDescription: string,
                 candidateId: string, jdId: string, createdAt: string)
      ensures Valid()
      ensures this.jdText == jdText && this.idealCandidateProfile == idealCandidateProfile
      ensures this.taskDescription == taskDescription && this.candidateId == candidateId
      ensures this.jdId == jdId && this.createdAt == createdAt
      ensures stage1Result == None && stage2Result == None && stage3Result == None && stage4Result == None
    {
      this.jdText := jdText;
      this.idealCandidateProfile := idealCandidateProfile;
      this.taskDescription := taskDescription;
      this.candidateId := candidateId;
      this.jdId := jdId;
      this.createdAt := createdAt;
      stage1Result := None;
      stage2Result := None;
      stage3Result := None;
      stage4Result := None;
    }

    /** `run_stage1`: evaluates the code against this pipeline's task and job
        description and stores the reply; a failing call stores nothing. */
    method RunStage1(codeSolution: string, evaluateCode: CodeEvaluator) returns (r: Result<CodeEvaluation, PipelineError>)
      requires Valid()
      modifies this
      ensures Valid()
      ensures stage2Result == old(stage2Result) && stage3Result == old(stage3Result) && stage4Result == old(stage4Result)
      ensures match evaluateCode(codeSolution, taskDescription, jdText)
        case Success(e) => r == Success(e) && stage1Result == Some(e)
                           && GetInterviewQuestions() == e.interviewQuestions && GetMcqQuestions() == e.mcqQuestions
        case Failure(msg) => r == Failure(CallFailed(msg)) && stage1Result == old(stage1Result)
    {
      match evaluateCode(codeSolution, taskDescription, jdText)
      case Success(e) =>
        stage1Result := Some(e);
        r := Success(e);
      case Failure(msg) =>
        r := Failure(CallFailed(msg));
    }

    /** `run_stage2`: needs stage 1; scores the given resume against the ideal
        profile and stage 1's code description against the task, and stores
        both scores with the resume text. */
    method RunStage2(resumeText: string, vectorScores: VectorScorer) returns (r: Result<FitScores, PipelineError>)
      requires Valid()
      modifies this
      ensures Valid()
      ensures stage1Result == old(stage1Result) && stage3Result == old(stage3Result) && stage4Result == old(stage4Result)
      ensures stage1Result.None? ==> r == Failure(StageMissing(Stage1BeforeStage2)) && stage2Result == old(stage2Result)
      ensures stage1Result.Some? ==>
        match vectorScores(idealCandidateProfile, resumeText, taskDescription, stage1Result.value.codeDescription)
        case Success(fits) =>
          r == Success(FitScores(fits.0, fits.1, resumeText)) && stage2Result == Some(r.value)
        case Failure(msg) => r == Failure(CallFailed(msg)) && stage2Result == old(stage2Result)
    {
      if stage1Result.None? {
        return Failure(StageMissing(Stage1BeforeStage2));
      }
      var codeDescription := stage1Result.value.codeDescription;
      match vectorScores(idealCandidateProfile, resumeText, taskDescription, codeDescription)
      case Success(fits) =>
        var (resumeFitScore, codeFitScore) := fits;
        stage2Result := Some(FitScores(resumeFitScore, codeFitScore, resumeText));
        r := Success(stage2Result.value);
      case Failure(msg) =>
        r := Failure(CallFailed(msg));
    }

    /** `run_stage3`: needs stage 1 only (not stage 2); scores the answers
        against stage 1's questions and stores the transcripts as given. */
    method RunStage3(interviewTranscripts: seq<string>, mcqAnswers: seq<string>, calculateMcq: McqCalculator)
      returns (r: Result<ResponseAssessment, PipelineError>)
      requires Valid()
      modifies this
      ensures Valid()
      ensures stage1Result == old(stage1Result) && stage2Result == old(stage2Result) && stage4Result == old(stage4Result)
      ensures stage1Result.None? ==> r == Failure(StageMissing(Stage1BeforeStage3)) && stage3Result == old(stage3Result)
      ensures stage1Result.Some? ==>
        match calculateMcq(stage1Result.value.mcqQuestions, mcqAnswers)
        case Success(mcq) =>
          r == Success(ResponseAssessment(interviewTranscripts, mcq)) && stage3Result == Some(r.value)
        case Failure(msg) => r == Failure(CallFailed(msg)) && stage3Result == old(stage3Result)
    {
      if stage1Result.None? {
        return Failure(StageMissing(Stage1BeforeStage3));
      }
      match calculateMcq(stage1Result.value.mcqQuestions, mcqAnswers)
      case Success(mcq) =>
        stage3Result := Some(ResponseAssessment(interviewTranscripts, mcq));
        r := Success(stage3Result.value);
      case Failure(msg) =>
        r := Failure(CallFailed(msg));
    }

    /** `run_stage4`: needs stages 1, 2 and 3; asks for the final analysis
        built from them and stores the reply. */
    method RunStage4(analyze: FinalAnalyzer) returns (r: Result<FinalAnalysis, PipelineError>)
      requires Valid()
      modifies this
      ensures Valid()
      ensures stage1Result == old(stage1Result) && stage2Result == old(stage2Result) && stage3Result == old(stage3Result)
      ensures (stage1Result.None? || stage2Result.None? || stage3Result.None?) ==>
        r == Failure(StageMissing(AllBeforeStage4)) && stage4Result == old(stage4Result)
      ensures stage1Result.Some? && stage2Result.Some? && stage3Result.Some? ==>
        match analyze(FinalRequest(jdText, taskDescription, stage1Result.value, stage2Result.value, stage3Result.value))
        case Success(a) => r == Success(a) && stage4Result == Some(a)
        case Failure(msg) => r == Failure(CallFailed(msg)) && stage4Result == old(stage4Result)
    {
      if stage1Result.None? || stage2Result.None? || stage3Result.None? {
        return Failure(StageMissing(AllBeforeStage4));
      }
      match analyze(FinalRequest(jdText, taskDescription, stage1Result.value, stage2Result.value, stage3Result.value))
      case Success(a) =>
        stage4Result := Some(a);
        r := Success(a);
      case Failure(msg) =>
        r := Failure(CallFailed(msg));
    }

    /** `complete`: needs stage 4; indexes stage 4's fields together with the
        candidate id, job id, creation time and the given completion time, and
        returns the id the index reports. Changes no slot. */
    method Complete(completedAt: string, index: Indexer) returns (r: Result<string, PipelineError>)
      ensures stage4Result.None? ==> r == Failure(StageMissing(Stage4BeforeCompletion))
      ensures stage4Result.Some? ==>
        match index(IndexRecord(stage4Result.value, candidateId, jdId, createdAt, completedAt), candidateId)
        case Success(id) => r == Success(id)
        case Failure(msg) => r == Failure(CallFailed(msg))
    {
      if stage4Result.None? {
        return Failure(StageMissing(Stage4BeforeCompletion));
      }
      var finalData := IndexRecord(stage4Result.value, candidateId, jdId, createdAt, completedAt);
      match index(finalData, candidateId)
      case Success(id) => r := Success(id);
      case Failure(msg) => r := Failure(CallFailed(msg));
    }

    /** `get_interview_questions`: `[]` until stage 1 has run, then its questions. */
    function GetInterviewQuestions(): (questions: seq<string>)
      reads this
      ensures stage1Result.None? ==> questions == []
      ensures stage1Result.Some? ==> questions == stage1Result.value.interviewQuestions
    {
      if stage1Result.None? then [] else stage1Result.value.interviewQuestions
    }

    /** `get_mcq_questions`: `[]` until stage 1 has run, then its questions. */
    function GetMcqQuestions(): (questions: seq<McqScorer.McqQuestion>)
      reads this
      ensures stage1Result.None? ==> questions == []
      ensures stage1Result.Some? ==> questions == stage1Result.value.mcqQuestions
    {
      if stage1Result.None? then [] else stage1Result.value.mcqQuestions
    }

    /** `get_full_evaluation`: the identity fields and the four slots as they stand. */
    function GetFullEvaluation(): (e: FullEvaluation)
      reads this
      ensures e.candidateId == candidateId && e.jdId == jdId && e.createdAt == createdAt
      ensures e.stage1 == stage1Result && e.stage2 == stage2Result
      ensures e.stage3 == stage3Result && e.stage4 == stage4Result
    {
      FullEvaluation(candidateId, jdId, createdAt, stage1Result, stage2Result, stage3Result, stage4Result)
    }
  }
}
