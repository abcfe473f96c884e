# Candidate evaluation pipeline — Dafny model

This project models the back end of an AI-assisted hiring pipeline. A
candidate submits a GitHub repository link and a resume PDF. The back end
creates an evaluation pipeline object for them and keeps it in an in-memory
session map. Later the candidate submits interview videos and multiple-choice
(MCQ) answers. The back end transcribes and scores them, and the session ends.

The model covers five parts:

- **`McqScorer`** (`McqScorer.dfy`): deterministic MCQ scoring. Answers are
  compared after `strip().upper()`, position by position, and answers beyond
  the last question are ignored. An empty question list or an empty answer
  list scores the neutral 50. Otherwise the score is the truncated percentage
  clamped to 1..100. The loop is a method proved equal to a specification
  function, `McqScore`, and lemmas state the function's properties.
- **`VideoInterview`** (`VideoInterview.dfy`): the transcription loop and its
  three sentinel transcripts. Also the placeholder rule that gives an answer
  all-zero scores without any model call, and the video size window.
- **`GithubFetcher`** (`GithubFetcher.dfy`): the parser from a repository
  URL's path to owner, repository, branch and sub-path, with a round-trip
  lemma.
- **`Pipeline`** (`Pipeline.dfy`): the pipeline class. It has five fixed
  inputs, four stage-result slots that the stage methods fill, the guards
  that raise before anything is written, the read accessors, and completion.
  Its invariant `Valid()` says that no slot is filled before the slots it
  depends on.
- **`Api`** (`Api.dfy`): the session store behind the HTTP endpoints. It
  covers start, submit, status, cancel and health, plus the exception-to-HTTP
  mappings.

`Text.dfy` holds the Python string operations the core relies on: `strip()`
with Python's full whitespace set, `strip("/")`, `upper()`/`lower()`, `in` on
strings, `startswith`/`endswith`, slicing `s[:n]`, `split` and `"/".join`.
`Wrappers.dfy` holds `Option` and `Result`.

Calls into code outside the core are function-typed parameters. These are the
Gemini model calls, the Qdrant scoring and indexing, JSON decoding, and the
stage calls the endpoints make. Each returns a `Result` whose `Failure`
stands for the exception the call raises. Timestamps (`datetime.utcnow()`)
are parameters too.

Behaviour of the code worth noting:

- Percentages are truncated, not rounded.
- An empty answer list also gives the neutral 50.
- Only a missing or empty video gets the no-response sentinel. A video under
  1000 bytes only produces a warning at the endpoint.
- Stages may be re-run, and stage 3 needs only stage 1, so it can run before
  stage 2.

## Model

| member | source | states |
|---|---|---|
| McqScorer.ScoreMcqAnswers | app/mcq_scorer.py:4-35 | the scoring loop returns exactly `McqScore`: 50 when there are no questions or no answers, else the clamped truncated percentage of position-wise matches after strip/upper |
| McqScorer.CorrectCountIsSetSize | app/mcq_scorer.py:17-25 | the counted matches are exactly the indices whose normalised answer equals the normalised expected answer |
| McqScorer.CorrectCountBounds | app/mcq_scorer.py:19-20 | the count never exceeds the number of questions looked at, nor the number of answers |
| McqScorer.CorrectCountDependsOnNormalizedPrefix | app/mcq_scorer.py:21-24 | the count depends only on the normalised answers at question positions: answers equal after strip/upper count the same |
| McqScorer.ExtraAnswersIgnored | app/mcq_scorer.py:19-20 | answers beyond the last question do not change the score |
| McqScorer.AllCorrectCount | app/mcq_scorer.py:19-25 | when every question is answered correctly, the count is the number of questions |
| McqScorer.NoneCorrectCount | app/mcq_scorer.py:19-25 | when no question is answered correctly, the count is zero |
| McqScorer.ScoreRange | app/mcq_scorer.py:12-15 | the score is always in 1..100, and it is 50 for empty questions or answers |
| McqScorer.AllCorrectScores100 | app/mcq_scorer.py:31-32 | all answers correct gives 100 |
| McqScorer.NoneCorrectScores1 | app/mcq_scorer.py:31-32 | no answer correct gives 1, the clamp's floor, and not 0 |
| McqScorer.PercentageMonotone | app/mcq_scorer.py:31-32 | more correct answers never lower the score |
| McqScorer.DivMonotone | app/mcq_scorer.py:31 | truncating division by a positive divisor is monotone |
| McqScorer.MulMonotone | app/mcq_scorer.py:31 | multiplication by a natural number is monotone |
| VideoInterview.TranscribeVideoResponses | app/video_interview.py:71-135 | one entry per question, in order, pairing question `i` with `TranscriptionOf` for video `i`: the no-response sentinel for a missing or empty video, the error sentinel when the call fails, the silent sentinel for a stripped text under 3 characters, otherwise the stripped text |
| VideoInterview.MissingVideoIsNoResponse | app/video_interview.py:92-123 | without a non-empty video at index `i` the transcript is the no-response sentinel, whatever the transcriber would return |
| VideoInterview.OnlySameIndexVideoMatters | app/video_interview.py:90-95 | videos past the last question never affect any transcript |
| VideoInterview.AnalyzeSingleResponse | app/video_interview.py:141-229 | a placeholder answer scores zero with the no-answer feedback; otherwise the scorer's reply is returned, or zeros on failure; a nonzero score implies a genuine answer and a successful scoring call |
| VideoInterview.BracketedIsPlaceholder | app/video_interview.py:149-166 | any answer starting with `[` and ending with `]` is rejected by the placeholder rule |
| VideoInterview.SentinelsArePlaceholders | app/video_interview.py:113-166 | all three sentinel transcripts are placeholders, so they are never sent for scoring |
| VideoInterview.StripShortens | app/video_interview.py:149 | `strip()` never lengthens a string |
| VideoInterview.AcceptedTranscriptIsGenuine | app/video_interview.py:90-166 | a transcript that passes the placeholder rule comes from a non-empty video whose transcription succeeded; it is that stripped text, of at least 10 characters |
| VideoInterview.ValidateVideoFile | app/video_interview.py:235-245 | a video is valid exactly when its size is between 1500 bytes and 50 MiB inclusive |
| GithubFetcher.ParseGithubRepoUrl | app/github_fetcher.py:26-53 | fails with "Invalid GitHub repo URL" exactly when the stripped path has fewer than two segments; otherwise owner and repo are the first two segments |
| GithubFetcher.RejectedIffSingleSegment | app/github_fetcher.py:36-39 | a path is rejected exactly when it has no `/` once leading and trailing slashes are stripped |
| GithubFetcher.DefaultsOutsideTreeForm | app/github_fetcher.py:44-51 | outside the `tree/<branch>` form the branch is `main` and the path is empty |
| GithubFetcher.TreeFormPath | app/github_fetcher.py:49-51 | in the tree form the branch is the fourth segment, and the path splits back into the remaining segments |
| GithubFetcher.SplitJoin | app/github_fetcher.py:36-51 | splitting a `/`-join of slash-free pieces gives back the pieces |
| GithubFetcher.RoundTrip | app/github_fetcher.py:26-53 | `/owner/repo/tree/branch/p` parses back into exactly `(owner, repo, branch, p)` |
| GithubFetcher.TreeUrlPathStripped | app/github_fetcher.py:36 | stripping `/` from `/owner/repo/tree/branch/p` leaves `owner/repo/tree/branch/p`, without the trailing slash when `p` is empty |
| GithubFetcher.TreeSegments | app/github_fetcher.py:36 | a tree-form path splits into owner, repo, `tree` and the branch's segments |
| GithubFetcher.StripSlashesAround | app/github_fetcher.py:36 | `strip("/")` of `/core` is `core` when `core` has no slash at either end |
| Pipeline.CandidateEvaluationPipeline.constructor | app/pipeline.py:15-35 | the five inputs and the creation time are stored, all four slots start empty, and the invariant holds |
| Pipeline.CandidateEvaluationPipeline.RunStage1 | app/pipeline.py:37-57 | evaluates the code with this pipeline's task and job descriptions and stores the reply in slot 1; the accessors then return its questions; a failing call stores nothing; the other slots are unchanged |
| Pipeline.CandidateEvaluationPipeline.RunStage2 | app/pipeline.py:59-88 | without stage 1 it fails with the stage-2 guard message and writes nothing; otherwise it stores both fit scores with the resume text; the other slots are unchanged |
| Pipeline.CandidateEvaluationPipeline.RunStage3 | app/pipeline.py:90-116 | needs stage 1 only; scores the answers against stage 1's MCQ questions and stores the transcripts as given; the guard and failure cases write nothing |
| Pipeline.CandidateEvaluationPipeline.RunStage4 | app/pipeline.py:118-146 | without all of stages 1-3 it fails with the stage-4 guard message; otherwise it sends the analyser a request built from those stages, with an empty code solution, and stores the reply |
| Pipeline.CandidateEvaluationPipeline.Complete | app/pipeline.py:148-171 | without stage 4 it fails with the completion guard message; otherwise it indexes stage 4 plus the candidate id, job id, creation time and completion time, and returns the indexer's id |
| Pipeline.CandidateEvaluationPipeline.GetInterviewQuestions | app/pipeline.py:173-177 | `[]` before stage 1, then stage 1's interview questions |
| Pipeline.CandidateEvaluationPipeline.GetMcqQuestions | app/pipeline.py:179-183 | `[]` before stage 1, then stage 1's MCQ questions |
| Pipeline.CandidateEvaluationPipeline.GetFullEvaluation | app/pipeline.py:185-195 | the identity fields and the four slots as they stand |
| Api.StartInputError | app/api.py:55-66 | no error exactly when the link starts with `https://github.com/`, the file name ends with `.pdf` and the resume has at least 1000 bytes; otherwise the first failing check's message |
| Api.StartError | app/api.py:128-140 | `ValueError` becomes 400 and `RuntimeError` 503, each with `str(e)` as detail; anything else becomes 500 with detail "Evaluation start error: " + `str(e)` |
| Api.SubmitErrorAsWritten | app/api.py:247-255 | as written, 400 with `str(e)` exactly for `ValueError`, and 500 with detail "Response processing error: " + `str(e)` for every other exception |
| Api.UnknownSessionIs500AsWritten | app/api.py:179-255 | as written, the 404 for an unknown session becomes a 500 with detail "Response processing error: 404: Session not found. …" |
| Api.SubmitError | app/api.py:179-255 | corrected: an `HTTPException` keeps its status and detail; every other exception is handled as written |
| Api.UnknownSessionIs404 | app/api.py:179-183 | with the correction, an unknown session is answered 404 with the session-not-found detail |
| Api.Decimal | app/api.py:255 | `str()` of a non-negative int is a non-empty string of decimal digits that denotes it, with a leading zero only for 0 |
| Api.SessionStore.constructor | app/api.py:14 | the session map starts empty |
| Api.SessionStore.StartEvaluation | app/api.py:18-140 | invalid input gives 400 and stores nothing; a failing stage 1 gives the mapped error and stores nothing; on success a fresh pipeline with the given inputs is stored under the candidate id, and no other entry changes |
| Api.SessionStore.SubmitInterviewResponses | app/api.py:143-255 | unknown id gives 404 (corrected); no videos or undecodable answers give 400; a JSON number, boolean or `null` gives 500 "Response processing error: object of type '…' has no len()", from the `len()` in the log line; a failing stage call gives its mapped error; the session is kept in all these cases; on success the report is returned and exactly that session is removed |
| Api.SessionStore.GetEvaluationStatus | app/api.py:258-275 | in progress, with the stored job id, exactly when the id has a session |
| Api.SessionStore.CancelEvaluation | app/api.py:278-293 | removes exactly that id's session; reports success exactly when one existed |
| Api.SessionStore.HealthCheck | app/api.py:296-304 | reports the number of stored sessions |
| Text.TrimStartRemovesPrefix | app/mcq_scorer.py:21-22 | left-stripping drops a prefix made only of stripped characters, and the result starts with a kept character |
| Text.TrimEndRemovesSuffix | app/mcq_scorer.py:21-22 | right-stripping drops a suffix made only of stripped characters, and the result ends with a kept character |
| Text.StripCharsKeeps | app/video_interview.py:149 | a string whose ends are not stripped characters is left unchanged |
| Text.Upper | app/mcq_scorer.py:21-22 | `upper()` keeps the length and maps each character |
| Text.Lower | app/video_interview.py:149 | `lower()` keeps the length and maps each character |
| Text.ContainsAt | app/video_interview.py:165 | a substring found at any offset satisfies `in` |
| Text.ContainsHasOffset | app/video_interview.py:165 | conversely, `in` holds only when the substring occurs at some offset |
| Text.Take | app/video_interview.py:187 | `s[:n]` is a prefix of `s` of length `min(n, len(s))` |
| Text.Split | app/github_fetcher.py:36 | `split` always yields at least one piece |
| Text.SplitPiecesFree | app/github_fetcher.py:36 | no piece of a split contains the separator |
| Text.SplitSingle | app/github_fetcher.py:36-38 | a split yields one piece exactly when the separator is absent, and that piece is the whole string |
| Text.SplitCons | app/github_fetcher.py:36 | splitting `a + sep + b`, with `sep` not in `a`, gives `a` followed by the pieces of `b` |
| Text.JoinSplit | app/github_fetcher.py:36-51 | joining the pieces of a split with the same separator gives back the string |

## Left out

- `parse_github_repo_url` is given the path component of the URL. `urlparse` itself is not modelled.
- The repository-fetching functions in `app/github_fetcher.py` (file tree, file contents, code collection) are not modelled. They are network I/O against the GitHub API.
- `generate_interview_audio` (text-to-speech) and the audio list the start endpoint builds are not modelled. They are optional I/O that never affects scores or sessions.
- The Gemini and Qdrant calls, and the code in `app/gemini_evaluator.py` and `app/qdrant_scorer.py`, are not part of this model. They appear only as function parameters.
- McqScorer.ScoreMcqAnswers: the score uses integer arithmetic, `correct * 100 / total`. The source's `int((correct / total) * 100)` goes through floating point and can differ by one: `int((29/100)*100)` is 28.
- Text.Upper: `upper()` maps ASCII letters only. Python's full Unicode case mapping, which can change the length (`'ß'` becomes `"SS"`), is not modelled.
- Text.Lower: `lower()` maps ASCII letters only. Python's full Unicode case mapping is not modelled.
- Api.SessionStore.SubmitInterviewResponses: the decoder yields either a list of strings or one of the two error outcomes. A JSON string or object has a length, so the source passes it on to the stage call as the answers. That path is not modelled, and neither is a list holding non-strings, which `str(user_answers[i])` would convert.
- Pipeline: a slot is "filled" when it holds a typed record. Python's truthiness test, which also treats an empty dict as a missing stage, is not modelled.
- The `KeyError` paths for a collaborator reply that lacks a key are not modelled. The replies are typed records.
- All `print` logging is not modelled, including the submit endpoint's warning for videos under 1000 bytes. Those videos are passed on unchanged.
- The endpoints call `run_stage1(repo_link=…, resume_bytes=…)` and `run_stage3(interview_videos=…, mcq_answers=…)`, which do not match the signatures in `app/pipeline.py`. `app/pipeline.py` also imports a `calculate_mcq_score` that `app/mcq_scorer.py` does not define. The model does not reconcile these: the endpoints take their stage calls as parameters, and the pipeline takes its MCQ calculator as one.
- Reading uploads, JSON responses, FastAPI routing, `app.py` and `main.py` are not part of this model.
- Concurrent requests sharing the session map are not modelled. Each endpoint is an atomic method.

## Findings

| source | as written | input that shows it | evidently intended | confidence | as-written member | corrected member |
|---|---|---|---|---|---|---|
| app/api.py:179-255 | the 404 `HTTPException` for an unknown session is raised inside the `try` and caught by `except Exception`, so the client gets 500 | submitting for a candidate id with no session gives 500 "Response processing error: 404: Session not found. …" | the client gets 404 "Session not found. …" | high (not executed) | Api.UnknownSessionIs500AsWritten | Api.UnknownSessionIs404 |
