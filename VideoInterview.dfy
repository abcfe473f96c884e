/** Interview transcript handling: the position-aligned transcription loop
    with its three sentinel transcripts, the rule that rejects placeholder or
    too-short answers before any scoring call, and the size window a video
    file must fall in. The transcription and scoring calls themselves are
    parameters that may fail. */
module VideoInterview {
  import opened Wrappers
  import opened Text

  /** Transcript recorded when there is no (or an empty) video for a question. */
  const NoResponseProvided: string := "[No response provided]"
  /** Transcript recorded when the transcribed text has fewer than 3 characters. */
  const EmptyOrSilentVideo: string := "[Empty or silent video detected]"
  /** Transcript recorded when the transcription call raised. */
  const TranscriptionFailed: string := "[Transcription error]"

  /** A stripped transcription shorter than this is treated as silence. */
  const MinTranscriptionLength := 3
  /** A normalised answer shorter than this is never sent for scoring. */
  const MinAnswerLength := 10
  /** Substrings that mark a normalised answer as a placeholder. */
  const PlaceholderMarkers: seq<string> :=
    ["no response", "empty", "silent", "not available", "[", "]", "transcription error"]

  /** The size window of an acceptable video file, in bytes (50 MiB at most). */
  const MinVideoBytes := 1500
  const MaxVideoBytes := 50 * 1024 * 1024

  datatype TranscribedResponse = TranscribedResponse(question: string, transcription: string)

  /** The transcription call on one video: the reply's text, or `Failure` when
      the call or reading its text raised. */
  type Transcriber = seq<byte> -> Result<string, string>

  /** Per-answer scores; the scoring call returns the parsed reply verbatim. */
  datatype ResponseScores = ResponseScores(
    technicalAccuracy: int, clarity: int, depth: int, communication: int, feedback: string)

  /** The scoring call, given the question, the transcript and at most 500
      characters of code context: the parsed reply, or `Failure` when the call
      or the parsing raised. */
  type ResponseScorer = (string, string, string) -> Result<ResponseScores, string>

  /** How much of the code context the scoring prompt includes. */
  const CodeContextLimit := 500

  const NoMeaningfulAnswer := ResponseScores(0, 0, 0, 0, "No meaningful spoken answer detected.")
  const ScoringFailed := ResponseScores(0, 0, 0, 0, "Unable to analyze due to model error.")

  predicate AllZero(r: ResponseScores) {
    r.technicalAccuracy == 0 && r.clarity == 0 && r.depth == 0 && r.communication == 0
  }

  /** The transcript the loop records for question `i`. */
  function TranscriptionOf(videos: seq<seq<byte>>, i: nat, transcribe: Transcriber): string {
    if i < |videos| && |videos[i]| > 0 then
      match transcribe(videos[i])
      case Failure(_) => TranscriptionFailed
      case Success(text) =>
        var t := Strip(text);
        if |t| == 0 || |t| < MinTranscriptionLength then EmptyOrSilentVideo else t
    else NoResponseProvided
  }

  /** `transcribe_video_responses`: one entry per question, in question order,
      pairing each question with the transcript of the video at the same index. */
  method TranscribeVideoResponses(interviewQuestions: seq<string>, videoResponses: seq<seq<byte>>, transcribe: Transcriber)
    returns (results: seq<TranscribedResponse>)
    ensures |results| == |interviewQuestions|
    ensures forall i :: 0 <= i < |results| ==>
      results[i] == TranscribedResponse(interviewQuestions[i], TranscriptionOf(videoResponses, i, transcribe))
  {
    results := [];
    for idx := 0 to |interviewQuestions|
      invariant |results| == idx
      invariant forall i :: 0 <= i < idx ==>
        results[i] == TranscribedResponse(interviewQuestions[i], TranscriptionOf(videoResponses, i, transcribe))
    {
      var transcription: string;
      if idx < |videoResponses| && |videoResponses[idx]| > 0 {
        match transcribe(videoResponses[idx])
        case Success(text) =>
          transcription := Strip(text);
          if |transcription| == 0 || |transcription| < MinTranscriptionLength {
            transcription := EmptyOrSilentVideo;
          }
        case Failure(_) =>
          transcription := TranscriptionFailed;
      } else {
        transcription := NoResponseProvided;
      }
      results := results + [TranscribedResponse(interviewQuestions[idx], transcription)];
    }
  }

  /** Without a non-empty video at index `i` the transcript is the
      no-response sentinel, whatever the transcriber would have said: it is
      not consulted. Videos past the last question are never looked at. */
  lemma MissingVideoIsNoResponse(videos: seq<seq<byte>>, i: nat, transcribe: Transcriber)
    requires i >= |videos| || |videos[i]| == 0
    ensures forall other: Transcriber :: TranscriptionOf(videos, i, other) == NoResponseProvided
  {
  }

  /** Only the video at the same index matters, so extra videos are ignored. */
  lemma OnlySameIndexVideoMatters(videos: seq<seq<byte>>, extra: seq<seq<byte>>, i: nat, transcribe: Transcriber)
    requires i < |videos|
    ensures TranscriptionOf(videos + extra, i, transcribe) == TranscriptionOf(videos, i, transcribe)
  {
  }

  /** The placeholder rule of `analyze_single_response`: after `strip().lower()`
      the answer is empty, shorter than 10 characters, or contains a marker. */
  predicate IsPlaceholder(transcription: string) {
    var norm := Lower(Strip(transcription));
    |norm| == 0 || |norm| < MinAnswerLength
    || exists k :: 0 <= k < |PlaceholderMarkers| && Contains(norm, PlaceholderMarkers[k])
  }

  /** `analyze_single_response`: placeholders score zero without a scoring
      call; otherwise the scorer's reply is returned, or zeros when it fails. */
  function AnalyzeSingleResponse(question: string, transcription: string, codeContext: string, score: ResponseScorer)
    : (r: ResponseScores)
    ensures IsPlaceholder(transcription) ==> r == NoMeaningfulAnswer
    ensures !IsPlaceholder(transcription) ==>
      var reply := score(question, transcription, Take(codeContext, CodeContextLimit));
      if reply.Success? then r == reply.value else r == ScoringFailed
    ensures AllZero(r) || (score(question, transcription, Take(codeContext, CodeContextLimit)).Success? && !IsPlaceholder(transcription))
  {
    if IsPlaceholder(transcription) then NoMeaningfulAnswer
    else
      match score(question, transcription, Take(codeContext, CodeContextLimit))
      case Success(scores) => scores
      case Failure(_) => ScoringFailed
  }

  /** A transcript that starts with `[` and ends with `]` is a placeholder. */
  lemma BracketedIsPlaceholder(s: string)
    requires |s| > 0 && s[0] == '[' && s[|s| - 1] == ']'
    ensures IsPlaceholder(s)
  {
    StripCharsKeeps(s, Whitespace);
    var norm := Lower(Strip(s));
    assert norm[0] == '[';
    assert PlaceholderMarkers[4] == "[";
    assert Contains(norm, PlaceholderMarkers[4]);
  }

  /** Every sentinel the transcription loop can produce is rejected by the
      placeholder rule, so none of them is ever sent for scoring. */
  lemma SentinelsArePlaceholders()
    ensures IsPlaceholder(NoResponseProvided)
    ensures IsPlaceholder(EmptyOrSilentVideo)
    ensures IsPlaceholder(TranscriptionFailed)
  {
    BracketedIsPlaceholder(NoResponseProvided);
    BracketedIsPlaceholder(EmptyOrSilentVideo);
    BracketedIsPlaceholder(TranscriptionFailed);
  }

  /** `strip()` never lengthens a string. */
  lemma StripShortens(s: string)
    ensures |Strip(s)| <= |s|
  {
    TrimStartRemovesPrefix(s, Whitespace);
    TrimEndRemovesSuffix(TrimStart(s, Whitespace), Whitespace);
  }

  /** A transcript that passes the placeholder rule came from a real video
      whose transcription succeeded: it is that stripped text, of at least 10
      characters. */
  lemma AcceptedTranscriptIsGenuine(videos: seq<seq<byte>>, i: nat, transcribe: Transcriber)
    requires !IsPlaceholder(TranscriptionOf(videos, i, transcribe))
    ensures i < |videos| && |videos[i]| > 0
    ensures transcribe(videos[i]).Success?
    ensures TranscriptionOf(videos, i, transcribe) == Strip(transcribe(videos[i]).value)
    ensures |TranscriptionOf(videos, i, transcribe)| >= MinAnswerLength
  {
    SentinelsArePlaceholders();
    var t := TranscriptionOf(videos, i, transcribe);
    StripShortens(t);
  }

  /** `validate_video_file`. */
  function ValidateVideoFile(videoData: seq<byte>): (valid: bool)
    ensures valid <==> MinVideoBytes <= |videoData| <= MaxVideoBytes
  {
    if |videoData| == 0 || |videoData| < MinVideoBytes then false
    else if |videoData| > MaxVideoBytes then false
    else true
  }
}
