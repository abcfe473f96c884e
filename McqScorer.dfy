/** Deterministic scoring of multiple-choice answers: position-aligned
    comparison after `strip().upper()`, an integer percentage clamped to
    [1, 100], and a neutral 50 when there is nothing to compare. */
module McqScorer {
  import opened Wrappers
  import opened Text

  /** A generated question; `correctAnswer` is `None` when the record has no
      `correct_answer` key. */
  datatype McqQuestion = McqQuestion(question: string, options: seq<string>, correctAnswer: Option<string>)

  /** The score returned when there are no questions or no answers. */
  const NeutralScore := 50

  /** The comparison key of an answer: `strip().upper()`. */
  function Normalize(answer: string): string {
    Upper(Strip(answer))
  }

  /** The key a question is marked against; a missing answer reads as `''`. */
  function ExpectedAnswer(q: McqQuestion): string {
    Normalize(q.correctAnswer.GetOr(""))
  }

  /** Question `i` has an answer at the same position, and the two keys agree. */
  predicate AnsweredCorrectly(questions: seq<McqQuestion>, answers: seq<string>, i: nat)
    requires i < |questions|
  {
    i < |answers| && ExpectedAnswer(questions[i]) == Normalize(answers[i])
  }

  /** The number of correctly answered questions among the first `k`. */
  function CorrectCount(questions: seq<McqQuestion>, answers: seq<string>, k: nat): nat
    requires k <= |questions|
  {
    if k == 0 then 0
    else CorrectCount(questions, answers, k - 1) + (if AnsweredCorrectly(questions, answers, k - 1) then 1 else 0)
  }

  /** The indices below `k` that were answered correctly. */
  function CorrectIndices(questions: seq<McqQuestion>, answers: seq<string>, k: nat): set<nat>
    requires k <= |questions|
  {
    set i: nat | i < k && AnsweredCorrectly(questions, answers, i)
  }

  function Clamp(x: int, lo: int, hi: int): int
    requires lo <= hi
  {
    if x < lo then lo else if x > hi then hi else x
  }

  /** The truncated percentage of `correct` out of `total`, clamped to [1, 100]. */
  function Percentage(correct: nat, total: nat): int
    requires total > 0
  {
    Clamp(correct * 100 / total, 1, 100)
  }

  /** The score that `ScoreMcqAnswers` computes. */
  function McqScore(questions: seq<McqQuestion>, answers: seq<string>): int {
    if |questions| == 0 || |answers| == 0 then NeutralScore
    else Percentage(CorrectCount(questions, answers, |questions|), |questions|)
  }

  /** `MCQScorer.score_mcq_answers`: one pass over the questions counting the
      position-aligned matches; answers past the last question are never read. */
  method ScoreMcqAnswers(mcqQuestions: seq<McqQuestion>, userAnswers: seq<string>) returns (score: int)
    ensures score == McqScore(mcqQuestions, userAnswers)
  {
    if |mcqQuestions| == 0 || |userAnswers| == 0 {
      return NeutralScore;
    }
    var correctCount := 0;
    for i := 0 to |mcqQuestions|
      invariant correctCount == CorrectCount(mcqQuestions, userAnswers, i)
    {
      if i < |userAnswers| {
        var correctAnswer := Upper(Strip(mcqQuestions[i].correctAnswer.GetOr("")));
        var userAnswer := Upper(Strip(userAnswers[i]));
        if correctAnswer == userAnswer {
          correctCount := correctCount + 1;
        }
      }
    }
    score := correctCount * 100 / |mcqQuestions|;
    score := if 100 < score then 100 else score;
    score := if score < 1 then 1 else score;
  }

  /** The count is the size of the set of correctly answered indices. */
  lemma {:induction false} CorrectCountIsSetSize(questions: seq<McqQuestion>, answers: seq<string>, k: nat)
    requires k <= |questions|
    ensures CorrectCount(questions, answers, k) == |CorrectIndices(questions, answers, k)|
  {
    if k > 0 {
      CorrectCountIsSetSize(questions, answers, k - 1);
      var before := CorrectIndices(questions, answers, k - 1);
      var after := CorrectIndices(questions, answers, k);
      assert k - 1 !in before;
      if AnsweredCorrectly(questions, answers, k - 1) {
        assert after == before + {k - 1};
      } else {
        assert after == before;
      }
    }
  }

  /** Never more matches than questions looked at, nor than answers given:
      a question without an answer counts as wrong. */
  lemma {:induction false} CorrectCountBounds(questions: seq<McqQuestion>, answers: seq<string>, k: nat)
    requires k <= |questions|
    ensures CorrectCount(questions, answers, k) <= k
    ensures CorrectCount(questions, answers, k) <= |answers|
  {
    if k > 0 {
      CorrectCountBounds(questions, answers, k - 1);
    }
  }

  /** Two answer lists that agree, up to `strip().upper()`, on the first `k`
      positions (and on which of them exist) get the same count. */
  lemma {:induction false} CorrectCountDependsOnNormalizedPrefix(
    questions: seq<McqQuestion>, answers: seq<string>, others: seq<string>, k: nat)
    requires k <= |questions|
    requires (if |answers| < k then |answers| else k) == (if |others| < k then |others| else k)
    requires forall i :: 0 <= i < k && i < |answers| && i < |others| ==> Normalize(answers[i]) == Normalize(others[i])
    ensures CorrectCount(questions, answers, k) == CorrectCount(questions, others, k)
  {
    if k > 0 {
      CorrectCountDependsOnNormalizedPrefix(questions, answers, others, k - 1);
    }
  }

  /** Answers beyond the number of questions do not change the score. */
  lemma ExtraAnswersIgnored(questions: seq<McqQuestion>, answers: seq<string>, extra: seq<string>)
    requires |answers| >= |questions|
    ensures McqScore(questions, answers + extra) == McqScore(questions, answers)
  {
    CorrectCountDependsOnNormalizedPrefix(questions, answers + extra, answers, |questions|);
  }

  /** An answer key that every answer matches after normalisation scores 100;
      this is where case and surrounding whitespace stop mattering. */
  lemma {:induction false} AllCorrectCount(questions: seq<McqQuestion>, answers: seq<string>, k: nat)
    requires k <= |questions|
    requires forall i :: 0 <= i < |questions| ==> AnsweredCorrectly(questions, answers, i)
    ensures CorrectCount(questions, answers, k) == k
  {
    if k > 0 {
      AllCorrectCount(questions, answers, k - 1);
    }
  }

  /** No answer matching gives a count of zero. */
  lemma {:induction false} NoneCorrectCount(questions: seq<McqQuestion>, answers: seq<string>, k: nat)
    requires k <= |questions|
    requires forall i :: 0 <= i < |questions| ==> !AnsweredCorrectly(questions, answers, i)
    ensures CorrectCount(questions, answers, k) == 0
  {
    if k > 0 {
      NoneCorrectCount(questions, answers, k - 1);
    }
  }

  /** With something to compare, the score lies in [1, 100]; otherwise it is 50. */
  lemma ScoreRange(questions: seq<McqQuestion>, answers: seq<string>)
    ensures |questions| == 0 || |answers| == 0 ==> McqScore(questions, answers) == NeutralScore
    ensures 1 <= McqScore(questions, answers) <= 100
  {
  }

  /** All questions answered correctly scores exactly 100. */
  lemma AllCorrectScores100(questions: seq<McqQuestion>, answers: seq<string>)
    requires 0 < |questions| <= |answers|
    requires forall i :: 0 <= i < |questions| ==> Normalize(answers[i]) == ExpectedAnswer(questions[i])
    ensures McqScore(questions, answers) == 100
  {
    assert forall i :: 0 <= i < |questions| ==> AnsweredCorrectly(questions, answers, i);
    AllCorrectCount(questions, answers, |questions|);
    var n := |questions|;
    assert n * 100 / n == 100;
  }

  /** No correct answer scores the floor value 1, not 0. */
  lemma NoneCorrectScores1(questions: seq<McqQuestion>, answers: seq<string>)
    requires |questions| > 0 && |answers| > 0
    requires forall i :: 0 <= i < |questions| && i < |answers| ==> Normalize(answers[i]) != ExpectedAnswer(questions[i])
    ensures McqScore(questions, answers) == 1
  {
    assert forall i :: 0 <= i < |questions| ==> !AnsweredCorrectly(questions, answers, i);
    NoneCorrectCount(questions, answers, |questions|);
  }

  /** For a fixed number of questions, more correct answers never lower the percentage. */
  lemma PercentageMonotone(c1: nat, c2: nat, total: nat)
    requires total > 0 && c1 <= c2
    ensures Percentage(c1, total) <= Percentage(c2, total)
  {
    DivMonotone(c1 * 100, c2 * 100, total);
  }

  lemma DivMonotone(a: nat, b: nat, d: nat)
    requires d > 0 && a <= b
    ensures a / d <= b / d
  {
    var qa, qb := a / d, b / d;
    assert d * qa <= a;
    assert b < d * (qb + 1);
    if qb + 1 <= qa {
      MulMonotone(d, qb + 1, qa);
      assert false;
    }
  }

  lemma MulMonotone(d: nat, x: int, y: int)
    requires x <= y
    ensures d * x <= d * y
  {
  }
}
