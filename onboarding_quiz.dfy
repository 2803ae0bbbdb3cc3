/**
 * The onboarding quiz: three questions, each answer scoring one point for
 * a persona type, and at the end the best-scoring type sent to
 * `updateProfile`. The screen's `currentStep` and `scores` state is the
 * `Quiz` object; the profile updates it sends are recorded in order.
 */
module OnboardingQuiz {

  datatype QuizType = Analyst | Mystic | Guide

  datatype Scores = Scores(analyst: nat, mystic: nat, guide: nat)

  /** `QUESTIONS.length`. */
  const QuestionCount := 3

  /** `Object.keys` of the scores object: its keys in the order they were written. */
  const ScoreKeys: seq<QuizType> := [Analyst, Mystic, Guide]

  function Score(s: Scores, t: QuizType): nat {
    match t
    case Analyst => s.analyst
    case Mystic => s.mystic
    case Guide => s.guide
  }

  function Total(s: Scores): nat {
    s.analyst + s.mystic + s.guide
  }

  /** `{ ...scores, [type]: scores[type] + 1 }`. */
  function Bump(s: Scores, t: QuizType): (r: Scores)
    ensures forall u :: Score(r, u) == Score(s, u) + (if u == t then 1 else 0)
    ensures Total(r) == Total(s) + 1
  {
    match t
    case Analyst => s.(analyst := s.analyst + 1)
    case Mystic => s.(mystic := s.mystic + 1)
    case Guide => s.(guide := s.guide + 1)
  }

  /** The scores after a sequence of answers, from all zeros. */
  function Tally(answers: seq<QuizType>): (s: Scores)
    ensures Total(s) == |answers|
  {
    if answers == [] then Scores(0, 0, 0) else Bump(Tally(answers[..|answers| - 1]), answers[|answers| - 1])
  }

  /** A type's score is the number of answers choosing it. */
  function Chosen(answers: seq<QuizType>, t: QuizType): nat {
    if answers == [] then 0
    else Chosen(answers[..|answers| - 1], t) + (if answers[|answers| - 1] == t then 1 else 0)
  }

  lemma {:induction false} TallyCounts(answers: seq<QuizType>, t: QuizType)
    ensures Score(Tally(answers), t) == Chosen(answers, t)
  {
    if answers != [] {
      TallyCounts(answers[..|answers| - 1], t);
    }
  }

  /** `keys.reduce((a, b) => finalScores[a] > finalScores[b] ? a : b)`. */
  function ReduceWinner(keys: seq<QuizType>, s: Scores): (w: QuizType)
    requires |keys| >= 1
    ensures w in keys
  {
    if |keys| == 1 then keys[0]
    else
      var a := ReduceWinner(keys[..|keys| - 1], s);
      var b := keys[|keys| - 1];
      if Score(s, a) > Score(s, b) then a else b
  }

  /** `w` is the key at `i`, and every later key scores less. */
  predicate LastMaximumAt(keys: seq<QuizType>, s: Scores, i: int, w: QuizType) {
    0 <= i < |keys| && keys[i] == w && forall j :: i < j < |keys| ==> Score(s, keys[j]) < Score(s, w)
  }

  /**
   * The reduction picks a key with the highest score, and no key after it
   * scores as much: among equal scores the later key wins.
   */
  lemma {:induction false} ReduceWinnerIsLastMaximum(keys: seq<QuizType>, s: Scores)
    requires |keys| >= 1
    ensures forall k :: k in keys ==> Score(s, k) <= Score(s, ReduceWinner(keys, s))
    ensures exists i :: LastMaximumAt(keys, s, i, ReduceWinner(keys, s))
  {
    if |keys| > 1 {
      var init := keys[..|keys| - 1];
      var b := keys[|keys| - 1];
      ReduceWinnerIsLastMaximum(init, s);
      var a := ReduceWinner(init, s);
      assert keys == init + [b];
      forall k | k in keys
        ensures Score(s, k) <= Score(s, ReduceWinner(keys, s))
      {
        if k != b {
          assert k in init;
        }
      }
      if Score(s, a) > Score(s, b) {
        var i :| LastMaximumAt(init, s, i, a);
        forall j | i < j < |keys|
          ensures Score(s, keys[j]) < Score(s, a)
        {
          if j < |init| {
            assert keys[j] == init[j];
          }
        }
        assert LastMaximumAt(keys, s, i, a);
      } else {
        assert LastMaximumAt(keys, s, |keys| - 1, b);
      }
    } else {
      assert LastMaximumAt(keys, s, 0, keys[0]);
    }
  }

  /** `finishQuiz`'s winner. */
  function Winner(s: Scores): QuizType {
    ReduceWinner(ScoreKeys, s)
  }

  /** The winner for every score: Guide unless beaten, then Mystic unless beaten by Analyst. */
  lemma WinnerCases(s: Scores)
    ensures Winner(s) == Guide <==> s.guide >= s.analyst && s.guide >= s.mystic
    ensures Winner(s) == Mystic <==> s.mystic > s.guide && s.mystic >= s.analyst
    ensures Winner(s) == Analyst <==> s.analyst > s.mystic && s.analyst > s.guide
  {
    var first2 := ScoreKeys[..2];
    assert first2 == [Analyst, Mystic];
    assert first2[..1] == [Analyst];
    var am := if s.analyst > s.mystic then Analyst else Mystic;
    assert ReduceWinner(first2, s) == am;
    assert Winner(s) == if Score(s, am) > s.guide then am else Guide;
  }

  /** A three-way tie goes to the last key. */
  lemma TieGoesToGuide()
    ensures Winner(Scores(1, 1, 1)) == Guide
  {
    WinnerCases(Scores(1, 1, 1));
  }

  /** The score state of the screen and the profile updates it has sent. */
  class Quiz {
    var currentStep: nat
    var scores: Scores
    /** The personas passed to `updateProfile`, in order. */
    var profileUpdates: seq<QuizType>

    /** Every answer is counted once: on a question, or in a finished quiz's update. */
    predicate Valid()
      reads this
    {
      currentStep <= QuestionCount - 1 &&
      Total(scores) == currentStep + |profileUpdates| &&
      (profileUpdates != [] ==> currentStep == QuestionCount - 1)
    }

    constructor()
      ensures Valid()
      ensures currentStep == 0 && scores == Scores(0, 0, 0) && profileUpdates == []
    {
      currentStep := 0;
      scores := Scores(0, 0, 0);
      profileUpdates := [];
    }

    /**
     * `handleAnswer`: the chosen type gains a point; before the last
     * question the step advances, on it the quiz finishes with the winner of
     * the new scores.
     */
    method HandleAnswer(t: QuizType)
      requires Valid()
      modifies this
      ensures Valid()
      ensures scores == Bump(old(scores), t)
      ensures old(currentStep) < QuestionCount - 1 ==>
        currentStep == old(currentStep) + 1 && profileUpdates == old(profileUpdates)
      ensures old(currentStep) >= QuestionCount - 1 ==>
        currentStep == old(currentStep) && profileUpdates == old(profileUpdates) + [Winner(scores)]
    {
      var newScores := Bump(scores, t);
      scores := newScores;
      if currentStep < QuestionCount - 1 {
        currentStep := currentStep + 1;
      } else {
        FinishQuiz(newScores);
      }
    }

    /** `finishQuiz`: one `updateProfile` with the winner. */
    method FinishQuiz(finalScores: Scores)
      modifies this
      ensures profileUpdates == old(profileUpdates) + [Winner(finalScores)]
      ensures currentStep == old(currentStep) && scores == old(scores)
    {
      var winner := Winner(finalScores);
      profileUpdates := profileUpdates + [winner];
    }
  }

  /** Answer each question of a fresh screen in turn. */
  method AnswerAll(quiz: Quiz, answers: seq<QuizType>)
    requires |answers| == QuestionCount
    requires quiz.Valid() && quiz.currentStep == 0 && quiz.profileUpdates == [] && quiz.scores == Tally([])
    modifies quiz
    ensures quiz.scores == Tally(answers)
    ensures quiz.profileUpdates == [Winner(Tally(answers))]
  {
    var i := 0;
    while i < |answers|
      invariant 0 <= i <= |answers|
      invariant quiz.Valid()
      invariant quiz.scores == Tally(answers[..i])
      invariant i < QuestionCount ==> quiz.currentStep == i && quiz.profileUpdates == []
      invariant i == QuestionCount ==> quiz.profileUpdates == [Winner(Tally(answers))]
    {
      TallyStep(answers, i);
      quiz.HandleAnswer(answers[i]);
      if i + 1 == |answers| {
        assert answers[..i + 1] == answers;
      }
      i := i + 1;
    }
    assert answers[..i] == answers;
  }

  /** Counting one more answer bumps its type. */
  lemma TallyStep(answers: seq<QuizType>, i: nat)
    requires i < |answers|
    ensures Tally(answers[..i + 1]) == Bump(Tally(answers[..i]), answers[i])
  {
    assert answers[..i + 1][..i] == answers[..i];
  }

  /**
   * Answering the three questions from a fresh screen sends exactly one
   * profile update, with the winner of the three answers.
   */
  method TakeQuiz(answers: seq<QuizType>) returns (updates: seq<QuizType>, finalScores: Scores)
    requires |answers| == QuestionCount
    ensures updates == [Winner(Tally(answers))]
    ensures finalScores == Tally(answers)
    ensures forall t :: Score(finalScores, t) == Chosen(answers, t)
  {
    var quiz := new Quiz();
    AnswerAll(quiz, answers);
    updates := quiz.profileUpdates;
    finalScores := quiz.scores;
    forall t {
      TallyCounts(answers, t);
    }
  }
}
