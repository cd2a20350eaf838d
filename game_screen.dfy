/**
 * The trivia quiz screen (frontend/screens/Game.js): the question list, the
 * cursor, the score, the result flag, the five-minute timer and the history
 * of the last five scores. Each React state update is a field assignment;
 * the interval tick and the effect that follows it are one step.
 */
module GameScreen {
  /** A question as the trivia service sends it; HTML entities are taken as already decoded. */
  datatype RawQuestion = RawQuestion(question: string, incorrectAnswers: seq<string>, correctAnswer: string)

  /** A question as the screen shows it. */
  datatype Question = Question(question: string, options: seq<string>, answer: string)

  /** A saved result: the score and the locale's rendering of the moment it was saved. */
  datatype SavedScore = SavedScore(score: nat, date: string)

  const QuizSeconds: nat := 300
  const HistoryLength: nat := 5

  // ---------------------------------------------------------------------------
  // Option lists

  /** One exchange of two positions. */
  function Swap<T>(xs: seq<T>, i: nat, j: nat): (r: seq<T>)
    requires i < |xs| && j < |xs|
    ensures |r| == |xs| && r[i] == xs[j] && r[j] == xs[i]
    ensures forall k | 0 <= k < |xs| && k != i && k != j :: r[k] == xs[k]
  {
    xs[i := xs[j]][j := xs[i]]
  }

  lemma SwapKeepsElements<T>(xs: seq<T>, i: nat, j: nat)
    requires i < |xs| && j < |xs|
    ensures multiset(Swap(xs, i, j)) == multiset(xs)
  {
    var a := xs[i := xs[j]];
    assert multiset(a) == multiset(xs) - multiset{xs[i]} + multiset{xs[j]};
    assert multiset(a[j := xs[i]]) == multiset(a) - multiset{a[j]} + multiset{xs[i]};
  }

  /**
   * The exchanges a sort performs under the comparator `Math.random() - 0.5`:
   * which ones happen is left to the parameter.
   */
  function Shuffle<T>(xs: seq<T>, swaps: seq<(nat, nat)>): (r: seq<T>)
    requires forall k | 0 <= k < |swaps| :: swaps[k].0 < |xs| && swaps[k].1 < |xs|
    ensures |r| == |xs|
    decreases |swaps|
  {
    if swaps == [] then xs
    else Shuffle(Swap(xs, swaps[0].0, swaps[0].1), swaps[1..])
  }

  /** Any run of exchanges leaves the same elements, each as often as before. */
  lemma {:induction false} ShuffleKeepsElements<T>(xs: seq<T>, swaps: seq<(nat, nat)>)
    requires forall k | 0 <= k < |swaps| :: swaps[k].0 < |xs| && swaps[k].1 < |xs|
    ensures multiset(Shuffle(xs, swaps)) == multiset(xs)
    decreases |swaps|
  {
    if swaps != [] {
      SwapKeepsElements(xs, swaps[0].0, swaps[0].1);
      ShuffleKeepsElements(Swap(xs, swaps[0].0, swaps[0].1), swaps[1..]);
    }
  }

  /** Whether `swaps` only names positions of a list of length `n`. */
  predicate SwapsWithin(swaps: seq<(nat, nat)>, n: nat) {
    forall k | 0 <= k < |swaps| :: swaps[k].0 < n && swaps[k].1 < n
  }

  /** The formatting of one question: the incorrect answers and the correct one, shuffled. */
  function FormatQuestion(raw: RawQuestion, swaps: seq<(nat, nat)>): (q: Question)
    requires SwapsWithin(swaps, |raw.incorrectAnswers| + 1)
    ensures q.question == raw.question && q.answer == raw.correctAnswer
    ensures multiset(q.options) == multiset(raw.incorrectAnswers + [raw.correctAnswer])
    ensures q.answer in q.options
  {
    var all := raw.incorrectAnswers + [raw.correctAnswer];
    var options := Shuffle(all, swaps);
    ShuffleKeepsElements(all, swaps);
    assert raw.correctAnswer in multiset(options) by {
      assert all[|all| - 1] == raw.correctAnswer;
    }
    Question(raw.question, options, raw.correctAnswer)
  }

  /** `data.map(...)`: one formatted question per question received, in order. */
  function FormatQuestions(raw: seq<RawQuestion>, swaps: seq<seq<(nat, nat)>>): (qs: seq<Question>)
    requires |swaps| == |raw|
    requires forall k | 0 <= k < |raw| :: SwapsWithin(swaps[k], |raw[k].incorrectAnswers| + 1)
    ensures |qs| == |raw|
    ensures forall k | 0 <= k < |raw| :: qs[k] == FormatQuestion(raw[k], swaps[k])
  {
    seq(|raw|, k requires 0 <= k < |raw| => FormatQuestion(raw[k], swaps[k]))
  }

  // ---------------------------------------------------------------------------
  // The score history

  /** `[newScore, ...prev].slice(0, 5)`. */
  function PushScore(list: seq<SavedScore>, entry: SavedScore): (r: seq<SavedScore>)
    ensures |r| == if |list| < HistoryLength then |list| + 1 else HistoryLength
    ensures r[0] == entry
    ensures r[1..] == list[..|r| - 1]
  {
    var r := ([entry] + list)[..if |list| < HistoryLength then |list| + 1 else HistoryLength];
    assert r[1..] == list[..|r| - 1];
    r
  }

  /** The saves, one after the other, starting from `list`: at most five are kept. */
  function PushAll(list: seq<SavedScore>, entries: seq<SavedScore>): (r: seq<SavedScore>)
    ensures entries != [] ==>
      |r| == if |list| + |entries| < HistoryLength then |list| + |entries| else HistoryLength
    decreases |entries|
  {
    if entries == [] then list
    else PushScore(PushAll(list, entries[..|entries| - 1]), entries[|entries| - 1])
  }

  /** After any run of saves, position `k` of the history holds the k-th newest save. */
  lemma {:induction false} PushAllNewestFirst(list: seq<SavedScore>, entries: seq<SavedScore>, k: nat)
    requires k < |entries| && k < HistoryLength
    ensures k < |PushAll(list, entries)| && PushAll(list, entries)[k] == entries[|entries| - 1 - k]
    decreases |entries|
  {
    var prefix := entries[..|entries| - 1];
    var before := PushAll(list, prefix);
    var after := PushAll(list, entries);
    assert after == PushScore(before, entries[|entries| - 1]);
    if k > 0 {
      PushAllNewestFirst(list, prefix, k - 1);
      assert after[k] == after[1..][k - 1];
    }
  }

  // ---------------------------------------------------------------------------
  // The screen

  class Quiz {
    var questions: seq<Question>
    var currentQuestion: nat
    var score: nat
    var showResult: bool
    var timeLeft: nat
    var loading: bool
    var scoreList: seq<SavedScore>

    /** The history never holds more than five scores, and the timer never exceeds its start. */
    ghost predicate Valid()
      reads this
    {
      |scoreList| <= HistoryLength && timeLeft <= QuizSeconds
    }

    constructor ()
      ensures Valid()
      ensures questions == [] && currentQuestion == 0 && score == 0 && !showResult
      ensures timeLeft == QuizSeconds && loading && scoreList == []
    {
      questions := [];
      currentQuestion := 0;
      score := 0;
      showResult := false;
      timeLeft := QuizSeconds;
      loading := true;
      scoreList := [];
    }

    /** The fetched questions arrive: they are formatted and loading ends. */
    method QuestionsLoaded(raw: seq<RawQuestion>, swaps: seq<seq<(nat, nat)>>)
      requires Valid()
      requires |swaps| == |raw|
      requires forall k | 0 <= k < |raw| :: SwapsWithin(swaps[k], |raw[k].incorrectAnswers| + 1)
      modifies this
      ensures Valid()
      ensures questions == FormatQuestions(raw, swaps) && !loading
      ensures currentQuestion == old(currentQuestion) && score == old(score) && showResult == old(showResult)
      ensures timeLeft == old(timeLeft) && scoreList == old(scoreList)
    {
      questions := FormatQuestions(raw, swaps);
      loading := false;
    }

    /**
     * `handleAnswer`: a right answer adds exactly one point; the cursor moves
     * on while questions remain, and after the last one the result is shown
     * and the score the handler saw, before this answer's point, is saved.
     */
    method HandleAnswer(selectedOption: string, date: string)
      requires Valid() && currentQuestion < |questions|
      modifies this
      ensures Valid()
      ensures score == old(score) + if selectedOption == old(questions[currentQuestion]).answer then 1 else 0
      ensures old(currentQuestion) + 1 < |questions| ==>
        currentQuestion == old(currentQuestion) + 1 && showResult == old(showResult) && scoreList == old(scoreList)
      ensures old(currentQuestion) + 1 >= |questions| ==>
        && currentQuestion == old(currentQuestion) && showResult
        && scoreList == PushScore(old(scoreList), SavedScore(old(score), date))
      ensures questions == old(questions) && timeLeft == old(timeLeft) && loading == old(loading)
    {
      var seen := score;
      if selectedOption == questions[currentQuestion].answer {
        score := score + 1;
      }
      if currentQuestion + 1 < |questions| {
        currentQuestion := currentQuestion + 1;
      } else {
        showResult := true;
        scoreList := PushScore(scoreList, SavedScore(seen, date));
      }
    }

    /** The same handler with the saved entry taken after this answer's point. */
    method HandleAnswerCounted(selectedOption: string, date: string)
      requires Valid() && currentQuestion < |questions|
      modifies this
      ensures Valid()
      ensures score == old(score) + if selectedOption == old(questions[currentQuestion]).answer then 1 else 0
      ensures old(currentQuestion) + 1 < |questions| ==>
        currentQuestion == old(currentQuestion) + 1 && showResult == old(showResult) && scoreList == old(scoreList)
      ensures old(currentQuestion) + 1 >= |questions| ==>
        && currentQuestion == old(currentQuestion) && showResult
        && scoreList == PushScore(old(scoreList), SavedScore(score, date))
        && scoreList[0].score == score
      ensures questions == old(questions) && timeLeft == old(timeLeft) && loading == old(loading)
    {
      if selectedOption == questions[currentQuestion].answer {
        score := score + 1;
      }
      if currentQuestion + 1 < |questions| {
        currentQuestion := currentQuestion + 1;
      } else {
        showResult := true;
        scoreList := PushScore(scoreList, SavedScore(score, date));
      }
    }

    /** `restartQuiz`: back to the first question with no points and a full timer; new questions are fetched. */
    method Restart()
      requires Valid()
      modifies this
      ensures Valid()
      ensures currentQuestion == 0 && score == 0 && timeLeft == QuizSeconds && !showResult && loading
      ensures questions == old(questions) && scoreList == old(scoreList)
    {
      currentQuestion := 0;
      score := 0;
      timeLeft := QuizSeconds;
      showResult := false;
      loading := true;
    }

    /**
     * One second of the timer effect: it counts down only while time is left
     * and no result is shown, and reaching zero shows the result. Running out
     * of time saves no score.
     */
    method Tick()
      requires Valid()
      modifies this
      ensures Valid()
      ensures old(timeLeft) > 0 && !old(showResult) ==> timeLeft == old(timeLeft) - 1 && showResult == (timeLeft == 0)
      ensures !(old(timeLeft) > 0 && !old(showResult)) ==>
        timeLeft == old(timeLeft) && showResult == (old(showResult) || old(timeLeft) == 0)
      ensures questions == old(questions) && currentQuestion == old(currentQuestion) && score == old(score)
      ensures scoreList == old(scoreList) && loading == old(loading)
    {
      if timeLeft > 0 && !showResult {
        timeLeft := timeLeft - 1;
      }
      if timeLeft == 0 {
        showResult := true;
      }
    }
  }

  /** A one-question quiz answered right: the screen shows one point, the history keeps zero. */
  method LastAnswerNotCounted() returns (shown: nat, saved: nat)
    ensures shown == 1 && saved == 0
  {
    var quiz := new Quiz();
    quiz.QuestionsLoaded([RawQuestion("Q", ["no"], "yes")], [[]]);
    assert quiz.questions[0].answer == "yes";
    quiz.HandleAnswer("yes", "now");
    shown, saved := quiz.score, quiz.scoreList[0].score;
  }
}
