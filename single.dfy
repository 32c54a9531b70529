/**
 * Single-player mode (SingleGame in app/game.tsx): three lives, ten points
 * per correct answer, and a set of ids answered correctly that keeps a
 * question from being drawn twice.
 *
 * The random draw is an index parameter. The alert, the navigation to the
 * game-over screen and the delayed round clears become an event log and a
 * queue of pending timers that an explicit step fires.
 */
module SingleMode {
  import opened Text
  import opened Questions

  datatype Feedback = NoFeedback | CorrectFeedback | IncorrectFeedback(answer: string)

  /** A pending setTimeout callback, with its delay in milliseconds. */
  datatype Timer =
    | ClearRound(delay: nat)              // clear category, question and feedback
    | FinishGame(score: int, delay: nat)  // replace the screen with the game-over screen

  datatype SingleEvent =
    | NoMoreQuestionsAlert    // the alert whose OK button clears the round
    | GoToGameOver(score: int)

  datatype SingleState = SingleState(
    lives: int,
    score: int,
    category: Option<string>,
    question: Option<Question>,
    usedIds: set<string>,
    feedback: Feedback,
    pending: seq<Timer>,
    events: seq<SingleEvent>)

  const START: SingleState := SingleState(3, 0, None, None, {}, NoFeedback, [], [])

  /** QUESTIONS[category] ?? [] */
  function Pool(category: string): seq<Question> {
    if category in QUESTIONS then QUESTIONS[category] else []
  }

  /** The questions of a pool whose ids have not been used, in pool order. */
  function Unused(pool: seq<Question>, used: set<string>): (r: seq<Question>)
    ensures forall q :: q in r <==> q in pool && q.id !in used
    ensures |r| <= |pool|
    decreases |pool|
  {
    if pool == [] then []
    else (if pool[0].id in used then [] else [pool[0]]) + Unused(pool[1..], used)
  }

  /** Object.values(QUESTIONS).flat().length */
  function TotalQuestions(): nat {
    |AllQuestions()|
  }

  /** A valid random index into the unused questions of the category (any index if there are none). */
  predicate ValidDraw(s: SingleState, category: string, pick: nat) {
    Unused(Pool(category), s.usedIds) != [] ==> pick < |Unused(Pool(category), s.usedIds)|
  }

  /**
   * selectQuestionFromCategory: draws an unused question of the category, or
   * raises the no-more-questions alert and leaves everything else alone.
   */
  function Select(s: SingleState, category: string, pick: nat): (r: SingleState)
    requires ValidDraw(s, category, pick)
    ensures Unused(Pool(category), s.usedIds) == [] ==> r == s.(events := s.events + [NoMoreQuestionsAlert])
    ensures Unused(Pool(category), s.usedIds) != [] ==>
      && r == s.(question := r.question)
      && r.question.Some?
      && r.question.value in Pool(category)
      && r.question.value.id !in s.usedIds
  {
    var available := Unused(Pool(category), s.usedIds);
    if available == [] then s.(events := s.events + [NoMoreQuestionsAlert])
    else s.(question := Some(available[pick]))
  }

  /** The OK button of the no-more-questions alert. */
  function NoMoreQuestionsOk(s: SingleState): SingleState {
    s.(category := None, question := None)
  }

  /** handleSelectCategory: a wheel choice sets the category and hides the feedback. */
  function SelectCategory(s: SingleState, category: string): SingleState {
    s.(category := Some(category), feedback := NoFeedback)
  }

  /** handleAnswer */
  function Answer(s: SingleState, option: string): SingleState {
    if s.question.None? then s
    else
      var q := s.question.value;
      if option == q.answer then
        var newScore := s.score + 10;
        var t := s.(score := newScore, usedIds := s.usedIds + {q.id}, feedback := CorrectFeedback);
        if |s.usedIds| + 1 >= TotalQuestions() then t.(pending := t.pending + [FinishGame(newScore, 2000)])
        else t.(pending := t.pending + [ClearRound(2000)])
      else
        s.(feedback := IncorrectFeedback(q.answer), lives := s.lives - 1, pending := s.pending + [ClearRound(3000)])
  }

  /** The earliest pending timer fires. */
  function Fire(s: SingleState): SingleState
    requires s.pending != []
  {
    var rest := s.pending[1..];
    match s.pending[0]
    case ClearRound(_) => s.(category := None, question := None, feedback := NoFeedback, pending := rest)
    case FinishGame(score, _) => s.(events := s.events + [GoToGameOver(score)], pending := rest)
  }

  /** The effect on lives and score: at no lives left the game-over screen replaces the game. */
  function LivesEffect(s: SingleState): SingleState {
    if s.lives <= 0 then s.(events := s.events + [GoToGameOver(s.score)]) else s
  }

  // ---------------------------------------------------------------------
  // What one answer does.

  /** An answer with no question on screen changes nothing. */
  lemma AnswerWithoutQuestion(s: SingleState, option: string)
    requires s.question.None?
    ensures Answer(s, option) == s
  {
  }

  /** A correct answer: ten more points, the id is used, lives unchanged, one timer. */
  lemma AnswerCorrect(s: SingleState, option: string)
    requires s.question.Some? && option == s.question.value.answer
    ensures var r := Answer(s, option);
      && r.score == s.score + 10
      && r.usedIds == s.usedIds + {s.question.value.id}
      && r.lives == s.lives
      && r.feedback == CorrectFeedback
      && |r.pending| == |s.pending| + 1
      && r.events == s.events
  {
  }

  /** A wrong answer (a timeout included): one life less, score and used ids unchanged. */
  lemma AnswerIncorrect(s: SingleState, option: string)
    requires s.question.Some? && option != s.question.value.answer
    ensures var r := Answer(s, option);
      && r.lives == s.lives - 1
      && r.score == s.score
      && r.usedIds == s.usedIds
      && r.feedback == IncorrectFeedback(s.question.value.answer)
      && r.pending == s.pending + [ClearRound(3000)]
  {
  }

  /** The lives effect asks for the game-over screen, with the score, exactly when no lives are left. */
  lemma LivesEffectEndsGame(s: SingleState)
    ensures LivesEffect(s) == s.(events := LivesEffect(s).events)
    ensures LivesEffect(s).events != s.events <==> s.lives <= 0
    ensures s.lives <= 0 ==> LivesEffect(s).events == s.events + [GoToGameOver(s.score)]
  {
  }

  // ---------------------------------------------------------------------
  // The end condition.

  lemma SubsetOfSameSize(a: set<string>, b: set<string>)
    requires a <= b && |a| == |b|
    ensures a == b
  {
    assert b == a + (b - a);
    assert |b - a| == 0;
    assert b - a == {};
  }

  lemma SubsetSize(a: set<string>, b: set<string>)
    requires a <= b
    ensures |a| <= |b|
  {
    assert b == a + (b - a);
    assert |b| == |a| + |b - a|;
  }

  /** Adding one more unused member fills the set exactly when one member was missing. */
  lemma LastUnusedId(used: set<string>, id: string, all: set<string>)
    requires used <= all && id in all && id !in used
    ensures |used| + 1 >= |all| <==> used + {id} == all
  {
    var after := used + {id};
    assert |after| == |used| + 1;
    SubsetSize(after, all);
    if |used| + 1 >= |all| {
      SubsetOfSameSize(after, all);
    }
  }

  /**
   * With the used ids drawn from the table and the answered question not yet
   * used, the test `usedIds.size + 1 >= total` holds exactly when the answer
   * uses up the last question of the table.
   */
  lemma EndConditionIsExhaustion(used: set<string>, q: Question)
    requires used <= AllIds() && q in AllQuestions() && q.id !in used
    ensures |used| + 1 >= TotalQuestions() <==> used + {q.id} == AllIds()
  {
    AllIdsCount();
    LastUnusedId(used, q.id, AllIds());
  }

  // ---------------------------------------------------------------------
  // The invariant the used-id bookkeeping keeps.

  /**
   * The used ids are table ids and the score counts them (ten points each);
   * a question on screen belongs to the table and to the current category,
   * and while it can be answered its id is unused.
   */
  ghost predicate Inv(s: SingleState) {
    && s.usedIds <= AllIds()
    && s.score == 10 * |s.usedIds|
    && s.lives <= 3
    && (s.question.Some? ==> s.question.value in AllQuestions() && s.category.Some?)
    && (s.question.Some? && s.feedback.NoFeedback? ==> s.question.value.id !in s.usedIds)
  }

  lemma StartInv()
    ensures Inv(START)
  {
  }

  lemma SelectKeepsInv(s: SingleState, category: string, pick: nat)
    requires Inv(s) && ValidDraw(s, category, pick)
    requires s.category == Some(category)
    ensures Inv(Select(s, category, pick))
  {
    if category in QUESTIONS {
      PoolsInTable(category);
    }
  }

  /** The wheel is shown only with no category and no feedback. */
  lemma SelectCategoryKeepsInv(s: SingleState, category: string)
    requires Inv(s) && s.category.None? && s.feedback.NoFeedback?
    ensures Inv(SelectCategory(s, category))
  {
  }

  /** The card can be answered only while no feedback is shown. */
  lemma AnswerKeepsInv(s: SingleState, option: string)
    requires Inv(s) && s.feedback.NoFeedback?
    ensures Inv(Answer(s, option))
  {
    if s.question.None? {
      AnswerWithoutQuestion(s, option);
    } else if option == s.question.value.answer {
      CorrectAnswerKeepsInv(s, option);
    } else {
      AnswerIncorrect(s, option);
    }
  }

  /** The correct-answer case: the new id was unused, so score and count still agree. */
  lemma CorrectAnswerKeepsInv(s: SingleState, option: string)
    requires Inv(s) && s.feedback.NoFeedback?
    requires s.question.Some? && option == s.question.value.answer
    ensures Inv(Answer(s, option))
  {
    var q := s.question.value;
    var r := Answer(s, option);
    AnswerCorrect(s, option);
    AllIdsCount();
    assert q.id in AllIds() && q.id !in s.usedIds;
    assert |r.usedIds| == |s.usedIds| + 1;
    assert r.question == s.question && r.category == s.category;
  }

  lemma FireKeepsInv(s: SingleState)
    requires Inv(s) && s.pending != []
    ensures Inv(Fire(s))
  {
    var r := Fire(s);
    match s.pending[0] {
      case ClearRound(_) =>
        assert r.question.None? && r.usedIds == s.usedIds && r.score == s.score && r.lives == s.lives;
      case FinishGame(_, _) =>
        assert r == s.(events := r.events, pending := s.pending[1..]);
    }
  }

  lemma OkKeepsInv(s: SingleState)
    requires Inv(s)
    ensures Inv(NoMoreQuestionsOk(s))
  {
  }

  lemma LivesEffectKeepsInv(s: SingleState)
    requires Inv(s)
    ensures Inv(LivesEffect(s))
  {
  }

  /** The progress line never shows more answered questions than the table holds. */
  lemma ProgressBounded(s: SingleState)
    requires Inv(s)
    ensures |s.usedIds| <= TotalQuestions()
  {
    AllIdsCount();
    SubsetSize(s.usedIds, AllIds());
  }

  /**
   * A correct answer schedules the game-over screen, with the new score,
   * exactly when every question of the table has now been answered.
   */
  lemma FinishesExactlyWhenExhausted(s: SingleState, option: string)
    requires Inv(s) && s.feedback.NoFeedback?
    requires s.question.Some? && option == s.question.value.answer
    ensures var r := Answer(s, option);
      (r.pending == s.pending + [FinishGame(r.score, 2000)] <==> r.usedIds == AllIds())
  {
    var q := s.question.value;
    var r := Answer(s, option);
    var finish := |s.usedIds| + 1 >= TotalQuestions();
    CorrectAnswerTimer(s, option);
    if !finish {
      assert r.pending[|s.pending|] != FinishGame(r.score, 2000);
    }
    EndConditionIsExhaustion(s.usedIds, q);
  }

  lemma CorrectAnswerTimer(s: SingleState, option: string)
    requires s.question.Some? && option == s.question.value.answer
    ensures var r := Answer(s, option);
      && r.usedIds == s.usedIds + {s.question.value.id}
      && r.pending == s.pending + [if |s.usedIds| + 1 >= TotalQuestions() then FinishGame(r.score, 2000) else ClearRound(2000)]
  {
  }

  /** A drawn question can be answered: it is on screen and its id is unused. */
  lemma DrawThenAnswerable(s: SingleState, category: string, pick: nat)
    requires Inv(s) && ValidDraw(s, category, pick)
    requires s.category == Some(category) && s.feedback.NoFeedback?
    requires Unused(Pool(category), s.usedIds) != []
    ensures var r := Select(s, category, pick);
      r.question.Some? && r.question.value.id !in r.usedIds && Inv(r)
  {
    SelectKeepsInv(s, category, pick);
  }

  // ---------------------------------------------------------------------
  // The component.

  class SingleGame {
    var lives: int
    var score: int
    var currentCategory: Option<string>
    var currentQuestion: Option<Question>
    var usedIds: set<string>
    var showFeedback: Feedback
    var pending: seq<Timer>
    var events: seq<SingleEvent>

    ghost function State(): SingleState
      reads this
    {
      SingleState(lives, score, currentCategory, currentQuestion, usedIds, showFeedback, pending, events)
    }

    constructor ()
      ensures State() == START
    {
      lives := 3;
      score := 0;
      currentCategory := None;
      currentQuestion := None;
      usedIds := {};
      showFeedback := NoFeedback;
      pending := [];
      events := [];
    }

    method SelectQuestionFromCategory(category: string, pick: nat)
      requires ValidDraw(State(), category, pick)
      modifies this
      ensures State() == Select(old(State()), category, pick)
    {
      var available := Unused(Pool(category), usedIds);
      if |available| == 0 {
        assert available == [];
        events := events + [NoMoreQuestionsAlert];
        return;
      }
      ghost var before := State();
      currentQuestion := Some(available[pick]);
      assert State() == before.(question := Some(available[pick]));
    }

    method PressNoMoreQuestionsOk()
      modifies this
      ensures State() == NoMoreQuestionsOk(old(State()))
    {
      currentCategory := None;
      currentQuestion := None;
    }

    method HandleSelectCategory(category: string)
      modifies this
      ensures State() == SelectCategory(old(State()), category)
    {
      currentCategory := Some(category);
      showFeedback := NoFeedback;
    }

    method HandleAnswer(option: string)
      modifies this
      ensures State() == Answer(old(State()), option)
    {
      if currentQuestion.None? {
        return;
      }
      var q := currentQuestion.value;
      if option == q.answer {
        var newScore := score + 10;
        score := newScore;
        var oldSize := |usedIds|;
        usedIds := usedIds + {q.id};
        showFeedback := CorrectFeedback;
        var totalQuestions := |AllQuestions()|;
        if oldSize + 1 >= totalQuestions {
          pending := pending + [FinishGame(newScore, 2000)];
          return;
        }
        pending := pending + [ClearRound(2000)];
      } else {
        showFeedback := IncorrectFeedback(q.answer);
        lives := lives - 1;
        pending := pending + [ClearRound(3000)];
      }
    }

    method FireTimer()
      requires pending != []
      modifies this
      ensures State() == Fire(old(State()))
    {
      var t := pending[0];
      pending := pending[1..];
      match t
      case ClearRound(_) =>
        currentCategory := None;
        currentQuestion := None;
        showFeedback := NoFeedback;
      case FinishGame(s, _) =>
        events := events + [GoToGameOver(s)];
    }

    method RunLivesEffect()
      modifies this
      ensures State() == LivesEffect(old(State()))
    {
      if lives <= 0 {
        events := events + [GoToGameOver(score)];
      }
    }
  }
}
