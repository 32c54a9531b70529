/**
 * Two-player mode (MultiGame in app/game.tsx). Each peer keeps its own copy
 * of the match: whose turn it is, lives and score per player, and the
 * question on screen. The host is player 1, the guest player 2. Peers keep
 * their copies in step by sending CATEGORY_SELECTED, ANSWER_SUBMITTED,
 * TURN_CHANGED and GAME_OVER over the session link.
 *
 * Every handler is a step function from a state to a state and the messages
 * it sends; the class below runs the same steps on its fields and hands the
 * messages to the link. The random draw is an index parameter; alerts and
 * navigation are events; the delayed round clear is a pending count fired
 * by an explicit step.
 */
module Match {
  import opened Text
  import opened Questions
  import opened Messages
  import opened Link

  /** The 'p1' | 'p2' keys of the per-player records. */
  datatype PlayerKey = P1 | P2

  function Other(k: PlayerKey): PlayerKey {
    if k == P1 then P2 else P1
  }

  /** A { p1, p2 } record of lives or scores. */
  datatype Pair = Pair(p1: int, p2: int) {
    function Get(k: PlayerKey): int {
      if k == P1 then p1 else p2
    }

    /** { ...pair, [k]: v } */
    function With(k: PlayerKey, v: int): (r: Pair)
      ensures r.Get(k) == v && r.Get(Other(k)) == Get(Other(k))
    {
      if k == P1 then Pair(v, p2) else Pair(p1, v)
    }
  }

  datatype Feedback = NoFeedback | CorrectFeedback | IncorrectFeedback(answer: string)

  datatype MatchEvent =
    | NotYourTurnAlert
    | ShowGameOver(winner: string)                        // the game-over screen with a winner
    | ShowFinalScores(winner: string, p1: int, p2: int)   // ... with the winner and both scores

  datatype MatchState = MatchState(
    isHost: bool,
    currentTurn: int,
    lives: Pair,
    score: Pair,
    category: Option<string>,
    question: Option<Question>,
    feedback: Feedback,
    pendingClears: nat,
    events: seq<MatchEvent>)

  /** A handler's outcome: the new state and the messages it sent, in order. */
  datatype Step = Step(state: MatchState, sent: seq<GameMessage>)

  /** myPlayerNumber: the host plays as 1, the guest as 2. */
  function MyNumber(isHost: bool): int {
    if isHost then 1 else 2
  }

  /** The key of a player number as the handlers compute it: 1 is p1, anything else p2. */
  function KeyOf(n: int): PlayerKey {
    if n == 1 then P1 else P2
  }

  function NumberOf(k: PlayerKey): int {
    if k == P1 then 1 else 2
  }

  function WinnerName(k: PlayerKey): string {
    if k == P1 then "Player 1" else "Player 2"
  }

  function Initial(isHost: bool): MatchState {
    MatchState(isHost, 1, Pair(3, 3), Pair(0, 0), None, None, NoFeedback, 0, [])
  }

  /** A valid random index into the category's pool (any index for an unknown category). */
  predicate ValidPick(category: string, pick: nat) {
    category in QUESTIONS ==> pick < |QUESTIONS[category]|
  }

  /**
   * pickQuestion: a question of the category's pool. For a category that is
   * not in the table the source throws before anything else happens; that is
   * None here.
   */
  function PickQuestion(category: string, pick: nat): (q: Option<Question>)
    requires ValidPick(category, pick)
    ensures q.Some? <==> category in QUESTIONS
    ensures q.Some? ==> q.value in QUESTIONS[category] && q.value in AllQuestions()
  {
    if category in QUESTIONS then Some(QUESTIONS[category][pick]) else None
  }

  /** hostSelectCategory: draw, broadcast the category (not the question), then show both. */
  function HostSelectCategory(s: MatchState, category: string, pick: nat): Step
    requires ValidPick(category, pick)
  {
    match PickQuestion(category, pick)
    case None => Step(s, [])
    case Some(q) => Step(s.(category := Some(category), question := Some(q)), [CategorySelected(category)])
  }

  /** handleSelectCategory: only the host's wheel has an effect. */
  function SelectCategory(s: MatchState, category: string, pick: nat): Step
    requires ValidPick(category, pick)
  {
    if !s.isHost then Step(s, []) else HostSelectCategory(s, category, pick)
  }

  /** handleAnswer: the local player answers the question on screen. */
  function LocalAnswer(s: MatchState, option: string): (r: Step)
    ensures forall i :: 0 <= i < |r.sent| ==> !r.sent[i].CategorySelected?
  {
    if s.question.None? then Step(s, [])
    else if s.currentTurn != MyNumber(s.isHost) then Step(s.(events := s.events + [NotYourTurnAlert]), [])
    else InTurnAnswer(s, option)
  }

  /** The part of handleAnswer past its two guards. */
  function InTurnAnswer(s: MatchState, option: string): (r: Step)
    requires s.question.Some?
    ensures forall i :: 0 <= i < |r.sent| ==> !r.sent[i].CategorySelected?
  {
    var q := s.question.value;
    var me := MyNumber(s.isHost);
    var key := KeyOf(me);
    var correct := option == q.answer;
    var answered := AnswerSubmitted(option, correct, 0);
    var s1 :=
      if correct then s.(score := s.score.With(key, s.score.Get(key) + 10), feedback := CorrectFeedback)
      else s.(lives := s.lives.With(key, s.lives.Get(key) - 1), feedback := IncorrectFeedback(q.answer));
    if s.lives.Get(key) - (if correct then 0 else 1) <= 0 then
      var winner := if me == 1 then "Player 2" else "Player 1";
      var over := if s.isHost then [GameOver(winner, Scores(s.score.p1, s.score.p2))] else [];
      Step(s1.(events := s1.events + [ShowGameOver(winner)]), [answered] + over)
    else
      var next := if me == 1 then 2 else 1;
      Step(s1.(currentTurn := next, pendingClears := s1.pendingClears + 1), [answered, TurnChanged(next)])
  }

  /** A valid draw for the message (only CATEGORY_SELECTED draws). */
  predicate ValidRemotePick(msg: GameMessage, pick: nat) {
    msg.CategorySelected? ==> ValidPick(msg.category, pick)
  }

  /** handleRemoteMessage: what the peer's message does to the local copy. */
  function RemoteMessage(s: MatchState, msg: GameMessage, pick: nat): Step
    requires ValidRemotePick(msg, pick)
  {
    match msg
    case CategorySelected(category) =>
      (match PickQuestion(category, pick)
       case None => Step(s, [])
       case Some(q) => Step(s.(category := Some(category), question := Some(q)), []))
    case AnswerSubmitted(_, correct, _) => RemoteAnswer(s, correct)
    case TurnChanged(n) => Step(s.(currentTurn := n), [])
    case GameOver(winner, scores) =>
      Step(s.(events := s.events + [ShowFinalScores(winner, scores.player1, scores.player2)]), [])
    case _ => Step(s, [])
  }

  /** ANSWER_SUBMITTED from the peer: count the answer for the player whose turn this copy records. */
  function RemoteAnswer(s: MatchState, correct: bool): Step {
    var otherKey := KeyOf(s.currentTurn);
    var myKey := Other(otherKey);
    var s1 :=
      if correct then s.(score := s.score.With(otherKey, s.score.Get(otherKey) + 10))
      else s.(lives := s.lives.With(otherKey, s.lives.Get(otherKey) - 1));
    if s.lives.Get(otherKey) - (if correct then 0 else 1) <= 0 then
      var winner := WinnerName(myKey);
      Step(s1.(events := s1.events + [ShowGameOver(winner)]), [GameOver(winner, Scores(s.score.p1, s.score.p2))])
    else
      Step(s1.(currentTurn := NumberOf(myKey), pendingClears := s1.pendingClears + 1), [])
  }

  /** The round-clear timer fires. */
  function FireClear(s: MatchState): MatchState
    requires s.pendingClears > 0
  {
    s.(category := None, question := None, feedback := NoFeedback, pendingClears := s.pendingClears - 1)
  }

  // ---------------------------------------------------------------------
  // Properties of single steps.

  /** A match starts at turn 1 with three lives and no points each; the host is player 1. */
  lemma InitialState(isHost: bool)
    ensures var s := Initial(isHost);
      && s.currentTurn == 1
      && s.lives.Get(P1) == 3 && s.lives.Get(P2) == 3
      && s.score.Get(P1) == 0 && s.score.Get(P2) == 0
      && (MyNumber(isHost) == 1 <==> isHost)
      && (MyNumber(isHost) == 2 <==> !isHost)
  {
  }

  /** The guest's wheel does nothing; the host's broadcasts its category and shows a question of it. */
  lemma SelectCategoryEffect(s: MatchState, category: string, pick: nat)
    requires ValidPick(category, pick) && category in QUESTIONS
    ensures var r := SelectCategory(s, category, pick);
      && (!s.isHost ==> r == Step(s, []))
      && (s.isHost ==>
            && r.sent == [CategorySelected(category)]
            && r.state.category == Some(category)
            && r.state.question.Some? && r.state.question.value in QUESTIONS[category])
  {
  }

  /** With no question, or out of turn, an answer sends nothing and changes no game state. */
  lemma IdleAnswer(s: MatchState, option: string)
    requires s.question.None? || s.currentTurn != MyNumber(s.isHost)
    ensures var r := LocalAnswer(s, option);
      && r.sent == []
      && r.state == s.(events := r.state.events)
      && (s.question.Some? ==> r.state.events == s.events + [NotYourTurnAlert])
  {
  }

  /**
   * An in-turn answer reports itself with score 0 and touches only the
   * answerer's own entry: ten points for a correct answer, one life for a
   * wrong one.
   */
  lemma InTurnAnswerCounts(s: MatchState, option: string)
    requires s.question.Some? && s.currentTurn == MyNumber(s.isHost)
    ensures var r := LocalAnswer(s, option);
      var key := KeyOf(MyNumber(s.isHost));
      var correct := option == s.question.value.answer;
      && r.sent != []
      && r.sent[0] == AnswerSubmitted(option, correct, 0)
      && r.state.score.Get(Other(key)) == s.score.Get(Other(key))
      && r.state.lives.Get(Other(key)) == s.lives.Get(Other(key))
      && (correct ==> r.state.score.Get(key) == s.score.Get(key) + 10 && r.state.lives == s.lives)
      && (!correct ==> r.state.lives.Get(key) == s.lives.Get(key) - 1 && r.state.score == s.score)
  {
  }

  /**
   * The answerer's own lives decide the end: at none left the opponent wins
   * and only the host sends GAME_OVER; otherwise the turn passes to the
   * other player and TURN_CHANGED says so.
   */
  lemma InTurnAnswerOutcome(s: MatchState, option: string)
    requires s.question.Some? && s.currentTurn == MyNumber(s.isHost)
    ensures var r := LocalAnswer(s, option);
      var me := MyNumber(s.isHost);
      var key := KeyOf(me);
      var other := 3 - me;
      (if r.state.lives.Get(key) <= 0 then
         && r.state.events == s.events + [ShowGameOver(WinnerName(KeyOf(other)))]
         && r.state.currentTurn == s.currentTurn
         && (s.isHost ==> r.sent == [r.sent[0], GameOver(WinnerName(KeyOf(other)), Scores(s.score.p1, s.score.p2))])
         && (!s.isHost ==> r.sent == [r.sent[0]])
       else
         && r.sent == [r.sent[0], TurnChanged(other)]
         && r.state.currentTurn == other
         && r.state.events == s.events)
  {
  }

  /**
   * Receiving ANSWER_SUBMITTED applies the same change to the player whose
   * turn the receiver records, whatever the answer and score fields say.
   */
  lemma RemoteAnswerEffect(s: MatchState, answer: string, correct: bool, score: int)
    ensures var r := RemoteMessage(s, AnswerSubmitted(answer, correct, score), 0);
      var key := KeyOf(s.currentTurn);
      && r == RemoteMessage(s, AnswerSubmitted("", correct, 0), 0)
      && r.state.score.Get(Other(key)) == s.score.Get(Other(key))
      && r.state.lives.Get(Other(key)) == s.lives.Get(Other(key))
      && (correct ==> r.state.score.Get(key) == s.score.Get(key) + 10 && r.state.lives == s.lives)
      && (!correct ==> r.state.lives.Get(key) == s.lives.Get(key) - 1 && r.state.score == s.score)
      && (if r.state.lives.Get(key) <= 0 then
            r.sent == [GameOver(WinnerName(Other(key)), Scores(s.score.p1, s.score.p2))]
            && r.state.events == s.events + [ShowGameOver(WinnerName(Other(key)))]
            && r.state.currentTurn == s.currentTurn
          else
            r.sent == [] && r.state.currentTurn == NumberOf(Other(key)))
  {
  }

  /** TURN_CHANGED sets the turn verbatim and nothing else. */
  lemma TurnChangedEffect(s: MatchState, n: int)
    ensures RemoteMessage(s, TurnChanged(n), 0) == Step(s.(currentTurn := n), [])
  {
  }

  /** A receiver shows the announced category and a question of its own drawing from that pool. */
  lemma RemoteCategoryEffect(s: MatchState, category: string, pick: nat)
    requires ValidPick(category, pick) && category in QUESTIONS
    ensures var r := RemoteMessage(s, CategorySelected(category), pick);
      && r.sent == []
      && r.state == s.(category := Some(category), question := r.state.question)
      && r.state.question.Some? && r.state.question.value in QUESTIONS[category]
  {
  }

  // ---------------------------------------------------------------------
  // The component.

  /** The writes sendMessage makes for each message in turn: none without a connected device. */
  function Frames(device: Option<BTDevice>, ms: seq<GameMessage>): (ws: seq<Write>)
    ensures device.None? ==> ws == []
    ensures device.Some? ==> |ws| == |ms|
  {
    if device.None? || ms == [] then []
    else [Write(device.value, Frame(ms[0]))] + Frames(device, ms[1..])
  }

  /** With a device, the i-th write is the i-th message's frame, to that device. */
  lemma {:induction false} FramesElements(device: Option<BTDevice>, ms: seq<GameMessage>, i: int)
    requires device.Some? && 0 <= i < |ms|
    ensures Frames(device, ms)[i] == Write(device.value, Frame(ms[i]))
    decreases |ms|
  {
    if i > 0 {
      FramesElements(device, ms[1..], i - 1);
    }
  }

  lemma AppendAssoc<T>(a: seq<T>, b: seq<T>, c: seq<T>)
    ensures (a + b) + c == a + (b + c)
  {
  }

  lemma {:induction false} FramesAppend(device: Option<BTDevice>, a: seq<GameMessage>, b: seq<GameMessage>)
    ensures Frames(device, a + b) == Frames(device, a) + Frames(device, b)
    decreases |a|
  {
    if device.None? {
    } else if a == [] {
      assert a + b == b;
    } else {
      assert (a + b)[0] == a[0];
      assert (a + b)[1..] == a[1..] + b;
      FramesAppend(device, a[1..], b);
    }
  }

  class MultiGame {
    const link: BluetoothService
    const isHost: bool
    var currentTurn: int
    var lives: Pair
    var score: Pair
    var currentCategory: Option<string>
    var currentQuestion: Option<Question>
    var showFeedback: Feedback
    var pendingClears: nat
    var events: seq<MatchEvent>

    ghost function State(): MatchState
      reads this
    {
      MatchState(isHost, currentTurn, lives, score, currentCategory, currentQuestion, showFeedback, pendingClears, events)
    }

    /**
     * The screen asks the link for its role on every render; the model reads
     * it once, when the screen opens. The two agree because nothing the
     * match screen can reach (it only sends, registers and unregisters)
     * changes the link's role flag while it is mounted.
     */
    constructor (link: BluetoothService)
      ensures this.link == link
      ensures State() == Initial(link.isHost)
    {
      this.link := link;
      isHost := link.isHost;
      currentTurn := 1;
      lives := Pair(3, 3);
      score := Pair(0, 0);
      currentCategory := None;
      currentQuestion := None;
      showFeedback := NoFeedback;
      pendingClears := 0;
      events := [];
    }

    /** sendMessage without awaiting it: a rejection (no device) is not handled. */
    method Send(m: GameMessage)
      modifies link`writes
      ensures link.writes == old(link.writes) + Frames(link.connectedDevice, [m])
    {
      var _ := link.SendMessage(m);
    }

    /** The effect that registers handleRemoteMessage in the link's listener slot. */
    method Register()
      modifies link`messageCallback
      ensures link.messageCallback == Some(MatchListener)
    {
      link.OnMessageReceived(MatchListener);
    }

    /** Its cleanup when the screen closes. */
    method Unregister()
      modifies link`messageCallback
      ensures link.messageCallback == Some(IdleListener)
    {
      link.OnMessageReceived(IdleListener);
    }

    method HandleSelectCategory(category: string, pick: nat)
      requires ValidPick(category, pick)
      modifies this, link`writes
      ensures State() == SelectCategory(old(State()), category, pick).state
      ensures link.writes == old(link.writes) + Frames(link.connectedDevice, SelectCategory(old(State()), category, pick).sent)
    {
      if !isHost {
        return;
      }
      var q := PickQuestion(category, pick);
      if q.None? {
        return;
      }
      Send(CategorySelected(category));
      currentCategory := Some(category);
      currentQuestion := q;
    }

    method HandleAnswer(option: string)
      modifies this, link`writes
      ensures State() == LocalAnswer(old(State()), option).state
      ensures link.writes == old(link.writes) + Frames(link.connectedDevice, LocalAnswer(old(State()), option).sent)
    {
      if currentQuestion.None? {
        return;
      }
      if currentTurn != MyNumber(isHost) {
        events := events + [NotYourTurnAlert];
        return;
      }
      AnswerInTurn(option);
    }

    /**
     * The messages go out in the order the source sends them; they are sent
     * after the state updates, which the link cannot observe.
     */
    method AnswerInTurn(option: string)
      requires currentQuestion.Some?
      modifies this, link`writes
      ensures State() == InTurnAnswer(old(State()), option).state
      ensures link.writes == old(link.writes) + Frames(link.connectedDevice, InTurnAnswer(old(State()), option).sent)
    {
      ghost var step := InTurnAnswer(State(), option);
      var q := currentQuestion.value;
      var me := MyNumber(isHost);
      var key := KeyOf(me);
      var correct := option == q.answer;
      var answered := AnswerSubmitted(option, correct, 0);
      var oldLives := lives;
      var oldScore := score;
      CountOwnAnswer(key, correct, q.answer);
      var follow: seq<GameMessage>;
      if oldLives.Get(key) - (if correct then 0 else 1) <= 0 {
        var winner := if me == 1 then "Player 2" else "Player 1";
        follow := if isHost then [GameOver(winner, Scores(oldScore.p1, oldScore.p2))] else [];
        events := events + [ShowGameOver(winner)];
      } else {
        var next := if me == 1 then 2 else 1;
        follow := [TurnChanged(next)];
        currentTurn := next;
        pendingClears := pendingClears + 1;
      }
      assert State() == step.state;
      assert step.sent == [answered] + follow;
      SendInOrder([answered] + follow);
    }

    /** One or two sendMessage calls, one after the other. */
    method SendInOrder(ms: seq<GameMessage>)
      requires 1 <= |ms| <= 2
      modifies link`writes
      ensures link.writes == old(link.writes) + Frames(link.connectedDevice, ms)
    {
      ghost var before := link.writes;
      Send(ms[0]);
      if |ms| == 2 {
        Send(ms[1]);
        AppendAssoc(before, Frames(link.connectedDevice, [ms[0]]), Frames(link.connectedDevice, [ms[1]]));
        FramesAppend(link.connectedDevice, [ms[0]], [ms[1]]);
        assert [ms[0]] + [ms[1]] == ms;
      } else {
        assert [ms[0]] == ms;
      }
    }

    /** setScore / setLives and setShowFeedback for the local player's own answer. */
    method CountOwnAnswer(key: PlayerKey, correct: bool, answer: string)
      modifies this`score, this`lives, this`showFeedback
      ensures correct ==> score == old(score).With(key, old(score).Get(key) + 10) && lives == old(lives)
                          && showFeedback == CorrectFeedback
      ensures !correct ==> lives == old(lives).With(key, old(lives).Get(key) - 1) && score == old(score)
                           && showFeedback == IncorrectFeedback(answer)
    {
      if correct {
        score := score.With(key, score.Get(key) + 10);
        showFeedback := CorrectFeedback;
      } else {
        lives := lives.With(key, lives.Get(key) - 1);
        showFeedback := IncorrectFeedback(answer);
      }
    }

    method HandleRemoteMessage(msg: GameMessage, pick: nat)
      requires ValidRemotePick(msg, pick)
      modifies this, link`writes
      ensures State() == RemoteMessage(old(State()), msg, pick).state
      ensures link.writes == old(link.writes) + Frames(link.connectedDevice, RemoteMessage(old(State()), msg, pick).sent)
    {
      match msg {
        case CategorySelected(category) =>
          var q := PickQuestion(category, pick);
          if q.Some? {
            currentCategory := Some(category);
            currentQuestion := q;
          }
        case AnswerSubmitted(_, correct, _) =>
          HandleRemoteAnswer(correct);
        case TurnChanged(n) =>
          currentTurn := n;
        case GameOver(winner, scores) =>
          events := events + [ShowFinalScores(winner, scores.player1, scores.player2)];
        case _ =>
      }
    }

    /** The ANSWER_SUBMITTED branch of handleRemoteMessage. */
    method HandleRemoteAnswer(correct: bool)
      modifies this, link`writes
      ensures State() == RemoteAnswer(old(State()), correct).state
      ensures link.writes == old(link.writes) + Frames(link.connectedDevice, RemoteAnswer(old(State()), correct).sent)
    {
      var otherKey := KeyOf(currentTurn);
      var myKey := Other(otherKey);
      var oldLives := lives;
      var oldScore := score;
      if correct {
        score := score.With(otherKey, score.Get(otherKey) + 10);
      } else {
        lives := lives.With(otherKey, lives.Get(otherKey) - 1);
      }
      if oldLives.Get(otherKey) - (if correct then 0 else 1) <= 0 {
        var winner := WinnerName(myKey);
        events := events + [ShowGameOver(winner)];
        Send(GameOver(winner, Scores(oldScore.p1, oldScore.p2)));
      } else {
        currentTurn := NumberOf(myKey);
        pendingClears := pendingClears + 1;
      }
    }

    method FireTimer()
      requires pendingClears > 0
      modifies this
      ensures State() == FireClear(old(State()))
    {
      currentCategory := None;
      currentQuestion := None;
      showFeedback := NoFeedback;
      pendingClears := pendingClears - 1;
    }
  }
}
