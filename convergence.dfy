/**
 * Two copies of the match, one per peer, kept in step by the messages each
 * sends: the in-turn peer runs handleAnswer, the other receives what it
 * sent, in order, through handleRemoteMessage. The lemmas say when the two
 * copies agree afterwards and what they agree on.
 */
module Convergence {
  import opened Text
  import opened Questions
  import opened Messages
  import opened Match

  /** The peer's messages, delivered in order; the receiver's own replies are collected. */
  function Deliver(s: MatchState, ms: seq<GameMessage>, picks: seq<nat>): (r: Step)
    requires |picks| == |ms|
    requires forall i :: 0 <= i < |ms| ==> ValidRemotePick(ms[i], picks[i])
    decreases |ms|
  {
    if ms == [] then Step(s, [])
    else
      var first := RemoteMessage(s, ms[0], picks[0]);
      var rest := Deliver(first.state, ms[1..], picks[1..]);
      Step(rest.state, first.sent + rest.sent)
  }

  /** One host and one guest: between them they play as 1 and 2. */
  predicate Peers(a: MatchState, b: MatchState) {
    a.isHost != b.isHost
  }

  /** The two copies agree on whose turn it is, on the lives and on the scores. */
  predicate Agree(a: MatchState, b: MatchState) {
    a.currentTurn == b.currentTurn && a.lives == b.lives && a.score == b.score
  }

  function Zeros(n: nat): (z: seq<nat>)
    ensures |z| == n && forall i :: 0 <= i < n ==> z[i] == 0
  {
    seq(n, i => 0)
  }

  lemma PeersPlayAsOneAndTwo(a: MatchState, b: MatchState)
    requires Peers(a, b)
    ensures {MyNumber(a.isHost), MyNumber(b.isHost)} == {1, 2}
    ensures MyNumber(a.isHost) != MyNumber(b.isHost)
  {
  }

  /** Delivering one message, then another, is handling each in turn. */
  lemma DeliverTwo(s: MatchState, m1: GameMessage, m2: GameMessage, p1: nat, p2: nat)
    requires ValidRemotePick(m1, p1) && ValidRemotePick(m2, p2)
    ensures var r1 := RemoteMessage(s, m1, p1);
      var r2 := RemoteMessage(r1.state, m2, p2);
      Deliver(s, [m1, m2], [p1, p2]) == Step(r2.state, r1.sent + r2.sent)
  {
    var r1 := RemoteMessage(s, m1, p1);
    assert [m1, m2][1..] == [m2] && [p1, p2][1..] == [p2];
    assert Deliver(r1.state, [m2], [p2]) == Step(RemoteMessage(r1.state, m2, p2).state, RemoteMessage(r1.state, m2, p2).sent + []);
  }

  /** Delivering a single message is handling it. */
  lemma DeliverOne(s: MatchState, m: GameMessage, p: nat)
    requires ValidRemotePick(m, p)
    ensures Deliver(s, [m], [p]) == Step(RemoteMessage(s, m, p).state, RemoteMessage(s, m, p).sent)
  {
    assert Deliver(s, [m], [p]) == Step(RemoteMessage(s, m, p).state, RemoteMessage(s, m, p).sent + []);
  }

  /**
   * The in-turn peer answers and the other receives ANSWER_SUBMITTED and,
   * while the match goes on, TURN_CHANGED. If the copies agreed before, they
   * agree after, and it is now the receiver's turn.
   */
  lemma AnswerConverges(a: MatchState, b: MatchState, option: string)
    requires Peers(a, b) && Agree(a, b)
    requires a.question.Some? && a.currentTurn == MyNumber(a.isHost)
    ensures var ra := LocalAnswer(a, option);
      var rb := Deliver(b, ra.sent, Zeros(|ra.sent|));
      var key := KeyOf(a.currentTurn);
      ra.state.lives.Get(key) > 0 ==>
        && Agree(ra.state, rb.state)
        && rb.state.currentTurn == MyNumber(b.isHost)
        && rb.sent == []
  {
    var ra := LocalAnswer(a, option);
    var key := KeyOf(a.currentTurn);
    InTurnAnswerOutcome(a, option);
    InTurnAnswerCounts(a, option);
    if ra.state.lives.Get(key) > 0 {
      var ans := ra.sent[0];
      var next := 3 - MyNumber(a.isHost);
      assert ra.sent == [ans, TurnChanged(next)];
      RemoteAnswerEffect(b, ans.answer, ans.isCorrect, ans.score);
      assert Zeros(2) == [0, 0];
      DeliverTwo(b, ans, TurnChanged(next), 0, 0);
    }
  }

  /**
   * When the answer ends the match, both peers show the same winner, and
   * the GAME_OVER messages sent carry the same winner and scores: the host's
   * own and the guest's reply are the same message.
   */
  lemma EndConverges(a: MatchState, b: MatchState, option: string)
    requires Peers(a, b) && Agree(a, b)
    requires a.question.Some? && a.currentTurn == MyNumber(a.isHost)
    ensures var ra := LocalAnswer(a, option);
      var rb := Deliver(b, ra.sent, Zeros(|ra.sent|));
      var key := KeyOf(a.currentTurn);
      var winner := WinnerName(Other(key));
      var over := GameOver(winner, Scores(a.score.p1, a.score.p2));
      ra.state.lives.Get(key) <= 0 ==>
        && ra.state.events == a.events + [ShowGameOver(winner)]
        && |rb.state.events| > |b.events|
        && rb.state.events[|b.events|] == ShowGameOver(winner)
        && rb.sent == [over]
        && (a.isHost ==> ra.sent[1..] == [over])
        && (forall e :: e in rb.state.events[|b.events|..] ==>
              (e.ShowGameOver? && e.winner == winner) || e == ShowFinalScores(winner, a.score.p1, a.score.p2))
        && Agree(ra.state, rb.state)
  {
    if a.isHost {
      HostEndConverges(a, b, option);
      HostEndAgrees(a, b, option);
    } else {
      GuestEndConverges(a, b, option);
      GuestEndAgrees(a, b, option);
    }
  }

  /** After the host's ending answer and the guest's handling of it, the copies still agree. */
  lemma HostEndAgrees(a: MatchState, b: MatchState, option: string)
    requires Peers(a, b) && Agree(a, b) && a.isHost
    requires a.question.Some? && a.currentTurn == MyNumber(a.isHost)
    ensures var ra := LocalAnswer(a, option);
      var rb := Deliver(b, ra.sent, Zeros(|ra.sent|));
      ra.state.lives.Get(KeyOf(a.currentTurn)) <= 0 ==> Agree(ra.state, rb.state)
  {
    var ra := LocalAnswer(a, option);
    var key := KeyOf(a.currentTurn);
    var winner := WinnerName(Other(key));
    var over := GameOver(winner, Scores(a.score.p1, a.score.p2));
    InTurnAnswerOutcome(a, option);
    InTurnAnswerCounts(a, option);
    if ra.state.lives.Get(key) <= 0 {
      var ans := ra.sent[0];
      assert WinnerName(KeyOf(3 - MyNumber(a.isHost))) == winner;
      var b1 := RemoteMessage(b, ans, 0);
      RemoteAnswerEffect(b, ans.answer, ans.isCorrect, ans.score);
      assert Agree(ra.state, b1.state);
      assert ra.sent == [ans, over];
      var b2 := RemoteMessage(b1.state, over, 0);
      assert b2 == Step(b1.state.(events := b1.state.events + [ShowFinalScores(winner, a.score.p1, a.score.p2)]), []);
      assert Zeros(2) == [0, 0];
      DeliverTwo(b, ans, over, 0, 0);
    }
  }

  /** After the guest's ending answer and the host's handling of it, the copies still agree. */
  lemma GuestEndAgrees(a: MatchState, b: MatchState, option: string)
    requires Peers(a, b) && Agree(a, b) && !a.isHost
    requires a.question.Some? && a.currentTurn == MyNumber(a.isHost)
    ensures var ra := LocalAnswer(a, option);
      var rb := Deliver(b, ra.sent, Zeros(|ra.sent|));
      ra.state.lives.Get(KeyOf(a.currentTurn)) <= 0 ==> Agree(ra.state, rb.state)
  {
    var ra := LocalAnswer(a, option);
    var key := KeyOf(a.currentTurn);
    InTurnAnswerOutcome(a, option);
    InTurnAnswerCounts(a, option);
    if ra.state.lives.Get(key) <= 0 {
      var ans := ra.sent[0];
      RemoteAnswerEffect(b, ans.answer, ans.isCorrect, ans.score);
      assert ra.sent == [ans];
      assert Zeros(1) == [0];
      DeliverOne(b, ans, 0);
    }
  }

  /**
   * Every answer, whether the match goes on or ends, leaves the answerer's
   * copy and the receiver's copy agreeing on turn, lives and scores.
   */
  lemma EveryAnswerAgrees(a: MatchState, b: MatchState, option: string)
    requires Peers(a, b) && Agree(a, b)
    requires a.question.Some? && a.currentTurn == MyNumber(a.isHost)
    ensures var ra := LocalAnswer(a, option);
      Agree(ra.state, Deliver(b, ra.sent, Zeros(|ra.sent|)).state)
  {
    AnswerConverges(a, b, option);
    if a.isHost {
      HostEndAgrees(a, b, option);
    } else {
      GuestEndAgrees(a, b, option);
    }
  }

  /** The host loses: it sends its answer and GAME_OVER; the guest replies with GAME_OVER. */
  lemma HostEndConverges(a: MatchState, b: MatchState, option: string)
    requires Peers(a, b) && Agree(a, b) && a.isHost
    requires a.question.Some? && a.currentTurn == MyNumber(a.isHost)
    ensures var ra := LocalAnswer(a, option);
      var rb := Deliver(b, ra.sent, Zeros(|ra.sent|));
      var key := KeyOf(a.currentTurn);
      var winner := WinnerName(Other(key));
      var over := GameOver(winner, Scores(a.score.p1, a.score.p2));
      ra.state.lives.Get(key) <= 0 ==>
        && ra.state.events == a.events + [ShowGameOver(winner)]
        && |rb.state.events| > |b.events|
        && rb.state.events[|b.events|] == ShowGameOver(winner)
        && rb.sent == [over]
        && ra.sent[1..] == [over]
        && (forall e :: e in rb.state.events[|b.events|..] ==>
              (e.ShowGameOver? && e.winner == winner) || e == ShowFinalScores(winner, a.score.p1, a.score.p2))
  {
    var ra := LocalAnswer(a, option);
    var key := KeyOf(a.currentTurn);
    var winner := WinnerName(Other(key));
    var over := GameOver(winner, Scores(a.score.p1, a.score.p2));
    InTurnAnswerOutcome(a, option);
    InTurnAnswerCounts(a, option);
    if ra.state.lives.Get(key) <= 0 {
      var ans := ra.sent[0];
      assert WinnerName(KeyOf(3 - MyNumber(a.isHost))) == winner;
      var b1 := RemoteMessage(b, ans, 0);
      RemoteAnswerEffect(b, ans.answer, ans.isCorrect, ans.score);
      assert b1.sent == [over];
      assert b1.state.events == b.events + [ShowGameOver(winner)];
      assert ra.sent == [ans, over];
      var b2 := RemoteMessage(b1.state, over, 0);
      assert b2 == Step(b1.state.(events := b1.state.events + [ShowFinalScores(winner, a.score.p1, a.score.p2)]), []);
      assert Zeros(2) == [0, 0];
      DeliverTwo(b, ans, over, 0, 0);
      assert b2.state.events[|b.events|..] == [ShowGameOver(winner), ShowFinalScores(winner, a.score.p1, a.score.p2)];
    }
  }

  /** The guest loses: it sends only its answer; the host replies with GAME_OVER. */
  lemma GuestEndConverges(a: MatchState, b: MatchState, option: string)
    requires Peers(a, b) && Agree(a, b) && !a.isHost
    requires a.question.Some? && a.currentTurn == MyNumber(a.isHost)
    ensures var ra := LocalAnswer(a, option);
      var rb := Deliver(b, ra.sent, Zeros(|ra.sent|));
      var key := KeyOf(a.currentTurn);
      var winner := WinnerName(Other(key));
      var over := GameOver(winner, Scores(a.score.p1, a.score.p2));
      ra.state.lives.Get(key) <= 0 ==>
        && ra.state.events == a.events + [ShowGameOver(winner)]
        && |rb.state.events| > |b.events|
        && rb.state.events[|b.events|] == ShowGameOver(winner)
        && rb.sent == [over]
        && (forall e :: e in rb.state.events[|b.events|..] ==>
              (e.ShowGameOver? && e.winner == winner) || e == ShowFinalScores(winner, a.score.p1, a.score.p2))
  {
    var ra := LocalAnswer(a, option);
    var key := KeyOf(a.currentTurn);
    var winner := WinnerName(Other(key));
    var over := GameOver(winner, Scores(a.score.p1, a.score.p2));
    InTurnAnswerOutcome(a, option);
    InTurnAnswerCounts(a, option);
    if ra.state.lives.Get(key) <= 0 {
      var ans := ra.sent[0];
      assert WinnerName(KeyOf(3 - MyNumber(a.isHost))) == winner;
      var b1 := RemoteMessage(b, ans, 0);
      RemoteAnswerEffect(b, ans.answer, ans.isCorrect, ans.score);
      assert b1.sent == [over];
      assert b1.state.events == b.events + [ShowGameOver(winner)];
      assert ra.sent == [ans];
      assert Zeros(1) == [0];
      DeliverOne(b, ans, 0);
      assert b1.state.events[|b.events|..] == [ShowGameOver(winner)];
    }
  }

  /**
   * The host's category reaches the guest, and both show a question of that
   * category's pool; the question itself is drawn by each peer on its own.
   */
  lemma CategoryConverges(a: MatchState, b: MatchState, category: string, pa: nat, pb: nat)
    requires a.isHost && category in QUESTIONS
    requires ValidPick(category, pa) && ValidPick(category, pb)
    ensures var ra := SelectCategory(a, category, pa);
      var rb := Deliver(b, ra.sent, [pb]);
      && ra.sent == [CategorySelected(category)]
      && ra.state.category == rb.state.category == Some(category)
      && ra.state.question.Some? && ra.state.question.value in QUESTIONS[category]
      && rb.state.question.Some? && rb.state.question.value in QUESTIONS[category]
      && Agree(ra.state, a) && Agree(rb.state, b)
  {
    var ra := SelectCategory(a, category, pa);
    assert ra.sent == [CategorySelected(category)];
    DeliverOne(b, CategorySelected(category), pb);
  }

  /** Different draws show the two players different questions of the same category. */
  lemma PeersMayShowDifferentQuestions(a: MatchState, b: MatchState)
    requires a.isHost
    ensures var ra := SelectCategory(a, "Ingenieria", 0);
      var rb := Deliver(b, ra.sent, [1]);
      ra.state.question != rb.state.question
  {
    TableSize();
    var ra := SelectCategory(a, "Ingenieria", 0);
    assert ra.sent == [CategorySelected("Ingenieria")];
    DeliverOne(b, CategorySelected("Ingenieria"), 1);
    UniqueIds();
    assert AllQuestions()[0] == INGENIERIA[0] && AllQuestions()[1] == INGENIERIA[1];
  }

  /**
   * The same convergence through the session link's wire format: the
   * receiver parses the answerer's byte stream back into exactly the
   * messages that were sent.
   */
  lemma WireAnswerConverges(a: MatchState, b: MatchState, option: string)
    requires Peers(a, b) && Agree(a, b)
    requires a.question.Some? && a.currentTurn == MyNumber(a.isHost)
    ensures var ra := LocalAnswer(a, option);
      var received := DecodeAll(Split(Stream(ra.sent)).0);
      && received == ra.sent
      && (ra.state.lives.Get(KeyOf(a.currentTurn)) > 0 ==>
            Agree(ra.state, Deliver(b, received, Zeros(|received|)).state))
  {
    var ra := LocalAnswer(a, option);
    WireRoundTrip(ra.sent);
    AnswerConverges(a, b, option);
  }
}
