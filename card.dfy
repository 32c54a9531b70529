/**
 * The question card (components/QuestionCard.tsx): a twenty-second
 * countdown that reports the sentinel answer when it runs out, the option
 * buttons, and the header colour chosen by the normalised category name.
 *
 * The one-second interval is an explicit Tick step and the half-second
 * delay after a selection an explicit Deliver step; onAnswer is a log of
 * the answers reported to the parent.
 */
module Card {
  import opened Text
  import opened Questions

  const COUNTDOWN: int := 20

  // ---------------------------------------------------------------------
  // The category normaliser and the header colour.

  /** The combining diacritical marks, U+0300 to U+036F. */
  predicate IsCombiningMark(c: char) {
    '\U{0300}' <= c <= '\U{036F}'
  }

  /**
   * The base letter the canonical decomposition leaves once its marks are
   * removed, for the precomposed letters of Latin-1; any other character
   * is its own decomposition here.
   */
  function StripMark(c: char): (b: char)
    ensures !IsCombiningMark(b) || b == c
    ensures b as int < 0x80 || b == c
  {
    if 'À' <= c <= 'Å' then 'A'
    else if c == 'Ç' then 'C'
    else if 'È' <= c <= 'Ë' then 'E'
    else if 'Ì' <= c <= 'Ï' then 'I'
    else if c == 'Ñ' then 'N'
    else if 'Ò' <= c <= 'Ö' then 'O'
    else if 'Ù' <= c <= 'Ü' then 'U'
    else if c == 'Ý' then 'Y'
    else if 'à' <= c <= 'å' then 'a'
    else if c == 'ç' then 'c'
    else if 'è' <= c <= 'ë' then 'e'
    else if 'ì' <= c <= 'ï' then 'i'
    else if c == 'ñ' then 'n'
    else if 'ò' <= c <= 'ö' then 'o'
    else if 'ù' <= c <= 'ü' then 'u'
    else if c == 'ý' || c == 'ÿ' then 'y'
    else c
  }

  /** normalize('NFD') followed by removing U+0300 to U+036F. */
  function StripMarks(s: string): (r: string)
    ensures forall i :: 0 <= i < |r| ==> !IsCombiningMark(r[i])
    ensures |r| <= |s|
    decreases |s|
  {
    if s == [] then []
    else
      var c := s[0];
      (if IsCombiningMark(c) then [] else [StripMark(c)]) + StripMarks(s[1..])
  }

  /** The white space and line terminators String.prototype.trim removes. */
  predicate IsSpace(c: char) {
    c == ' ' || c == '\t' || c == '\n' || c == '\r' || c == '\U{000B}' || c == '\U{000C}'
    || c == '\U{00A0}' || c == '\U{1680}' || ('\U{2000}' <= c <= '\U{200A}')
    || c == '\U{2028}' || c == '\U{2029}' || c == '\U{202F}' || c == '\U{205F}'
    || c == '\U{3000}' || c == '\U{FEFF}'
  }

  /** Drops the leading white space, and only that. */
  function TrimStart(s: string): (r: string)
    ensures |r| <= |s| && r == s[|s| - |r|..]
    ensures forall i :: 0 <= i < |s| - |r| ==> IsSpace(s[i])
    ensures r != [] ==> !IsSpace(r[0])
    decreases |s|
  {
    if s != [] && IsSpace(s[0]) then TrimStart(s[1..]) else s
  }

  /** Drops the trailing white space, and only that. */
  function TrimEnd(s: string): (r: string)
    ensures |r| <= |s| && r == s[..|r|]
    ensures forall i :: |r| <= i < |s| ==> IsSpace(s[i])
    ensures r != [] ==> !IsSpace(r[|r| - 1])
    decreases |s|
  {
    if s != [] && IsSpace(s[|s| - 1]) then TrimEnd(s[..|s| - 1]) else s
  }

  /**
   * String.prototype.trim: the result is the input from the end of its
   * leading white space (k, where TrimStart starts), with only white space
   * after it, and with no white space at either of its own ends.
   */
  function Trim(s: string): (r: string)
    ensures var k := |s| - |TrimStart(s)|;
      && k + |r| <= |s| && r == s[k..k + |r|]
      && forall i :: k + |r| <= i < |s| ==> IsSpace(s[i])
    ensures r != [] ==> !IsSpace(r[0]) && !IsSpace(r[|r| - 1])
  {
    var t := TrimStart(s);
    var u := TrimEnd(t);
    assert u != [] ==> u[0] == t[0];
    SuffixSlice(s, |s| - |t|, |u|);
    u
  }

  /** A prefix of a suffix is a slice, and what follows it in the suffix follows it in the whole. */
  lemma SuffixSlice<T>(s: seq<T>, k: nat, n: nat)
    requires k + n <= |s|
    ensures s[k..][..n] == s[k..k + n]
    ensures forall i :: k + n <= i < |s| ==> s[i] == s[k..][i - k]
  {
  }

  /** toLowerCase on ASCII and Latin-1 capitals (À to Þ except ×). */
  function LowerChar(c: char): (d: char)
    ensures !('A' <= d <= 'Z')
    ensures IsSpace(d) <==> IsSpace(c)
    ensures 'A' <= c <= 'Z' ==> 'a' <= d <= 'z' && d as int == c as int + 32
    ensures 'À' <= c <= 'Þ' && c != '×' ==> 'à' <= d <= 'þ' && d as int == c as int + 32
    ensures !('A' <= c <= 'Z') && !('À' <= c <= 'Þ' && c != '×') ==> d == c
  {
    if 'A' <= c <= 'Z' || ('À' <= c <= 'Þ' && c != '×') then (c as int + 32) as char else c
  }

  function Lower(s: string): (r: string)
    ensures |r| == |s| && forall i :: 0 <= i < |s| ==> r[i] == LowerChar(s[i])
  {
    seq(|s|, i requires 0 <= i < |s| => LowerChar(s[i]))
  }

  /** normalize: strip accents, trim, lower-case. */
  function Normalize(s: string): (r: string)
    ensures forall i :: 0 <= i < |r| ==> !('A' <= r[i] <= 'Z')
    ensures r != [] ==> !IsSpace(r[0]) && !IsSpace(r[|r| - 1])
  {
    Lower(Trim(StripMarks(s)))
  }

  const ORANGE: string := "#FF6B35"
  const TEAL: string := "#4ECDC4"

  /** categoryColors[normalize(category)] || '#FF6B35' */
  function HeaderColor(category: string): (color: string)
    ensures color == TEAL <==> Normalize(category) == "medicina"
    ensures color == ORANGE <==> Normalize(category) != "medicina"
  {
    var key := Normalize(category);
    if key == "ingenieria" then ORANGE
    else if key == "medicina" then TEAL
    else ORANGE
  }

  /** Every character is ASCII. */
  predicate Ascii(s: string)
    decreases |s|
  {
    s == [] || (s[0] as int < 0x80 && Ascii(s[1..]))
  }

  /** ASCII text passes the accent stripper unchanged. */
  lemma {:induction false} StripMarksPlain(s: string)
    requires Ascii(s)
    ensures StripMarks(s) == s
    decreases |s|
  {
    if s != [] {
      StripMarksPlain(s[1..]);
    }
  }

  lemma {:induction false} StripMarksAppend(a: string, b: string)
    ensures StripMarks(a + b) == StripMarks(a) + StripMarks(b)
    decreases |a|
  {
    if a != [] {
      var head := if IsCombiningMark(a[0]) then [] else [StripMark(a[0])];
      assert (a + b)[0] == a[0];
      assert (a + b)[1..] == a[1..] + b;
      assert StripMarks(a + b) == head + StripMarks(a[1..] + b);
      StripMarksAppend(a[1..], b);
    } else {
      assert a + b == b;
    }
  }

  /** Text with no white space at either end is left as it is by the trim. */
  lemma TrimUnspaced(s: string)
    requires s == [] || (!IsSpace(s[0]) && !IsSpace(s[|s| - 1]))
    ensures Trim(s) == s
  {
    assert TrimStart(s) == s;
    assert TrimEnd(s) == s;
  }

  /** A plain word with no space at either end is only lower-cased. */
  lemma PlainNormalize(s: string)
    requires s != [] && Ascii(s)
    requires !IsSpace(s[0]) && !IsSpace(s[|s| - 1])
    ensures Normalize(s) == Lower(s)
  {
    StripMarksPlain(s);
    TrimUnspaced(s);
  }

  /** Normalize is its three stages in turn. */
  lemma NormalizeStages(s: string, stripped: string, trimmed: string, lowered: string)
    requires StripMarks(s) == stripped && Trim(stripped) == trimmed && Lower(trimmed) == lowered
    ensures Normalize(s) == lowered
  {
  }

  lemma IngenieriaUnmarked()
    ensures StripMarks("Ingenieria") == "Ingenieria"
  {
    StripMarksPlain("Ingenieria");
  }

  lemma IngenieriaTrimmed()
    ensures Trim("Ingenieria") == "Ingenieria"
  {
    TrimUnspaced("Ingenieria");
  }

  lemma IngenieriaLowered()
    ensures Lower("Ingenieria") == "ingenieria"
  {
  }

  lemma MedicinaUnmarked()
    ensures StripMarks("Medicina") == "Medicina"
  {
    StripMarksPlain("Medicina");
  }

  lemma MedicinaTrimmed()
    ensures Trim("Medicina") == "Medicina"
  {
    TrimUnspaced("Medicina");
  }

  lemma MedicinaLowered()
    ensures Lower("Medicina") == "medicina"
  {
  }

  lemma NormalizeIngenieria()
    ensures Normalize("Ingenieria") == "ingenieria"
  {
    IngenieriaUnmarked();
    IngenieriaTrimmed();
    IngenieriaLowered();
    NormalizeStages("Ingenieria", "Ingenieria", "Ingenieria", "ingenieria");
  }

  lemma NormalizeMedicina()
    ensures Normalize("Medicina") == "medicina"
  {
    MedicinaUnmarked();
    MedicinaTrimmed();
    MedicinaLowered();
    NormalizeStages("Medicina", "Medicina", "Medicina", "medicina");
  }

  /** The table's category names, as the table writes them, get their own colours. */
  lemma TableCategoryColors()
    ensures HeaderColor("Ingenieria") == ORANGE
    ensures HeaderColor("Medicina") == TEAL
  {
    NormalizeIngenieria();
    NormalizeMedicina();
  }

  lemma StripAccentedEnding()
    ensures StripMarks("ía") == "ia" && StripMarks("ia") == "ia"
  {
  }

  lemma StripIngenieria()
    ensures StripMarks("Ingeniería") == StripMarks("Ingenieria")
  {
    assert "Ingeniería" == "Ingenier" + "ía";
    assert "Ingenieria" == "Ingenier" + "ia";
    StripMarksAppend("Ingenier", "ía");
    StripMarksAppend("Ingenier", "ia");
    StripAccentedEnding();
  }

  /** The accent on the í of "Ingeniería" does not change the key. */
  lemma AccentIgnored()
    ensures Normalize("Ingeniería") == "ingenieria"
  {
    StripIngenieria();
    NormalizeIngenieria();
  }

  // ---------------------------------------------------------------------
  // The countdown.

  /** One interval tick: the next value of timeLeft, and whether it reports the timeout. */
  function TickStep(t: int): (r: (int, bool))
    ensures r.1 <==> t <= 1
    ensures r.0 >= 0 <==> t >= 1 || r.1
    ensures r.1 ==> r.0 == 0
    ensures !r.1 ==> r.0 == t - 1
  {
    if t <= 1 then (0, true) else (t - 1, false)
  }

  /**
   * n ticks of a running countdown that is at t: the final value and the
   * number of timeouts reported (the interval stops at the first).
   */
  function Countdown(t: int, n: nat): (int, nat)
    decreases n
  {
    if n == 0 then (t, 0)
    else
      var (next, fired) := TickStep(t);
      if fired then (next, 1) else Countdown(next, n - 1)
  }

  /**
   * From any positive start the count never goes negative, reports the
   * timeout at most once, and reports it exactly when t ticks have passed.
   */
  lemma {:induction false} CountdownFacts(t: int, n: nat)
    requires t >= 1
    ensures Countdown(t, n).0 >= 0
    ensures Countdown(t, n).1 <= 1
    ensures Countdown(t, n).1 == 1 <==> n >= t
    ensures n < t ==> Countdown(t, n).0 == t - n
    ensures n >= t ==> Countdown(t, n).0 == 0
    decreases n
  {
    if n > 0 && t > 1 {
      CountdownFacts(t - 1, n - 1);
    }
  }

  /** A fresh card reports its timeout on the twentieth tick and not before. */
  lemma TimeoutOnTwentiethTick()
    ensures Countdown(COUNTDOWN, 19) == (1, 0)
    ensures Countdown(COUNTDOWN, 20) == (0, 1)
  {
    CountdownFacts(COUNTDOWN, 19);
    CountdownFacts(COUNTDOWN, 20);
  }

  /** The sentinel never matches an answer of the table, so the parent scores it as a miss. */
  lemma TimeoutScoresAsMiss(q: Question)
    requires q in AllQuestions()
    ensures TIMEOUT_ANSWER != q.answer
  {
    TimeoutNeverCorrect(q);
  }

  // ---------------------------------------------------------------------
  // The component.

  class QuestionCard {
    var item: Question
    var disabled: bool
    var selectedOption: Option<string>
    var isCorrect: Option<bool>
    var timeLeft: int
    /** timerRef.current holds an interval that has not been cleared. */
    var timerRunning: bool
    /** Options whose half-second delay has not yet elapsed, oldest first. */
    var pendingAnswers: seq<string>
    /** Every onAnswer call, in order. */
    var answers: seq<string>
    /** The countdown has reported a timeout since the timer last started. */
    ghost var timedOut: bool

    /** The count stays within 0..20, a running timer is above 0, a reported timeout stops it. */
    ghost predicate Valid()
      reads this
    {
      && 0 <= timeLeft <= COUNTDOWN
      && (timerRunning ==> timeLeft >= 1 && !disabled && !timedOut)
      && (timedOut ==> timeLeft == 0 && !timerRunning)
    }

    /** Mounting runs the timer effect once. */
    constructor (item: Question, disabled: bool)
      ensures Valid()
      ensures this.item == item && this.disabled == disabled
      ensures selectedOption == None && isCorrect == None && pendingAnswers == [] && answers == []
      ensures timeLeft == COUNTDOWN && timerRunning == !disabled
    {
      this.item := item;
      this.disabled := disabled;
      selectedOption := None;
      isCorrect := None;
      timeLeft := COUNTDOWN;
      timerRunning := !disabled;
      pendingAnswers := [];
      answers := [];
      timedOut := false;
    }

    /**
     * The timer effect, re-run with its dependencies' new values: the
     * previous interval is cleared, and unless the card is disabled the
     * count restarts at 20 with a fresh interval. The dependencies are the
     * question, `disabled` and the `onAnswer` callback; the game screens pass
     * a callback made anew on each render, so the effect re-runs on every
     * render of the parent (a new question, or in the match only the turn
     * banner hiding), and Restart is a step the model may take at any time.
     */
    method Restart(newItem: Question, newDisabled: bool)
      requires Valid()
      modifies this
      ensures Valid()
      ensures item == newItem && disabled == newDisabled
      ensures timerRunning == !newDisabled
      ensures !newDisabled ==> timeLeft == COUNTDOWN
      ensures newDisabled ==> timeLeft == old(timeLeft)
      ensures selectedOption == old(selectedOption) && isCorrect == old(isCorrect)
      ensures pendingAnswers == old(pendingAnswers) && answers == old(answers)
    {
      timerRunning := false;
      item := newItem;
      disabled := newDisabled;
      if disabled {
        return;
      }
      timeLeft := COUNTDOWN;
      timerRunning := true;
      timedOut := false;
    }

    /** One firing of the interval. */
    method Tick()
      requires Valid() && timerRunning
      modifies this
      ensures Valid()
      ensures timeLeft == TickStep(old(timeLeft)).0
      ensures TickStep(old(timeLeft)).1 ==> !timerRunning && answers == old(answers) + [TIMEOUT_ANSWER] && timedOut
      ensures !TickStep(old(timeLeft)).1 ==> timerRunning && answers == old(answers)
      ensures item == old(item) && disabled == old(disabled) && selectedOption == old(selectedOption)
      ensures isCorrect == old(isCorrect) && pendingAnswers == old(pendingAnswers)
    {
      if timeLeft <= 1 {
        timerRunning := false;
        answers := answers + [TIMEOUT_ANSWER];
        timeLeft := 0;
        timedOut := true;
      } else {
        timeLeft := timeLeft - 1;
      }
    }

    /** handleSelectOption: stop the timer, mark the option, and report it after the delay. */
    method SelectOption(option: string)
      requires Valid()
      modifies this
      ensures Valid()
      ensures old(disabled) ==> unchanged(this)
      ensures !old(disabled) ==>
        && !timerRunning
        && selectedOption == Some(option)
        && isCorrect == Some(option == item.answer)
        && pendingAnswers == old(pendingAnswers) + [option]
        && answers == old(answers)
        && timeLeft == old(timeLeft) && item == old(item)
    {
      if disabled {
        return;
      }
      timerRunning := false;
      var correct := option == item.answer;
      selectedOption := Some(option);
      isCorrect := Some(correct);
      pendingAnswers := pendingAnswers + [option];
    }

    /** The delay after a selection elapses: the option is reported and the marks cleared. */
    method DeliverSelection()
      requires Valid() && pendingAnswers != []
      modifies this
      ensures Valid()
      ensures answers == old(answers) + [old(pendingAnswers)[0]]
      ensures pendingAnswers == old(pendingAnswers)[1..]
      ensures selectedOption == None && isCorrect == None
      ensures timeLeft == old(timeLeft) && timerRunning == old(timerRunning) && item == old(item)
    {
      answers := answers + [pendingAnswers[0]];
      pendingAnswers := pendingAnswers[1..];
      selectedOption := None;
      isCorrect := None;
    }

  }
}
