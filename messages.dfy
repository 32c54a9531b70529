/**
 * The closed set of messages two peers exchange (services/BluetoothService.ts:9-15)
 * and their wire form: the JSON text that JSON.stringify gives for each shape,
 * followed by one '\n' (services/BluetoothService.ts:113). The receiving side
 * splits the byte stream at the '\n' delimiter given to accept/connect
 * (services/BluetoothService.ts:61, 86) and parses each frame
 * (services/BluetoothService.ts:99).
 */
module Messages {
  import opened Text

  datatype Scores = Scores(player1: int, player2: int)

  datatype GameMessage =
    | PlayerJoined(playerName: string)
    | GameStart
    | CategorySelected(category: string)
    | AnswerSubmitted(answer: string, isCorrect: bool, score: int)
    | TurnChanged(currentPlayer: int)
    | GameOver(winner: string, scores: Scores)

  // ---------------------------------------------------------------------
  // JSON string literals
  // ---------------------------------------------------------------------

  function HexDigit(d: nat): (c: char)
    requires d < 16
  {
    "0123456789abcdef"[d]
  }

  function HexValue(c: char): (r: Option<nat>)
    ensures r.Some? ==> r.value < 16
  {
    if '0' <= c <= '9' then Some(c as int - '0' as int)
    else if 'a' <= c <= 'f' then Some(c as int - 'a' as int + 10)
    else if 'A' <= c <= 'F' then Some(c as int - 'A' as int + 10)
    else None
  }

  lemma HexDigitValue(d: nat)
    requires d < 16
    ensures HexValue(HexDigit(d)) == Some(d)
  {
  }

  /** How JSON.stringify writes one character inside a string literal. */
  function Escape(c: char): (e: string)
    ensures |e| >= 1
    ensures '\n' !in e
  {
    if c == '"' then "\\\""
    else if c == '\\' then "\\\\"
    else if c as int == 8 then "\\b"
    else if c as int == 12 then "\\f"
    else if c == '\n' then "\\n"
    else if c == '\r' then "\\r"
    else if c == '\t' then "\\t"
    else if c < ' ' then "\\u00" + [HexDigit(c as int / 16), HexDigit(c as int % 16)]
    else [c]
  }

  function EscapeAll(s: string): (e: string)
    ensures '\n' !in e
    decreases |s|
  {
    if s == [] then [] else Escape(s[0]) + EscapeAll(s[1..])
  }

  /** A JSON string literal holding s. */
  function Quote(s: string): (q: string)
    ensures '\n' !in q
  {
    "\"" + EscapeAll(s) + "\""
  }

  /** Reads four hex digits; None if any is not a hex digit. */
  function Hex4(s: string): (r: Option<nat>)
    requires |s| >= 4
  {
    match (HexValue(s[0]), HexValue(s[1]), HexValue(s[2]), HexValue(s[3]))
    case (Some(a), Some(b), Some(c), Some(d)) => Some(((a * 16 + b) * 16 + c) * 16 + d)
    case _ => None
  }

  /**
   * Reads one escape sequence (the characters after a backslash) and returns
   * the character it stands for and how many characters it used. Surrogate
   * code units are refused: a Dafny char is a whole Unicode scalar value.
   */
  function Unescape(s: string): (r: Option<(char, nat)>)
    ensures r.Some? ==> 1 <= r.value.1 <= |s|
  {
    if |s| == 0 then None
    else if s[0] == '"' then Some(('"', 1))
    else if s[0] == '\\' then Some(('\\', 1))
    else if s[0] == '/' then Some(('/', 1))
    else if s[0] == 'b' then Some((8 as char, 1))
    else if s[0] == 'f' then Some((12 as char, 1))
    else if s[0] == 'n' then Some(('\n', 1))
    else if s[0] == 'r' then Some(('\r', 1))
    else if s[0] == 't' then Some(('\t', 1))
    else if s[0] == 'u' && |s| >= 5 then
      match Hex4(s[1..5])
      case Some(v) =>
        if v < 0xD800 || 0xE000 <= v then Some((v as char, 5)) else None
      case None => None
    else None
  }

  /**
   * Reads the body of a string literal up to and including its closing quote;
   * returns the decoded text and what follows the closing quote.
   */
  function ParseChars(s: string): (r: Option<(string, string)>)
    ensures r.Some? ==> |r.value.1| < |s|
    decreases |s|
  {
    if |s| == 0 then None
    else if s[0] == '"' then Some(([], s[1..]))
    else if s[0] == '\\' then
      match Unescape(s[1..])
      case None => None
      case Some((c, k)) =>
        match ParseChars(s[1 + k..])
        case None => None
        case Some((t, rest)) => Some(([c] + t, rest))
    else if s[0] < ' ' then None
    else
      match ParseChars(s[1..])
      case None => None
      case Some((t, rest)) => Some(([s[0]] + t, rest))
  }

  function ParseString(s: string): (r: Option<(string, string)>)
    ensures r.Some? ==> |r.value.1| < |s|
  {
    if |s| > 0 && s[0] == '"' then ParseChars(s[1..]) else None
  }

  /** What reading an escaped character back gives, before the rest is read. */
  function AfterChar(c: char, r: Option<(string, string)>): Option<(string, string)> {
    match r
    case None => None
    case Some((t, rest)) => Some(([c] + t, rest))
  }

  /** The four hex digits \u00 writes for a code below 256 read back as that code. */
  lemma HexPairOf(v: nat)
    requires v < 256
    ensures Hex4(['0', '0', HexDigit(v / 16), HexDigit(v % 16)]) == Some(v)
  {
    var hi, lo := v / 16, v % 16;
    HexDigitValue(0);
    HexDigitValue(hi);
    HexDigitValue(lo);
    assert HexDigit(0) == '0';
    assert ((0 * 16 + 0) * 16 + hi) * 16 + lo == hi * 16 + lo == v;
  }

  lemma UnescapeUnicode(t: string, v: nat)
    requires |t| >= 5 && t[0] == 'u' && Hex4(t[1..5]) == Some(v) && v < 0xD800
    ensures Unescape(t) == Some((v as char, 5))
  {
  }

  /** A backslash and an escape sequence read as the character it stands for. */
  lemma ParseEscaped(s: string, c: char, k: nat)
    requires |s| > 0 && s[0] == '\\' && Unescape(s[1..]) == Some((c, k))
    ensures ParseChars(s) == AfterChar(c, ParseChars(s[1 + k..]))
  {
  }

  /** The six characters \u00 and two hex digits read as the character with that code. */
  lemma UnicodeEscapeParses(v: nat, rest: string)
    requires v < 32
    ensures ParseChars("\\u00" + [HexDigit(v / 16), HexDigit(v % 16)] + rest) == AfterChar(v as char, ParseChars(rest))
  {
    var digits := ['0', '0', HexDigit(v / 16), HexDigit(v % 16)];
    var s := "\\u00" + [HexDigit(v / 16), HexDigit(v % 16)] + rest;
    assert s == ['\\', 'u'] + digits + rest;
    var t := s[1..];
    assert t == ['u'] + digits + rest;
    assert t[1..5] == digits;
    HexPairOf(v);
    UnescapeUnicode(t, v);
    assert s[0] == '\\' && s[6..] == rest;
    ParseEscaped(s, v as char, 5);
  }

  /** A control character without a short escape is written as \u00 and two hex digits. */
  lemma EscapeParsesControl(c: char, rest: string)
    requires c < ' ' && c != '\n' && c != '\r' && c != '\t' && c as int != 8 && c as int != 12
    ensures ParseChars(Escape(c) + rest) == AfterChar(c, ParseChars(rest))
  {
    UnicodeEscapeParses(c as int, rest);
  }

  /** A quote, a backslash or a control character with a short escape takes two characters. */
  lemma EscapeParsesShort(c: char, rest: string)
    requires c == '"' || c == '\\' || c == '\n' || c == '\r' || c == '\t' || c as int == 8 || c as int == 12
    ensures ParseChars(Escape(c) + rest) == AfterChar(c, ParseChars(rest))
  {
    var s := Escape(c) + rest;
    assert |Escape(c)| == 2 && s[0] == '\\';
    assert s[2..] == rest;
    assert Unescape(s[1..]) == Some((c, 1));
    ParseEscaped(s, c, 1);
  }

  /** Any other character is written as itself. */
  lemma EscapeParsesPlain(c: char, rest: string)
    requires c >= ' ' && c != '"' && c != '\\'
    ensures ParseChars(Escape(c) + rest) == AfterChar(c, ParseChars(rest))
  {
    var s := Escape(c) + rest;
    assert Escape(c) == [c];
    assert s[0] == c;
    assert s[1..] == rest;
  }

  lemma EscapeParses(c: char, rest: string)
    ensures ParseChars(Escape(c) + rest) == AfterChar(c, ParseChars(rest))
  {
    if c == '"' || c == '\\' || c == '\n' || c == '\r' || c == '\t' || c as int == 8 || c as int == 12 {
      EscapeParsesShort(c, rest);
    } else if c < ' ' {
      EscapeParsesControl(c, rest);
    } else {
      EscapeParsesPlain(c, rest);
    }
  }

  lemma {:induction false} EscapeAllParses(x: string, rest: string)
    ensures ParseChars(EscapeAll(x) + "\"" + rest) == Some((x, rest))
    decreases |x|
  {
    if x == [] {
    } else {
      assert EscapeAll(x) + "\"" + rest == Escape(x[0]) + (EscapeAll(x[1..]) + "\"" + rest);
      EscapeParses(x[0], EscapeAll(x[1..]) + "\"" + rest);
      EscapeAllParses(x[1..], rest);
      assert [x[0]] + x[1..] == x;
    }
  }

  /** Reading back a quoted string gives the original text and leaves the rest. */
  lemma QuoteParses(x: string, rest: string)
    ensures ParseString(Quote(x) + rest) == Some((x, rest))
  {
    assert (Quote(x) + rest)[1..] == EscapeAll(x) + "\"" + rest;
    EscapeAllParses(x, rest);
  }

  // ---------------------------------------------------------------------
  // Messages as JSON objects
  // ---------------------------------------------------------------------

  function BoolText(b: bool): string {
    if b then "true" else "false"
  }

  /** The value of the "type" key: the discriminator of the six shapes. */
  function Tag(m: GameMessage): string {
    match m
    case PlayerJoined(_) => "PLAYER_JOINED"
    case GameStart => "GAME_START"
    case CategorySelected(_) => "CATEGORY_SELECTED"
    case AnswerSubmitted(_, _, _) => "ANSWER_SUBMITTED"
    case TurnChanged(_) => "TURN_CHANGED"
    case GameOver(_, _) => "GAME_OVER"
  }

  /** The keys after "type" and the closing brace, as JSON.stringify writes them. */
  function Body(m: GameMessage): string {
    match m
    case PlayerJoined(name) => ",\"playerName\":" + Quote(name) + "}"
    case GameStart => "}"
    case CategorySelected(category) => ",\"category\":" + Quote(category) + "}"
    case AnswerSubmitted(answer, isCorrect, score) =>
      ",\"answer\":" + Quote(answer)
      + (",\"isCorrect\":" + BoolText(isCorrect) + (",\"score\":" + IntText(score) + "}"))
    case TurnChanged(player) => ",\"currentPlayer\":" + IntText(player) + "}"
    case GameOver(winner, scores) =>
      ",\"winner\":" + Quote(winner)
      + (",\"scores\":{\"player1\":" + IntText(scores.player1)
         + (",\"player2\":" + IntText(scores.player2) + "}}"))
  }

  /**
   * JSON.stringify of a message: "type" first, then the other keys in the
   * order the senders write their object literals, no white space.
   */
  function Encode(m: GameMessage): string {
    "{\"type\":" + Quote(Tag(m)) + Body(m)
  }

  /** If s starts with lit, what follows it. */
  function Literal(lit: string, s: string): (r: Option<string>)
    ensures r.Some? ==> s == lit + r.value
  {
    if lit <= s then Some(s[|lit|..]) else None
  }

  lemma LiteralOf(lit: string, rest: string)
    ensures Literal(lit, lit + rest) == Some(rest)
  {
    assert lit <= lit + rest;
  }

  /** The key text `key` (written `,"name":`) followed by a string value. */
  function StringField(key: string, s: string): Option<(string, string)> {
    match Literal(key, s)
    case None => None
    case Some(r) => ParseString(r)
  }

  /** The key text `key` followed by an integer value. */
  function IntField(key: string, s: string): Option<(int, string)> {
    match Literal(key, s)
    case None => None
    case Some(r) => ParseInt(r)
  }

  /** The key text `key` followed by true or false. */
  function BoolField(key: string, s: string): Option<(bool, string)> {
    match Literal(key, s)
    case None => None
    case Some(r) =>
      match Literal("true", r)
      case Some(t) => Some((true, t))
      case None =>
        match Literal("false", r)
        case Some(t) => Some((false, t))
        case None => None
  }

  /**
   * Parses one frame (the text between two delimiters) into a message; None
   * for text that is not one of the six shapes.
   */
  function Decode(s: string): Option<GameMessage> {
    match Literal("{\"type\":", s)
    case None => None
    case Some(r0) =>
      match ParseString(r0)
      case None => None
      case Some((tag, r1)) => DecodeBody(tag, r1)
  }

  /** Parses the keys that follow "type" for the shape that tag names. */
  function DecodeBody(tag: string, r1: string): Option<GameMessage> {
    if tag == "GAME_START" then
      if r1 == "}" then Some(GameStart) else None
    else if tag == "PLAYER_JOINED" then
      match StringField(",\"playerName\":", r1)
      case Some((name, r2)) =>
        if r2 == "}" then Some(PlayerJoined(name)) else None
      case None => None
    else if tag == "CATEGORY_SELECTED" then
      match StringField(",\"category\":", r1)
      case Some((category, r2)) =>
        if r2 == "}" then Some(CategorySelected(category)) else None
      case None => None
    else if tag == "ANSWER_SUBMITTED" then DecodeAnswerBody(r1)
    else if tag == "TURN_CHANGED" then
      match IntField(",\"currentPlayer\":", r1)
      case Some((player, r2)) =>
        if r2 == "}" then Some(TurnChanged(player)) else None
      case None => None
    else if tag == "GAME_OVER" then DecodeGameOverBody(r1)
    else None
  }

  function DecodeAnswerBody(r1: string): Option<GameMessage> {
    match StringField(",\"answer\":", r1)
    case None => None
    case Some((answer, r2)) =>
      match BoolField(",\"isCorrect\":", r2)
      case None => None
      case Some((isCorrect, r3)) =>
        match IntField(",\"score\":", r3)
        case None => None
        case Some((score, r4)) =>
          if r4 == "}" then Some(AnswerSubmitted(answer, isCorrect, score)) else None
  }

  function DecodeGameOverBody(r1: string): Option<GameMessage> {
    match StringField(",\"winner\":", r1)
    case None => None
    case Some((winner, r2)) =>
      match Literal(",\"scores\":{\"player1\":", r2)
      case None => None
      case Some(r3) =>
        match ParseInt(r3)
        case None => None
        case Some((p1, r4)) =>
          match IntField(",\"player2\":", r4)
          case None => None
          case Some((p2, r5)) =>
            if r5 == "}}" then Some(GameOver(winner, Scores(p1, p2))) else None
  }

  lemma StringFieldOf(key: string, x: string, rest: string)
    ensures StringField(key, key + Quote(x) + rest) == Some((x, rest))
  {
    var lit := key;
    assert lit + Quote(x) + rest == lit + (Quote(x) + rest);
    LiteralOf(lit, Quote(x) + rest);
    QuoteParses(x, rest);
  }

  lemma IntFieldOf(key: string, i: int, rest: string)
    requires rest == [] || !IsDigit(rest[0])
    ensures IntField(key, key + IntText(i) + rest) == Some((i, rest))
  {
    var lit := key;
    assert lit + IntText(i) + rest == lit + (IntText(i) + rest);
    LiteralOf(lit, IntText(i) + rest);
    IntTextParses(i, rest);
  }

  lemma BoolFieldOf(key: string, b: bool, rest: string)
    ensures BoolField(key, key + BoolText(b) + rest) == Some((b, rest))
  {
    var lit := key;
    assert lit + BoolText(b) + rest == lit + (BoolText(b) + rest);
    LiteralOf(lit, BoolText(b) + rest);
    LiteralOf(BoolText(b), rest);
    if !b {
      assert ("false" + rest)[0] == 'f';
    }
  }

  lemma DecodePlayerJoined(name: string)
    ensures DecodeBody("PLAYER_JOINED", Body(PlayerJoined(name))) == Some(PlayerJoined(name))
  {
    TagLengths();
    StringFieldOf(",\"playerName\":", name, "}");
  }

  lemma DecodeCategorySelected(category: string)
    ensures DecodeBody("CATEGORY_SELECTED", Body(CategorySelected(category)))
         == Some(CategorySelected(category))
  {
    TagLengths();
    StringFieldOf(",\"category\":", category, "}");
  }

  lemma DecodeAnswerSubmitted(answer: string, isCorrect: bool, score: int)
    ensures DecodeAnswerBody(Body(AnswerSubmitted(answer, isCorrect, score)))
         == Some(AnswerSubmitted(answer, isCorrect, score))
  {
    var t3 := ",\"score\":" + IntText(score) + "}";
    var t2 := ",\"isCorrect\":" + BoolText(isCorrect) + t3;
    StringFieldOf(",\"answer\":", answer, t2);
    BoolFieldOf(",\"isCorrect\":", isCorrect, t3);
    IntFieldOf(",\"score\":", score, "}");
  }

  lemma DecodeTurnChanged(player: int)
    ensures DecodeBody("TURN_CHANGED", Body(TurnChanged(player))) == Some(TurnChanged(player))
  {
    TagLengths();
    IntFieldOf(",\"currentPlayer\":", player, "}");
  }

  lemma DecodeGameOver(winner: string, scores: Scores)
    ensures DecodeGameOverBody(Body(GameOver(winner, scores))) == Some(GameOver(winner, scores))
  {
    var scoresKey := ",\"scores\":{\"player1\":";
    var t3 := ",\"player2\":" + IntText(scores.player2) + "}}";
    var t2 := scoresKey + IntText(scores.player1) + t3;
    StringFieldOf(",\"winner\":", winner, t2);
    assert t2 == scoresKey + (IntText(scores.player1) + t3);
    LiteralOf(scoresKey, IntText(scores.player1) + t3);
    IntTextParses(scores.player1, t3);
    IntFieldOf(",\"player2\":", scores.player2, "}}");
  }

  /** Decoding a frame reads the type tag and hands the rest to DecodeBody. */
  lemma DecodeSplitsTag(tag: string, body: string)
    ensures Decode("{\"type\":" + Quote(tag) + body) == DecodeBody(tag, body)
  {
    var head := "{\"type\":";
    assert head + Quote(tag) + body == head + (Quote(tag) + body);
    LiteralOf(head, Quote(tag) + body);
    QuoteParses(tag, body);
  }

  /** The six type tags have six different lengths, so no two are equal. */
  lemma TagLengths()
    ensures |"GAME_START"| == 10 && |"PLAYER_JOINED"| == 13 && |"CATEGORY_SELECTED"| == 17
    ensures |"ANSWER_SUBMITTED"| == 16 && |"TURN_CHANGED"| == 12 && |"GAME_OVER"| == 9
  {
  }

  lemma DispatchAnswer(x: string)
    ensures DecodeBody("ANSWER_SUBMITTED", x) == DecodeAnswerBody(x)
  {
    TagLengths();
  }

  lemma DispatchGameOver(x: string)
    ensures DecodeBody("GAME_OVER", x) == DecodeGameOverBody(x)
  {
    TagLengths();
  }

  /** The keys after the tag parse back into the message that tag names. */
  lemma DecodeBodyOfMessage(m: GameMessage)
    ensures DecodeBody(Tag(m), Body(m)) == Some(m)
  {
    match m {
      case PlayerJoined(name) =>
        DecodePlayerJoined(name);
      case GameStart =>
      case CategorySelected(category) =>
        DecodeCategorySelected(category);
      case AnswerSubmitted(answer, isCorrect, score) =>
        DispatchAnswer(Body(m));
        DecodeAnswerSubmitted(answer, isCorrect, score);
      case TurnChanged(player) =>
        DecodeTurnChanged(player);
      case GameOver(winner, scores) =>
        DispatchGameOver(Body(m));
        DecodeGameOver(winner, scores);
    }
  }

  /** Parsing the text that sendMessage wrote gives back exactly that message. */
  lemma DecodeEncode(m: GameMessage)
    ensures Decode(Encode(m)) == Some(m)
  {
    DecodeSplitsTag(Tag(m), Body(m));
    DecodeBodyOfMessage(m);
  }

  // ---------------------------------------------------------------------
  // Framing
  // ---------------------------------------------------------------------

  /** No key text JSON.stringify writes holds a newline. */
  lemma KeysHaveNoNewline()
    ensures '\n' !in "{\"type\":" && '\n' !in "}" && '\n' !in "}}"
    ensures '\n' !in ",\"playerName\":" && '\n' !in ",\"category\":" && '\n' !in ",\"currentPlayer\":"
    ensures '\n' !in "true" && '\n' !in "false"
  {
  }

  lemma LongKeysHaveNoNewline()
    ensures '\n' !in ",\"answer\":" && '\n' !in ",\"isCorrect\":" && '\n' !in ",\"score\":"
    ensures '\n' !in ",\"winner\":" && '\n' !in ",\"scores\":{\"player1\":" && '\n' !in ",\"player2\":"
  {
  }

  /** The JSON text of a message never holds a raw newline. */
  lemma EncodeHasNoNewline(m: GameMessage)
    ensures '\n' !in Encode(m)
  {
    KeysHaveNoNewline();
    LongKeysHaveNoNewline();
    assert '\n' !in BoolText(true) && '\n' !in BoolText(false);
  }

  /** What sendMessage writes for one message. */
  function Frame(m: GameMessage): string {
    Encode(m) + "\n"
  }

  /** The bytes a link writes for a sequence of messages, in order. */
  function Stream(ms: seq<GameMessage>): string
    decreases |ms|
  {
    if ms == [] then [] else Frame(ms[0]) + Stream(ms[1..])
  }

  /**
   * The delimiter reader on the receiving device: acc is the unfinished
   * frame so far; returns the completed frames (delimiter removed) in order
   * and what is left unfinished.
   */
  function SplitFrom(acc: string, s: string): (seq<string>, string)
    decreases |s|
  {
    if s == [] then ([], acc)
    else if s[0] == '\n' then
      var (frames, rest) := SplitFrom([], s[1..]);
      ([acc] + frames, rest)
    else SplitFrom(acc + [s[0]], s[1..])
  }

  function Split(s: string): (seq<string>, string) {
    SplitFrom([], s)
  }

  lemma {:induction false} SplitThrough(acc: string, x: string, rest: string)
    requires '\n' !in x
    ensures SplitFrom(acc, x + "\n" + rest) == ([acc + x] + Split(rest).0, Split(rest).1)
    decreases |x|
  {
    if x == [] {
      assert x + "\n" + rest == "\n" + rest;
      assert ("\n" + rest)[1..] == rest;
      assert acc + x == acc;
    } else {
      assert (x + "\n" + rest)[1..] == x[1..] + "\n" + rest;
      assert x[0] in x;
      SplitThrough(acc + [x[0]], x[1..], rest);
      assert acc + [x[0]] + x[1..] == acc + x;
    }
  }

  function EncodeAll(ms: seq<GameMessage>): (r: seq<string>)
    ensures |r| == |ms|
    decreases |ms|
  {
    if ms == [] then [] else [Encode(ms[0])] + EncodeAll(ms[1..])
  }

  /**
   * Splitting the written stream at the delimiter gives back exactly one frame
   * per message, each the message's JSON text, and nothing left over.
   */
  lemma {:induction false} SplitStream(ms: seq<GameMessage>)
    ensures Split(Stream(ms)) == (EncodeAll(ms), [])
    decreases |ms|
  {
    if ms != [] {
      EncodeHasNoNewline(ms[0]);
      assert Stream(ms) == Encode(ms[0]) + "\n" + Stream(ms[1..]);
      SplitThrough([], Encode(ms[0]), Stream(ms[1..]));
      SplitStream(ms[1..]);
      assert [] + Encode(ms[0]) == Encode(ms[0]);
    }
  }

  /** The messages a receiver dispatches for a list of frames: failures are dropped. */
  function DecodeAll(frames: seq<string>): seq<GameMessage>
    decreases |frames|
  {
    if frames == [] then []
    else
      match Decode(frames[0])
      case Some(m) => [m] + DecodeAll(frames[1..])
      case None => DecodeAll(frames[1..])
  }

  /** End to end: the receiver dispatches exactly the messages the sender wrote, in order. */
  lemma {:induction false} WireRoundTrip(ms: seq<GameMessage>)
    ensures DecodeAll(Split(Stream(ms)).0) == ms
    decreases |ms|
  {
    SplitStream(ms);
    DecodeAllEncodeAll(ms);
  }

  lemma HeadAndTail<T>(s: seq<T>)
    requires |s| > 0
    ensures [s[0]] + s[1..] == s
  {
  }

  /** A frame that decodes is dispatched ahead of the frames after it. */
  lemma DecodeAllCons(frame: string, frames: seq<string>, m: GameMessage)
    requires Decode(frame) == Some(m)
    ensures DecodeAll([frame] + frames) == [m] + DecodeAll(frames)
  {
    assert ([frame] + frames)[1..] == frames;
  }

  lemma {:induction false} DecodeAllEncodeAll(ms: seq<GameMessage>)
    ensures DecodeAll(EncodeAll(ms)) == ms
    decreases |ms|
  {
    if ms != [] {
      DecodeEncode(ms[0]);
      assert EncodeAll(ms) == [Encode(ms[0])] + EncodeAll(ms[1..]);
      DecodeAllCons(Encode(ms[0]), EncodeAll(ms[1..]), ms[0]);
      DecodeAllEncodeAll(ms[1..]);
      HeadAndTail(ms);
    }
  }
}
