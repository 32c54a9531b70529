# TRIVIAFESC: the two-peer trivia protocol and its state machines

TRIVIAFESC is a trivia game for phones. A player either plays alone against the question table, or two players on two phones connect over classic Bluetooth and take turns. This project models the game's core in Dafny and proves properties of it:

- **The session link** (`Link`, for `services/BluetoothService.ts`). It is the one process-wide object that owns at most one device connection, the host/guest role flag, a single listener slot and the receive subscriptions. The six-variant `GameMessage` union and its wire format live in `Messages`. The wire format is newline-delimited JSON: every message is written as its `JSON.stringify` text plus one `'\n'`. `Messages` has an encoder and a decoder for exactly those six shapes. The decimal-number text both use is in `Text`.
- **Single-player mode** (`SingleMode`, for `SingleGame` in `app/game.tsx`). It tracks three lives, ten points per correct answer and the set of correctly answered question ids. It never draws a correctly answered question again; a question answered wrongly or timed out stays in the pool and can come back. The game ends when lives run out or every question has been answered correctly.
- **Two-player mode** (`Match`, for `MultiGame` in `app/game.tsx`). Each peer keeps its own copy of the turn, the lives and the scores. The peers keep those copies in step with CATEGORY_SELECTED, ANSWER_SUBMITTED, TURN_CHANGED and GAME_OVER. `Convergence` puts two copies side by side and proves that they agree after every answer, and that both name the same winner when the match ends.
- **The lobby** (`Lobby`, for `components/GameModeSelector.tsx`): the mode menu, the host's waiting room and the guest's device list.
- **The question card** (`Card`, for `components/QuestionCard.tsx`): a twenty-second countdown that reports the sentinel answer `__TIMEOUT__`, the option buttons, and the header colour chosen by the normalised category name.
- **The question table** (`Questions`, for `src/data/questions.ts`): two categories of 31 questions each. Every question has four options and its answer is one of them. Ids are unique across the table.
- **Four small rules:**
  - the sign-in form (`Login`, `app/login.tsx`);
  - the authentication redirect (`Layout`, `app/_layout.tsx`);
  - the leaderboard labels (`Leaderboard`, `app/leaderboard.tsx`);
  - the row of hearts (`Hearts`, `components/Hearts.tsx`).

Code that updates state in place is modelled as Dafny classes, one per component: `BluetoothService`, `SingleGame`, `MultiGame`, `GameModeSelector`, `QuestionCard` and `LoginScreen`. Their fields mirror the component's state. Each method is proved against a pure step function (`Select`, `Answer`, `LocalAnswer`, `RemoteMessage`, `Submit`, `Settle`, …), and the lemmas are stated about those functions.

Some inputs come from outside the model and are parameters:
- the answers of the Bluetooth library and of the Android permission request;
- the outcome of an authentication call;
- the index a random draw picks.

Some effects go to the outside world and are recorded as logs or events:
- the frames written to a device;
- the messages handed to a listener;
- the subscriptions removed and the devices asked to disconnect;
- alerts and navigation.

A `setTimeout` or `setInterval` callback becomes an explicit step (`FireTimer`, `Tick`, `DeliverSelection`).

Where the documented design of the system and its code differ, the model follows the code:
- There is no WebSocket transport and no `_sys` handshake frame.
- The guest's `connectToDevice` announces nothing.
- The receive path never replies with GAME_START. The host's start button is the only sender of GAME_START.

## Model

| member | source | states |
|---|---|---|
| Text.NatText | services/BluetoothService.ts:113 | the decimal text of a number is a non-empty run of digits, with a leading zero only for zero |
| Text.DigitsValueOfNatText | services/BluetoothService.ts:113 | reading the decimal text of n back gives n |
| Text.NatTextInjective | services/BluetoothService.ts:113 | different numbers have different decimal texts |
| Text.IntText | services/BluetoothService.ts:113 | an integer's text is non-empty, has no newline, and starts with a digit exactly when the integer is non-negative |
| Text.DigitRun | services/BluetoothService.ts:99 | the length of the leading digit run: all digits before it, a non-digit (or the end) right after it |
| Text.DigitRunOf | services/BluetoothService.ts:99 | a digit string followed by a non-digit has exactly its own length as digit run |
| Text.ParseNat | services/BluetoothService.ts:99 | a successful number parse always consumes input |
| Text.ParseInt | services/BluetoothService.ts:99 | a successful integer parse always consumes input |
| Text.NatTextParses | services/BluetoothService.ts:99-113 | parsing the text of n, followed by any non-digit rest, gives back n and that rest |
| Text.NegativeTextParses | services/BluetoothService.ts:99-113 | parsing a minus sign and the text of n gives back minus n and the rest |
| Text.PlainTextParses | services/BluetoothService.ts:99-113 | parsing the text of a non-negative number gives it back with the rest |
| Text.IntTextParses | services/BluetoothService.ts:99-113 | the integer written by the encoder reads back as the same integer, for every sign |
| Messages.HexValue | services/BluetoothService.ts:99 | a hex digit's value is below 16 |
| Messages.HexDigitValue | services/BluetoothService.ts:99-113 | reading the hex digit written for d gives d |
| Messages.Escape | services/BluetoothService.ts:113 | each character's JSON escape is non-empty and never holds a raw newline |
| Messages.EscapeAll | services/BluetoothService.ts:113 | an escaped string never holds a raw newline |
| Messages.Quote | services/BluetoothService.ts:113 | a quoted JSON string never holds a raw newline |
| Messages.Unescape | services/BluetoothService.ts:99 | an escape sequence that decodes consumes at least one and at most the available characters |
| Messages.ParseChars | services/BluetoothService.ts:99 | the string-body parser always consumes input when it succeeds |
| Messages.ParseString | services/BluetoothService.ts:99 | the string-literal parser always consumes input when it succeeds |
| Messages.EscapeParsesControl | services/BluetoothService.ts:99-113 | a control character written as a \u00XX escape reads back as itself |
| Messages.EscapeParsesShort | services/BluetoothService.ts:99-113 | a character with a two-character escape reads back as itself |
| Messages.EscapeParsesPlain | services/BluetoothService.ts:99-113 | a character written as itself reads back as itself |
| Messages.EscapeParses | services/BluetoothService.ts:99-113 | every character's escape reads back as that character, whatever follows |
| Messages.EscapeAllParses | services/BluetoothService.ts:99-113 | an escaped string followed by the closing quote reads back as the original string, leaving the rest |
| Messages.QuoteParses | services/BluetoothService.ts:99-113 | every string survives quoting and parsing, whatever follows the literal |
| Messages.Literal | services/BluetoothService.ts:99 | a matched literal is exactly the front of the input, and the rest is what follows it |
| Messages.LiteralOf | services/BluetoothService.ts:99 | a literal followed by anything matches and leaves that remainder |
| Messages.StringFieldOf | services/BluetoothService.ts:99-113 | a written string field reads back as its value |
| Messages.IntFieldOf | services/BluetoothService.ts:99-113 | a written number field reads back as its value |
| Messages.BoolFieldOf | services/BluetoothService.ts:99-113 | a written boolean field reads back as its value |
| Messages.DecodePlayerJoined | services/BluetoothService.ts:10 | the PLAYER_JOINED body reads back as the same message |
| Messages.DecodeCategorySelected | services/BluetoothService.ts:12 | the CATEGORY_SELECTED body reads back as the same message |
| Messages.DecodeAnswerSubmitted | services/BluetoothService.ts:13 | the ANSWER_SUBMITTED body reads back with the same answer, correctness flag and score |
| Messages.DecodeTurnChanged | services/BluetoothService.ts:14 | the TURN_CHANGED body reads back with the same player number |
| Messages.DecodeGameOver | services/BluetoothService.ts:15 | the GAME_OVER body reads back with the same winner and both scores |
| Messages.DecodeSplitsTag | services/BluetoothService.ts:99 | decoding reads the quoted type tag first, then decodes the body for that tag |
| Messages.DecodeBodyOfMessage | services/BluetoothService.ts:9-15 | for each of the six variants, its tag and body decode back to that message |
| Messages.DecodeEncode | services/BluetoothService.ts:99-113 | decoding the JSON text of any message gives back exactly that message |
| Messages.EncodeHasNoNewline | services/BluetoothService.ts:113 | the JSON text of any message holds no raw newline, so the frame delimiter cannot occur inside it |
| Messages.SplitThrough | services/BluetoothService.ts:61-86 | splitting on the delimiter cuts a newline-free frame off exactly at its newline |
| Messages.EncodeAll | services/BluetoothService.ts:113 | one frame text per message |
| Messages.SplitStream | services/BluetoothService.ts:61-113 | a stream of written frames splits into exactly the messages' JSON texts, with nothing left over |
| Messages.DecodeAllCons | services/BluetoothService.ts:94-103 | a frame that decodes contributes its message and then the rest of the decoded frames |
| Messages.DecodeAllEncodeAll | services/BluetoothService.ts:94-113 | decoding the JSON texts of a list of messages gives back the same list |
| Messages.WireRoundTrip | services/BluetoothService.ts:94-113 | what the receiver parses from the sender's byte stream is exactly the sent sequence, in order |
| Link.BluetoothService.constructor | services/BluetoothService.ts:23-27 | the link starts with no device, the guest role, no listener and no subscriptions |
| Link.BluetoothService.OnMessage | services/BluetoothService.ts:120-123 | a message goes to the registered listener only, and is dropped silently when there is none |
| Link.BluetoothService.ListenToDevice | services/BluetoothService.ts:94-107 | listening to a device adds exactly one subscription for it |
| Link.BluetoothService.StartServer | services/BluetoothService.ts:50-67 | refused permission fails before any field changes; for an unavailable adapter, the host flag is already set and no device is kept; on success the accepted device is kept, one PLAYER_JOINED naming the peer (else 'Jugador') goes to the listener, and one subscription is added |
| Link.BluetoothService.SearchDevices | services/BluetoothService.ts:69-81 | refused permission fails; otherwise one {id, name, address} item per bonded device, in the same order, each equal to that device's item |
| Link.BluetoothService.ConnectToDevice | services/BluetoothService.ts:83-92 | on success the device is kept, the role is guest and one subscription is added, with no permission check and no message; a rejection changes nothing |
| Link.BluetoothService.OnDataReceived | services/BluetoothService.ts:94-104 | a frame that decodes reaches the listener as that message; one that does not is dropped without a dispatch |
| Link.BluetoothService.SendMessage | services/BluetoothService.ts:109-114 | with no device it fails as not connected and writes nothing; otherwise exactly one write of the JSON text plus '\n' to the device |
| Link.BluetoothService.OnMessageReceived | services/BluetoothService.ts:116-118 | registering a listener replaces the single slot |
| Link.BluetoothService.Disconnect | services/BluetoothService.ts:125-142 | every subscription is removed, in order; the kept device, if any, is asked to disconnect once, and its rejection changes nothing; the device, role and listener are cleared; a second call removes and disconnects nothing more |
| Link.BluetoothService.IsConnected | services/BluetoothService.ts:144-146 | true exactly while a device is kept |
| Link.BluetoothService.IsHostDevice | services/BluetoothService.ts:148-150 | reports the role flag |
| Questions.IngenieriaFacts | src/data/questions.ts:9-232 | 31 Ingenieria questions; each has four options and its answer among them, and is named 'ing' plus its position |
| Questions.MedicinaFacts | src/data/questions.ts:234-429 | 31 Medicina questions; each has four options and its answer among them, and is named 'med' plus its position |
| Questions.CategoriesOfTable | src/data/questions.ts:8-234 | there are exactly two categories, Ingenieria and Medicina, listed in table order |
| Questions.TableSize | src/data/questions.ts:9-429 | 31 questions per category, 62 in the flat list |
| Questions.AllWellFormed | src/data/questions.ts:8-430 | every question has exactly four options and an answer among them |
| Questions.UniqueIds | src/data/questions.ts:11-425 | no id appears twice in the whole table |
| Questions.IdsOfDistinct | src/data/questions.ts:11-425 | a list without repeated ids has as many ids as questions, and every question's id is among them |
| Questions.AllIdsCount | src/data/questions.ts:11-425 | the table holds 62 distinct ids, which is the total that single-player mode counts towards |
| Questions.PoolsInTable | src/data/questions.ts:8-430 | each category's pool is part of the flat question list |
| Questions.PoolFacts | src/data/questions.ts:8-430 | a category's pool holds 31 well-formed questions of the table |
| Questions.TimeoutNeverCorrect | components/QuestionCard.tsx:61 | the timeout sentinel is no question's answer |
| SingleMode.Unused | app/game.tsx:59-60 | the available questions are exactly the pool's questions whose ids are unused |
| SingleMode.Select | app/game.tsx:57-83 | with none left, only the no-more-questions alert is raised; otherwise the one change is a question of that category whose id is unused |
| SingleMode.AnswerWithoutQuestion | app/game.tsx:105 | an answer with no question on screen changes nothing |
| SingleMode.AnswerCorrect | app/game.tsx:109-136 | a correct answer adds ten points, marks the id used, keeps the lives and schedules one timer |
| SingleMode.AnswerIncorrect | app/game.tsx:137-150 | a wrong answer costs one life and keeps the score and the used ids; the round clears after 3000 ms |
| SingleMode.LivesEffectEndsGame | app/game.tsx:86-90 | the game-over screen, with the score, is requested exactly when no lives are left, and nothing else changes |
| SingleMode.LastUnusedId | app/game.tsx:123-125 | adding one unused id reaches the whole set exactly when the count test holds |
| SingleMode.EndConditionIsExhaustion | app/game.tsx:123-125 | the test usedIds.size + 1 >= total holds exactly when this answer uses up the last question of the table |
| SingleMode.StartInv | app/game.tsx:38-42 | the starting state keeps the bookkeeping invariant: used ids are table ids, the score is ten per used id, at most three lives |
| SingleMode.SelectKeepsInv | app/game.tsx:57-83 | drawing a question keeps the invariant |
| SingleMode.SelectCategoryKeepsInv | app/game.tsx:99-102 | a wheel choice keeps the invariant |
| SingleMode.AnswerKeepsInv | app/game.tsx:104-151 | any answer keeps the invariant |
| SingleMode.CorrectAnswerKeepsInv | app/game.tsx:109-116 | a correct answer adds a new id, so the score still counts the used ids |
| SingleMode.FireKeepsInv | app/game.tsx:126-149 | firing a pending timer keeps the invariant |
| SingleMode.OkKeepsInv | app/game.tsx:69-72 | the alert's OK button keeps the invariant |
| SingleMode.LivesEffectKeepsInv | app/game.tsx:86-90 | the lives effect keeps the invariant |
| SingleMode.ProgressBounded | app/game.tsx:212-216 | the progress line never counts more answered questions than the table holds |
| SingleMode.FinishesExactlyWhenExhausted | app/game.tsx:123-136 | a correct answer schedules the game-over screen, with the new score, exactly when every question has been answered |
| SingleMode.CorrectAnswerTimer | app/game.tsx:123-136 | the timer a correct answer schedules is the game-over after 2000 ms or the round clear after 2000 ms, chosen by the count test |
| SingleMode.DrawThenAnswerable | app/game.tsx:57-107 | a drawn question is on screen, its id is unused, and the invariant holds |
| SingleMode.SingleGame.constructor | app/game.tsx:38-46 | three lives, no points, no category, question, used ids or feedback |
| SingleMode.SingleGame.SelectQuestionFromCategory | app/game.tsx:57-83 | the component's new state is the draw step applied to its old state |
| SingleMode.SingleGame.PressNoMoreQuestionsOk | app/game.tsx:69-72 | OK clears the category and the question |
| SingleMode.SingleGame.HandleSelectCategory | app/game.tsx:99-102 | the new state is the wheel-choice step applied to the old one |
| SingleMode.SingleGame.HandleAnswer | app/game.tsx:104-151 | the new state is the answer step applied to the old one |
| SingleMode.SingleGame.FireTimer | app/game.tsx:126-149 | the earliest pending timer fires as the timer step says |
| SingleMode.SingleGame.RunLivesEffect | app/game.tsx:86-90 | the new state is the lives-effect step applied to the old one |
| Match.Pair.With | app/game.tsx:279-281 | a keyed update sets that player's entry and keeps the other's |
| Match.PickQuestion | app/game.tsx:246-249 | a known category yields a question of its pool, which is in the table; an unknown category yields none |
| Match.LocalAnswer | app/game.tsx:347-406 | a local answer never sends CATEGORY_SELECTED |
| Match.InTurnAnswer | app/game.tsx:358-399 | an in-turn answer never sends CATEGORY_SELECTED |
| Match.InitialState | app/game.tsx:231-236 | a match starts at turn 1 with 3/3 lives and 0/0 points; the host plays as 1 and the guest as 2 |
| Match.SelectCategoryEffect | app/game.tsx:251-261 | the guest's wheel does nothing; the host's broadcasts CATEGORY_SELECTED and shows a question of that pool |
| Match.IdleAnswer | app/game.tsx:347-356 | with no question, or out of turn, nothing is sent and no game state changes; out of turn only the alert is shown |
| Match.InTurnAnswerCounts | app/game.tsx:358-374 | an in-turn answer sends ANSWER_SUBMITTED with score 0 first and changes only the answerer's own entry: +10 points or -1 life |
| Match.InTurnAnswerOutcome | app/game.tsx:376-399 | at no own lives left the opponent wins and only the host sends GAME_OVER; otherwise TURN_CHANGED names the other player and the turn passes to them |
| Match.RemoteAnswerEffect | app/game.tsx:273-309 | a received ANSWER_SUBMITTED changes the recorded turn's player by +10 or -1, ignoring the answer and score fields; at no lives left the receiver names itself winner, keeps the turn and sends GAME_OVER, else it takes the turn |
| Match.TurnChangedEffect | app/game.tsx:311-313 | TURN_CHANGED sets the turn verbatim and changes nothing else |
| Match.RemoteCategoryEffect | app/game.tsx:266-270 | a received category is shown with a question from that pool that the receiver draws itself; nothing is sent |
| Match.Frames | services/BluetoothService.ts:109-114 | the writes of a series of sends: none without a device, one per message with one |
| Match.FramesElements | services/BluetoothService.ts:109-114 | with a device, the i-th write is the i-th message's frame |
| Match.FramesAppend | services/BluetoothService.ts:109-114 | the writes of two series of sends are the writes of each, in order |
| Match.MultiGame.constructor | app/game.tsx:231-242 | the state is the initial match state for the link's role, which nothing reachable from the match screen changes while it is mounted |
| Match.MultiGame.Send | app/game.tsx:254-257 | an unawaited send writes its frame when a device is connected and nothing otherwise |
| Match.MultiGame.Register | app/game.tsx:330-331 | the match takes the link's listener slot |
| Match.MultiGame.Unregister | app/game.tsx:332 | on leaving the screen the slot holds the idle listener |
| Match.MultiGame.HandleSelectCategory | app/game.tsx:251-261 | state and writes follow the category-selection step |
| Match.MultiGame.HandleAnswer | app/game.tsx:347-406 | state and writes follow the local-answer step, messages in the order sent |
| Match.MultiGame.AnswerInTurn | app/game.tsx:358-405 | state and writes follow the in-turn answer step |
| Match.MultiGame.SendInOrder | app/game.tsx:358-398 | two sends in a row write both frames in order |
| Match.MultiGame.CountOwnAnswer | app/game.tsx:365-374 | +10 points and correct feedback, or -1 life and feedback naming the answer, for the local player only |
| Match.MultiGame.HandleRemoteMessage | app/game.tsx:263-328 | state and writes follow the remote-message step |
| Match.MultiGame.HandleRemoteAnswer | app/game.tsx:273-309 | state and writes follow the remote-answer step |
| Match.MultiGame.FireTimer | app/game.tsx:401-405 | the round clear empties category, question and feedback |
| Convergence.PeersPlayAsOneAndTwo | app/game.tsx:231-232 | a host and a guest between them play as 1 and 2 |
| Convergence.AnswerConverges | app/game.tsx:273-399 | with equal turn, lives and scores before an in-turn answer, delivering its ANSWER_SUBMITTED and TURN_CHANGED leaves both copies equal, with the turn at the receiver, and the receiver sends nothing |
| Convergence.EndConverges | app/game.tsx:284-391 | an answer that ends the match makes both peers show the same winner, every GAME_OVER sent carries that winner and the same scores, and the two copies still agree on turn, lives and scores |
| Convergence.HostEndConverges | app/game.tsx:284-391 | when the host loses, the host and the guest both name player 2 and send the same GAME_OVER |
| Convergence.GuestEndConverges | app/game.tsx:284-391 | when the guest loses, the guest names player 1 and the host, on receipt, names player 1 too and sends GAME_OVER |
| Convergence.HostEndAgrees | app/game.tsx:284-391 | after the host's ending answer and the guest's handling of both messages, the copies agree on turn, lives and scores |
| Convergence.GuestEndAgrees | app/game.tsx:284-391 | after the guest's ending answer and the host's handling of it, the copies agree on turn, lives and scores |
| Convergence.EveryAnswerAgrees | app/game.tsx:273-399 | after any in-turn answer, ending or not, the answerer's and the receiver's copies agree on turn, lives and scores |
| Convergence.CategoryConverges | app/game.tsx:251-271 | the host's category reaches the guest; both show that category with a question of its pool, and neither changes turn, lives or scores |
| Convergence.PeersMayShowDifferentQuestions | app/game.tsx:246-270 | the question is not sent, so different draws show the two players different questions of the same category |
| Convergence.WireAnswerConverges | app/game.tsx:273-399 | the same convergence holds through the wire format: the receiver parses exactly the messages sent |
| Lobby.ExactlyOnePanel | components/GameModeSelector.tsx:303-309 | with the mode never 'single', exactly one panel renders: the main menu when no mode is chosen, else the one the step selects |
| Lobby.SingleModeRendersNothing | components/GameModeSelector.tsx:303-309 | the mode 'single' would render no panel at all |
| Lobby.StartButtonOnlyWhenJoined | components/GameModeSelector.tsx:225-243 | by JavaScript truthiness: the start button shows exactly when the recorded peer name is non-empty, the subtitle then names that peer, and otherwise it is 'Esperando jugador...' |
| Lobby.EmptyNameIsNotJoined | components/GameModeSelector.tsx:225-243 | a peer recorded with an empty name gets the waiting text and no start button |
| Lobby.DeviceLabel | components/GameModeSelector.tsx:273 | a device is labelled by its name, else its address, else its id |
| Lobby.DeviceList | components/GameModeSelector.tsx:262-278 | an empty list shows the empty marker; otherwise one label per device, in order |
| Lobby.GameModeSelector.constructor | components/GameModeSelector.tsx:28-33 | no mode, step 'select', not busy, no devices, no peer |
| Lobby.GameModeSelector.Register | components/GameModeSelector.tsx:52 | the lobby takes the link's listener slot |
| Lobby.GameModeSelector.Unregister | components/GameModeSelector.tsx:53 | on unmount the slot holds the idle listener |
| Lobby.GameModeSelector.Receive | components/GameModeSelector.tsx:37-50 | PLAYER_JOINED records the peer's name; GAME_START closes the modal and opens the two-player game; other messages change nothing |
| Lobby.GameModeSelector.VisibilityChanged | components/GameModeSelector.tsx:56-65 | hiding the modal resets all five fields |
| Lobby.GameModeSelector.HandleSinglePlayer | components/GameModeSelector.tsx:70-73 | closes the modal and opens the single-player game |
| Lobby.GameModeSelector.HandleMultiplayer | components/GameModeSelector.tsx:78-81 | enters the multiplayer menu at step 'select' |
| Lobby.GameModeSelector.HandleHost | components/GameModeSelector.tsx:86-97 | goes to the waiting room; on failure it alerts with the error text and goes back to 'select'; on success the device is kept and the joined peer is recorded when the lobby holds the listener slot; it always ends not busy |
| Lobby.GameModeSelector.StartGameAsHost | components/GameModeSelector.tsx:99-107 | GAME_START is written before the match opens; if it cannot be sent, only the alert is shown |
| Lobby.GameModeSelector.HandleJoin | components/GameModeSelector.tsx:112-124 | on success the list holds exactly one {id, name, address} item per bonded device, in order; on failure it alerts and goes back to 'select'; it always ends not busy |
| Lobby.GameModeSelector.ConnectTo | components/GameModeSelector.tsx:126-136 | connects as guest; on failure it alerts; it never navigates and always ends not busy |
| Lobby.GameModeSelector.HandleBack | components/GameModeSelector.tsx:141-150 | at 'select' only the mode is cleared; at 'host' or 'join' the step returns to 'select' and devices, peer and busy flag are cleared |
| Card.StripMark | components/QuestionCard.tsx:16-17 | the base letter left after removing marks is never a combining mark, and is ASCII unless the character is kept |
| Card.StripMarks | components/QuestionCard.tsx:16-17 | no combining mark remains, and the text never grows |
| Card.TrimStart | components/QuestionCard.tsx:18 | a suffix of the input: every dropped character is white space and the result does not start with white space |
| Card.TrimEnd | components/QuestionCard.tsx:18 | a prefix of the input: every dropped character is white space and the result does not end with white space |
| Card.Trim | components/QuestionCard.tsx:18 | the slice of the input between its leading and its trailing white space, with no white space at either end |
| Card.TrimUnspaced | components/QuestionCard.tsx:18 | text with no white space at either end passes the trim unchanged |
| Card.LowerChar | components/QuestionCard.tsx:19 | an ASCII or Latin-1 capital becomes its small letter (32 code points on), every other character stays; no ASCII capital remains |
| Card.Lower | components/QuestionCard.tsx:19 | each character is lower-cased in place |
| Card.Normalize | components/QuestionCard.tsx:14-19 | the key has no ASCII capitals and no white space at either end |
| Card.HeaderColor | components/QuestionCard.tsx:22-40 | teal exactly for the key 'medicina', orange for every other key ('ingenieria' and the fallback) |
| Card.StripMarksPlain | components/QuestionCard.tsx:16-17 | ASCII text passes the accent stripper unchanged |
| Card.StripMarksAppend | components/QuestionCard.tsx:16-17 | accents are stripped character by character |
| Card.PlainNormalize | components/QuestionCard.tsx:14-19 | a plain ASCII word with no outer white space is only lower-cased |
| Card.NormalizeIngenieria | components/QuestionCard.tsx:14-19 | 'Ingenieria' normalises to 'ingenieria' |
| Card.NormalizeMedicina | components/QuestionCard.tsx:14-19 | 'Medicina' normalises to 'medicina' |
| Card.TableCategoryColors | components/QuestionCard.tsx:22-40 | the table's two category names get orange and teal |
| Card.AccentIgnored | components/QuestionCard.tsx:14-19 | the accented 'Ingeniería' gets the same key as 'Ingenieria' |
| Card.TickStep | components/QuestionCard.tsx:55-64 | above one the count drops by one; at one or below it becomes 0 and the timeout is reported |
| Card.CountdownFacts | components/QuestionCard.tsx:54-66 | from a positive start the count never goes negative, the timeout is reported at most once, and it is reported exactly when as many ticks as the start value have passed |
| Card.TimeoutOnTwentiethTick | components/QuestionCard.tsx:35-66 | a fresh card reports its timeout on the twentieth tick and not before |
| Card.TimeoutScoresAsMiss | components/QuestionCard.tsx:61 | the sentinel matches no answer of the table, so the game scores a timeout as wrong |
| Card.QuestionCard.constructor | components/QuestionCard.tsx:33-48 | a mounted card starts at 20 with no selection, and its timer runs unless disabled |
| Card.QuestionCard.Restart | components/QuestionCard.tsx:43-73 | each re-run of the effect (a new question, a new `disabled`, or a new `onAnswer` callback, which the game screens make on every render) clears the old interval and resets the count to 20 with a fresh timer, unless disabled, when no timer runs |
| Card.QuestionCard.Tick | components/QuestionCard.tsx:54-66 | one interval firing follows the tick step; a timeout stops the timer and reports '__TIMEOUT__' once |
| Card.QuestionCard.SelectOption | components/QuestionCard.tsx:75-91 | disabled does nothing; otherwise the timer stops, the option is marked, its correctness is answer equality, and it is queued for delivery |
| Card.QuestionCard.DeliverSelection | components/QuestionCard.tsx:87-91 | the queued option is reported to the parent and the marks are cleared |
| Login.Initial | app/login.tsx:11-22 | the form starts in login mode, not loading, with nothing sent or shown |
| Login.GuardAlert | app/login.tsx:27-41 | no alert exactly when email and password are filled and, in signup mode, name and career too |
| Login.RequestFor | app/login.tsx:46-71 | sign-in in login mode, signup otherwise, with the typed email and password; the age is null exactly when its field is empty |
| Login.Submit | app/login.tsx:26-44 | a press while loading does nothing |
| Login.Settle | app/login.tsx:46-94 | every outcome clears loading and the request, and sends nothing new |
| Login.Toggle | app/login.tsx:173-176 | the toggle does nothing while loading |
| Login.MissingCredentials | app/login.tsx:27-30 | an empty email or password only raises the missing-fields alert, in either mode |
| Login.SignupNeedsNameAndCareer | app/login.tsx:33-41 | a signup without a name or a career only raises its alert |
| Login.SubmitSendsIff | app/login.tsx:26-71 | a press sends the mode's request exactly when the guards pass, and otherwise raises one alert and stays idle |
| Login.LoginIgnoresProfileFields | app/login.tsx:33-51 | in login mode the profile fields change neither the checks nor the request, which is sign-in with email and password |
| Login.SignupAge | app/login.tsx:66 | the signup payload carries null for an empty age and the age text otherwise |
| Login.SignupWithoutSession | app/login.tsx:79-88 | a signup accepted without a session reports it, switches to login and clears the password, keeping the other fields |
| Login.AcceptedLeavesForm | app/login.tsx:53-89 | any other success leaves the form as it was, only no longer loading |
| Login.FailureReported | app/login.tsx:53-91 | a returned or thrown error is reported once under its title, and the mode and password are kept |
| Login.LoadingAlwaysCleared | app/login.tsx:44-94 | loading is set only when a request goes out, and settling it always clears loading |
| Login.ToggleFlips | app/login.tsx:173-176 | when idle the toggle flips the mode and twice is no change; while loading it does nothing |
| Login.InitialValid | app/login.tsx:11-22 | the starting form keeps the invariant: a request is in flight exactly while loading |
| Login.StepsKeepValid | app/login.tsx:26-176 | submitting, settling, toggling and typing all keep that invariant |
| Login.LoginScreen.constructor | app/login.tsx:11-22 | the screen's state is the initial form |
| Login.LoginScreen.ChangeText | app/login.tsx:108-154 | typing changes exactly that field |
| Login.LoginScreen.HandleSubmit | app/login.tsx:26-71 | the new state is the submit step applied to the old one |
| Login.LoginScreen.SettleRequest | app/login.tsx:53-94 | the new state is the settle step applied to the old one |
| Login.LoginScreen.PressToggle | app/login.tsx:173-176 | the new state is the toggle step applied to the old one |
| Layout.Redirect | app/_layout.tsx:14-27 | no redirect while loading; '/login' exactly when signed out inside '(tabs)'; '/' exactly when signed in outside it; never any other target |
| Layout.Render | app/_layout.tsx:29-38 | the spinner shows exactly while loading |
| Layout.RedirectSettles | app/_layout.tsx:18-27 | if '/' resolves inside '(tabs)', after at most one redirect no further redirect is due, and the user is inside '(tabs)' exactly when signed in |
| Layout.RedirectRepeatsWhenHomeOutsideTabs | app/_layout.tsx:18-27 | if '/' resolves outside '(tabs)', a signed-in user outside the group is redirected to '/' again after the redirect |
| Layout.NoRedirectMeansSettled | app/_layout.tsx:18-27 | when no redirect is due, the user is inside '(tabs)' exactly when signed in |
| Leaderboard.MedalLabel | app/leaderboard.tsx:35-42 | positions 0 to 2 get a medal and only they do; any other position gets digits followed by '.' |
| Leaderboard.NumberedLabelValue | app/leaderboard.tsx:40 | the digits of a numbered label spell the position plus one |
| Leaderboard.LabelsDistinct | app/leaderboard.tsx:35-42 | different positions get different labels |
| Leaderboard.Render | app/leaderboard.tsx:69-96 | one row per entry, in stored order, with its medal label and top-three flag |
| Leaderboard.TopThreeAreMedalled | app/leaderboard.tsx:74-82 | an entry has top-three styling exactly when its label is a medal |
| Leaderboard.EmptyStateIffNoCards | app/leaderboard.tsx:98-103 | the empty state shows exactly when there are no cards |
| Leaderboard.CountAbove | app/leaderboard.tsx:69 | the count of entries scoring above a value is at most the list length |
| Leaderboard.NoneAbove | app/leaderboard.tsx:69 | no entry is above the highest score |
| Leaderboard.PositionIsRank | app/leaderboard.tsx:69 | in a list with strictly decreasing scores, an entry's position is the number of entries scoring above it |
| Leaderboard.SeedFields | app/leaderboard.tsx:16-25 | the seed has eight entries with ids '1' to '8' and scores falling by ten from 150 |
| Leaderboard.SeedIsRanked | app/leaderboard.tsx:16-69 | the seed's ids are distinct and its scores strictly decrease, so display position equals rank |
| Hearts.Hearts | components/Hearts.tsx:11-12 | exactly three hearts; heart i (from 1) is active exactly when i is at most the lives |
| Hearts.CountActive | components/Hearts.tsx:11-12 | never more active hearts than hearts; none exactly when every heart is faded, all exactly when every heart is active |
| Hearts.Clamp | components/Hearts.tsx:11-12 | lives clamped to 0..3, unchanged inside that range |
| Hearts.ActiveHeartsFormPrefix | components/Hearts.tsx:11-12 | if a heart is active, every heart before it is active |
| Hearts.ActiveCount | components/Hearts.tsx:11-12 | the number of active hearts is the lives clamped to 0..3: none at 0 or below, all three at 3 or above |
| Hearts.ActiveIsFirstClamp | components/Hearts.tsx:11-12 | heart k is active exactly when k is below the clamped lives |

## Left out

- The Bluetooth library and the Android permission request are not modelled. Their answers are parameters: permission granted, adapter available, the device accept or connect returned, the bonded devices. Write failures of the native library are not modelled, because `sendMessage` propagates them unchanged.
- JSON parsing: the decoder accepts exactly the canonical `JSON.stringify` text of the six message shapes, and any other frame is dropped. `JSON.parse` accepts any JSON value, and the source casts it to a message. So frames with other key orders, white space, unknown types or `null` are not modelled the way the source handles them.
- Numbers on the wire are integers only. Fractional and exponent forms are not modelled, because every number the game sends is a whole count.
- The decoder refuses `\u` escapes in the surrogate range, because Dafny's `char` cannot hold a lone surrogate. The encoder never writes one.
- Lobby.GameModeSelector.Receive: the `playerName ?? 'Jugador'` fallback and the `!msg` guard are not modelled. The decoder only produces messages whose fields are present.
- Card.StripMarks: models `normalize('NFD')` plus removing U+0300 to U+036F for the precomposed letters of Latin-1 only, not for all of Unicode.
- Card.Lower: lower-cases ASCII and Latin-1 capitals only, not all of Unicode.
- Card.HeaderColor: the prototype keys of the `categoryColors` object (such as `constructor`) are not modelled.
- Card.Normalize: for arbitrary text, it is not proved that case and spacing variants of a category name map to the same key. The table's own names are proved (TableCategoryColors, AccentIgnored).
- Timer delays and the order in which timers fire are not modelled. Pending timers fire in the order they were set, as an explicit step.
- The MultiGame turn animation (`showTurnAnim`, `app/game.tsx:244`, `335-339`) is not modelled, because it is animation only.
- The re-run of the single-player draw effect when `usedIds` changes is not modelled. A draw is a step that the model applies explicitly.
- Translations are not modelled. Alert texts use the source's Spanish fallback strings, and feedback carries its data but not its text.
- `getTranslatedCategory` is not modelled, because it only looks up display text.
- MultiGame's QuestionCard gets no category, so its header is always orange. The `disabled` prop is never passed. Both follow from the model's defaults and are not separately stated.
- components/CategoryWheel.tsx, components/TurnIndicator.tsx, app/profile.tsx, app/gameover.tsx, app/index.tsx, contexts/LanguageContext.tsx and i18n/index.ts are not part of this model. They hold animation, floating-point geometry, static screens and localisation.
- The Supabase calls in `app/login.tsx` are not modelled. Their results are an outcome parameter (rejected, accepted with or without a session, thrown).
- Login.RequestFor: carries the age as text. The `Number(age)` conversion is not modelled.
- Date formatting (`toLocaleDateString`) and the pull-to-refresh toggle of the leaderboard are not modelled, because they are locale and timer UI.
- The heart animations in `components/Hearts.tsx` are not modelled; only which hearts are active is.
- Layout.RedirectSettles: assumes that '/' resolves to app/(tabs)/index.tsx, inside the group. The tree also has app/index.tsx outside it, and which of the two expo-router picks is router behaviour the model does not capture; RedirectRepeatsWhenHomeOutsideTabs states what happens otherwise.
- Match.MultiGame.Send: a rejected `sendMessage` is not awaited or caught at its call sites in `app/game.tsx`. The model records no write and carries on.
