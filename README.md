# Memorization bot: the conversation and scheduling core in Dafny

This project models the core of a Telegram flash-card bot. A user keeps decks
of cards. A card's front and back are each one or more chat messages. Cards are
rehearsed on the schedule of a modified SM-2 algorithm. All interaction goes
through a per-user conversation state machine whose state and payload are stored
with the user.

The model follows the program's own structure:

| Dafny module (file) | Source | Form |
|---|---|---|
| `Sm` (sm.dfy) | sm/sm.go | functions and lemmas over 16-bit integers |
| `Messages` (message.dfy) | message.go | datatypes, the message classifier and the send mapping |
| `States` (states.dfy) | state.go (enum, payload, `stringTernary`) | datatypes and functions |
| `Labels` (labels.dfy) | messages.go | button labels and the answer keyboard |
| `Store` (store.dfy) | rows of card.go, deck.go, user.go | rows and tables as maps keyed by id |
| `Session` (context.dfy) | context.go | class `Context`: the turn's user, tables, payload and send log |
| `Cards` (cards.dfy) | card.go | the review function plus methods that change a card row or send a face |
| `Decks` (decks.dfy) | deck.go | the review-order query plus methods that change a deck row |
| `Users` (users.dfy) | user.go | lookups as functions; user-row writes and deck creation as methods |
| `Present` (present.dfy) | state.go `Show`, user.go `SetAndShowState` | mutually recursive methods |
| `Chat` (chat.dfy) | chat.go `HandleMessage` | one method per conversation state, plus the dispatch |
| `Service` (bot.dfy) | chat.go `HandleMessage`, user.go `WithUser` | class `Bot`: committed users and tables, sent messages |

The database is two tables, decks and cards, each a map from id to row, with a
serial counter each. The user row lives in the `Context` during a turn and in
`Bot.users` between turns. `Store.Valid` says every row is stored under its own
id and that ids are positive and below the next serial value. `NamesUnique` says
no user has two decks with the same name. Every turn keeps both
(`Chat.HandleMessage`, `Service.Bot.HandleMessage`).

The outside world reaches a turn through `Session.Env`:
- the current day in a time zone (`date_in_time_zone`);
- whether a text names a time zone (`time.LoadLocation`);
- the `15:04` clock parser;
- the geocoding lookup of a location's time zone.

The random tie-breaker written by a review is any value in [0, 2147483647).
Sends are appended to the context's log `out`.

Days are whole day numbers. Go's `int16` fields are `int16` values, and
overflow wraps explicitly (`Prelude.Wrap16`). Go's truncating `/` and `%` are
`Prelude.Quot` and `Prelude.Rem`. A Go panic is `Err(Panic(kind))`, and
`sql.ErrNoRows` is `Err(NoRows)`.

### Behaviours of the code that the model keeps

These follow from the code as written. Lemmas or contracts state them.

- **SM-2 modifications.**
  - Under `SM2Mod` an interval of 0 goes with a streak restart only for cards in the region reviews keep (`Sm.SM2ModRepeatRestarts`, `Sm.ReachablePreserved`).
  - Outside that region the implication fails: repetition 3 with interval 0 and quality 2 gives interval 0 and repetition 4 (`Sm.RepeatWithoutRestart`).
  - Under `SM2` it fails even for reachable cards (`Sm.SM2RepeatKeepsStreak`).
- **Interval overflow.** The interval is computed in 64 bits, then truncated to 16. 20000 days at easiness 2.50 gives -15536 (`Sm.IntervalWraps`).
- **First review.** A new card starts with streak 0, so its first review never schedules it for a later day, whatever the answer (`Cards.FreshCardRepeatsToday`).
- **Nothing due in a deck.** `GetCardForReview` fails with `NoRows` when nothing is due. So Edit Card in a deck with nothing due sends the database error text to the chat (`Chat.OnDeckDetails`).
- **Rename of a missing deck.**
  - `DeckNameEdit` ignores a failed deck lookup. The rename check then runs on the zero deck.
  - When that check passes, the rename of row 0 fails with `NoRows`. When it fails, "Name already used" is replied.
  - The rename path never checks for an empty name (`Chat.OnDeckNameEdit`).
- **Text time zone.** In `SetTimeZone`, a text that names a valid time zone is accepted. The zone stored, and named in the reply, is the empty string (`Chat.OnSetTimeZone`).
- **Answer with no card due.** In `RehearsingCardReview` with no card due, an answer button is acknowledged first. The nil card is then dereferenced (`Chat.OnRehearsingCardReview`).
- **Showing `Rehearsing`.** It is not read-only: with nothing due it moves the user to `DeckList` (`Present.Show`, `Present.SetAndShowState`).
- **Captured faces.** A card face captured from one message is at most one stored message (`Messages.ProcessMessage`, `Chat.OnCardCreate`).
- **Garbled replies.** Two answer replies are stored as UTF-8 bytes read as Windows-1252. The model keeps those exact characters (`Chat.RehearsalReply`, `Chat.ReviewReply`).

## Model

| member | source | states |
|---|---|---|
| Prelude.Wrap16 | card.go:75 | a value in int16 range is kept; any other wraps modulo 2^16 |
| Prelude.Quot | sm/sm.go:69 | truncating division: the remainder has the sign of the dividend and is smaller than the divisor |
| Prelude.Rem | sm/sm.go:70 | dividend = quotient × divisor + remainder; the remainder has the dividend's sign |
| Prelude.ReplaceNewlines | chat.go:63 | same length; every newline becomes a space; all else is kept |
| Prelude.TrimSpaceKeepsMiddle | chat.go:63 | the trimmed name is the part of the text right after its leading white space |
| Prelude.TrimSpaceCutsOnlySpace | chat.go:63 | everything cut off after the trimmed name is white space |
| Prelude.TrimSpaceEnds | chat.go:63 | a non-empty trimmed name begins and ends with a character that is not white space |
| Prelude.TrimSpaceEmpty | chat.go:64 | trimming leaves nothing exactly when the text is all white space |
| Prelude.TrimSpaceIdempotent | chat.go:157 | trimming twice is trimming once |
| Prelude.Decimal | state.go:169 | a non-empty string of decimal digits |
| Prelude.DecimalSpells | state.go:169 | the `%d` rendering denotes the number it prints and has no leading zero unless the number is zero |
| Prelude.DecimalInjective | state.go:169 | two different numbers never print the same digits |
| Sm.QualityDomains | sm/sm.go:11-33 | SM2Mod accepts qualities 0 to 3 and SM2 accepts 0 to 5 |
| Sm.NextEF | sm/sm.go:36-46 | never below 130; when the sum fits in 16 bits, the old easiness plus the quality's delta, floored at 130 |
| Sm.NextRepetition | sm/sm.go:48-54 | 1 below the reset quality, otherwise the streak plus one, wrapping from 32767 to -32768 |
| Sm.NextInterval | sm/sm.go:56-75 | 0 below the repeat quality; 1 after streak 1; 6 after streak 2; otherwise interval × easiness / 100 rounded half up, when that fits in 16 bits |
| Sm.Calc | sm/sm.go:77-80 | the three results are the three steps applied to the pre-update streak, easiness and interval |
| Sm.RoundingExamples | sm/sm.go:62-75 | 7 × 2.50 gives 18, 10 × 2.50 gives 25, a failed answer gives 0, and a first pass gives (2, 260, 1) |
| Sm.ReachablePreserved | sm/sm.go:77-80 | an SM2Mod review keeps the scheduling fields in the reachable region when nothing overflows |
| Sm.SM2ModRepeatRestarts | sm/sm.go:24-33 | for reachable cards, an SM2Mod interval of 0 comes with a streak of 1 |
| Sm.RepeatWithoutRestart | sm/sm.go:48-60 | an unreachable card (streak 3, interval 0) gets interval 0 with streak 4 |
| Sm.SM2RepeatKeepsStreak | sm/sm.go:11-22 | under SM2, quality 3 after streak 1 repeats today while the streak grows to 2 and easiness falls to 2.36 |
| Sm.IntervalWraps | sm/sm.go:68-73 | 20000 days at 2.50 truncates to -15536 |
| Messages.TypeFromCode | message.go:58-69 | defined exactly on 0..7 and inverse to the iota code |
| Messages.TypeCodeRoundTrip | message.go:58-69 | every message type survives its integer code |
| Messages.ProcessMessage | message.go:71-121 | appends at most one message. The kind is the first carried in the fixed order. Stickers and locations carry no text, text carries the text, the rest carry the caption. A photo takes the last size. An empty size list panics. Nothing carried leaves the list unchanged |
| Messages.ToMessageConfig | message.go:17-56 | the send has the message's kind and the given keyboard; only text, photo and video carry text; every kind but text and location carries the file id |
| States.StateCode | state.go:18-83 | every state's code is below 22 and is its position in declaration order |
| States.StateFromCode | state.go:18-83 | defined exactly on 0..21 and inverse to the code |
| States.StateCodeRoundTrip | state.go:18-83 | every state survives its stored integer |
| States.StateCodeInjective | state.go:18-83 | the state declared in position n has code n, so no two states share a code |
| States.Encode | user.go:83-90 | a nil payload is stored as the empty object; any other payload as its record |
| States.Decode | chat.go:19-22 | the empty object decodes to the zero payload |
| States.PayloadRoundTrip | user.go:81-94 | what `SetState` stores decodes to the payload given, or to the zero payload for nil |
| States.StringTernary | state.go:339-345 | the first string when the flag is set, the second otherwise |
| Labels.Quality | chat.go:251-266 | exactly the four answer labels have a quality, 0 to 3 |
| Labels.AnswerButtons | messages.go:38-53 | every button of the answer keyboard is an answer label, and the four map to 0, 1, 2, 3 |
| Store.DueCardsOf | deck.go:37-39 | the due cards of a deck are among its cards |
| Session.Context.constructor | context.go:10-15 | a turn starts with the given user, tables and payload, and nothing sent |
| Session.Context.Reply | context.go:20-22 | appends one plain text without keyboard |
| Session.Context.Send | context.go:20-22 | appends the given send |
| Cards.GetCard | card.go:32-36 | the card with that id, of whatever deck, or `NoRows` |
| Cards.Reviewed | card.go:71-99 | the SM2Mod results on the card's own fields; the same-day counter grows when the interval is 0 and resets otherwise; due the interval after today; id and faces kept |
| Cards.ReviewStaysReachable | card.go:71-99 | a review keeps a reachable card reachable and never schedules it before today |
| Cards.LowQualityRepeatsToday | card.go:72-78 | quality 0 or 1 keeps the card due today, restarts the streak and counts one more same-day repeat |
| Cards.FreshCardRepeatsToday | card.go:71-78 | the first review of a new card gives interval 0, due today, one same-day repeat |
| Cards.Respond | card.go:71-99 | only the card's row changes, to the review result with a random tie-breaker in range; a missing row gives `NoRows` and no change |
| Cards.SetFront | card.go:38-45 | only the front of that row changes; a missing row gives `NoRows` |
| Cards.SetBack | card.go:47-54 | only the back of that row changes; a missing row gives `NoRows` |
| Cards.Delete | card.go:56-59 | removes that card's row and nothing else |
| Cards.FaceShape | card.go:107-113 | one send per stored message in order; only the last carries the keyboard; an empty face sends nothing |
| Cards.SendFace | card.go:107-113 | the loop appends exactly the face's sends |
| Cards.SendFront | card.go:101-116 | sends the front as a face |
| Cards.SendBack | card.go:118-133 | sends the back as a face |
| Decks.ReviewOrder | deck.go:40-44 | the review order is reflexive, total, transitive and antisymmetric up to id |
| Decks.Earliest | deck.go:40-44 | the chosen id is in the set and first in review order |
| Decks.GetCardForReview | deck.go:33-46 | a stored card of this deck, due by today, first in review order among the due ones; `NoRows` exactly when none is due |
| Decks.ReviewChoiceUnique | deck.go:33-46 | any due card that is first in review order is the one returned |
| Decks.CanSetNameTo | deck.go:48-51 | true exactly when no other deck of the same owner has the name |
| Decks.KeepOwnName | deck.go:48-51 | a deck may always keep its own name |
| Decks.SetName | deck.go:25-27 | only that deck's name changes; a missing row gives `NoRows` |
| Decks.RenameKeepsNamesUnique | deck.go:48-51 | a rename the check allowed keeps names unique |
| Decks.SetScheduled | deck.go:29-31 | only that deck's flag changes; a missing row gives `NoRows` |
| Decks.Delete | deck.go:20-23 | removes that deck's row and nothing else |
| Decks.CreateCard | deck.go:53-65 | adds one new card of the deck with those faces under the next id; existing cards unchanged; tables stay well formed |
| Decks.AddCardKeepsValid | deck.go:53-65 | the deck gains exactly the new card; the tables stay well formed |
| Users.NewUser | user.go:146-159 | the row inserted on first contact has the sender's id, state `DeckList` and the empty payload |
| Users.HasDeckWithName | user.go:31-34 | true exactly when this user owns a deck with exactly that name |
| Users.GetDeckByName | user.go:71-79 | some deck of the user with that name, or none exactly when there is none |
| Users.ByNameIsTheDeck | user.go:71-79 | with unique names, looking up a deck's name finds that deck |
| Users.GetDeck | user.go:37-41 | the deck exactly when it exists and is the user's; otherwise `NoRows` |
| Users.GetDeckWithStats | user.go:44-59 | the deck with its number of cards and of due cards; due ≤ total; `NoRows` like `GetDeck` |
| Users.StatsMatchReview | user.go:44-59 | cards are left exactly when `GetCardForReview` finds one |
| Users.StrLeTotal | user.go:27 | any two names are comparable |
| Users.StrLeAntisymmetric | user.go:27 | names that compare both ways are equal |
| Users.StrLeTransitive | user.go:27 | name order is transitive |
| Users.DeckOrder | user.go:27 | deck order (name, then id) is total and transitive |
| Users.FirstDeck | user.go:27 | the chosen deck is in the set and first by name |
| Users.SortedIds | user.go:27 | the ids listed are exactly the given ones, each once, in deck order |
| Users.GetDecks | user.go:25-29 | as many decks as the user has |
| Users.GetDecksListsDecks | user.go:25-29 | the list holds exactly the user's decks, each once, sorted by name |
| Users.GetDeckByOffset | user.go:61-69 | the deck at that position of the sorted list; none past the end; a negative offset is a database error |
| Users.GetScheduledCard | user.go:125-134 | a due card of one of the user's decks, first in review order; none (not an error) exactly when none is due |
| Users.SetState | user.go:81-94 | stores the state and encoded payload; nothing else of the user changes |
| Users.SetTimeZone | user.go:104-107 | only the time zone changes |
| Users.SetScheduled | user.go:109-112 | only the rehearsal switch changes |
| Users.SetRehearsalTime | user.go:114-117 | only the rehearsal time changes |
| Users.CreateDeck | user.go:119-123 | inserts one deck of the user with that name under the next id |
| Users.CreateDeckKeepsInvariants | user.go:119-123 | creation keeps the tables well formed and adds exactly that deck to the user's; with a name the user does not use, names stay unique |
| Present.DeckListRows | state.go:100-117 | the loop builds the fixed row, then one row per deck in order |
| Present.DeckListOrder | state.go:108-117 | the deck rows name each of the user's decks, in name order |
| Present.HourRows | state.go:326-331 | 18 rows, the hours 05:00 to 22:00 |
| Present.ShowDeckList | state.go:93-120 | one prompt, inviting a first deck when there is none, with the deck-list keyboard |
| Present.ShowRehearsing | state.go:121-143 | with nothing due: says so, enters `DeckList` with no payload and sends exactly the deck-list prompt after the notice; otherwise sends the scheduled card's front with the rehearsal keyboard, user unchanged |
| Present.ShowDeckDetails | state.go:144-185 | three branches: no cards, none due, or the counts followed by the next card's front |
| Present.ShowCardFace | state.go:205-218 | announces the face, then sends it without a keyboard; a missing card gives `NoRows` |
| Present.ShowRehearsingCardReview | state.go:221-227 | sends the scheduled card's back with the answer keyboard; with none due, a nil dereference |
| Present.ShowCardReview | state.go:228-238 | sends the back of the deck's next card with the answer keyboard, or the lookup's error |
| Present.ShowDeckDelete | state.go:248-263 | asks for confirmation naming the number of cards |
| Present.ShowDeckEdit | state.go:264-291 | the deck menu, offering the opposite of the deck's rehearsal flag, or the rename prompt |
| Present.ShowSetRehearsalTime | state.go:324-334 | one prompt with the 18 hour buttons, one-time |
| Present.ShowFixedPrompt | state.go:186-312 | the single fixed message of the card, deck-creation, location and settings prompts; the settings menu reflects the user's current choices; nothing for the other states |
| Present.ShowUserSetup | state.go:313-323 | the greeting, the help sequence and the location request, in that order |
| Present.ShowPrompt | state.go:92-335 | the states that need no payload: `DeckList` sends the deck-list prompt over the user's decks read from the tables; `UserSetup` the greeting, help and location request; `SetRehearsalTime` exactly one message, the 18 one-time hour buttons; every other state its fixed prompt, and states without a case send nothing |
| Present.ShowWithData | state.go:144-291 | the states that read the payload; sends only accumulate |
| Present.ShowInPlace | state.go:92-336 | every state but `Rehearsing`: payload-free states never fail and send exactly what `ShowPrompt` sends for them; `RehearsingCardReview` succeeds exactly when a card is due; states without a case send nothing |
| Present.Show | state.go:85-337 | only `Rehearsing` with nothing due changes the user. Payload-free states other than `Rehearsing` never fail and send exactly what `ShowPrompt` sends for them; states without a case send nothing. A missing payload is a nil dereference that sends nothing. `RehearsingCardReview` succeeds exactly when a card is due |
| Present.SetAndShowState | user.go:96-102 | the stored payload and the turn's payload are the one given, unless showing `Rehearsing` moved on to `DeckList`, which happens exactly when nothing is due; a payload-free state other than `Rehearsing` sends exactly what `ShowPrompt` sends for it |
| Chat.OnDeckList | chat.go:43-61 | New Deck, Help and Settings buttons; Help sends exactly the help sequence and the deck-list prompt; otherwise the deck of that name opens, or exactly the deck-list prompt is sent again with the user unchanged |
| Chat.HelpOnDeckList | chat.go:46-49 | exactly two sends: the help sequence, then the deck-list prompt over the user's decks |
| Chat.OpenDeckNamed | chat.go:53-61 | the user's deck of that name opens in `DeckDetails` with its id; with none exactly the deck-list prompt is sent and the user is unchanged |
| Chat.OnDeckCreate | chat.go:62-84 | an empty or taken cleaned name leaves everything unchanged with a reply; otherwise exactly one deck is created and opened; invariants kept |
| Chat.CreateAndOpenDeck | chat.go:76-81 | exactly one deck is added, under the next serial id, for this user and name; it is announced and opened; the tables stay well formed, and names stay unique when the name was free |
| Chat.OnRehearsing | chat.go:85-104 | no card due or Back goes to `DeckList`; Edit Card edits the scheduled card; Show back turns it over; other text re-sends the front |
| Chat.OnDeckDetails | chat.go:105-127 | a foreign or missing deck is `NoRows`; each button's next state and payload; Edit Card with nothing due is `NoRows`; other text stays |
| Chat.DeckDetailsButton | chat.go:109-126 | each deck-menu button's next state and payload; other text leaves the user as is |
| Chat.EditNextCard | chat.go:117-122 | the card due next in the deck opens in `CardEdit`; with none, `NoRows` and nothing changes |
| Chat.OnDeckEdit | chat.go:128-154 | Back, Edit Name and Delete move on with the same payload; the rehearsal buttons switch only that deck's flag; other text re-shows the menu |
| Chat.DeckEditButton | chat.go:133-153 | Back, Edit Name and Delete move on with the same payload and no table change; the rehearsal buttons change only that deck's flag; other text re-shows the menu |
| Chat.SwitchDeckScheduling | chat.go:140-151 | only the deck's rehearsal flag changes, to the value chosen; the tables stay well formed |
| Chat.OnDeckNameEdit | chat.go:155-172 | renames only when the check passes, then goes to `DeckDetails`; otherwise "Name already used" and nothing changes; names stay unique |
| Chat.RenameAndOpenDeck | chat.go:162-168 | only that deck's name changes, then it is announced and the deck reopens; a deck not stored is `NoRows` with nothing changed; names stay unique when the check passed |
| Chat.OnDeckDelete | chat.go:173-190 | No goes to `DeckEdit`; Yes removes that deck and goes to `DeckList`; other text asks again |
| Chat.DeckDeleteButton | chat.go:178-190 | No returns to `DeckEdit`; Yes removes exactly that deck and reports it with its card count; other text asks again with nothing changed |
| Chat.OnCardCreate | chat.go:192-194 | the captured message becomes the front of the payload; next `CardCreateBack` |
| Chat.OnCardCreateBack | chat.go:195-206 | one new card with the payload's front and the captured back; next `DeckDetails` with only the deck id |
| Chat.OnCardEdit | chat.go:207-227 | Back and Delete return to the card's deck (Delete removing the card); the face buttons move on; other text re-shows the menu |
| Chat.OnCardEditFace | chat.go:228-247 | only that face of that card is replaced by the captured message; next the card's deck |
| Chat.OnRehearsingCardReview | chat.go:248-272 | an answer records the review of the scheduled card and returns to `Rehearsing` while a card is still due once the review is stored, and to `DeckList` exactly when none is; other text re-sends the back with no change; with no card due, the answer is acknowledged and then a nil dereference |
| Chat.AnswerRehearsal | chat.go:252-272 | the answer is acknowledged first; with no card due, a nil dereference with no table change; otherwise the card's review is recorded, and rehearsal goes on exactly while a card is still due afterwards, else the deck list is entered |
| Chat.RecordAnswer | chat.go:268-272 | only the answered card's row changes, to its review for today; then the given state is entered, except that `Rehearsing` falls through to `DeckList` exactly when the updated tables hold no due card; a card no longer stored is `NoRows` with nothing changed; invariants kept |
| Chat.EnterAfterAnswer | chat.go:272 | the state given is entered with its payload; `Rehearsing` goes on while a card is due and otherwise falls through to `DeckList` with no payload; payload-free states succeed |
| Chat.OnCardReview | chat.go:273-305 | an answer records the review of the deck's next card and returns to `DeckDetails` with the same payload; other text re-sends the back |
| Chat.OnSetTimeZone | chat.go:306-332 | a location stores the looked-up zone, or fails with the lookup's error; a valid zone name stores the empty zone; both then go to `DeckList`; other text asks again for a location |
| Chat.OnSettings | chat.go:334-353 | the location and time buttons open their editors; the rehearsal buttons switch the user's flag and re-show; other text goes to `DeckList` |
| Chat.SwitchScheduling | chat.go:339-350 | only the user's rehearsal flag changes; the confirmation is followed by the settings menu built from the updated user |
| Chat.OnUserSetup | chat.go:354-380 | a location sets the zone and turns rehearsal on, then `DeckList`; other input asks for it |
| Chat.OnSetRehearsalTime | chat.go:381-392 | a parsed time is stored and echoed, otherwise not understood; always back to `Settings` |
| Chat.HandleState | chat.go:42-396 | the state's handler; states without one reply "You're in a weird state"; tables stay well formed |
| Chat.HandleListState | chat.go:43-104 | the deck list, deck creation and rehearsal handlers keep the user's id, the invariants and the sends already made |
| Chat.HandleDeckState | chat.go:105-190 | the one-deck handlers keep the user's id, the invariants and the sends already made |
| Chat.HandleCardState | chat.go:192-305 | the one-card handlers keep the user's id, the invariants and the sends already made |
| Chat.HandleSettingState | chat.go:306-392 | the settings handlers keep the user's id and the sends already made, and change no table |
| Chat.HandleMessage | chat.go:32-40 | /decks, /start, /settings enter their state with no payload from any state; /help changes no table; it moves the user to `DeckList` exactly when the state is `Rehearsing` and nothing is due, and otherwise leaves the user as is; states without a handler reply "You're in a weird state"; the user's id is kept and the tables stay well formed |
| Service.Bot.Loaded | user.go:145-159 | the stored row when the id has one; otherwise a fresh user with this id, in `DeckList` with an empty payload |
| Service.Bot.HandleMessage | user.go:136-168 | on success only the sender's row and the tables change; on error nothing is committed and the error text is sent, except after a panic; sends during the turn stay sent; invariants kept |

## Left out

- Sm.NextEF: a quality outside the mapping's domain panics in the source; the model requires a quality in the domain instead, and every caller passes 0 to 3.
- Cards.Respond: requires a quality 0 to 3 for the same reason; the handlers only pass the four answer qualities.
- Decks.GetCardForReview: the query leaves full ties open; the model settles them by card id.
- Users.GetScheduledCard: the database function `scheduled_card_for_user` is not part of this model. The model takes the first due card of any of the user's decks in review order, and ignores the decks' rehearsal flags.
- Users.GetDecks: names are ordered by code point and ties by id; the database collation is not modelled.
- Present.ShowWithData: states only that sends accumulate; what each state sends is stated on the `Show…` method it calls.
- Present.ShowInPlace: for the states that read the payload and for `RehearsingCardReview`, states only success and that sends accumulate; what each of them sends is stated on the `Show…` method it calls.
- Present.Show: the same holds for `Show`, and what `Rehearsing` sends is stated on `Present.ShowRehearsing`.
- Service.Bot.HandleMessage: after a panic, the real process crashes (the transaction still rolls back). The model only rolls back and sends nothing more. A payload that does not decode as JSON is not modelled.
- Storage failures other than a missing row (lost connection, failed inserts in `CreateDeck` and `CreateCard`, failed updates of the user row) are not modelled. Those calls always succeed.
- Deleting a deck leaves its cards in the model. The cascade to cards belongs to the database schema, which is not part of this model.
- The card, deck and user column defaults are assumed to be easiness 250, streak 0, interval 0, due on creation, deck rehearsal flag off, UTC, noon, user rehearsal off. The schema is not part of this model.
- JSON encoding of payloads and card faces: they are stored as records and sequences, so encoding cannot fail.
- `time.LoadLocation`, `time.Parse`, `date_in_time_zone` and the geocoding service are `Env` functions. `TimeFormat` output is not modelled: a time on a button or in a reply stays a `Clock` value.
- The help sequence (help.go) is a single send whose text is not modelled, and its pauses are not modelled.
- A stored state code of 22 or more cannot be represented. The source would reply "You're in a weird state" as it does for the four states without a handler.
- Latitude and longitude are `real` values carried unchanged; no arithmetic is done on them.
- server.go, handler.go and poll.go (start-up, webhook decoding, the periodic rehearsal poller), row locking, error reporting, logging and concurrency between users are not part of this model.
- The chat id and the user id are not distinguished: all sends of a turn go to the sender's chat.
