/** Showing a state (state.go `Show`) and entering one (user.go
    `SetAndShowState`). Showing mostly sends a prompt with a keyboard; showing
    `Rehearsing` when no card is due moves the user to `DeckList` instead, so the
    two operations call each other. */
module Present {
  import opened Prelude
  import opened Messages
  import opened States
  import opened Store
  import opened Session
  import opened Cards
  import opened Decks
  import opened Users
  import opened Labels

  /** The card `GetScheduledCard` finds for the context's user today. */
  function ScheduledNow(c: Context): Option<Card>
    reads c`user, c`tables
  {
    GetScheduledCard(c.tables, c.user.id, c.Today())
  }

  /** Whether showing `Rehearsing` now would fall through to `DeckList`. */
  predicate NothingDue(c: Context)
    reads c`user, c`tables
  {
    ScheduledNow(c).None?
  }

  /** The states `Show` has no case for: showing them sends nothing. */
  predicate Unshown(s: State)
  {
    s.CardSearch? || s.CardDelete? || s.CardDetails? || s.CardUpdate?
  }

  /** The states whose `Show` reads the payload. */
  predicate ReadsData(s: State)
  {
    s.DeckDetails? || s.CardEditFront? || s.CardEditBack? || s.CardReview?
    || s.DeckDelete? || s.DeckEdit? || s.DeckNameEdit?
  }

  /** The states whose `Show` reads nothing that can be missing, and so never
      fails. */
  predicate Infallible(s: State)
  {
    !ReadsData(s) && !s.RehearsingCardReview?
  }

  /** Termination measure of the `Show`/`SetAndShowState` recursion: only
      `Rehearsing` enters another state while showing. */
  function Rank(s: State): nat
  {
    if s.Rehearsing? then 1 else 0
  }

  // ---------------------------------------------------------------------------
  // Keyboards

  /** The keyboard of the deck list: Help, Settings and New Deck on one row,
      then one row per deck in the given order. */
  function DeckListMarkup(decks: seq<Deck>): Markup
  {
    Keyboard([[Label(Help), Label(EditSettings), Label(AddDeck)]]
             + seq(|decks|, i requires 0 <= i < |decks| => [Label(decks[i].name)]), true)
  }

  /** The loop of `Show(DeckList)` that builds the keyboard rows. */
  method DeckListRows(decks: seq<Deck>) returns (rows: seq<seq<Button>>)
    ensures |rows| == |decks| + 1
    ensures rows[0] == [Label(Help), Label(EditSettings), Label(AddDeck)]
    ensures forall i :: 0 <= i < |decks| ==> rows[i + 1] == [Label(decks[i].name)]
    ensures Keyboard(rows, true) == DeckListMarkup(decks)
  {
    rows := [[Label(Help), Label(EditSettings), Label(AddDeck)]];
    for i := 0 to |decks|
      invariant |rows| == i + 1
      invariant rows[0] == [Label(Help), Label(EditSettings), Label(AddDeck)]
      invariant forall j :: 0 <= j < i ==> rows[j + 1] == [Label(decks[j].name)]
    {
      rows := rows + [[Label(decks[i].name)]];
    }
    assert rows == DeckListMarkup(decks).rows;
  }

  /** Row `i` below the fixed row of the deck-list keyboard names deck `i - 1`. */
  lemma DeckListRowsAreDecks(decks: seq<Deck>, i: int)
    requires 1 <= i <= |decks|
    ensures |DeckListMarkup(decks).rows| == |decks| + 1
    ensures DeckListMarkup(decks).rows[i] == [Label(decks[i - 1].name)]
  {
  }

  /** The rows below the fixed row of the deck list name the user's decks, each
      once, in name order. */
  lemma DeckListOrder(t: Tables, userId: int)
    ensures var rows := DeckListMarkup(GetDecks(t, userId)).rows;
      && |rows| == |DecksOf(t, userId)| + 1
      && (forall i, j :: 1 <= i < j < |rows| ==> StrLe(rows[i][0].text, rows[j][0].text))
      && (forall id :: id in DecksOf(t, userId) ==> [Label(t.decks[id].name)] in rows)
  {
    var decks := GetDecks(t, userId);
    GetDecksListsDecks(t, userId);
    var rows: seq<seq<Button>> := DeckListMarkup(decks).rows;
    assert |rows| == |decks| + 1;
    forall i, j | 1 <= i < j < |rows|
      ensures StrLe(rows[i][0].text, rows[j][0].text)
    {
      DeckListRowsAreDecks(decks, i);
      DeckListRowsAreDecks(decks, j);
    }
    forall id | id in DecksOf(t, userId)
      ensures [Label(t.decks[id].name)] in rows
    {
      var k :| 0 <= k < |decks| && decks[k] == t.decks[id];
      DeckListRowsAreDecks(decks, k + 1);
    }
  }

  /** The 18 rehearsal times offered: every full hour from 05:00 to 22:00. */
  method HourRows() returns (rows: seq<seq<Button>>)
    ensures |rows| == 18
    ensures forall i :: 0 <= i < 18 ==> rows[i] == [ClockLabel("", Clock(5 + i, 0), "")]
    ensures forall i :: 0 <= i < |rows| ==> 5 <= rows[i][0].clock.hour <= 22 && rows[i][0].clock.minute == 0
  {
    rows := [];
    for i := 0 to 18
      invariant |rows| == i
      invariant forall j :: 0 <= j < i ==> rows[j] == [ClockLabel("", Clock(5 + j, 0), "")]
    {
      rows := rows + [[ClockLabel("", Clock(5 + i, 0), "")]];
    }
  }

  const RehearsingKeyboard: Markup :=
    Keyboard([[Label(Back)], [Label(EditCard), Label(ShowReverseOfCard)]], true)

  const DeckDetailsKeyboard: Markup :=
    Keyboard([[Label(Back), Label(EditDeck), Label(AddCard)]], true)

  const DeckDetailsReviewKeyboard: Markup :=
    Keyboard([[Label(Back), Label(EditDeck), Label(AddCard)], [Label(EditCard), Label(ShowReverseOfCard)]], true)

  const CardEditKeyboard: Markup :=
    Keyboard([[Label(Back), Label(DeleteCard)], [Label(EditCardFront), Label(EditCardBack)]], true)

  const LocationKeyboard: Markup := Keyboard([[LocationRequest("Send location")]], false)

  const DeckDeleteKeyboard: Markup := Keyboard([[Label(DontDeleteDeck)], [Label(ConfirmDeleteDeck)]], false)

  function DeckEditKeyboard(deck: Deck): Markup
  {
    Keyboard([[Label(Back), Label(DeleteDeck)],
              [Label(StringTernary(deck.scheduled, DisableScheduling, EnableScheduling)), Label(EditName)]], true)
  }

  function SettingsKeyboard(u: User): Markup
  {
    Keyboard([[Label(Back)],
              [Label(ChangeLocationLabel(u.timeZone))],
              [ChangeTimeLabel(u.rehearsalTime)],
              [Label(StringTernary(u.scheduled, DisableScheduling, EnableScheduling))]], true)
  }

  // ---------------------------------------------------------------------------
  // Texts

  const FirstDeckText: string := "You're now ready to create your first deck, so press '" + AddDeck + "' to get started."
  const SelectDeckText: string := "Select the deck you want to work on."
  const DoneText: string := "Done with rehearsal for today!"
  const NoCardsText: string := "You currently have no cards, so press '" + AddCard + "' to create one."
  const NoMoreCardsText: string := "No more cards to review today."
  const LocationPrompt: string := "Please send me your location, so I can determine your time zone! \U{1F30D}"
  const SetupLocationPrompt: string := "Now, to get started please send me your location, so I can determine your time zone! \U{1F30D}"
  const RehearsalTimePrompt: string := "Please select your preferred time of day to rehearse. You can also type out the time yourself."

  const EditFrontText: string := "I'm now going to send you the front, please send me back what you want to replace it with."
  const EditBackText: string := "I'm now going to send you the back, please send me back what you want to replace it with."

  function DeleteDeckText(total: nat): string
  {
    "Are you sure? You will also delete " + Decimal(total) + " cards."
  }

  function CardsLeftText(left: nat, total: nat, name: string): string
  {
    Decimal(left) + "/" + Decimal(total) + " cards left to rehearse in '" + name + "'"
  }

  // ---------------------------------------------------------------------------
  // Showing each state

  /** The deck-list prompt over `decks`. */
  function DeckListPrompt(decks: seq<Deck>): Output
  {
    Output(Say(if decks == [] then FirstDeckText else SelectDeckText), DeckListMarkup(decks))
  }

  /** `Show(DeckList)`: one prompt, inviting a first deck when there is none,
      with the deck-list keyboard over the user's decks in name order. */
  method ShowDeckList(c: Context)
    modifies c`out
    ensures c.out == old(c.out) + [DeckListPrompt(GetDecks(c.tables, c.user.id))]
  {
    var decks := GetDecks(c.tables, c.user.id);
    var rows := DeckListRows(decks);
    var text := if |decks| == 0 then FirstDeckText else SelectDeckText;
    c.Send(Output(Say(text), Keyboard(rows, true)));
  }

  /** `Show(Rehearsing)`: send the front of the scheduled card; with none due,
      say so and enter `DeckList` with no payload. */
  method ShowRehearsing(c: Context) returns (r: Result<()>)
    modifies c`user, c`data, c`out
    decreases 1, 0
    ensures r.Ok?
    ensures old(c.out) <= c.out
    ensures old(NothingDue(c)) ==>
      && c.user == old(c.user).(state := DeckList, data := EmptyObject) && c.data == None
      && c.out == old(c.out) + [Output(Say(DoneText), NoMarkup), DeckListPrompt(GetDecks(c.tables, c.user.id))]
    ensures !old(NothingDue(c)) ==>
      && c.user == old(c.user) && c.data == old(c.data)
      && c.out == old(c.out) + Face(old(ScheduledNow(c)).value.front, RehearsingKeyboard)
  {
    var card := ScheduledNow(c);
    if card.None? {
      c.Reply(DoneText);
      r := SetAndShowState(c, DeckList, None);
    } else {
      SendFront(c, card.value, RehearsingKeyboard);
      r := Ok(());
    }
  }

  /** `Show(DeckDetails)`: with no cards, invite one; with none due, say so;
      otherwise report the counts and send the front of the next card. */
  method ShowDeckDetails(c: Context, d: Data) returns (r: Result<()>)
    modifies c`out
    ensures var st := GetDeckWithStats(c.tables, c.user.id, d.deckId, c.Today());
      && (st.Err? ==> r == Err(st.error) && c.out == old(c.out))
      && (st.Ok? && st.value.totalCards == 0 ==>
            r.Ok? && c.out == old(c.out) + [Output(Say(NoCardsText), DeckDetailsKeyboard)])
      && (st.Ok? && st.value.totalCards > 0 && st.value.cardsLeft == 0 ==>
            r.Ok? && c.out == old(c.out) + [Output(Say(NoMoreCardsText), DeckDetailsKeyboard)])
      && (st.Ok? && st.value.totalCards > 0 && st.value.cardsLeft > 0 ==>
            var card := GetCardForReview(c.tables, st.value.deck, c.Today());
            var told := old(c.out) + [Output(Say(CardsLeftText(st.value.cardsLeft, st.value.totalCards, st.value.deck.name)), NoMarkup)];
            && (card.Err? ==> r == Err(card.error) && c.out == told)
            && (card.Ok? ==> r.Ok? && c.out == told + Face(card.value.front, DeckDetailsReviewKeyboard)))
  {
    var st := GetDeckWithStats(c.tables, c.user.id, d.deckId, c.Today());
    if st.Err? {
      return Err(st.error);
    }
    var s := st.value;
    if s.totalCards == 0 {
      c.Send(Output(Say(NoCardsText), DeckDetailsKeyboard));
      r := Ok(());
    } else if s.cardsLeft == 0 {
      c.Send(Output(Say(NoMoreCardsText), DeckDetailsKeyboard));
      r := Ok(());
    } else {
      c.Reply(CardsLeftText(s.cardsLeft, s.totalCards, s.deck.name));
      var card := GetCardForReview(c.tables, s.deck, c.Today());
      if card.Err? {
        return Err(card.error);
      }
      SendFront(c, card.value, DeckDetailsReviewKeyboard);
      r := Ok(());
    }
  }

  /** `Show(CardEditFront)` and `Show(CardEditBack)`: announce, then send the
      face to be replaced without a keyboard. */
  method ShowCardFace(c: Context, d: Data, front: bool) returns (r: Result<()>)
    modifies c`out
    ensures var card := GetCard(c.tables, d.cardId);
      && (card.Err? ==> r == Err(card.error) && c.out == old(c.out))
      && (card.Ok? && front ==>
            r.Ok? && c.out == old(c.out) + [Output(Say(EditFrontText), NoMarkup)] + Face(card.value.front, NoMarkup))
      && (card.Ok? && !front ==>
            r.Ok? && c.out == old(c.out) + [Output(Say(EditBackText), NoMarkup)] + Face(card.value.back, NoMarkup))
  {
    var card := GetCard(c.tables, d.cardId);
    if card.Err? {
      return Err(card.error);
    }
    if front {
      c.Reply(EditFrontText);
      SendFront(c, card.value, NoMarkup);
    } else {
      c.Reply(EditBackText);
      SendBack(c, card.value, NoMarkup);
    }
    r := Ok(());
  }

  /** `Show(RehearsingCardReview)`: send the back of the scheduled card with the
      answer keyboard; with no card due the nil card is dereferenced. */
  method ShowRehearsingCardReview(c: Context) returns (r: Result<()>)
    modifies c`out
    ensures var card := ScheduledNow(c);
      && (card.None? ==> r == Err(Panic(NilPointer)) && c.out == old(c.out))
      && (card.Some? ==> r.Ok? && c.out == old(c.out) + Face(card.value.back, CardReplyKeyboard))
  {
    var card := ScheduledNow(c);
    if card.None? {
      return Err(Panic(NilPointer));
    }
    SendBack(c, card.value, CardReplyKeyboard);
    r := Ok(());
  }

  /** `Show(CardReview)`: send the back of the deck's next card with the answer
      keyboard. */
  method ShowCardReview(c: Context, d: Data) returns (r: Result<()>)
    modifies c`out
    ensures var deck := GetDeck(c.tables, c.user.id, d.deckId);
      && (deck.Err? ==> r == Err(deck.error) && c.out == old(c.out))
      && (deck.Ok? ==>
            var card := GetCardForReview(c.tables, deck.value, c.Today());
            && (card.Err? ==> r == Err(card.error) && c.out == old(c.out))
            && (card.Ok? ==> r.Ok? && c.out == old(c.out) + Face(card.value.back, CardReplyKeyboard)))
  {
    var deck := GetDeck(c.tables, c.user.id, d.deckId);
    if deck.Err? {
      return Err(deck.error);
    }
    var card := GetCardForReview(c.tables, deck.value, c.Today());
    if card.Err? {
      return Err(card.error);
    }
    SendBack(c, card.value, CardReplyKeyboard);
    r := Ok(());
  }

  /** `Show(DeckDelete)`: ask for confirmation, naming the number of cards. */
  method ShowDeckDelete(c: Context, d: Data) returns (r: Result<()>)
    modifies c`out
    ensures var st := GetDeckWithStats(c.tables, c.user.id, d.deckId, c.Today());
      && (st.Err? ==> r == Err(st.error) && c.out == old(c.out))
      && (st.Ok? ==>
            r.Ok? && c.out == old(c.out) + [Output(Say(DeleteDeckText(st.value.totalCards)), DeckDeleteKeyboard)])
  {
    var st := GetDeckWithStats(c.tables, c.user.id, d.deckId, c.Today());
    if st.Err? {
      return Err(st.error);
    }
    c.Send(Output(Say(DeleteDeckText(st.value.totalCards)), DeckDeleteKeyboard));
    r := Ok(());
  }

  /** `Show(DeckEdit)` and `Show(DeckNameEdit)`: the deck menu, whose rehearsal
      button offers the opposite of the deck's current setting, or the prompt
      for a new name. */
  method ShowDeckEdit(c: Context, d: Data, rename: bool) returns (r: Result<()>)
    modifies c`out
    ensures var deck := GetDeck(c.tables, c.user.id, d.deckId);
      && (deck.Err? ==> r == Err(deck.error) && c.out == old(c.out))
      && (deck.Ok? && !rename ==>
            r.Ok? && c.out == old(c.out) + [Output(Say("What do you want to do with '" + deck.value.name + "'?"), DeckEditKeyboard(deck.value))])
      && (deck.Ok? && rename ==>
            r.Ok? && c.out == old(c.out) + [Output(Say("Please type in the new name for '" + deck.value.name + "'"), NoMarkup)])
  {
    var deck := GetDeck(c.tables, c.user.id, d.deckId);
    if deck.Err? {
      return Err(deck.error);
    }
    if rename {
      c.Reply("Please type in the new name for '" + deck.value.name + "'");
    } else {
      c.Send(Output(Say("What do you want to do with '" + deck.value.name + "'?"), DeckEditKeyboard(deck.value)));
    }
    r := Ok(());
  }

  /** The rehearsal time prompt with one-time buttons for the 18 full hours
      from 05:00, one per row. */
  predicate RehearsalTimeOffer(o: Output)
  {
    && o.body == Say(RehearsalTimePrompt) && o.markup.Keyboard? && o.markup.oneTime
    && |o.markup.rows| == 18
    && forall i :: 0 <= i < 18 ==> o.markup.rows[i] == [ClockLabel("", Clock(5 + i, 0), "")]
  }

  /** `Show(SetRehearsalTime)`: offer the 18 full hours from 05:00. */
  method ShowSetRehearsalTime(c: Context)
    modifies c`out
    ensures |c.out| == |old(c.out)| + 1 && old(c.out) <= c.out
    ensures RehearsalTimeOffer(c.out[|old(c.out)|])
  {
    var rows := HourRows();
    c.Send(Output(Say(RehearsalTimePrompt), Keyboard(rows, true)));
  }

  /** The prompts of the states whose `Show` reads no payload. */
  method ShowPrompt(c: Context, s: State)
    modifies c`out
    ensures Unshown(s) ==> c.out == old(c.out)
    ensures s.UserSetup? ==>
      c.out == old(c.out) + [Output(Say("Hi there!"), NoMarkup), Output(HelpSequence, NoMarkup), Output(Say(SetupLocationPrompt), LocationKeyboard)]
    ensures s.DeckList? ==> c.out == old(c.out) + [DeckListPrompt(GetDecks(c.tables, c.user.id))]
    ensures s.SetRehearsalTime? ==> |c.out| == |old(c.out)| + 1 && RehearsalTimeOffer(c.out[|old(c.out)|])
    ensures !s.DeckList? && !s.UserSetup? && !s.SetRehearsalTime? ==> c.out == old(c.out) + FixedPrompt(s, c.user)
    ensures old(c.out) <= c.out
  {
    if s.DeckList? {
      ShowDeckList(c);
    } else if s.UserSetup? {
      ShowUserSetup(c);
    } else if s.SetRehearsalTime? {
      ShowSetRehearsalTime(c);
    } else {
      ShowFixedPrompt(c, s);
    }
  }

  /** `after` is `before` followed by what `ShowPrompt` sends for `s`, for a
      user `u` whose decks in list order are `decks`. */
  predicate PromptSent(s: State, u: User, decks: seq<Deck>, before: seq<Output>, after: seq<Output>)
  {
    && (s.DeckList? ==> after == before + [DeckListPrompt(decks)])
    && (s.UserSetup? ==>
          after == before + [Output(Say("Hi there!"), NoMarkup), Output(HelpSequence, NoMarkup), Output(Say(SetupLocationPrompt), LocationKeyboard)])
    && (s.SetRehearsalTime? ==> |after| == |before| + 1 && before <= after && RehearsalTimeOffer(after[|before|]))
    && (!s.DeckList? && !s.UserSetup? && !s.SetRehearsalTime? ==> after == before + FixedPrompt(s, u))
  }

  /** What a state shows when it always shows the same one message (the
      settings menu names the user's current choices); nothing for the states
      `Show` has no case for. */
  function FixedPrompt(s: State, u: User): (r: seq<Output>)
    ensures |r| <= 1
    ensures Unshown(s) ==> r == []
  {
    match s
    case CardCreate => [Output(Say("Please send a message to use for the front."), NoMarkup)]
    case CardCreateBack => [Output(Say("Please send a message to use for the back."), NoMarkup)]
    case CardEdit => [Output(Say("What would you like to do?"), CardEditKeyboard)]
    case DeckCreate => [Output(Say("What's the name of the new deck?"), NoMarkup)]
    case SetTimeZone => [Output(Say(LocationPrompt), LocationKeyboard)]
    case Settings => [Output(Say("What setting do you want to change?"), SettingsKeyboard(u))]
    case _ => []
  }

  /** Send the fixed prompt of `s`, if it has one. */
  method ShowFixedPrompt(c: Context, s: State)
    modifies c`out
    ensures c.out == old(c.out) + FixedPrompt(s, c.user)
  {
    match s {
      case CardCreate =>
        c.Reply("Please send a message to use for the front.");
      case CardCreateBack =>
        c.Reply("Please send a message to use for the back.");
      case CardEdit =>
        c.Send(Output(Say("What would you like to do?"), CardEditKeyboard));
      case DeckCreate =>
        c.Reply("What's the name of the new deck?");
      case SetTimeZone =>
        c.Send(Output(Say(LocationPrompt), LocationKeyboard));
      case Settings =>
        c.Send(Output(Say("What setting do you want to change?"), SettingsKeyboard(c.user)));
      case _ =>
    }
  }

  /** `UserSetup`: a greeting, the help sequence and the request for the
      location that sets the time zone. */
  method ShowUserSetup(c: Context)
    modifies c`out
    ensures c.out == old(c.out) + [Output(Say("Hi there!"), NoMarkup), Output(HelpSequence, NoMarkup), Output(Say(SetupLocationPrompt), LocationKeyboard)]
  {
    c.Reply("Hi there!");
    c.Send(Output(HelpSequence, NoMarkup));
    c.Send(Output(Say(SetupLocationPrompt), LocationKeyboard));
  }

  /** The states whose `Show` reads the payload `d`. */
  method ShowWithData(c: Context, s: State, d: Data) returns (r: Result<()>)
    requires ReadsData(s)
    modifies c`out
    ensures old(c.out) <= c.out
  {
    match s {
      case DeckDetails =>
        r := ShowDeckDetails(c, d);
      case CardEditFront =>
        r := ShowCardFace(c, d, true);
      case CardEditBack =>
        r := ShowCardFace(c, d, false);
      case CardReview =>
        r := ShowCardReview(c, d);
      case DeckDelete =>
        r := ShowDeckDelete(c, d);
      case DeckEdit =>
        r := ShowDeckEdit(c, d, false);
      case DeckNameEdit =>
        r := ShowDeckEdit(c, d, true);
    }
  }

  /** `Show`: send what state `s` shows. Only `Rehearsing` changes the user:
      with nothing due it enters `DeckList`. States without a case send
      nothing; states that read a missing payload dereference nil. */
  method Show(c: Context, s: State) returns (r: Result<()>)
    modifies c`user, c`data, c`out
    decreases Rank(s), 1
    ensures s.Rehearsing? ==>
      && (old(NothingDue(c)) ==> c.user == old(c.user).(state := DeckList, data := EmptyObject) && c.data == None)
      && (!old(NothingDue(c)) ==> c.user == old(c.user) && c.data == old(c.data))
    ensures !s.Rehearsing? ==> c.user == old(c.user) && c.data == old(c.data)
    ensures Infallible(s) ==> r.Ok?
    ensures ReadsData(s) && old(c.data).None? ==> r == Err(Panic(NilPointer)) && c.out == old(c.out)
    ensures s.RehearsingCardReview? ==> (r.Ok? <==> old(ScheduledNow(c)).Some?)
    ensures Unshown(s) ==> c.out == old(c.out)
    ensures !s.Rehearsing? && Infallible(s) ==> PromptSent(s, c.user, GetDecks(c.tables, c.user.id), old(c.out), c.out)
    ensures old(c.out) <= c.out
  {
    if s.Rehearsing? {
      r := ShowRehearsing(c);
    } else if ReadsData(s) && c.data.None? {
      r := Err(Panic(NilPointer));
    } else {
      r := ShowInPlace(c, s);
    }
  }

  /** `Show` of every state but `Rehearsing`, with the payload present for the
      states that read it: only sends. */
  method ShowInPlace(c: Context, s: State) returns (r: Result<()>)
    requires !s.Rehearsing? && (ReadsData(s) ==> c.data.Some?)
    modifies c`out
    ensures Infallible(s) ==> r.Ok?
    ensures s.RehearsingCardReview? ==> (r.Ok? <==> ScheduledNow(c).Some?)
    ensures Unshown(s) ==> c.out == old(c.out)
    ensures Infallible(s) ==> PromptSent(s, c.user, GetDecks(c.tables, c.user.id), old(c.out), c.out)
    ensures old(c.out) <= c.out
  {
    if s.RehearsingCardReview? {
      r := ShowRehearsingCardReview(c);
    } else if ReadsData(s) {
      r := ShowWithData(c, s, c.data.value);
    } else {
      ShowPrompt(c, s);
      r := Ok(());
    }
  }

  /** `SetAndShowState`: make `d` the turn's payload, store the state with that
      payload, then show the state. The stored payload and the turn's payload
      are the same, unless showing `Rehearsing` with nothing due moved on to
      `DeckList` with none. */
  method SetAndShowState(c: Context, s: State, d: Option<Data>) returns (r: Result<()>)
    modifies c`user, c`data, c`out
    decreases Rank(s), 2
    ensures s.Rehearsing? && old(NothingDue(c)) ==>
      c.user == old(c.user).(state := DeckList, data := EmptyObject) && c.data == None
    ensures !(s.Rehearsing? && old(NothingDue(c))) ==>
      c.user == old(c.user).(state := s, data := Encode(d)) && c.data == d
    ensures Infallible(s) ==> r.Ok?
    ensures ReadsData(s) && d.None? ==> r == Err(Panic(NilPointer))
    ensures s.RehearsingCardReview? ==> (r.Ok? <==> old(ScheduledNow(c)).Some?)
    ensures !s.Rehearsing? && Infallible(s) ==> PromptSent(s, c.user, GetDecks(c.tables, c.user.id), old(c.out), c.out)
    ensures old(c.out) <= c.out
  {
    c.data := d;
    SetState(c, s, d);
    r := Show(c, s);
  }
}
