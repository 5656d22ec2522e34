/** One turn of the conversation (chat.go `HandleMessage`, the function run
    inside the user's transaction): the global commands, then the handler of
    the state the user is in. Each handler is one method; its contract says
    which state the user moves to, which rows change, and what is sent first. */
module Chat {
  import opened Prelude
  import opened Messages
  import opened States
  import opened Store
  import opened Session
  import Cards
  import Decks
  import opened Users
  import opened Labels
  import opened Present

  /** The user after entering state `s` with payload `d`. */
  function Moved(u: User, s: State, d: Option<Data>): User
  {
    u.(state := s, data := Encode(d))
  }

  /** After an answer while rehearsing, user `u0` becomes `u`: rehearsal goes
      on while the tables `t` still hold a card due `today`, and falls through
      to the deck list once none is. */
  predicate RehearsalGoesOn(u0: User, u: User, d: Option<Data>, t: Tables, today: int)
  {
    && (GetScheduledCard(t, u0.id, today).Some? ==> u == Moved(u0, Rehearsing, d))
    && (GetScheduledCard(t, u0.id, today).None? ==> u == Moved(u0, DeckList, None))
  }

  /** The payload naming only a deck, or only a card. */
  function DeckData(id: int): Data { ZeroData.(deckId := id) }
  function CardData(id: int): Data { ZeroData.(cardId := id) }

  /** A deck name as typed: newlines become spaces and surrounding white
      space is trimmed. */
  function Cleaned(text: string): string
  {
    TrimSpace(ReplaceNewlines(text))
  }

  /** The outputs `after` begins with, past `before`, are `sent`. */
  predicate Opens(before: seq<Output>, after: seq<Output>, sent: seq<Output>)
  {
    before + sent <= after
  }

  /** The sends so far are kept and possibly followed by more. */
  predicate Extends(before: seq<Output>, after: seq<Output>)
  {
    before <= after
  }

  function Said(text: string): Output { Output(Say(text), NoMarkup) }

  const RetryLocationKeyboard: Markup := Keyboard([[LocationRequest("All right!")]], false)
  const AskLocationText: string := "Please send me your location."
  const NoonText: string := "Every day at noon you will get sent your flash cards if there's any that need rehearsing. You can change the time of rehearsal in your /settings."

  function ZoneText(name: string): string
  {
    "Got it! You're in the '" + name + "' time zone."
  }

  /** What the rehearsal answer buttons reply (the last two are stored as
      UTF-8 read as Windows-1252). */
  function RehearsalReply(q: int16): string
  {
    if q == 0 then "Too bad!"
    else if q == 1 then "You'll get it right next time!"
    else if q == 2 then "\U{00F0}\U{0178}\U{2018} All right!"
    else "\U{00F0}\U{0178}\U{2019}\U{00AF}"
  }

  /** What the answer buttons reply when reviewing a deck. */
  function ReviewReply(q: int16): string
  {
    if q == 0 then "Too bad!"
    else if q == 1 then "Not bad!"
    else if q == 2 then "All right!"
    else "\U{00F0}\U{0178}\U{2019}\U{00AF}"
  }

  // ---------------------------------------------------------------------------
  // The handlers, one per state

  /** `DeckList`: New Deck, Help and Settings are buttons; any other text opens
      the user's deck of that name, or shows the list again. */
  method OnDeckList(c: Context, text: string) returns (r: Result<()>)
    modifies c`user, c`data, c`out
    ensures Extends(old(c.out), c.out)
    ensures c.user.id == old(c.user.id)
    ensures text == AddDeck ==> r.Ok? && c.user == Moved(old(c.user), DeckCreate, None)
    ensures text == Help ==>
      && r.Ok? && c.user == old(c.user)
      && c.out == old(c.out) + [Output(HelpSequence, NoMarkup), DeckListPrompt(GetDecks(c.tables, old(c.user.id)))]
    ensures text == EditSettings ==> r.Ok? && c.user == Moved(old(c.user), Settings, None)
    ensures text != AddDeck && text != Help && text != EditSettings ==>
      var deck := GetDeckByName(c.tables, old(c.user.id), text);
      && (deck.Some? ==> c.user == Moved(old(c.user), DeckDetails, Some(DeckData(deck.value.id))))
      && (deck.None? ==> r.Ok? && c.user == old(c.user) && c.out == old(c.out) + [DeckListPrompt(GetDecks(c.tables, old(c.user.id)))])
  {
    if text == AddDeck {
      r := SetAndShowState(c, DeckCreate, None);
    } else if text == Help {
      HelpOnDeckList(c);
      r := Ok(());
    } else if text == EditSettings {
      r := SetAndShowState(c, Settings, None);
    } else {
      r := OpenDeckNamed(c, text);
    }
  }

  /** Help on the deck list: the help sequence, then the list again. */
  method HelpOnDeckList(c: Context)
    modifies c`out
    ensures c.out == old(c.out) + [Output(HelpSequence, NoMarkup), DeckListPrompt(GetDecks(c.tables, c.user.id))]
  {
    c.Send(Output(HelpSequence, NoMarkup));
    ShowDeckList(c);
  }

  /** Any other text on the deck list: the user's deck of that name opens;
      without one the list is shown again. */
  method OpenDeckNamed(c: Context, text: string) returns (r: Result<()>)
    modifies c`user, c`data, c`out
    ensures Extends(old(c.out), c.out)
    ensures c.user.id == old(c.user.id)
    ensures var deck := GetDeckByName(c.tables, old(c.user.id), text);
      && (deck.Some? ==> c.user == Moved(old(c.user), DeckDetails, Some(DeckData(deck.value.id))))
      && (deck.None? ==> r.Ok? && c.user == old(c.user) && c.out == old(c.out) + [DeckListPrompt(GetDecks(c.tables, old(c.user.id)))])
  {
    var deck := GetDeckByName(c.tables, c.user.id, text);
    if deck.Some? {
      r := SetAndShowState(c, DeckDetails, Some(DeckData(deck.value.id)));
    } else {
      ShowDeckList(c);
      r := Ok(());
    }
  }

  /** `DeckCreate`: the cleaned text names a new deck; an empty name or one the
      user already uses is refused with a reply. */
  method OnDeckCreate(c: Context, text: string) returns (r: Result<()>)
    modifies c`user, c`data, c`tables, c`out
    ensures Extends(old(c.out), c.out)
    ensures c.user.id == old(c.user.id)
    ensures Cleaned(text) == "" ==>
      r.Ok? && c.user == old(c.user) && c.tables == old(c.tables)
      && c.out == old(c.out) + [Said("Please supply a name for the new deck")]
    ensures Cleaned(text) != "" && HasDeckWithName(old(c.tables), old(c.user.id), Cleaned(text)) ==>
      r.Ok? && c.user == old(c.user) && c.tables == old(c.tables)
      && c.out == old(c.out) + [Said("Name already taken")]
    ensures Cleaned(text) != "" && !HasDeckWithName(old(c.tables), old(c.user.id), Cleaned(text)) ==>
      var deck := Deck(old(c.tables.nextDeckId), old(c.user.id), Cleaned(text), DefaultDeckScheduled);
      && c.tables == old(c.tables).(decks := old(c.tables.decks)[deck.id := deck], nextDeckId := deck.id + 1)
      && c.user == Moved(old(c.user), DeckDetails, Some(DeckData(deck.id)))
      && Opens(old(c.out), c.out, [Said("Deck '" + deck.name + "' has been created!")])
    ensures Valid(old(c.tables)) ==> Valid(c.tables)
    ensures Valid(old(c.tables)) && NamesUnique(old(c.tables)) ==> NamesUnique(c.tables)
  {
    var name := Cleaned(text);
    if |name| < 1 {
      c.Reply("Please supply a name for the new deck");
      return Ok(());
    }
    if HasDeckWithName(c.tables, c.user.id, name) {
      c.Reply("Name already taken");
      return Ok(());
    }
    r := CreateAndOpenDeck(c, name);
  }

  /** A new deck called `name` for the user, announced and opened. */
  method CreateAndOpenDeck(c: Context, name: string) returns (r: Result<()>)
    modifies c`user, c`data, c`tables, c`out
    ensures c.user.id == old(c.user.id)
    ensures var deck := Deck(old(c.tables.nextDeckId), old(c.user.id), name, DefaultDeckScheduled);
      && c.tables == old(c.tables).(decks := old(c.tables.decks)[deck.id := deck], nextDeckId := deck.id + 1)
      && c.user == Moved(old(c.user), DeckDetails, Some(DeckData(deck.id)))
      && Opens(old(c.out), c.out, [Said("Deck '" + name + "' has been created!")])
    ensures Valid(old(c.tables)) ==> Valid(c.tables)
    ensures Valid(old(c.tables)) && NamesUnique(old(c.tables)) && !HasDeckWithName(old(c.tables), old(c.user.id), name) ==>
      NamesUnique(c.tables)
  {
    if Valid(c.tables) {
      CreateDeckKeepsInvariants(c.tables, c.user.id, name);
    }
    var deck := CreateDeck(c, name);
    c.Reply("Deck '" + name + "' has been created!");
    r := SetAndShowState(c, DeckDetails, Some(DeckData(deck.id)));
  }

  /** `Rehearsing`: with no card due, back to the deck list; otherwise Back
      leaves, Edit Card edits the card shown, Show back turns it over, and any
      other text shows the front again. */
  method OnRehearsing(c: Context, text: string) returns (r: Result<()>)
    modifies c`user, c`data, c`out
    ensures Extends(old(c.out), c.out)
    ensures c.user.id == old(c.user.id)
    ensures old(NothingDue(c)) || text == Back ==> r.Ok? && c.user == Moved(old(c.user), DeckList, None)
    ensures !old(NothingDue(c)) && text == EditCard ==>
      r.Ok? && c.user == Moved(old(c.user), CardEdit, Some(CardData(old(ScheduledNow(c)).value.id)))
    ensures !old(NothingDue(c)) && text == ShowReverseOfCard ==>
      r.Ok? && c.user == Moved(old(c.user), RehearsingCardReview, None)
    ensures !old(NothingDue(c)) && text != Back && text != EditCard && text != ShowReverseOfCard ==>
      r.Ok? && c.user == old(c.user) && c.out == old(c.out) + Cards.Face(old(ScheduledNow(c)).value.front, RehearsingKeyboard)
  {
    var card := ScheduledNow(c);
    if card.None? {
      r := SetAndShowState(c, DeckList, None);
      return;
    }
    if text == Back {
      r := SetAndShowState(c, DeckList, None);
    } else if text == EditCard {
      r := SetAndShowState(c, CardEdit, Some(CardData(card.value.id)));
    } else if text == ShowReverseOfCard {
      r := SetAndShowState(c, RehearsingCardReview, None);
    } else {
      r := ShowRehearsing(c);
    }
  }

  /** `DeckDetails`: the payload's deck must be the user's; then Back leaves,
      New Card starts a card, Edit Deck opens the deck menu, Edit Card edits the
      next card due, Show back turns it over, and other text shows the deck again. */
  method OnDeckDetails(c: Context, text: string, data: Data) returns (r: Result<()>)
    requires c.data == Some(data)
    modifies c`user, c`data, c`out
    ensures Extends(old(c.out), c.out)
    ensures c.user.id == old(c.user.id)
    ensures var deck := GetDeck(c.tables, old(c.user.id), data.deckId);
      && (deck.Err? ==> r == Err(NoRows) && c.user == old(c.user) && c.out == old(c.out))
      && (deck.Ok? && text == Back ==> r.Ok? && c.user == Moved(old(c.user), DeckList, None))
      && (deck.Ok? && text == AddCard ==> r.Ok? && c.user == Moved(old(c.user), CardCreate, Some(DeckData(data.deckId))))
      && (deck.Ok? && text == EditDeck ==> c.user == Moved(old(c.user), DeckEdit, Some(data)))
      && (deck.Ok? && text == ShowReverseOfCard ==> c.user == Moved(old(c.user), CardReview, Some(data)))
    ensures var deck := GetDeck(c.tables, old(c.user.id), data.deckId);
      deck.Ok? && text == EditCard ==>
        var card := Decks.GetCardForReview(c.tables, deck.value, old(c.Today()));
        && (card.Err? ==> r == Err(NoRows) && c.user == old(c.user) && c.out == old(c.out))
        && (card.Ok? ==> r.Ok? && c.user == Moved(old(c.user), CardEdit, Some(CardData(card.value.id))))
    ensures var deck := GetDeck(c.tables, old(c.user.id), data.deckId);
      deck.Ok? && text != Back && text != AddCard && text != EditDeck && text != EditCard && text != ShowReverseOfCard ==>
        c.user == old(c.user)
  {
    var deck := GetDeck(c.tables, c.user.id, data.deckId);
    if deck.Err? {
      return Err(deck.error);
    }
    r := DeckDetailsButton(c, text, data, deck.value);
  }

  /** The buttons of the deck menu of `deck`, the deck `data` names. */
  method DeckDetailsButton(c: Context, text: string, data: Data, deck: Deck) returns (r: Result<()>)
    requires c.data == Some(data)
    modifies c`user, c`data, c`out
    ensures Extends(old(c.out), c.out)
    ensures c.user.id == old(c.user.id)
    ensures text == Back ==> r.Ok? && c.user == Moved(old(c.user), DeckList, None)
    ensures text == AddCard ==> r.Ok? && c.user == Moved(old(c.user), CardCreate, Some(DeckData(data.deckId)))
    ensures text == EditDeck ==> c.user == Moved(old(c.user), DeckEdit, Some(data))
    ensures text == ShowReverseOfCard ==> c.user == Moved(old(c.user), CardReview, Some(data))
    ensures text == EditCard ==>
      var card := Decks.GetCardForReview(c.tables, deck, old(c.Today()));
      && (card.Err? ==> r == Err(NoRows) && c.user == old(c.user) && c.out == old(c.out))
      && (card.Ok? ==> r.Ok? && c.user == Moved(old(c.user), CardEdit, Some(CardData(card.value.id))))
    ensures text != Back && text != AddCard && text != EditDeck && text != EditCard && text != ShowReverseOfCard ==>
      c.user == old(c.user)
  {
    if text == Back {
      r := SetAndShowState(c, DeckList, None);
    } else if text == AddCard {
      r := SetAndShowState(c, CardCreate, Some(DeckData(data.deckId)));
    } else if text == EditDeck {
      r := SetAndShowState(c, DeckEdit, Some(data));
    } else if text == EditCard {
      r := EditNextCard(c, deck);
    } else if text == ShowReverseOfCard {
      r := SetAndShowState(c, CardReview, Some(data));
    } else {
      r := ShowDeckDetails(c, data);
    }
  }

  /** Edit Card on the deck menu: the card that would be reviewed next opens
      for editing; a deck with no card due gives `NoRows`. */
  method EditNextCard(c: Context, deck: Deck) returns (r: Result<()>)
    modifies c`user, c`data, c`out
    ensures Extends(old(c.out), c.out)
    ensures c.user.id == old(c.user.id)
    ensures var card := Decks.GetCardForReview(c.tables, deck, old(c.Today()));
      && (card.Err? ==> r == Err(NoRows) && c.user == old(c.user) && c.out == old(c.out))
      && (card.Ok? ==> r.Ok? && c.user == Moved(old(c.user), CardEdit, Some(CardData(card.value.id))))
  {
    var card := Decks.GetCardForReview(c.tables, deck, c.Today());
    if card.Err? {
      return Err(card.error);
    }
    r := SetAndShowState(c, CardEdit, Some(CardData(card.value.id)));
  }

  /** `DeckEdit`: Back, Edit Name and Delete move on with the same payload; the
      rehearsal buttons switch the deck's flag and show the menu again. */
  method OnDeckEdit(c: Context, text: string, data: Data) returns (r: Result<()>)
    requires c.data == Some(data)
    modifies c`user, c`data, c`tables, c`out
    ensures Extends(old(c.out), c.out)
    ensures c.user.id == old(c.user.id)
    ensures var deck := GetDeck(old(c.tables), old(c.user.id), data.deckId);
      && (deck.Err? ==> r == Err(NoRows) && c.user == old(c.user) && c.tables == old(c.tables) && c.out == old(c.out))
      && (deck.Ok? && text == Back ==> c.user == Moved(old(c.user), DeckDetails, Some(data)) && c.tables == old(c.tables))
      && (deck.Ok? && text == EditName ==> c.user == Moved(old(c.user), DeckNameEdit, Some(data)) && c.tables == old(c.tables))
      && (deck.Ok? && text == DeleteDeck ==> c.user == Moved(old(c.user), DeckDelete, Some(data)) && c.tables == old(c.tables))
    ensures var deck := GetDeck(old(c.tables), old(c.user.id), data.deckId);
      deck.Ok? && Valid(old(c.tables)) && (text == EnableScheduling || text == DisableScheduling) ==>
        c.user == old(c.user)
        && c.tables == old(c.tables).(decks := old(c.tables.decks)[data.deckId := deck.value.(scheduled := text == EnableScheduling)])
    ensures var deck := GetDeck(old(c.tables), old(c.user.id), data.deckId);
      deck.Ok? && text != Back && text != EditName && text != DeleteDeck && text != EnableScheduling && text != DisableScheduling ==>
        && c.user == old(c.user) && c.tables == old(c.tables)
        && c.out == old(c.out) + [Output(Say("What do you want to do with '" + deck.value.name + "'?"), DeckEditKeyboard(deck.value))]
    ensures Valid(old(c.tables)) ==> Valid(c.tables)
    ensures NamesUnique(old(c.tables)) ==> NamesUnique(c.tables)
  {
    var deck := GetDeck(c.tables, c.user.id, data.deckId);
    if deck.Err? {
      return Err(deck.error);
    }
    r := DeckEditButton(c, text, data, deck.value);
  }

  /** The buttons of the edit menu of `deck`, the deck `data` names. */
  method DeckEditButton(c: Context, text: string, data: Data, deck: Deck) returns (r: Result<()>)
    requires c.data == Some(data) && GetDeck(c.tables, c.user.id, data.deckId) == Ok(deck)
    modifies c`user, c`data, c`tables, c`out
    ensures Extends(old(c.out), c.out)
    ensures c.user.id == old(c.user.id)
    ensures text == Back ==> c.user == Moved(old(c.user), DeckDetails, Some(data)) && c.tables == old(c.tables)
    ensures text == EditName ==> c.user == Moved(old(c.user), DeckNameEdit, Some(data)) && c.tables == old(c.tables)
    ensures text == DeleteDeck ==> c.user == Moved(old(c.user), DeckDelete, Some(data)) && c.tables == old(c.tables)
    ensures Valid(old(c.tables)) && (text == EnableScheduling || text == DisableScheduling) ==>
      c.user == old(c.user)
      && c.tables == old(c.tables).(decks := old(c.tables.decks)[data.deckId := deck.(scheduled := text == EnableScheduling)])
    ensures text != Back && text != EditName && text != DeleteDeck && text != EnableScheduling && text != DisableScheduling ==>
      && c.user == old(c.user) && c.tables == old(c.tables)
      && c.out == old(c.out) + [Output(Say("What do you want to do with '" + deck.name + "'?"), DeckEditKeyboard(deck))]
    ensures Valid(old(c.tables)) ==> Valid(c.tables)
    ensures NamesUnique(old(c.tables)) ==> NamesUnique(c.tables)
  {
    if text == Back {
      r := SetAndShowState(c, DeckDetails, Some(data));
    } else if text == EditName {
      r := SetAndShowState(c, DeckNameEdit, Some(data));
    } else if text == DeleteDeck {
      r := SetAndShowState(c, DeckDelete, Some(data));
    } else if text == EnableScheduling || text == DisableScheduling {
      r := SwitchDeckScheduling(c, data, deck, text == EnableScheduling);
    } else {
      r := ShowDeckEdit(c, data, false);
    }
  }

  /** Enable or Disable on the edit menu: store the deck's new flag and show
      the menu again, which now offers the opposite. */
  method SwitchDeckScheduling(c: Context, data: Data, deck: Deck, on: bool) returns (r: Result<()>)
    requires GetDeck(c.tables, c.user.id, data.deckId) == Ok(deck)
    modifies c`tables, c`out
    ensures Extends(old(c.out), c.out)
    ensures Valid(old(c.tables)) ==>
      c.tables == old(c.tables).(decks := old(c.tables.decks)[data.deckId := deck.(scheduled := on)])
    ensures Valid(old(c.tables)) ==> Valid(c.tables)
    ensures NamesUnique(old(c.tables)) ==> NamesUnique(c.tables)
  {
    var updated := Decks.SetScheduled(c, deck, on);
    if updated.Err? {
      return Err(updated.error);
    }
    r := ShowDeckEdit(c, data, false);
  }

  /** `DeckNameEdit`: rename the deck to the cleaned text unless another deck
      of the owner has that name. A failed deck lookup is not reported: the
      check then runs on the zero deck, and the rename of row 0 fails. */
  method OnDeckNameEdit(c: Context, text: string, data: Data) returns (r: Result<()>)
    modifies c`user, c`data, c`tables, c`out
    ensures Extends(old(c.out), c.out)
    ensures c.user.id == old(c.user.id)
    ensures var g := GetDeck(old(c.tables), old(c.user.id), data.deckId);
      var deck := if g.Ok? then g.value else ZeroDeck;
      && (!Decks.CanSetNameTo(old(c.tables), deck, Cleaned(text)) ==>
            r.Ok? && c.user == old(c.user) && c.tables == old(c.tables) && c.out == old(c.out) + [Said("Name already used")])
      && (Decks.CanSetNameTo(old(c.tables), deck, Cleaned(text)) && deck.id !in old(c.tables.decks) ==>
            r == Err(NoRows) && c.user == old(c.user) && c.tables == old(c.tables) && c.out == old(c.out))
      && (Decks.CanSetNameTo(old(c.tables), deck, Cleaned(text)) && deck.id in old(c.tables.decks) ==>
            && c.tables == old(c.tables).(decks := old(c.tables.decks)[deck.id := old(c.tables.decks)[deck.id].(name := Cleaned(text))])
            && c.user == Moved(old(c.user), DeckDetails, Some(data))
            && Opens(old(c.out), c.out, [Said("Name changed to '" + Cleaned(text) + "'")]))
    ensures Valid(old(c.tables)) ==> Valid(c.tables)
    ensures Valid(old(c.tables)) && NamesUnique(old(c.tables)) ==> NamesUnique(c.tables)
  {
    var g := GetDeck(c.tables, c.user.id, data.deckId);
    var deck := if g.Ok? then g.value else ZeroDeck;
    var name := Cleaned(text);
    if Decks.CanSetNameTo(c.tables, deck, name) {
      r := RenameAndOpenDeck(c, deck, name, data);
    } else {
      c.Reply("Name already used");
      r := Ok(());
    }
  }

  /** A free name for `deck`: the rename is stored and announced and the deck
      opens again; a deck that is not stored gives `NoRows`. */
  method RenameAndOpenDeck(c: Context, deck: Deck, name: string, data: Data) returns (r: Result<()>)
    modifies c`user, c`data, c`tables, c`out
    ensures Extends(old(c.out), c.out)
    ensures c.user.id == old(c.user.id)
    ensures deck.id !in old(c.tables.decks) ==>
      r == Err(NoRows) && c.user == old(c.user) && c.tables == old(c.tables) && c.out == old(c.out)
    ensures deck.id in old(c.tables.decks) ==>
      && c.tables == old(c.tables).(decks := old(c.tables.decks)[deck.id := old(c.tables.decks)[deck.id].(name := name)])
      && c.user == Moved(old(c.user), DeckDetails, Some(data))
      && Opens(old(c.out), c.out, [Said("Name changed to '" + name + "'")])
    ensures Valid(old(c.tables)) ==> Valid(c.tables)
    ensures && Valid(old(c.tables)) && NamesUnique(old(c.tables)) && Decks.CanSetNameTo(old(c.tables), deck, name)
            && (deck.id in old(c.tables.decks) ==> old(c.tables.decks[deck.id]).userId == deck.userId) ==>
      NamesUnique(c.tables)
  {
    if && NamesUnique(c.tables) && deck.id in c.tables.decks && Decks.CanSetNameTo(c.tables, deck, name)
       && c.tables.decks[deck.id].userId == deck.userId {
      Decks.RenameKeepsNamesUnique(c.tables, deck, name);
    }
    var renamed := Decks.SetName(c, deck, name);
    if renamed.Err? {
      return Err(renamed.error);
    }
    c.Reply("Name changed to '" + name + "'");
    r := SetAndShowState(c, DeckDetails, Some(data));
  }

  /** `DeckDelete`: No goes back to the deck menu, Yes deletes the deck and
      reports how many cards went with it, other text asks again. */
  method OnDeckDelete(c: Context, text: string, data: Data) returns (r: Result<()>)
    requires c.data == Some(data)
    modifies c`user, c`data, c`tables, c`out
    ensures Extends(old(c.out), c.out)
    ensures c.user.id == old(c.user.id)
    ensures var st := GetDeckWithStats(old(c.tables), old(c.user.id), data.deckId, old(c.Today()));
      && (st.Err? ==> r == Err(NoRows) && c.user == old(c.user) && c.tables == old(c.tables) && c.out == old(c.out))
      && (st.Ok? && text == DontDeleteDeck ==> c.user == Moved(old(c.user), DeckEdit, Some(data)) && c.tables == old(c.tables))
      && (st.Ok? && text == ConfirmDeleteDeck ==>
            && r.Ok? && c.user == Moved(old(c.user), DeckList, None)
            && c.tables == old(c.tables).(decks := old(c.tables.decks) - {st.value.deck.id})
            && Opens(old(c.out), c.out, [Said("'" + st.value.deck.name + "' and " + Decimal(st.value.totalCards) + " cards have been deleted")]))
      && (st.Ok? && text != DontDeleteDeck && text != ConfirmDeleteDeck ==>
            && r.Ok? && c.user == old(c.user) && c.tables == old(c.tables)
            && c.out == old(c.out) + [Output(Say(DeleteDeckText(st.value.totalCards)), DeckDeleteKeyboard)])
    ensures Valid(old(c.tables)) ==> Valid(c.tables)
    ensures NamesUnique(old(c.tables)) ==> NamesUnique(c.tables)
  {
    var st := GetDeckWithStats(c.tables, c.user.id, data.deckId, c.Today());
    if st.Err? {
      return Err(st.error);
    }
    r := DeckDeleteButton(c, text, data, st.value);
  }

  /** The answers to the deletion question, with `st` the figures of the deck
      `data` names. */
  method DeckDeleteButton(c: Context, text: string, data: Data, st: Stats) returns (r: Result<()>)
    requires c.data == Some(data) && GetDeckWithStats(c.tables, c.user.id, data.deckId, c.Today()) == Ok(st)
    modifies c`user, c`data, c`tables, c`out
    ensures Extends(old(c.out), c.out)
    ensures c.user.id == old(c.user.id)
    ensures text == DontDeleteDeck ==> c.user == Moved(old(c.user), DeckEdit, Some(data)) && c.tables == old(c.tables)
    ensures text == ConfirmDeleteDeck ==>
      && r.Ok? && c.user == Moved(old(c.user), DeckList, None)
      && c.tables == old(c.tables).(decks := old(c.tables.decks) - {st.deck.id})
      && Opens(old(c.out), c.out, [Said("'" + st.deck.name + "' and " + Decimal(st.totalCards) + " cards have been deleted")])
    ensures text != DontDeleteDeck && text != ConfirmDeleteDeck ==>
      && r.Ok? && c.user == old(c.user) && c.tables == old(c.tables)
      && c.out == old(c.out) + [Output(Say(DeleteDeckText(st.totalCards)), DeckDeleteKeyboard)]
    ensures Valid(old(c.tables)) ==> Valid(c.tables)
    ensures NamesUnique(old(c.tables)) ==> NamesUnique(c.tables)
  {
    if text == DontDeleteDeck {
      r := SetAndShowState(c, DeckEdit, Some(data));
    } else if text == ConfirmDeleteDeck {
      Decks.Delete(c, st.deck);
      c.Reply("'" + st.deck.name + "' and " + Decimal(st.totalCards) + " cards have been deleted");
      r := SetAndShowState(c, DeckList, None);
    } else {
      r := ShowDeckDelete(c, data);
    }
  }

  /** `CardCreate`: the message becomes the front of the card being made. */
  method OnCardCreate(c: Context, msg: Incoming, data: Data) returns (r: Result<()>)
    modifies c`user, c`data, c`out
    ensures Extends(old(c.out), c.out)
    ensures c.user.id == old(c.user.id)
    ensures var front := ProcessMessage(msg, []);
      && (front.Err? ==> r == Err(front.error) && c.user == old(c.user) && c.out == old(c.out))
      && (front.Ok? ==> r.Ok? && c.user == Moved(old(c.user), CardCreateBack, Some(data.(front := front.value))))
  {
    var front := ProcessMessage(msg, []);
    if front.Err? {
      return Err(front.error);
    }
    r := SetAndShowState(c, CardCreateBack, Some(data.(front := front.value)));
  }

  /** `CardCreateBack`: the message becomes the back, and the card is added to
      the payload's deck under the next card id. */
  method OnCardCreateBack(c: Context, msg: Incoming, data: Data) returns (r: Result<()>)
    modifies c`user, c`data, c`tables, c`out
    ensures Extends(old(c.out), c.out)
    ensures c.user.id == old(c.user.id)
    ensures var back := ProcessMessage(msg, []);
      var deck := GetDeck(old(c.tables), old(c.user.id), data.deckId);
      && (back.Err? ==> r == Err(back.error) && c.user == old(c.user) && c.tables == old(c.tables) && c.out == old(c.out))
      && (back.Ok? && deck.Err? ==> r == Err(NoRows) && c.user == old(c.user) && c.tables == old(c.tables) && c.out == old(c.out))
      && (back.Ok? && deck.Ok? ==>
            var id := old(c.tables.nextCardId);
            && id in c.tables.cards
            && c.tables == old(c.tables).(cards := old(c.tables.cards)[id := c.tables.cards[id]], nextCardId := id + 1)
            && c.tables.cards[id] == Cards.NewCard(id, deck.value.id, data.front, back.value, old(c.Today()), c.tables.cards[id].randomOrder)
            && c.user == Moved(old(c.user), DeckDetails, Some(DeckData(data.deckId)))
            && Opens(old(c.out), c.out, [Said("Card created")]))
    ensures Valid(old(c.tables)) ==> Valid(c.tables)
    ensures NamesUnique(old(c.tables)) ==> NamesUnique(c.tables)
  {
    var back := ProcessMessage(msg, []);
    if back.Err? {
      return Err(back.error);
    }
    var deck := GetDeck(c.tables, c.user.id, data.deckId);
    if deck.Err? {
      return Err(deck.error);
    }
    var card := Decks.CreateCard(c, deck.value, data.front, back.value);
    c.Reply("Card created");
    r := SetAndShowState(c, DeckDetails, Some(DeckData(data.deckId)));
  }

  /** `CardEdit`: Back and Delete return to the card's deck (Delete removing
      the card first); the face buttons move on with the same payload. */
  method OnCardEdit(c: Context, text: string, data: Data) returns (r: Result<()>)
    modifies c`user, c`data, c`tables, c`out
    ensures Extends(old(c.out), c.out)
    ensures c.user.id == old(c.user.id)
    ensures var card := Cards.GetCard(old(c.tables), data.cardId);
      && (card.Err? ==> r == Err(NoRows) && c.user == old(c.user) && c.tables == old(c.tables) && c.out == old(c.out))
      && (card.Ok? && text == Back ==>
            c.user == Moved(old(c.user), DeckDetails, Some(DeckData(card.value.deckId))) && c.tables == old(c.tables))
      && (card.Ok? && text == DeleteCard ==>
            && c.user == Moved(old(c.user), DeckDetails, Some(DeckData(card.value.deckId)))
            && c.tables == old(c.tables).(cards := old(c.tables.cards) - {card.value.id}))
      && (card.Ok? && text == EditCardFront ==> c.user == Moved(old(c.user), CardEditFront, Some(data)) && c.tables == old(c.tables))
      && (card.Ok? && text == EditCardBack ==> c.user == Moved(old(c.user), CardEditBack, Some(data)) && c.tables == old(c.tables))
      && (card.Ok? && text != Back && text != DeleteCard && text != EditCardFront && text != EditCardBack ==>
            && r.Ok? && c.user == old(c.user) && c.tables == old(c.tables)
            && c.out == old(c.out) + [Output(Say("What would you like to do?"), CardEditKeyboard)])
    ensures Valid(old(c.tables)) ==> Valid(c.tables)
    ensures NamesUnique(old(c.tables)) ==> NamesUnique(c.tables)
  {
    var card := Cards.GetCard(c.tables, data.cardId);
    if card.Err? {
      return Err(card.error);
    }
    if text == Back {
      r := SetAndShowState(c, DeckDetails, Some(DeckData(card.value.deckId)));
    } else if text == DeleteCard {
      Cards.Delete(c, card.value);
      r := SetAndShowState(c, DeckDetails, Some(DeckData(card.value.deckId)));
    } else if text == EditCardFront {
      r := SetAndShowState(c, CardEditFront, Some(data));
    } else if text == EditCardBack {
      r := SetAndShowState(c, CardEditBack, Some(data));
    } else {
      c.Send(Output(Say("What would you like to do?"), CardEditKeyboard));
      r := Ok(());
    }
  }

  /** `CardEditFront` and `CardEditBack`: the message replaces that face of
      the payload's card, and the user returns to the card's deck. */
  method OnCardEditFace(c: Context, msg: Incoming, data: Data, front: bool) returns (r: Result<()>)
    modifies c`user, c`data, c`tables, c`out
    ensures Extends(old(c.out), c.out)
    ensures c.user.id == old(c.user.id)
    ensures var card := Cards.GetCard(old(c.tables), data.cardId);
      var face := ProcessMessage(msg, []);
      && (card.Err? ==> r == Err(NoRows) && c.user == old(c.user) && c.tables == old(c.tables) && c.out == old(c.out))
      && (card.Ok? && face.Err? ==> r == Err(face.error) && c.user == old(c.user) && c.tables == old(c.tables) && c.out == old(c.out))
      && (card.Ok? && face.Ok? ==>
            var id := card.value.id;
            && (id !in old(c.tables.cards) ==> r == Err(NoRows) && c.user == old(c.user) && c.tables == old(c.tables))
            && (id in old(c.tables.cards) ==>
                  && c.tables == old(c.tables).(cards := old(c.tables.cards)[id :=
                       if front then old(c.tables.cards)[id].(front := face.value) else old(c.tables.cards)[id].(back := face.value)])
                  && c.user == Moved(old(c.user), DeckDetails, Some(DeckData(card.value.deckId)))
                  && Opens(old(c.out), c.out, [Said("Card updated")])))
    ensures Valid(old(c.tables)) ==> Valid(c.tables)
    ensures NamesUnique(old(c.tables)) ==> NamesUnique(c.tables)
  {
    var card := Cards.GetCard(c.tables, data.cardId);
    if card.Err? {
      return Err(card.error);
    }
    var face := ProcessMessage(msg, []);
    if face.Err? {
      return Err(face.error);
    }
    var updated;
    if front {
      updated := Cards.SetFront(c, card.value, face.value);
    } else {
      updated := Cards.SetBack(c, card.value, face.value);
    }
    if updated.Err? {
      return Err(updated.error);
    }
    c.Reply("Card updated");
    r := SetAndShowState(c, DeckDetails, Some(DeckData(card.value.deckId)));
  }

  /** The end of an answer in both reviews: the card's row records the review,
      and the user moves on to `next` (which, for `Rehearsing` with nothing
      more due, falls through to the deck list). A card whose row has gone
      fails with `NoRows` and changes nothing. */
  method RecordAnswer(c: Context, card: Card, q: int16, next: State, d: Option<Data>) returns (r: Result<()>)
    requires 0 <= q <= 3
    modifies c`user, c`data, c`tables, c`out
    ensures Extends(old(c.out), c.out)
    ensures c.user.id == old(c.user.id)
    ensures card.id !in old(c.tables.cards) ==>
      r == Err(NoRows) && c.user == old(c.user) && c.tables == old(c.tables) && c.out == old(c.out)
    ensures card.id in old(c.tables.cards) ==>
      && card.id in c.tables.cards
      && c.tables == old(c.tables).(cards := old(c.tables.cards)[card.id := c.tables.cards[card.id]])
      && c.tables.cards[card.id] == Cards.Reviewed(card, q, old(c.Today()), c.tables.cards[card.id].randomOrder)
      && (next.Rehearsing? ==> RehearsalGoesOn(old(c.user), c.user, d, c.tables, old(c.Today())))
      && (!next.Rehearsing? ==> c.user == Moved(old(c.user), next, d))
      && (Infallible(next) ==> r.Ok?)
    ensures Valid(old(c.tables)) ==> Valid(c.tables)
    ensures NamesUnique(old(c.tables)) ==> NamesUnique(c.tables)
  {
    var reviewed := Cards.Respond(c, card, q);
    if reviewed.Err? {
      return Err(reviewed.error);
    }
    r := EnterAfterAnswer(c, next, d);
  }

  /** The move that ends an answer, once the review is stored: `next` is
      entered, except that rehearsal falls through to the deck list once no
      card is due. */
  method EnterAfterAnswer(c: Context, next: State, d: Option<Data>) returns (r: Result<()>)
    modifies c`user, c`data, c`out
    ensures Extends(old(c.out), c.out)
    ensures next.Rehearsing? ==> RehearsalGoesOn(old(c.user), c.user, d, c.tables, old(c.Today()))
    ensures !next.Rehearsing? ==> c.user == Moved(old(c.user), next, d)
    ensures Infallible(next) ==> r.Ok?
  {
    r := SetAndShowState(c, next, d);
    assert Encode(None) == EmptyObject;
  }

  /** `RehearsingCardReview`: an answer button records the review of the
      scheduled card and continues rehearsing; other text shows the back again.
      The reply goes out before the card is used, so with no card due the
      answer is acknowledged and then the nil card is dereferenced. */
  method OnRehearsingCardReview(c: Context, text: string) returns (r: Result<()>)
    modifies c`user, c`data, c`tables, c`out
    ensures Extends(old(c.out), c.out)
    ensures c.user.id == old(c.user.id)
    ensures var card := old(ScheduledNow(c));
      && (Quality(text).None? ==>
            && c.user == old(c.user) && c.tables == old(c.tables)
            && (card.None? ==> r == Err(Panic(NilPointer)))
            && (card.Some? ==> r.Ok? && c.out == old(c.out) + Cards.Face(card.value.back, CardReplyKeyboard)))
      && (Quality(text).Some? && card.None? ==>
            && r == Err(Panic(NilPointer)) && c.user == old(c.user) && c.tables == old(c.tables)
            && c.out == old(c.out) + [Said(RehearsalReply(Quality(text).value))])
    ensures var card := old(ScheduledNow(c));
      Quality(text).Some? && card.Some? && Valid(old(c.tables)) ==>
        var q := Quality(text).value;
        && r.Ok?
        && c.tables.cards.Keys == old(c.tables.cards.Keys)
        && c.tables == old(c.tables).(cards := old(c.tables.cards)[card.value.id := c.tables.cards[card.value.id]])
        && c.tables.cards[card.value.id] == Cards.Reviewed(card.value, q, old(c.Today()), c.tables.cards[card.value.id].randomOrder)
        && RehearsalGoesOn(old(c.user), c.user, None, c.tables, old(c.Today()))
        && Opens(old(c.out), c.out, [Said(RehearsalReply(q))])
    ensures Valid(old(c.tables)) ==> Valid(c.tables)
    ensures NamesUnique(old(c.tables)) ==> NamesUnique(c.tables)
  {
    var card := ScheduledNow(c);
    var q := Quality(text);
    if q.None? {
      r := ShowRehearsingCardReview(c);
      return;
    }
    r := AnswerRehearsal(c, card, q.value);
  }

  /** An answer button while rehearsing: the reply for the answer, then the
      review of the card that was due; with none due, a nil dereference. */
  method AnswerRehearsal(c: Context, card: Option<Card>, q: int16) returns (r: Result<()>)
    requires 0 <= q <= 3
    modifies c`user, c`data, c`tables, c`out
    ensures c.user.id == old(c.user.id)
    ensures card.None? ==>
      && r == Err(Panic(NilPointer)) && c.user == old(c.user) && c.tables == old(c.tables)
      && c.out == old(c.out) + [Said(RehearsalReply(q))]
    ensures card.Some? && card.value.id in old(c.tables.cards) ==>
      && r.Ok?
      && c.tables.cards.Keys == old(c.tables.cards.Keys)
      && c.tables == old(c.tables).(cards := old(c.tables.cards)[card.value.id := c.tables.cards[card.value.id]])
      && c.tables.cards[card.value.id] == Cards.Reviewed(card.value, q, old(c.Today()), c.tables.cards[card.value.id].randomOrder)
      && RehearsalGoesOn(old(c.user), c.user, None, c.tables, old(c.Today()))
      && Opens(old(c.out), c.out, [Said(RehearsalReply(q))])
    ensures Extends(old(c.out), c.out)
    ensures Valid(old(c.tables)) ==> Valid(c.tables)
    ensures NamesUnique(old(c.tables)) ==> NamesUnique(c.tables)
  {
    c.Reply(RehearsalReply(q));
    if card.None? {
      return Err(Panic(NilPointer));
    }
    r := RecordAnswer(c, card.value, q, Rehearsing, None);
  }

  /** `CardReview`: an answer button records the review of the deck's next
      card and returns to the deck; other text shows the back again. */
  method OnCardReview(c: Context, text: string, data: Data) returns (r: Result<()>)
    requires c.data == Some(data)
    modifies c`user, c`data, c`tables, c`out
    ensures Extends(old(c.out), c.out)
    ensures c.user.id == old(c.user.id)
    ensures var deck := GetDeck(old(c.tables), old(c.user.id), data.deckId);
      && (deck.Err? ==> r == Err(NoRows) && c.user == old(c.user) && c.tables == old(c.tables) && c.out == old(c.out))
      && (deck.Ok? ==>
            var card := Decks.GetCardForReview(old(c.tables), deck.value, old(c.Today()));
            && (card.Err? ==> r == Err(NoRows) && c.user == old(c.user) && c.tables == old(c.tables) && c.out == old(c.out))
            && (card.Ok? && Quality(text).None? ==>
                  r.Ok? && c.user == old(c.user) && c.tables == old(c.tables)
                  && c.out == old(c.out) + Cards.Face(card.value.back, CardReplyKeyboard)))
    ensures var deck := GetDeck(old(c.tables), old(c.user.id), data.deckId);
      deck.Ok? && Valid(old(c.tables)) && Quality(text).Some? ==>
        var card := Decks.GetCardForReview(old(c.tables), deck.value, old(c.Today()));
        var q := Quality(text).value;
        card.Ok? ==>
          && c.tables.cards.Keys == old(c.tables.cards.Keys)
          && c.tables == old(c.tables).(cards := old(c.tables.cards)[card.value.id := c.tables.cards[card.value.id]])
          && c.tables.cards[card.value.id] == Cards.Reviewed(card.value, q, old(c.Today()), c.tables.cards[card.value.id].randomOrder)
          && c.user == Moved(old(c.user), DeckDetails, Some(data))
          && Opens(old(c.out), c.out, [Said(ReviewReply(q))])
    ensures Valid(old(c.tables)) ==> Valid(c.tables)
    ensures NamesUnique(old(c.tables)) ==> NamesUnique(c.tables)
  {
    var deck := GetDeck(c.tables, c.user.id, data.deckId);
    if deck.Err? {
      return Err(deck.error);
    }
    var card := Decks.GetCardForReview(c.tables, deck.value, c.Today());
    if card.Err? {
      return Err(card.error);
    }
    var q := Quality(text);
    if q.None? {
      r := ShowCardReview(c, data);
      return;
    }
    c.Reply(ReviewReply(q.value));
    r := RecordAnswer(c, card.value, q.value, DeckDetails, Some(data));
  }

  /** `SetTimeZone`: a location is looked up; a text that names a time zone is
      accepted, but the zone then stored (and named in the reply) is the empty
      string, because the lookup's result is bound to a variable local to its
      branch; any other text asks for a location again. */
  method OnSetTimeZone(c: Context, msg: Incoming) returns (r: Result<()>)
    modifies c`user, c`data, c`out
    ensures Extends(old(c.out), c.out)
    ensures c.user.id == old(c.user.id)
    ensures msg.location.None? && !c.env.loadLocation(msg.text) ==>
      r.Ok? && c.user == old(c.user) && c.out == old(c.out) + [Output(Say(AskLocationText), RetryLocationKeyboard)]
    ensures msg.location.None? && c.env.loadLocation(msg.text) ==>
      r.Ok? && c.user == Moved(old(c.user).(timeZone := ""), DeckList, None)
      && Opens(old(c.out), c.out, [Said(ZoneText(""))])
    ensures msg.location.Some? ==>
      var zone := c.env.timezoneAt(msg.location.value);
      && (zone.Err? ==> r == Err(zone.error) && c.user == old(c.user) && c.out == old(c.out))
      && (zone.Ok? ==>
            r.Ok? && c.user == Moved(old(c.user).(timeZone := zone.value.id), DeckList, None)
            && Opens(old(c.out), c.out, [Said(ZoneText(zone.value.name))]))
  {
    var zoneId, zoneName := "", "";
    if msg.location.None? {
      if !c.env.loadLocation(msg.text) {
        c.Send(Output(Say(AskLocationText), RetryLocationKeyboard));
        return Ok(());
      }
    } else {
      var zone := c.env.timezoneAt(msg.location.value);
      if zone.Err? {
        return Err(zone.error);
      }
      zoneId, zoneName := zone.value.id, zone.value.name;
    }
    Users.SetTimeZone(c, zoneId);
    c.Reply(ZoneText(zoneName));
    r := SetAndShowState(c, DeckList, None);
  }

  /** `Settings`: the location and time buttons (matched by prefix, since they
      carry the current value) open their editors; the rehearsal buttons switch
      the user's flag and show the settings again; anything else leaves. */
  method OnSettings(c: Context, text: string) returns (r: Result<()>)
    modifies c`user, c`data, c`out
    ensures Extends(old(c.out), c.out)
    ensures c.user.id == old(c.user.id)
    ensures r.Ok?
    ensures HasPrefix(text, ChangeLocation) ==> c.user == Moved(old(c.user), SetTimeZone, None)
    ensures !HasPrefix(text, ChangeLocation) && HasPrefix(text, ChangeTimeToRehearse) ==>
      c.user == Moved(old(c.user), SetRehearsalTime, None)
    ensures !HasPrefix(text, ChangeLocation) && !HasPrefix(text, ChangeTimeToRehearse)
            && (text == EnableScheduling || text == DisableScheduling) ==>
      && c.user == old(c.user).(scheduled := text == EnableScheduling)
      && c.out == old(c.out) + [Said(if text == EnableScheduling then "Automatic rehearsing enabled" else "Automatic rehearsing disabled"),
                                Output(Say("What setting do you want to change?"), SettingsKeyboard(c.user))]
    ensures !HasPrefix(text, ChangeLocation) && !HasPrefix(text, ChangeTimeToRehearse)
            && text != EnableScheduling && text != DisableScheduling ==>
      c.user == Moved(old(c.user), DeckList, None)
  {
    if HasPrefix(text, ChangeLocation) {
      r := SetAndShowState(c, SetTimeZone, None);
    } else if HasPrefix(text, ChangeTimeToRehearse) {
      r := SetAndShowState(c, SetRehearsalTime, None);
    } else if text == EnableScheduling || text == DisableScheduling {
      SwitchScheduling(c, text == EnableScheduling);
      r := Ok(());
    } else {
      r := SetAndShowState(c, DeckList, None);
    }
  }

  /** Enable or Disable on the settings menu: store the choice, confirm it and
      show the menu again, which now offers the opposite. */
  method SwitchScheduling(c: Context, on: bool)
    modifies c`user, c`out
    ensures c.user == old(c.user).(scheduled := on)
    ensures c.out == old(c.out) + [Said(if on then "Automatic rehearsing enabled" else "Automatic rehearsing disabled"),
                                   Output(Say("What setting do you want to change?"), SettingsKeyboard(c.user))]
  {
    c.Reply(if on then "Automatic rehearsing enabled" else "Automatic rehearsing disabled");
    SetScheduled(c, on);
    ShowFixedPrompt(c, Settings);
  }

  /** `UserSetup`: a location sets the time zone, switches automatic rehearsal
      on and leaves for the deck list; anything else asks for the location. */
  method OnUserSetup(c: Context, msg: Incoming) returns (r: Result<()>)
    modifies c`user, c`data, c`out
    ensures Extends(old(c.out), c.out)
    ensures c.user.id == old(c.user.id)
    ensures msg.location.None? ==>
      r.Ok? && c.user == old(c.user) && c.out == old(c.out) + [Output(Say(AskLocationText), RetryLocationKeyboard)]
    ensures msg.location.Some? ==>
      var zone := c.env.timezoneAt(msg.location.value);
      && (zone.Err? ==> r == Err(zone.error) && c.user == old(c.user) && c.out == old(c.out))
      && (zone.Ok? ==>
            r.Ok? && c.user == Moved(old(c.user).(timeZone := zone.value.id, scheduled := true), DeckList, None)
            && Opens(old(c.out), c.out, [Said(ZoneText(zone.value.name)), Said(NoonText)]))
  {
    if msg.location.None? {
      c.Send(Output(Say(AskLocationText), RetryLocationKeyboard));
      return Ok(());
    }
    var zone := c.env.timezoneAt(msg.location.value);
    if zone.Err? {
      return Err(zone.error);
    }
    Users.SetTimeZone(c, zone.value.id);
    c.Reply(ZoneText(zone.value.name));
    SetScheduled(c, true);
    c.Reply(NoonText);
    r := SetAndShowState(c, DeckList, None);
  }

  /** `SetRehearsalTime`: a clock time ("15:04" layout) is stored and echoed;
      anything else is not understood; either way back to the settings. */
  method OnSetRehearsalTime(c: Context, text: string) returns (r: Result<()>)
    modifies c`user, c`data, c`out
    ensures Extends(old(c.out), c.out)
    ensures c.user.id == old(c.user.id)
    ensures r.Ok?
    ensures var t := c.env.parseClock(text);
      && (t.Some? ==>
            c.user == Moved(old(c.user).(rehearsalTime := t.value), Settings, None)
            && Opens(old(c.out), c.out, [Output(SayClock("Rehearsal time changed to '", t.value, "'"), NoMarkup)]))
      && (t.None? ==>
            c.user == Moved(old(c.user), Settings, None)
            && Opens(old(c.out), c.out, [Said("I don't understand what you mean, please try again.")]))
  {
    var t := c.env.parseClock(text);
    if t.Some? {
      Users.SetRehearsalTime(c, t.value);
      c.Send(Output(SayClock("Rehearsal time changed to '", t.value, "'"), NoMarkup));
    } else {
      c.Reply("I don't understand what you mean, please try again.");
    }
    r := SetAndShowState(c, Settings, None);
  }

  // ---------------------------------------------------------------------------
  // The turn

  /** The states whose handlers start from the deck list or the rehearsal. */
  predicate ListState(s: State)
  {
    s.DeckList? || s.DeckCreate? || s.Rehearsing?
  }

  /** The states whose handlers deal with one deck. */
  predicate DeckState(s: State)
  {
    s.DeckDetails? || s.DeckEdit? || s.DeckNameEdit? || s.DeckDelete?
  }

  /** The states whose handlers deal with one card. */
  predicate CardState(s: State)
  {
    s.CardCreate? || s.CardCreateBack? || s.CardEdit? || s.CardEditFront? || s.CardEditBack? || s.RehearsingCardReview? || s.CardReview?
  }

  /** The states whose handlers deal with the user's settings. */
  predicate SettingState(s: State)
  {
    s.SetTimeZone? || s.Settings? || s.UserSetup? || s.SetRehearsalTime?
  }

  /** The handlers of the deck list, deck creation and rehearsal states. */
  method HandleListState(c: Context, text: string) returns (r: Result<()>)
    requires ListState(c.user.state)
    modifies c`user, c`data, c`tables, c`out
    ensures c.user.id == old(c.user.id)
    ensures Valid(old(c.tables)) ==> Valid(c.tables)
    ensures Valid(old(c.tables)) && NamesUnique(old(c.tables)) ==> NamesUnique(c.tables)
    ensures Extends(old(c.out), c.out)
  {
    match c.user.state {
      case DeckList => r := OnDeckList(c, text);
      case DeckCreate => r := OnDeckCreate(c, text);
      case Rehearsing => r := OnRehearsing(c, text);
    }
  }

  /** The handlers of the states about one deck. */
  method HandleDeckState(c: Context, msg: Incoming, data: Data) returns (r: Result<()>)
    requires DeckState(c.user.state)
    requires c.data == Some(data)
    modifies c`user, c`data, c`tables, c`out
    ensures c.user.id == old(c.user.id)
    ensures Valid(old(c.tables)) ==> Valid(c.tables)
    ensures Valid(old(c.tables)) && NamesUnique(old(c.tables)) ==> NamesUnique(c.tables)
    ensures Extends(old(c.out), c.out)
  {
    var text := msg.text;
    match c.user.state {
      case DeckDetails => r := OnDeckDetails(c, text, data);
      case DeckEdit => r := OnDeckEdit(c, text, data);
      case DeckNameEdit => r := OnDeckNameEdit(c, text, data);
      case DeckDelete => r := OnDeckDelete(c, text, data);
    }
  }

  /** The handlers of the card states. */
  method HandleCardState(c: Context, msg: Incoming, data: Data) returns (r: Result<()>)
    requires CardState(c.user.state)
    requires c.data == Some(data)
    modifies c`user, c`data, c`tables, c`out
    ensures c.user.id == old(c.user.id)
    ensures Valid(old(c.tables)) ==> Valid(c.tables)
    ensures Valid(old(c.tables)) && NamesUnique(old(c.tables)) ==> NamesUnique(c.tables)
    ensures Extends(old(c.out), c.out)
  {
    var text := msg.text;
    match c.user.state {
      case CardCreate => r := OnCardCreate(c, msg, data);
      case CardCreateBack => r := OnCardCreateBack(c, msg, data);
      case CardEdit => r := OnCardEdit(c, text, data);
      case CardEditFront => r := OnCardEditFace(c, msg, data, true);
      case CardEditBack => r := OnCardEditFace(c, msg, data, false);
      case RehearsingCardReview => r := OnRehearsingCardReview(c, text);
      case CardReview => r := OnCardReview(c, text, data);
    }
  }

  /** The handlers of the settings states; these leave the tables alone. */
  method HandleSettingState(c: Context, msg: Incoming) returns (r: Result<()>)
    requires SettingState(c.user.state)
    modifies c`user, c`data, c`out
    ensures c.user.id == old(c.user.id)
    ensures Extends(old(c.out), c.out)
  {
    match c.user.state {
      case SetTimeZone => r := OnSetTimeZone(c, msg);
      case Settings => r := OnSettings(c, msg.text);
      case UserSetup => r := OnUserSetup(c, msg);
      case SetRehearsalTime => r := OnSetRehearsalTime(c, msg.text);
    }
  }

  /** The handler of the user's state, once no global command matched; the
      states without one get a fixed reply. */
  method HandleState(c: Context, msg: Incoming, data: Data) returns (r: Result<()>)
    requires c.data == Some(data)
    modifies c`user, c`data, c`tables, c`out
    ensures c.user.id == old(c.user.id)
    ensures Valid(old(c.tables)) ==> Valid(c.tables)
    ensures Valid(old(c.tables)) && NamesUnique(old(c.tables)) ==> NamesUnique(c.tables)
    ensures Extends(old(c.out), c.out)
    ensures Unshown(old(c.user.state)) ==>
      r.Ok? && c.user == old(c.user) && c.tables == old(c.tables) && c.out == old(c.out) + [Said("You're in a weird state")]
  {
    if ListState(c.user.state) {
      r := HandleListState(c, msg.text);
    } else if DeckState(c.user.state) {
      r := HandleDeckState(c, msg, data);
    } else if CardState(c.user.state) {
      r := HandleCardState(c, msg, data);
    } else if SettingState(c.user.state) {
      r := HandleSettingState(c, msg);
    } else {
      c.Reply("You're in a weird state");
      r := Ok(());
    }
  }

  /** The turn inside the transaction: the global commands (by prefix, in the
      order /decks, /help, /start, /settings), then the handler of the user's
      state; a state without a handler gets a fixed reply. `data` is the
      decoded payload, which the turn's context starts with. Whatever
      happens, the user keeps their id, sends only accumulate, and the tables
      stay well formed with unique deck names. */
  method HandleMessage(c: Context, msg: Incoming, data: Data) returns (r: Result<()>)
    requires c.data == Some(data)
    modifies c`user, c`data, c`tables, c`out
    ensures c.user.id == old(c.user.id)
    ensures Valid(old(c.tables)) ==> Valid(c.tables)
    ensures Valid(old(c.tables)) && NamesUnique(old(c.tables)) ==> NamesUnique(c.tables)
    ensures Extends(old(c.out), c.out)
    ensures HasPrefix(msg.text, "/decks") ==>
      && r.Ok? && c.user == Moved(old(c.user), DeckList, None) && c.tables == old(c.tables)
    ensures !HasPrefix(msg.text, "/decks") && HasPrefix(msg.text, "/help") ==>
      && c.tables == old(c.tables)
      && (old(c.user.state).Rehearsing? && old(NothingDue(c)) ==> c.user == Moved(old(c.user), DeckList, None))
      && (!(old(c.user.state).Rehearsing? && old(NothingDue(c))) ==> c.user == old(c.user))
    ensures !HasPrefix(msg.text, "/decks") && !HasPrefix(msg.text, "/help") && HasPrefix(msg.text, "/start") ==>
      && r.Ok? && c.user == Moved(old(c.user), UserSetup, None) && c.tables == old(c.tables)
    ensures !HasPrefix(msg.text, "/decks") && !HasPrefix(msg.text, "/help") && !HasPrefix(msg.text, "/start")
            && HasPrefix(msg.text, "/settings") ==>
      && r.Ok? && c.user == Moved(old(c.user), Settings, None) && c.tables == old(c.tables)
    ensures Unshown(old(c.user.state)) && !HasPrefix(msg.text, "/decks") && !HasPrefix(msg.text, "/help")
            && !HasPrefix(msg.text, "/start") && !HasPrefix(msg.text, "/settings") ==>
      r.Ok? && c.user == old(c.user) && c.tables == old(c.tables) && c.out == old(c.out) + [Said("You're in a weird state")]
  {
    var text := msg.text;
    if HasPrefix(text, "/decks") {
      r := SetAndShowState(c, DeckList, None);
      return;
    } else if HasPrefix(text, "/help") {
      r := Show(c, c.user.state);
      return;
    } else if HasPrefix(text, "/start") {
      r := SetAndShowState(c, UserSetup, None);
      return;
    } else if HasPrefix(text, "/settings") {
      r := SetAndShowState(c, Settings, None);
      return;
    }
    r := HandleState(c, msg, data);
  }
}
