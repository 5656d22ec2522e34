/** The rows of the bot's database and the tables that hold them. A table is a
    map from primary key to row; new decks and cards take the next value of
    their table's serial counter. Days are whole day numbers. */
module Store {
  import opened Prelude
  import opened Sm
  import opened Messages
  import opened States

  /** A deck row (deck.go). */
  datatype Deck = Deck(id: int, userId: int, name: string, scheduled: bool)

  /** The zero `Deck` a failed lookup leaves behind. */
  const ZeroDeck: Deck := Deck(0, 0, "", false)

  /** A card row (card.go): both faces, the SM-2 fields, the number of same-day
      repeats, a random tie-breaker and the day the card is next due. */
  datatype Card = Card(
    id: int,
    deckId: int,
    front: seq<Message>,
    back: seq<Message>,
    easinessFactor: int16,
    previousInterval: int16,
    repetition: int16,
    repetitionToday: int16,
    randomOrder: int,
    nextRepetition: int)

  /** A user row (user.go): the conversation state with its payload, the time
      zone, the daily rehearsal time and the global rehearsal switch. */
  datatype User = User(id: int, state: State, data: Payload, timeZone: string, rehearsalTime: Clock, scheduled: bool)

  /** The deck and card tables with their serial counters. */
  datatype Tables = Tables(decks: map<int, Deck>, cards: map<int, Card>, nextDeckId: int, nextCardId: int)

  /** Every row is stored under its own id, and ids are positive and below the
      next serial value, so a fresh id is never in use. */
  predicate Valid(t: Tables)
  {
    && 1 <= t.nextDeckId && 1 <= t.nextCardId
    && (forall id :: id in t.decks ==> t.decks[id].id == id && 1 <= id < t.nextDeckId)
    && (forall id :: id in t.cards ==> t.cards[id].id == id && 1 <= id < t.nextCardId)
  }

  /** No user owns two decks with the same name. */
  predicate NamesUnique(t: Tables)
  {
    forall i, j :: i in t.decks && j in t.decks && i != j && t.decks[i].userId == t.decks[j].userId
      ==> t.decks[i].name != t.decks[j].name
  }

  /** The tables before the first deck or card exists. */
  const NoTables: Tables := Tables(map[], map[], 1, 1)

  lemma NoTablesValid()
    ensures Valid(NoTables) && NamesUnique(NoTables)
  {
  }

  /** The ids of the decks `userId` owns. */
  function DecksOf(t: Tables, userId: int): set<int>
  {
    set id | id in t.decks && t.decks[id].userId == userId
  }

  /** The ids of the cards of deck `deckId`. */
  function CardsOf(t: Tables, deckId: int): set<int>
  {
    set id | id in t.cards && t.cards[id].deckId == deckId
  }

  /** The ids of the cards of deck `deckId` due by day `today`. */
  function DueCardsOf(t: Tables, deckId: int, today: int): (s: set<int>)
    ensures s <= CardsOf(t, deckId)
  {
    set id | id in t.cards && t.cards[id].deckId == deckId && t.cards[id].nextRepetition <= today
  }
}
