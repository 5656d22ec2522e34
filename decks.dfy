/** Decks (deck.go): choosing the next card to review, the rename check, and
    the writes on a deck: rename, rehearsal switch, delete, and adding a card. */
module Decks {
  import opened Prelude
  import opened Messages
  import opened Store
  import opened Session
  import opened Cards

  /** The review order: earlier due day first, then fewer same-day repeats,
      then the random tie-breaker, and finally the card id (the query leaves
      full ties open; the model settles them by id). */
  predicate ReviewLe(a: Card, b: Card)
  {
    || a.nextRepetition < b.nextRepetition
    || (a.nextRepetition == b.nextRepetition &&
        (|| a.repetitionToday < b.repetitionToday
         || (a.repetitionToday == b.repetitionToday &&
             (|| a.randomOrder < b.randomOrder
              || (a.randomOrder == b.randomOrder && a.id <= b.id)))))
  }

  /** The review order is a total order on cards with distinct ids. */
  lemma ReviewOrder(a: Card, b: Card, d: Card)
    ensures ReviewLe(a, a)
    ensures ReviewLe(a, b) || ReviewLe(b, a)
    ensures ReviewLe(a, b) && ReviewLe(b, d) ==> ReviewLe(a, d)
    ensures ReviewLe(a, b) && ReviewLe(b, a) ==> a.id == b.id
  {
  }

  /** The id of the first card among `ids` in review order. */
  function Earliest(cards: map<int, Card>, ids: set<int>): (m: int)
    requires ids != {} && ids <= cards.Keys
    ensures m in ids
    ensures forall j :: j in ids ==> ReviewLe(cards[m], cards[j])
    decreases |ids|
  {
    var x := MinOf(ids);
    var rest := ids - {x};
    if rest == {} then
      assert ids == {x};
      x
    else
      var y := Earliest(cards, rest);
      if ReviewLe(cards[x], cards[y]) then
        assert forall j :: j in rest ==> ReviewLe(cards[x], cards[j]) by {
          forall j | j in rest
            ensures ReviewLe(cards[x], cards[j])
          {
            ReviewOrder(cards[x], cards[y], cards[j]);
          }
        }
        x
      else
        ReviewOrder(cards[x], cards[y], cards[y]);
        y
  }

  /** `GetCardForReview`: the first card of the deck in review order among
      those due by `today`; when none is due the query finds no row and the
      call fails with `NoRows` (it does not return "no card"). */
  function GetCardForReview(t: Tables, deck: Deck, today: int): (r: Result<Card>)
    ensures r.Err? <==> DueCardsOf(t, deck.id, today) == {}
    ensures r.Err? ==> r.error == NoRows
    ensures r.Ok? ==> r.value in t.cards.Values
    ensures r.Ok? ==> r.value.deckId == deck.id && r.value.nextRepetition <= today
    ensures r.Ok? ==> forall id :: id in DueCardsOf(t, deck.id, today) ==> ReviewLe(r.value, t.cards[id])
  {
    var due := DueCardsOf(t, deck.id, today);
    if due == {} then Err(NoRows)
    else
      var id := Earliest(t.cards, due);
      Ok(t.cards[id])
  }

  /** The choice is determined: any due card of the deck that comes first in
      review order is the one `GetCardForReview` returns. */
  lemma {:induction false} ReviewChoiceUnique(t: Tables, deck: Deck, today: int, id: int)
    requires Valid(t)
    requires id in DueCardsOf(t, deck.id, today)
    requires forall j :: j in DueCardsOf(t, deck.id, today) ==> ReviewLe(t.cards[id], t.cards[j])
    ensures GetCardForReview(t, deck, today) == Ok(t.cards[id])
  {
    var r := GetCardForReview(t, deck, today);
    var k :| k in t.cards && t.cards[k] == r.value;
    assert k in DueCardsOf(t, deck.id, today);
    ReviewOrder(r.value, t.cards[id], r.value);
    assert r.value.id == t.cards[id].id;
  }

  /** `CanSetNameTo`: no other deck of the deck's owner already has `name`. */
  function CanSetNameTo(t: Tables, deck: Deck, name: string): (can: bool)
    ensures can <==> forall id :: id in DecksOf(t, deck.userId) && id != deck.id ==> t.decks[id].name != name
  {
    forall id :: id in t.decks && t.decks[id].userId == deck.userId && id != deck.id ==> t.decks[id].name != name
  }

  /** A deck may always keep its own name while its owner's names are unique. */
  lemma KeepOwnName(t: Tables, deck: Deck)
    requires Valid(t) && NamesUnique(t)
    requires deck.id in t.decks && t.decks[deck.id] == deck
    ensures CanSetNameTo(t, deck, deck.name)
  {
  }

  /** `SetName`: rename the deck's row; no row, no change and `NoRows`. */
  method SetName(c: Context, deck: Deck, name: string) returns (r: Result<Deck>)
    modifies c`tables
    ensures r.Ok? <==> deck.id in old(c.tables.decks)
    ensures r.Err? ==> r.error == NoRows && c.tables == old(c.tables)
    ensures r.Ok? ==>
      && r.value == old(c.tables.decks[deck.id]).(name := name)
      && c.tables == old(c.tables).(decks := old(c.tables.decks)[deck.id := r.value])
  {
    if deck.id !in c.tables.decks {
      return Err(NoRows);
    }
    var updated := c.tables.decks[deck.id].(name := name);
    c.tables := c.tables.(decks := c.tables.decks[deck.id := updated]);
    r := Ok(updated);
  }

  /** A rename the check allowed keeps every user's deck names unique. */
  lemma RenameKeepsNamesUnique(t: Tables, deck: Deck, name: string)
    requires NamesUnique(t) && deck.id in t.decks && t.decks[deck.id].userId == deck.userId
    requires CanSetNameTo(t, deck, name)
    ensures NamesUnique(t.(decks := t.decks[deck.id := t.decks[deck.id].(name := name)]))
  {
  }

  /** `SetScheduled`: switch the deck's rehearsal flag and nothing else. */
  method SetScheduled(c: Context, deck: Deck, scheduled: bool) returns (r: Result<Deck>)
    modifies c`tables
    ensures r.Ok? <==> deck.id in old(c.tables.decks)
    ensures r.Err? ==> r.error == NoRows && c.tables == old(c.tables)
    ensures r.Ok? ==>
      && r.value == old(c.tables.decks[deck.id]).(scheduled := scheduled)
      && c.tables == old(c.tables).(decks := old(c.tables.decks)[deck.id := r.value])
  {
    if deck.id !in c.tables.decks {
      return Err(NoRows);
    }
    var updated := c.tables.decks[deck.id].(scheduled := scheduled);
    c.tables := c.tables.(decks := c.tables.decks[deck.id := updated]);
    r := Ok(updated);
  }

  /** `Delete`: remove the deck's row and no other. */
  method Delete(c: Context, deck: Deck)
    modifies c`tables
    ensures c.tables == old(c.tables).(decks := old(c.tables.decks) - {deck.id})
  {
    c.tables := c.tables.(decks := c.tables.decks - {deck.id});
  }

  /** `CreateCard`: insert one new card of this deck with the given faces under
      the next serial id; every existing card stays as it was. */
  method CreateCard(c: Context, deck: Deck, front: seq<Message>, back: seq<Message>) returns (card: Card)
    modifies c`tables
    ensures card.id == old(c.tables.nextCardId)
    ensures Valid(old(c.tables)) ==> card.id !in old(c.tables.cards) && Valid(c.tables)
    ensures 0 <= card.randomOrder < MaxRandomOrder
    ensures card == NewCard(old(c.tables.nextCardId), deck.id, front, back, c.Today(), card.randomOrder)
    ensures c.tables == old(c.tables).(cards := old(c.tables.cards)[card.id := card], nextCardId := card.id + 1)
  {
    var id := c.tables.nextCardId;
    var randomOrder :| 0 <= randomOrder < MaxRandomOrder;
    card := NewCard(id, deck.id, front, back, c.Today(), randomOrder);
    c.tables := c.tables.(cards := c.tables.cards[id := card], nextCardId := id + 1);
  }

  /** Adding a card keeps the tables well formed and adds exactly one card to
      the deck's card set. */
  lemma AddCardKeepsValid(t: Tables, card: Card)
    requires Valid(t) && card.id == t.nextCardId
    ensures var t' := t.(cards := t.cards[card.id := card], nextCardId := card.id + 1);
      Valid(t') && NamesUnique(t') == NamesUnique(t)
      && CardsOf(t', card.deckId) == CardsOf(t, card.deckId) + {card.id}
      && card.id !in CardsOf(t, card.deckId)
  {
  }
}
