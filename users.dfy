/** Users (user.go): the read-only lookups of a user's decks and due cards,
    the writes on the user row, and deck creation. */
module Users {
  import opened Prelude
  import opened Messages
  import opened States
  import opened Store
  import opened Session
  import opened Cards
  import opened Decks

  /** The column defaults a user row is inserted with, besides its id and the
      state `DeckList`: no payload, the UTC time zone, rehearsal at noon and no
      automatic rehearsal. */
  const DefaultTimeZone: string := "UTC"
  const DefaultRehearsalTime: Clock := Clock(12, 0)

  /** The row `WithUser` inserts for a user it has not seen before. */
  function NewUser(id: int): (u: User)
    ensures u.id == id && u.state == DeckList && u.data == EmptyObject
  {
    User(id, DeckList, EmptyObject, DefaultTimeZone, DefaultRehearsalTime, false)
  }

  // ---------------------------------------------------------------------------
  // Looking up decks

  /** `HasDeckWithName`: whether this user owns a deck called exactly `name`;
      other users' decks do not count. */
  function HasDeckWithName(t: Tables, userId: int, name: string): (has: bool)
    ensures has <==> exists id :: id in DecksOf(t, userId) && t.decks[id].name == name
  {
    exists id :: id in t.decks && t.decks[id].userId == userId && t.decks[id].name == name
  }

  /** The ids of the user's decks called `name`. */
  function NamedDecks(t: Tables, userId: int, name: string): set<int>
  {
    set id | id in t.decks && t.decks[id].userId == userId && t.decks[id].name == name
  }

  /** `GetDeckByName`: one of the user's decks called `name`, or none (not an
      error) when there is no such deck. */
  function GetDeckByName(t: Tables, userId: int, name: string): (r: Option<Deck>)
    ensures r.Some? <==> HasDeckWithName(t, userId, name)
    ensures r.Some? ==> r.value in t.decks.Values && r.value.userId == userId && r.value.name == name
  {
    if HasDeckWithName(t, userId, name) then
      NamedDecksWitness(t, userId, name);
      Some(t.decks[MinOf(NamedDecks(t, userId, name))])
    else
      None
  }

  lemma NamedDecksWitness(t: Tables, userId: int, name: string)
    requires HasDeckWithName(t, userId, name)
    ensures NamedDecks(t, userId, name) != {}
  {
    var id :| id in t.decks && t.decks[id].userId == userId && t.decks[id].name == name;
    assert id in NamedDecks(t, userId, name);
  }

  /** With unique names the deck found by name is the only deck of that name. */
  lemma ByNameIsTheDeck(t: Tables, userId: int, id: int)
    requires NamesUnique(t)
    requires id in t.decks && t.decks[id].userId == userId
    ensures GetDeckByName(t, userId, t.decks[id].name) == Some(t.decks[id])
  {
    var name := t.decks[id].name;
    assert id in NamedDecks(t, userId, name);
    var m := MinOf(NamedDecks(t, userId, name));
    assert m == id;
  }

  /** `GetDeck`: the deck with this id if the user owns it; a missing deck and
      another user's deck both fail with `NoRows`. */
  function GetDeck(t: Tables, userId: int, id: int): (r: Result<Deck>)
    ensures r.Ok? <==> id in DecksOf(t, userId)
    ensures r.Ok? ==> r.value == t.decks[id]
    ensures r.Err? ==> r.error == NoRows
  {
    if id in t.decks && t.decks[id].userId == userId then Ok(t.decks[id]) else Err(NoRows)
  }

  /** A deck with the number of its cards and of those due. */
  datatype Stats = Stats(deck: Deck, totalCards: nat, cardsLeft: nat)

  /** `GetDeckWithStats`: the deck as `GetDeck` finds it, with the number of
      its cards and the number of those due by today. */
  function GetDeckWithStats(t: Tables, userId: int, id: int, today: int): (r: Result<Stats>)
    ensures r.Ok? <==> GetDeck(t, userId, id).Ok?
    ensures r.Err? ==> r.error == NoRows
    ensures r.Ok? ==> r.value.deck == t.decks[id]
    ensures r.Ok? ==> r.value.totalCards == |CardsOf(t, id)| && r.value.cardsLeft == |DueCardsOf(t, id, today)|
    ensures r.Ok? ==> r.value.cardsLeft <= r.value.totalCards
  {
    match GetDeck(t, userId, id)
    case Err(e) => Err(e)
    case Ok(deck) =>
      SubsetSize(DueCardsOf(t, id, today), CardsOf(t, id));
      Ok(Stats(deck, |CardsOf(t, id)|, |DueCardsOf(t, id, today)|))
  }

  lemma {:induction false} SubsetSize(a: set<int>, b: set<int>)
    requires a <= b
    ensures |a| <= |b|
    decreases |b|
  {
    if a != {} {
      assert exists y :: y in a by {
        if forall y :: y !in a {
          assert false;
        }
      }
      var x :| x in a;
      SubsetSize(a - {x}, b - {x});
    }
  }

  /** The counts and the card choice agree: some card is left to review exactly
      when `GetCardForReview` finds one, and the deck (owned by the user) has a
      card whenever one is due. */
  lemma StatsMatchReview(t: Tables, userId: int, id: int, today: int)
    requires Valid(t)
    requires GetDeckWithStats(t, userId, id, today).Ok?
    ensures var s := GetDeckWithStats(t, userId, id, today).value;
      (s.cardsLeft > 0 <==> GetCardForReview(t, s.deck, today).Ok?)
      && (s.totalCards == 0 ==> s.cardsLeft == 0)
  {
    var s := GetDeckWithStats(t, userId, id, today).value;
    assert s.deck.id == id;
    if s.cardsLeft > 0 {
      assert DueCardsOf(t, id, today) != {};
    }
  }

  // ---------------------------------------------------------------------------
  // The deck list, ordered by name

  /** Code-point order on strings: a prefix comes first. */
  predicate StrLe(a: string, b: string)
    decreases |a|
  {
    a == [] || (b != [] && (a[0] < b[0] || (a[0] == b[0] && StrLe(a[1..], b[1..]))))
  }

  lemma {:induction false} StrLeTotal(a: string, b: string)
    ensures StrLe(a, b) || StrLe(b, a)
    decreases |a|
  {
    if a != [] && b != [] && a[0] == b[0] {
      StrLeTotal(a[1..], b[1..]);
    }
  }

  lemma {:induction false} StrLeAntisymmetric(a: string, b: string)
    requires StrLe(a, b) && StrLe(b, a)
    ensures a == b
    decreases |a|
  {
    if a != [] {
      StrLeAntisymmetric(a[1..], b[1..]);
      assert a == [a[0]] + a[1..] && b == [b[0]] + b[1..];
    }
  }

  lemma {:induction false} StrLeTransitive(a: string, b: string, d: string)
    requires StrLe(a, b) && StrLe(b, d)
    ensures StrLe(a, d)
    decreases |a|
  {
    if a != [] && a[0] == b[0] && b[0] == d[0] {
      StrLeTransitive(a[1..], b[1..], d[1..]);
    }
  }

  /** `ORDER BY name`, with the deck id settling equal names. */
  predicate DeckLe(a: Deck, b: Deck)
  {
    StrLe(a.name, b.name) && (a.name == b.name ==> a.id <= b.id)
  }

  lemma DeckOrder(a: Deck, b: Deck, d: Deck)
    ensures DeckLe(a, b) || DeckLe(b, a)
    ensures DeckLe(a, b) && DeckLe(b, d) ==> DeckLe(a, d)
  {
    StrLeTotal(a.name, b.name);
    if DeckLe(a, b) && DeckLe(b, d) {
      StrLeTransitive(a.name, b.name, d.name);
      if a.name == d.name {
        StrLeAntisymmetric(a.name, b.name);
      }
    }
  }

  /** The id of the first deck among `ids` in name order. */
  function FirstDeck(decks: map<int, Deck>, ids: set<int>): (m: int)
    requires ids != {} && ids <= decks.Keys
    ensures m in ids
    ensures forall j :: j in ids ==> DeckLe(decks[m], decks[j])
    decreases |ids|
  {
    var x := MinOf(ids);
    var rest := ids - {x};
    if rest == {} then
      assert ids == {x};
      StrLeTotal(decks[x].name, decks[x].name);
      x
    else
      var y := FirstDeck(decks, rest);
      StrLeTotal(decks[x].name, decks[x].name);
      DeckOrder(decks[x], decks[y], decks[y]);
      if DeckLe(decks[x], decks[y]) then
        assert forall j :: j in rest ==> DeckLe(decks[x], decks[j]) by {
          forall j | j in rest
            ensures DeckLe(decks[x], decks[j])
          {
            DeckOrder(decks[x], decks[y], decks[j]);
          }
        }
        x
      else
        y
  }

  /** Putting the first deck in front of the sorted rest sorts the whole set. */
  lemma ConsSorted(decks: map<int, Deck>, ids: set<int>, m: int, rest: seq<int>)
    requires ids <= decks.Keys && m in ids
    requires forall j :: j in ids ==> DeckLe(decks[m], decks[j])
    requires |rest| == |ids - {m}|
    requires forall id :: id in rest <==> id in ids - {m}
    requires forall i :: 0 <= i < |rest| ==> rest[i] in ids - {m}
    requires forall i, j :: 0 <= i < j < |rest| ==> DeckLe(decks[rest[i]], decks[rest[j]])
    ensures |[m] + rest| == |ids|
    ensures forall id :: id in [m] + rest <==> id in ids
    ensures forall i :: 0 <= i < |[m] + rest| ==> ([m] + rest)[i] in ids
    ensures forall i, j :: 0 <= i < j < |[m] + rest| ==> DeckLe(decks[([m] + rest)[i]], decks[([m] + rest)[j]])
  {
    var r := [m] + rest;
    assert |ids - {m}| == |ids| - 1;
    forall i, j | 0 <= i < j < |r|
      ensures DeckLe(decks[r[i]], decks[r[j]])
    {
      if i == 0 {
        assert r[j] == rest[j - 1];
      } else {
        assert r[i] == rest[i - 1] && r[j] == rest[j - 1];
      }
    }
    forall id | id in ids
      ensures id in r
    {
      if id != m {
        assert id in rest;
      }
    }
  }

  /** The ids of `ids` listed once each, in name order. */
  function SortedIds(decks: map<int, Deck>, ids: set<int>): (r: seq<int>)
    requires ids <= decks.Keys
    ensures |r| == |ids|
    ensures forall id :: id in r <==> id in ids
    ensures forall i :: 0 <= i < |r| ==> r[i] in ids
    ensures forall i, j :: 0 <= i < j < |r| ==> DeckLe(decks[r[i]], decks[r[j]])
    decreases |ids|
  {
    if ids == {} then []
    else
      var m := FirstDeck(decks, ids);
      var rest := SortedIds(decks, ids - {m});
      ConsSorted(decks, ids, m, rest);
      [m] + rest
  }

  /** `GetDecks`: the user's decks in name order. */
  function GetDecks(t: Tables, userId: int): (r: seq<Deck>)
    ensures |r| == |DecksOf(t, userId)|
  {
    var ids := SortedIds(t.decks, DecksOf(t, userId));
    seq(|ids|, i requires 0 <= i < |ids| => t.decks[ids[i]])
  }

  /** `GetDecks` lists exactly the user's decks, each once, sorted by name. */
  lemma GetDecksListsDecks(t: Tables, userId: int)
    ensures var r := GetDecks(t, userId);
      && (forall i :: 0 <= i < |r| ==> r[i] in t.decks.Values && r[i].userId == userId)
      && (forall id :: id in DecksOf(t, userId) ==> t.decks[id] in r)
      && (forall i, j :: 0 <= i < j < |r| ==> StrLe(r[i].name, r[j].name))
  {
    var ids := SortedIds(t.decks, DecksOf(t, userId));
    var r := GetDecks(t, userId);
    forall i | 0 <= i < |r|
      ensures r[i] in t.decks.Values && r[i].userId == userId
    {
      assert ids[i] in DecksOf(t, userId);
      assert r[i] == t.decks[ids[i]];
    }
    forall id | id in DecksOf(t, userId)
      ensures t.decks[id] in r
    {
      var i :| 0 <= i < |ids| && ids[i] == id;
      assert r[i] == t.decks[id];
    }
    forall i, j | 0 <= i < j < |r|
      ensures StrLe(r[i].name, r[j].name)
    {
      assert r[i] == t.decks[ids[i]] && r[j] == t.decks[ids[j]];
      assert DeckLe(t.decks[ids[i]], t.decks[ids[j]]);
    }
  }

  /** `GetDeckByOffset`: the deck at position `offset` of the name-ordered
      list, none past its end; a negative offset is refused by the database. */
  function GetDeckByOffset(t: Tables, userId: int, offset: int): (r: Result<Option<Deck>>)
    ensures offset < 0 <==> r.Err?
    ensures r.Err? ==> r.error == NegativeOffset
    ensures r.Ok? ==> (r.value.Some? <==> offset < |DecksOf(t, userId)|)
    ensures r.Ok? && r.value.Some? ==> r.value.value == GetDecks(t, userId)[offset]
  {
    var decks := GetDecks(t, userId);
    if offset < 0 then Err(NegativeOffset)
    else if offset < |decks| then Ok(Some(decks[offset]))
    else Ok(None)
  }

  // ---------------------------------------------------------------------------
  // The card to rehearse

  /** The ids of the due cards in all decks of the user. */
  function ScheduledCards(t: Tables, userId: int, today: int): set<int>
  {
    set id | id in t.cards && t.cards[id].deckId in t.decks
      && t.decks[t.cards[id].deckId].userId == userId && t.cards[id].nextRepetition <= today
  }

  /** `GetScheduledCard`: the first due card of the user's decks in review
      order, or none (not an error) when no card of theirs is due. */
  function GetScheduledCard(t: Tables, userId: int, today: int): (r: Option<Card>)
    ensures r.None? <==> ScheduledCards(t, userId, today) == {}
    ensures r.Some? ==> r.value in t.cards.Values && r.value.nextRepetition <= today
    ensures r.Some? ==> r.value.deckId in DecksOf(t, userId)
    ensures r.Some? ==> forall id :: id in ScheduledCards(t, userId, today) ==> ReviewLe(r.value, t.cards[id])
  {
    var ids := ScheduledCards(t, userId, today);
    if ids == {} then None else Some(t.cards[Earliest(t.cards, ids)])
  }

  // ---------------------------------------------------------------------------
  // Writes on the user row and deck creation

  /** `SetState`: store the state and its payload, the empty object for a nil
      payload; nothing else of the user changes. */
  method SetState(c: Context, state: State, data: Option<Data>)
    modifies c`user
    ensures c.user == old(c.user).(state := state, data := Encode(data))
  {
    c.user := c.user.(state := state, data := Encode(data));
  }

  /** `SetTimeZone`: store the time zone id. */
  method SetTimeZone(c: Context, zoneId: string)
    modifies c`user
    ensures c.user == old(c.user).(timeZone := zoneId)
  {
    c.user := c.user.(timeZone := zoneId);
  }

  /** `SetScheduled`: switch automatic rehearsal on or off. */
  method SetScheduled(c: Context, scheduled: bool)
    modifies c`user
    ensures c.user == old(c.user).(scheduled := scheduled)
  {
    c.user := c.user.(scheduled := scheduled);
  }

  /** `SetRehearsalTime`: store the daily rehearsal time. */
  method SetRehearsalTime(c: Context, time: Clock)
    modifies c`user
    ensures c.user == old(c.user).(rehearsalTime := time)
  {
    c.user := c.user.(rehearsalTime := time);
  }

  /** Whether a new deck takes part in automatic rehearsal (a column default). */
  const DefaultDeckScheduled: bool := false

  /** `CreateDeck`: insert one deck of this user under the next serial id. */
  method CreateDeck(c: Context, name: string) returns (deck: Deck)
    modifies c`tables
    ensures deck == Deck(old(c.tables.nextDeckId), c.user.id, name, DefaultDeckScheduled)
    ensures c.tables == old(c.tables).(decks := old(c.tables.decks)[deck.id := deck], nextDeckId := deck.id + 1)
  {
    deck := Deck(c.tables.nextDeckId, c.user.id, name, DefaultDeckScheduled);
    c.tables := c.tables.(decks := c.tables.decks[deck.id := deck], nextDeckId := deck.id + 1);
  }

  /** Creating a deck under a name the user does not use yet keeps the tables
      well formed and the user's deck names unique, and adds exactly that deck
      to the user's decks. */
  lemma CreateDeckKeepsInvariants(t: Tables, userId: int, name: string)
    requires Valid(t)
    ensures var d := Deck(t.nextDeckId, userId, name, DefaultDeckScheduled);
      var t' := t.(decks := t.decks[d.id := d], nextDeckId := d.id + 1);
      Valid(t') && DecksOf(t', userId) == DecksOf(t, userId) + {d.id}
      && d.id !in DecksOf(t, userId)
      && (NamesUnique(t) && !HasDeckWithName(t, userId, name) ==> NamesUnique(t'))
  {
    var d := Deck(t.nextDeckId, userId, name, DefaultDeckScheduled);
    var t' := t.(decks := t.decks[d.id := d], nextDeckId := d.id + 1);
    if NamesUnique(t) && !HasDeckWithName(t, userId, name) {
      NewNameKeepsNamesUnique(t, t', d);
    }
  }

  lemma NewNameKeepsNamesUnique(t: Tables, t': Tables, d: Deck)
    requires Valid(t) && NamesUnique(t) && !HasDeckWithName(t, d.userId, d.name)
    requires d.id == t.nextDeckId && t' == t.(decks := t.decks[d.id := d], nextDeckId := d.id + 1)
    ensures NamesUnique(t')
  {
    var userId := d.userId;
    forall i, j | i in t'.decks && j in t'.decks && i != j && t'.decks[i].userId == t'.decks[j].userId
      ensures t'.decks[i].name != t'.decks[j].name
    {
      if i == d.id {
        assert j in DecksOf(t, userId);
      } else if j == d.id {
        assert i in DecksOf(t, userId);
      }
    }
  }
}
