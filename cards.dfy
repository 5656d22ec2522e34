/** Cards (card.go): reading a card, recording a review with SM-2, replacing
    a face, deleting, and sending a face to the chat. A face is stored as the
    sequence of messages it was made of. */
module Cards {
  import opened Prelude
  import opened Sm
  import opened Messages
  import opened States
  import opened Store
  import opened Session

  /** `random_order` is drawn as `TRUNC(RANDOM() * 2147483647)`. */
  const MaxRandomOrder: int := 2147483647

  /** The scheduling fields a card starts with (a column default of the
      schema): easiness 2.50, no streak, no interval, due on its creation day. */
  const DefaultEasinessFactor: int16 := 250

  /** A new card of deck `deckId` as the insert in `CreateCard` leaves it. */
  function NewCard(id: int, deckId: int, front: seq<Message>, back: seq<Message>, today: int, randomOrder: int): Card
  {
    Card(id, deckId, front, back, DefaultEasinessFactor, 0, 0, 0, randomOrder, today)
  }

  /** `GetCard`: the card with this id, whatever deck or user it belongs to. */
  function GetCard(t: Tables, id: int): (r: Result<Card>)
    ensures r.Ok? <==> id in t.cards
    ensures r.Ok? ==> r.value == t.cards[id]
    ensures r.Err? ==> r.error == NoRows
  {
    if id in t.cards then Ok(t.cards[id]) else Err(NoRows)
  }

  // ---------------------------------------------------------------------------
  // Reviews

  /** The card row `Respond` writes: the SM2Mod results for the card's streak,
      easiness and previous interval; a same-day repeat counter that grows when
      the new interval is 0 and is cleared otherwise; a fresh random tie-breaker;
      and a due day the new interval after today. */
  function Reviewed(card: Card, q: int16, today: int, randomOrder: int): (r: Card)
    requires ValidQuality(SM2Mod, q)
    ensures r.id == card.id && r.deckId == card.deckId && r.front == card.front && r.back == card.back
    ensures r.repetition == NextRepetition(SM2Mod, q, card.repetition)
    ensures r.easinessFactor == NextEF(SM2Mod, q, card.easinessFactor)
    ensures r.previousInterval == NextInterval(SM2Mod, q, card.easinessFactor, card.repetition, card.previousInterval)
    ensures r.previousInterval == 0 ==> r.repetitionToday == Wrap16(card.repetitionToday as int + 1)
    ensures r.previousInterval != 0 ==> r.repetitionToday == 0
    ensures r.nextRepetition - today == r.previousInterval as int
    ensures r.randomOrder == randomOrder
  {
    var s := Calc(SM2Mod, q, card.repetition, card.easinessFactor, card.previousInterval);
    var repetitionToday := if s.interval == 0 then Wrap16(card.repetitionToday as int + 1) else 0;
    card.(easinessFactor := s.easinessFactor, previousInterval := s.interval, repetition := s.repetition,
          repetitionToday := repetitionToday, randomOrder := randomOrder,
          nextRepetition := today + s.interval as int)
  }

  /** The scheduling fields of a card lie in the region SM2Mod reviews keep. */
  predicate CardReachable(card: Card)
  {
    Reachable(card.repetition, card.easinessFactor, card.previousInterval)
  }

  /** A review of a card in the reachable region, without 16-bit overflow,
      leaves it in that region and never schedules it before today. */
  lemma {:induction false} ReviewStaysReachable(card: Card, q: int16, today: int, randomOrder: int)
    requires ValidQuality(SM2Mod, q)
    requires CardReachable(card) && NoOverflow(card.repetition, card.easinessFactor, card.previousInterval)
    ensures CardReachable(Reviewed(card, q, today, randomOrder))
    ensures Reviewed(card, q, today, randomOrder).nextRepetition >= today
  {
    ReachablePreserved(q, card.repetition, card.easinessFactor, card.previousInterval);
  }

  /** A "No idea" or "Wrong" answer keeps the card due today, restarts its
      streak and counts one more same-day repeat. */
  lemma LowQualityRepeatsToday(card: Card, q: int16, today: int, randomOrder: int)
    requires 0 <= q < 2
    requires card.repetitionToday < 0x7FFF
    ensures var r := Reviewed(card, q, today, randomOrder);
      r.nextRepetition == today && r.repetition == 1 && r.repetitionToday == card.repetitionToday + 1
  {
  }

  /** With the starting streak of 0, the first review of a new card never
      schedules it for a later day, whatever the answer. */
  lemma FreshCardRepeatsToday(id: int, deckId: int, front: seq<Message>, back: seq<Message>,
                              created: int, q: int16, today: int, r1: int, r2: int)
    requires ValidQuality(SM2Mod, q)
    ensures var r := Reviewed(NewCard(id, deckId, front, back, created, r1), q, today, r2);
      r.previousInterval == 0 && r.nextRepetition == today && r.repetitionToday == 1
  {
    var r := Reviewed(NewCard(id, deckId, front, back, created, r1), q, today, r2);
    assert r.previousInterval == NextInterval(SM2Mod, q, DefaultEasinessFactor, 0, 0);
    assert RoundHalfUp(0) == 0;
    assert r.repetitionToday == Wrap16(1);
  }

  /** `Respond`: rewrite the row of `card` with the outcome of a review of
      quality `q`, computed from the fields of `card` as read, with a random
      tie-breaker in [0, 2147483647). An update that finds no row fails with
      `NoRows` and changes nothing. */
  method Respond(c: Context, card: Card, q: int16) returns (r: Result<Card>)
    requires ValidQuality(SM2Mod, q)
    modifies c`tables
    ensures r.Ok? <==> card.id in old(c.tables.cards)
    ensures r.Err? ==> r.error == NoRows && c.tables == old(c.tables)
    ensures r.Ok? ==>
      && 0 <= r.value.randomOrder < MaxRandomOrder
      && r.value == Reviewed(card, q, c.Today(), r.value.randomOrder)
      && c.tables == old(c.tables).(cards := old(c.tables.cards)[card.id := r.value])
  {
    if card.id !in c.tables.cards {
      return Err(NoRows);
    }
    var randomOrder :| 0 <= randomOrder < MaxRandomOrder;
    var updated := Reviewed(card, q, c.Today(), randomOrder);
    c.tables := c.tables.(cards := c.tables.cards[card.id := updated]);
    r := Ok(updated);
  }

  // ---------------------------------------------------------------------------
  // Editing

  /** `SetFront`: replace the front of the card's row and nothing else. */
  method SetFront(c: Context, card: Card, messages: seq<Message>) returns (r: Result<Card>)
    modifies c`tables
    ensures r.Ok? <==> card.id in old(c.tables.cards)
    ensures r.Err? ==> r.error == NoRows && c.tables == old(c.tables)
    ensures r.Ok? ==>
      && r.value == old(c.tables.cards[card.id]).(front := messages)
      && c.tables == old(c.tables).(cards := old(c.tables.cards)[card.id := r.value])
  {
    if card.id !in c.tables.cards {
      return Err(NoRows);
    }
    var updated := c.tables.cards[card.id].(front := messages);
    c.tables := c.tables.(cards := c.tables.cards[card.id := updated]);
    r := Ok(updated);
  }

  /** `SetBack`: replace the back of the card's row and nothing else. */
  method SetBack(c: Context, card: Card, messages: seq<Message>) returns (r: Result<Card>)
    modifies c`tables
    ensures r.Ok? <==> card.id in old(c.tables.cards)
    ensures r.Err? ==> r.error == NoRows && c.tables == old(c.tables)
    ensures r.Ok? ==>
      && r.value == old(c.tables.cards[card.id]).(back := messages)
      && c.tables == old(c.tables).(cards := old(c.tables.cards)[card.id := r.value])
  {
    if card.id !in c.tables.cards {
      return Err(NoRows);
    }
    var updated := c.tables.cards[card.id].(back := messages);
    c.tables := c.tables.(cards := c.tables.cards[card.id := updated]);
    r := Ok(updated);
  }

  /** `Delete`: remove the card's row, if it is still there. */
  method Delete(c: Context, card: Card)
    modifies c`tables
    ensures c.tables == old(c.tables).(cards := old(c.tables.cards) - {card.id})
  {
    c.tables := c.tables.(cards := c.tables.cards - {card.id});
  }

  // ---------------------------------------------------------------------------
  // Sending a face

  /** The sends for one face: each message in order, with the keyboard on the
      last one only. */
  function Face(messages: seq<Message>, keyboard: Markup): seq<Output>
    decreases |messages|
  {
    if messages == [] then []
    else if |messages| == 1 then [ToMessageConfig(messages[0], keyboard)]
    else [ToMessageConfig(messages[0], NoMarkup)] + Face(messages[1..], keyboard)
  }

  /** A face is sent as one send per stored message, in order; only the last
      send carries the keyboard, and an empty face sends nothing. */
  lemma {:induction false} FaceShape(messages: seq<Message>, keyboard: Markup)
    ensures |Face(messages, keyboard)| == |messages|
    ensures forall i :: 0 <= i < |messages| ==>
      Face(messages, keyboard)[i] == ToMessageConfig(messages[i], if i == |messages| - 1 then keyboard else NoMarkup)
    ensures forall i :: 0 <= i < |messages| ==>
      Face(messages, keyboard)[i].markup == (if i == |messages| - 1 then keyboard else NoMarkup)
    decreases |messages|
  {
    if |messages| > 1 {
      FaceShape(messages[1..], keyboard);
      var f := Face(messages, keyboard);
      forall i | 0 <= i < |messages|
        ensures f[i] == ToMessageConfig(messages[i], if i == |messages| - 1 then keyboard else NoMarkup)
      {
        if i > 0 {
          assert f[i] == Face(messages[1..], keyboard)[i - 1];
        }
      }
    }
  }

  /** The loop of `SendFront` and `SendBack`: send the messages of a face one
      by one, the keyboard going with the last. */
  method SendFace(c: Context, messages: seq<Message>, keyboard: Markup)
    modifies c`out
    ensures c.out == old(c.out) + Face(messages, keyboard)
  {
    ghost var before := c.out;
    var i := 0;
    while i < |messages|
      invariant 0 <= i <= |messages|
      invariant |c.out| == |before| + i && c.out[..|before|] == before
      invariant forall j :: 0 <= j < i ==>
        c.out[|before| + j] == ToMessageConfig(messages[j], if j == |messages| - 1 then keyboard else NoMarkup)
    {
      if i == |messages| - 1 {
        c.Send(ToMessageConfig(messages[i], keyboard));
      } else {
        c.Send(ToMessageConfig(messages[i], NoMarkup));
      }
      i := i + 1;
    }
    FaceShape(messages, keyboard);
    assert c.out == before + Face(messages, keyboard);
  }

  /** `SendFront`: send the card's front. */
  method SendFront(c: Context, card: Card, keyboard: Markup)
    modifies c`out
    ensures c.out == old(c.out) + Face(card.front, keyboard)
  {
    SendFace(c, card.front, keyboard);
  }

  /** `SendBack`: send the card's back. */
  method SendBack(c: Context, card: Card, keyboard: Markup)
    modifies c`out
    ensures c.out == old(c.out) + Face(card.back, keyboard)
  {
    SendFace(c, card.back, keyboard);
  }
}
