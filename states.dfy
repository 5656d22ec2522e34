/** The conversation states a user can be in and the payload stored beside the
    state (state.go). A state is persisted as its position in the declaration
    order; the payload is persisted as a JSON object, `{}` when there is none. */
module States {
  import opened Prelude
  import opened Messages

  datatype State =
    | DeckList
    | Rehearsing
    | RehearsingCardReview
    | DeckCreate
    | CardSearch
    | DeckDetails
    | CardCreate
    | CardCreateBack
    | CardDelete
    | CardDetails
    | CardReview
    | CardUpdate
    | DeckEdit
    | CardEdit
    | DeckDelete
    | DeckNameEdit
    | CardEditFront
    | CardEditBack
    | SetTimeZone
    | Settings
    | UserSetup
    | SetRehearsalTime

  /** `stateCount`: the number of declared states. */
  const StateCount: nat := 22

  /** The states in declaration order. */
  const AllStates: seq<State> := [
    DeckList, Rehearsing, RehearsingCardReview, DeckCreate, CardSearch, DeckDetails,
    CardCreate, CardCreateBack, CardDelete, CardDetails, CardReview, CardUpdate,
    DeckEdit, CardEdit, DeckDelete, DeckNameEdit, CardEditFront, CardEditBack,
    SetTimeZone, Settings, UserSetup, SetRehearsalTime]

  /** The integer a state is stored as. */
  function StateCode(s: State): (n: nat)
    ensures n < StateCount && AllStates[n] == s
  {
    match s
    case DeckList => 0
    case Rehearsing => 1
    case RehearsingCardReview => 2
    case DeckCreate => 3
    case CardSearch => 4
    case DeckDetails => 5
    case CardCreate => 6
    case CardCreateBack => 7
    case CardDelete => 8
    case CardDetails => 9
    case CardReview => 10
    case CardUpdate => 11
    case DeckEdit => 12
    case CardEdit => 13
    case DeckDelete => 14
    case DeckNameEdit => 15
    case CardEditFront => 16
    case CardEditBack => 17
    case SetTimeZone => 18
    case Settings => 19
    case UserSetup => 20
    case SetRehearsalTime => 21
  }

  /** Reading a stored state back: exactly the codes below `stateCount` name a
      state, and reading is the inverse of storing. */
  function StateFromCode(n: int): (r: Option<State>)
    ensures r.Some? <==> 0 <= n < StateCount
    ensures r.Some? ==> StateCode(r.value) == n
  {
    if 0 <= n < StateCount then
      var s := AllStates[n];
      StateCodeInjective(s, n);
      Some(s)
    else None
  }

  /** Each listed state is stored as its position in the list. */
  lemma StateCodeInjective(s: State, n: int)
    requires 0 <= n < StateCount && AllStates[n] == s
    ensures StateCode(s) == n
  {
    if n < 11 {
      assert n in {0, 1, 2, 3, 4, 5, 6, 7, 8, 9, 10};
    } else {
      assert n in {11, 12, 13, 14, 15, 16, 17, 18, 19, 20, 21};
    }
  }

  lemma StateCodeRoundTrip(s: State)
    ensures StateFromCode(StateCode(s)) == Some(s)
  {
  }

  /** The payload a state carries: the deck or card it is about, and the card
      faces collected so far. */
  datatype Data = Data(deckId: int, cardId: int, messages: seq<Message>, front: seq<Message>, back: seq<Message>)

  /** The payload decoded from `{}`: every field zero or empty. */
  const ZeroData: Data := Data(0, 0, [], [], [])

  /** The stored form of a payload: `{}` for a nil payload, otherwise the
      encoded record. */
  datatype Payload = EmptyObject | Json(record: Data)

  /** Marshalling in `SetState`: a nil payload becomes the empty object. */
  function Encode(d: Option<Data>): (p: Payload)
    ensures d.None? <==> p == EmptyObject
    ensures d.Some? ==> p.Json? && p.record == d.value
  {
    match d
    case None => EmptyObject
    case Some(x) => Json(x)
  }

  /** Unmarshalling at the start of a turn into a zero-valued `Data`: fields
      the stored object lacks stay zero. */
  function Decode(p: Payload): (d: Data)
    ensures p == EmptyObject ==> d == ZeroData
  {
    match p
    case EmptyObject => ZeroData
    case Json(x) => x
  }

  /** What a turn stores, the next turn reads back; a nil payload reads back as
      the zero payload. */
  lemma PayloadRoundTrip(d: Option<Data>)
    ensures Decode(Encode(d)) == if d.Some? then d.value else ZeroData
  {
  }

  /** `stringTernary`: the first string when the flag is set, else the second. */
  function StringTernary(x: bool, a: string, b: string): (r: string)
    ensures x ==> r == a
    ensures !x ==> r == b
  {
    if x then a else b
  }
}
