/** The button labels the bot offers and recognises (messages.go), with the
    answer keyboard shown under the back of a card. Labels are compared by
    exact string equality. */
module Labels {
  import opened Prelude
  import opened Messages

  const Add: string := "\U{2795}"
  const AddCard: string := "\U{2795} New Card"
  const AddDeck: string := "\U{2795} New Deck"
  const Back: string := "\U{1F519}"
  const ChangeLocation: string := "\U{1F30D} Set location"
  const ConfirmDeleteDeck: string := "\U{1F525} Yes"
  const DeleteCard: string := "\U{1F5D1} Delete"
  const DeleteDeck: string := "\U{1F5D1} Delete"
  const Difficulty0: string := "\U{1F62E} No idea"
  const Difficulty1: string := "\U{1F623} Wrong"
  const Difficulty2: string := "\U{1F642} Recalled"
  const Difficulty3: string := "\U{263A}\U{FE0F} Easy"
  const DisableScheduling: string := "\U{1F645} Disable rehearsal"
  const DontDeleteDeck: string := "\U{26D4}\U{FE0F} No"
  const EditCard: string := "\U{1F4DD} Edit Card"
  const EditCardBack: string := "\U{270F}\U{FE0F} Edit Back"
  const EditCardFront: string := "\U{270F}\U{FE0F} Edit Front"
  const EditDeck: string := "\U{270F}\U{FE0F} Edit Deck"
  const EditName: string := "\U{270F}\U{FE0F} Edit Name"
  const EditSettings: string := "\U{1F527} Settings"
  const ChangeTimeToRehearse: string := "\U{1F559} Set rehearsal time"
  const EnableScheduling: string := "\U{1F481} Enable rehearsal"
  const Help: string := "\U{1F914} Help"
  const ShowReverseOfCard: string := "\U{1F504} Show back"

  /** `ChangeLocationFormat` filled in with the current time zone. */
  function ChangeLocationLabel(zone: string): string
  {
    ChangeLocation + " (from " + zone + ")"
  }

  /** `ChangeTimeToRehearseFormat` around the formatted rehearsal time. */
  function ChangeTimeLabel(t: Clock): Button
  {
    ClockLabel(ChangeTimeToRehearse + " (from ", t, ")")
  }

  /** `CardReplyKeyboard`: the four answers in two rows, hidden after one use. */
  const CardReplyKeyboard: Markup :=
    Keyboard([[Label(Difficulty0), Label(Difficulty1)], [Label(Difficulty2), Label(Difficulty3)]], true)

  /** The recall quality an answer button stands for, as the review handlers'
      switches map them: the four difficulty labels give 0 to 3, any other text
      is no answer. */
  function Quality(text: string): (q: Option<int16>)
    ensures q.Some? ==> 0 <= q.value <= 3
    ensures q.Some? <==> text in {Difficulty0, Difficulty1, Difficulty2, Difficulty3}
  {
    if text == Difficulty0 then Some(0)
    else if text == Difficulty1 then Some(1)
    else if text == Difficulty2 then Some(2)
    else if text == Difficulty3 then Some(3)
    else None
  }

  /** Each button of the answer keyboard yields its own quality, the i-th
      button quality i. */
  lemma AnswerButtons()
    ensures Quality(Difficulty0) == Some(0) && Quality(Difficulty1) == Some(1)
    ensures Quality(Difficulty2) == Some(2) && Quality(Difficulty3) == Some(3)
    ensures forall row :: row in CardReplyKeyboard.rows ==> forall b :: b in row ==> b.Label? && Quality(b.text).Some?
  {
  }
}
