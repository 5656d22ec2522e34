/** The bot's persistent state and one full turn (chat.go `HandleMessage`
    with user.go `WithUser`): load the sender's row, creating it on first
    contact, run the turn in a transaction, and commit the transaction only if
    the turn succeeded. An error rolls everything back, including a row just
    created, and is sent to the chat as text; a panic sends nothing more. */
module Service {
  import opened Prelude
  import opened Messages
  import opened States
  import opened Store
  import opened Session
  import opened Users
  import opened Present
  import opened Chat

  class Bot {
    var users: map<int, User>
    var tables: Tables
    var sent: seq<Output>

    /** Every user row is stored under its id; the tables are well formed and
        no user has two decks of one name. */
    predicate Valid()
      reads this
    {
      && Store.Valid(tables) && NamesUnique(tables)
      && forall id :: id in users ==> users[id].id == id
    }

    constructor ()
      ensures Valid() && users == map[] && tables == NoTables && sent == []
    {
      users := map[];
      tables := NoTables;
      sent := [];
      NoTablesValid();
    }

    /** The user row a turn for `id` starts from. */
    function Loaded(id: int): (u: User)
      reads this
      ensures id in users ==> u == users[id]
      ensures id !in users ==> u == NewUser(id)
    {
      if id in users then users[id] else NewUser(id)
    }

    /** `HandleMessage`: one turn for the sender of `msg`. The sends made
        during the turn stay sent whatever its outcome. */
    method HandleMessage(msg: Incoming, env: Env) returns (outcome: Result<()>)
      requires Valid()
      modifies this
      ensures Valid()
      ensures Extends(old(sent), sent)
      ensures outcome.Ok? ==>
        && msg.from in users && users == old(users)[msg.from := users[msg.from]]
      ensures outcome.Err? ==> users == old(users) && tables == old(tables)
      ensures outcome.Err? && !outcome.error.Panic? ==> |sent| > 0 && sent[|sent| - 1] == Said(ErrorText(outcome.error))
      ensures HasPrefix(msg.text, "/decks") ==>
        outcome.Ok? && users[msg.from] == Moved(old(Loaded(msg.from)), DeckList, None) && tables == old(tables)
      ensures !HasPrefix(msg.text, "/decks") && !HasPrefix(msg.text, "/help") && HasPrefix(msg.text, "/start") ==>
        outcome.Ok? && users[msg.from] == Moved(old(Loaded(msg.from)), UserSetup, None) && tables == old(tables)
      ensures !HasPrefix(msg.text, "/decks") && !HasPrefix(msg.text, "/help") && !HasPrefix(msg.text, "/start")
              && HasPrefix(msg.text, "/settings") ==>
        outcome.Ok? && users[msg.from] == Moved(old(Loaded(msg.from)), Settings, None) && tables == old(tables)
    {
      var user := Loaded(msg.from);
      var data := Decode(user.data);
      var c := new Context(user, tables, Some(data), env);
      outcome := Chat.HandleMessage(c, msg, data);
      sent := sent + c.out;
      if outcome.Ok? {
        users := users[msg.from := c.user];
        tables := c.tables;
      } else if !outcome.error.Panic? {
        sent := sent + [Said(ErrorText(outcome.error))];
      }
    }
  }
}
