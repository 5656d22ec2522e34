/** One turn of the conversation (context.go and the transaction of user.go):
    the user row and the tables as the turn's transaction sees them, the
    payload the turn works with, and the log of everything sent to the chat.
    What the bot learns from outside its database comes in through `Env`. */
module Session {
  import opened Prelude
  import opened Messages
  import opened States
  import opened Store

  /** A time zone as the geocoding service names it. */
  datatype Zone = Zone(id: string, name: string)

  /** The outside world, fixed for one turn: the current day in a given time
      zone (`date_in_time_zone`), whether a text names a time zone
      (`time.LoadLocation`), the clock-time parser (`time.Parse("15:04", ·)`)
      and the geocoding lookup of the time zone at a location. */
  datatype Env = Env(
    dayIn: string -> int,
    loadLocation: string -> bool,
    parseClock: string -> Option<Clock>,
    timezoneAt: Location -> Result<Zone>)

  /** `Context`: the user, the transaction and the payload of the running
      turn, plus the messages the turn has sent. */
  class Context {
    var user: User
    var tables: Tables
    var data: Option<Data>
    var out: seq<Output>
    const env: Env

    constructor (user: User, tables: Tables, data: Option<Data>, env: Env)
      ensures this.user == user && this.tables == tables && this.data == data
      ensures this.env == env && out == []
    {
      this.user := user;
      this.tables := tables;
      this.data := data;
      this.env := env;
      out := [];
    }

    /** Today's day number in the user's time zone. */
    function Today(): int
      reads this`user
    {
      env.dayIn(user.timeZone)
    }

    /** `reply`: send a plain text without a keyboard. */
    method Reply(text: string)
      modifies this`out
      ensures out == old(out) + [Output(Say(text), NoMarkup)]
    {
      out := out + [Output(Say(text), NoMarkup)];
    }

    /** `Send`: send one prepared message. */
    method Send(o: Output)
      modifies this`out
      ensures out == old(out) + [o]
    {
      out := out + [o];
    }
  }
}
