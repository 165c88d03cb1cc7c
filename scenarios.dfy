/** Conversations of several events against one fresh process, and a
    conversation followed by the tick: what the handlers' contracts promise
    together. */
module Scenarios {
  import opened TimeKey
  import opened Records
  import opened WeatherText
  import opened Registration
  import opened Scheduler

  /** `/subscribe`, a location share, then a valid `HH:MM`: three replies
      (two prompts and the confirmation) and exactly one record written,
      active, with that location and time; every other chat's record is kept. */
  method RegisterFlow(records: map<ChatId, Subscription>, chat: ChatId, from: User, location: Location, time: string)
    returns (replies: seq<Reply>, after: map<ChatId, Subscription>)
    requires WellFormedStore(records)
    requires !(chat in records && records[chat].isActive)
    requires IsTimeKey(time)
    ensures replies == [AskLocation, AskTime, Confirmed(time)]
    ensures after == records[chat := Subscription(chat, from.username, location, time, true)]
    ensures WellFormedStore(after)
  {
    var bot := new Bot(records);
    var r1 := bot.Subscribe(chat, false);
    var r2 := bot.ShareLocation(chat, location);
    var r3 := bot.ReceiveText(Message(Chat(chat), Some(from), Some(time)), false);
    replies := [r1, r2, r3];
    after := bot.store;
  }

  /** The same conversation against the handler as written: the answer is
      accepted, yet the reply is the database error and nothing is stored. */
  method RegisterFlowAsWritten(records: map<ChatId, Subscription>, chat: ChatId, from: User, location: Location, time: string)
    returns (replies: seq<Reply>, after: map<ChatId, Subscription>, pending: bool)
    requires WellFormedStore(records)
    requires !(chat in records && records[chat].isActive)
    requires IsTimeKey(time)
    ensures replies == [AskLocation, AskTime, SaveFailed]
    ensures after == records && !pending
  {
    var bot := new Bot(records);
    var r1 := bot.Subscribe(chat, false);
    var r2 := bot.ShareLocation(chat, location);
    var r3 := bot.ReceiveTextAsWritten(Message(Chat(chat), Some(from), Some(time)));
    replies := [r1, r2, r3];
    after := bot.store;
    pending := chat in bot.userStates;
  }

  /** A second `/subscribe` after a completed registration reports the
      stored time and changes nothing. */
  method SubscribeTwice(records: map<ChatId, Subscription>, chat: ChatId, from: User, location: Location, time: string)
    returns (reply: Reply, after: map<ChatId, Subscription>, pending: bool)
    requires WellFormedStore(records)
    requires !(chat in records && records[chat].isActive)
    requires IsTimeKey(time)
    ensures reply == AlreadySubscribed(time)
    ensures after == records[chat := Subscription(chat, from.username, location, time, true)]
    ensures !pending
  {
    var bot := new Bot(records);
    var _ := bot.Subscribe(chat, false);
    var _ := bot.ShareLocation(chat, location);
    var _ := bot.ReceiveText(Message(Chat(chat), Some(from), Some(time)), false);
    reply := bot.Subscribe(chat, false);
    after := bot.store;
    pending := chat in bot.userStates;
  }

  /** A malformed answer does not lose the captured location: a valid
      answer sent afterwards stores the location shared before it. */
  method RetryAfterMalformed(records: map<ChatId, Subscription>, chat: ChatId, from: User, location: Location,
                             bad: string, time: string)
    returns (replies: seq<Reply>, after: map<ChatId, Subscription>)
    requires WellFormedStore(records)
    requires !(chat in records && records[chat].isActive)
    requires bad != "" && !IsCommand(bad) && !IsTimeKey(bad)
    requires IsTimeKey(time)
    ensures replies == [AskLocation, AskTime, FormatError, Confirmed(time)]
    ensures after == records[chat := Subscription(chat, from.username, location, time, true)]
  {
    var bot := new Bot(records);
    var r1 := bot.Subscribe(chat, false);
    var r2 := bot.ShareLocation(chat, location);
    var r3 := bot.ReceiveText(Message(Chat(chat), Some(from), Some(bad)), false);
    var r4 := bot.ReceiveText(Message(Chat(chat), Some(from), Some(time)), false);
    replies := [r1, r2, r3, r4];
    after := bot.store;
  }

  /** A flow abandoned after the location share is not stuck: `/subscribe`
      restarts it, a second location share replaces the first, and the
      record carries the second location. */
  method RestartAbandonedFlow(records: map<ChatId, Subscription>, chat: ChatId, from: User,
                              first: Location, second: Location, time: string)
    returns (replies: seq<Reply>, after: map<ChatId, Subscription>)
    requires WellFormedStore(records)
    requires !(chat in records && records[chat].isActive)
    requires IsTimeKey(time)
    ensures replies == [AskLocation, AskTime, AskLocation, AskTime, Confirmed(time)]
    ensures after == records[chat := Subscription(chat, from.username, second, time, true)]
  {
    var bot := new Bot(records);
    var r1 := bot.Subscribe(chat, false);
    var r2 := bot.ShareLocation(chat, first);
    var r3 := bot.Subscribe(chat, false);
    var r4 := bot.ShareLocation(chat, second);
    var r5 := bot.ReceiveText(Message(Chat(chat), Some(from), Some(time)), false);
    replies := [r1, r2, r3, r4, r5];
    after := bot.store;
  }

  /** After a registration, the tick at the registered minute delivers the
      chat its forecast, with the capitalised description, when the fetch
      and the send succeed and no fallback send fails. */
  method RegisterThenTick(records: map<ChatId, Subscription>, chat: ChatId, from: User, location: Location,
                          time: string, order: seq<ChatId>, weather: Weather, attempts: ChatId -> Attempt)
    returns (r: TickResult)
    requires WellFormedStore(records)
    requires !(chat in records && records[chat].isActive)
    requires IsTimeKey(time)
    requires chat in order
    requires |weather.conditions| > 0
    requires attempts(chat) == Attempt(Some(weather), true, true)
    requires forall c :: attempts(c).fallbackSent
    ensures r.end == Completed
    ensures exists j :: 0 <= j < |r.sent| && r.sent[j] == Forecast(chat, weather.city, Capitalise(weather.conditions[0]))
  {
    var _, store := RegisterFlow(records, chat, from, location, time);
    r := Tick(store, order, time, false, attempts);
    var due := Due(store, order, time);
    DeliverReachesAll(due, attempts);
    assert store[chat] in due;
    var j :| 0 <= j < |due| && due[j] == store[chat];
    assert r.sent[j] == Forecast(chat, weather.city, Capitalise(weather.conditions[0]));
  }
}
