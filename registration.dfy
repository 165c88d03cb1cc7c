/** The per-chat registration flow: `/subscribe`, then a location share, then
    an `HH:MM` answer, with `/unsubscribe` at any point. Each handler runs to
    completion before the next event is handled; the outcome of every store
    call is a parameter. */
module Registration {
  import opened TimeKey
  import opened Records

  /** A pending entry of `userStates`: the bare string `'awaiting_location'`
      or the object `{state: 'awaiting_time', location}`. */
  datatype Pending = AwaitingLocation | AwaitingTime(location: Location)

  datatype User = User(username: Option<string>)

  /** A Telegram chat; the Bot API gives it no `from` field. */
  datatype Chat = Chat(id: ChatId)

  /** An inbound message: its chat, its sender and its text, absent for a
      location share, a photo and the like. */
  datatype Message = Message(chat: Chat, from: Option<User>, text: Option<string>)

  /** Which reply the handler sends, if any. */
  datatype Reply =
    | NoReply
    | AlreadySubscribed(time: string)
    | AskLocation
    | AskTime
    | FormatError
    | Confirmed(time: string)
    | SaveFailed
    | Unsubscribed
    | NotSubscribed
    | UnsubscribeFailed

  predicate IsCommand(text: string) {
    |text| > 0 && text[0] == '/'
  }

  /** The early returns of the text handler: no text (an empty text is falsy
      too), a command, no pending entry, or the bare `'awaiting_location'`
      entry, which has no `.state`. */
  predicate Ignored(msg: Message, states: map<ChatId, Pending>) {
    || msg.text.None?
    || msg.text.value == ""
    || IsCommand(msg.text.value)
    || msg.chat.id !in states
    || states[msg.chat.id].AwaitingLocation?
  }

  /** `msg.from.username`, absent when there is no sender or no username. */
  function SenderName(msg: Message): Option<string> {
    if msg.from.Some? then msg.from.value.username else None
  }

  /** The record an accepted answer writes. */
  function NewRecord(chat: ChatId, username: Option<string>, location: Location, time: string): (s: Subscription)
    requires IsTimeKey(time)
    ensures s.chatId == chat && s.isActive && IsTimeKey(s.notificationTime)
    ensures s.username == username && s.location == location && s.notificationTime == time
  {
    Subscription(chat, username, location, time, true)
  }

  class Bot {
    /** The process-wide dictionary of pending flows. */
    var userStates: map<ChatId, Pending>
    /** The subscription collection. */
    var store: map<ChatId, Subscription>

    ghost predicate Valid()
      reads this
    {
      WellFormedStore(store)
    }

    predicate HasActive(chat: ChatId)
      reads this
    {
      chat in store && store[chat].isActive
    }

    /** A fresh process: no pending flows, the collection as it was left. */
    constructor (records: map<ChatId, Subscription>)
      requires WellFormedStore(records)
      ensures Valid()
      ensures userStates == map[] && store == records
    {
      userStates := map[];
      store := records;
    }

    /** `/subscribe`. `lookupFails` is the rejection of `findOne`: the
        handler has no `catch`, so it stops before any change or reply. */
    method Subscribe(chat: ChatId, lookupFails: bool) returns (reply: Reply)
      requires Valid()
      modifies this`userStates
      ensures Valid()
      ensures lookupFails ==> reply == NoReply && userStates == old(userStates)
      ensures !lookupFails && HasActive(chat) ==>
        reply == AlreadySubscribed(store[chat].notificationTime) && userStates == old(userStates)
      ensures !lookupFails && !HasActive(chat) ==>
        reply == AskLocation && userStates == old(userStates)[chat := AwaitingLocation]
    {
      if lookupFails {
        return NoReply;
      }
      if chat in store && store[chat].isActive {
        return AlreadySubscribed(store[chat].notificationTime);
      }
      userStates := userStates[chat := AwaitingLocation];
      reply := AskLocation;
    }

    /** A location share: it moves the chat on only from `AwaitingLocation`,
        capturing exactly the shared location. */
    method ShareLocation(chat: ChatId, location: Location) returns (reply: Reply)
      requires Valid()
      modifies this`userStates
      ensures Valid()
      ensures old(chat in userStates && userStates[chat] == AwaitingLocation) ==>
        reply == AskTime && userStates == old(userStates)[chat := AwaitingTime(location)]
      ensures !old(chat in userStates && userStates[chat] == AwaitingLocation) ==>
        reply == NoReply && userStates == old(userStates)
    {
      reply := NoReply;
      if chat in userStates && userStates[chat] == AwaitingLocation {
        userStates := userStates[chat := AwaitingTime(location)];
        reply := AskTime;
      }
    }

    /** A text message, with the sender taken from `msg.from`. A malformed
        answer keeps the pending entry and its location; an accepted one is
        upserted (`saveFails` is the rejection of the write) and the entry
        is dropped whatever the write's outcome. */
    method ReceiveText(msg: Message, saveFails: bool) returns (reply: Reply)
      requires Valid()
      modifies this
      ensures Valid()
      ensures old(Ignored(msg, userStates)) ==>
        reply == NoReply && userStates == old(userStates) && store == old(store)
      ensures !old(Ignored(msg, userStates)) && !IsTimeKey(msg.text.value) ==>
        reply == FormatError && userStates == old(userStates) && store == old(store)
      ensures !old(Ignored(msg, userStates)) && IsTimeKey(msg.text.value) ==>
        && userStates == old(userStates) - {msg.chat.id}
        && (saveFails ==> reply == SaveFailed && store == old(store))
        && (!saveFails ==>
              && reply == Confirmed(msg.text.value)
              && store == old(store)[msg.chat.id := NewRecord(msg.chat.id, SenderName(msg),
                                                              old(userStates)[msg.chat.id].location, msg.text.value)])
    {
      if msg.text.None? || msg.text.value == "" {
        return NoReply;
      }
      var text := msg.text.value;
      if IsCommand(text) {
        return NoReply;
      }
      var chat := msg.chat.id;
      if chat !in userStates || userStates[chat].AwaitingLocation? {
        return NoReply;
      }
      if !IsTimeKey(text) {
        return FormatError;
      }
      var location := userStates[chat].location;
      if saveFails {
        reply := SaveFailed;
      } else {
        store := store[chat := NewRecord(chat, SenderName(msg), location, text)];
        reply := Confirmed(text);
      }
      userStates := userStates - {chat};
    }

    /** The text handler as written: the username is read from
        `msg.chat.from`, which a Telegram chat does not have, so the read
        throws inside the `try` before the upsert is issued. Every accepted
        answer therefore ends in the database-error reply, with no record
        written and the pending entry dropped by the `finally`. */
    method ReceiveTextAsWritten(msg: Message) returns (reply: Reply)
      requires Valid()
      modifies this`userStates
      ensures Valid()
      ensures old(Ignored(msg, userStates)) ==> reply == NoReply && userStates == old(userStates)
      ensures !old(Ignored(msg, userStates)) && !IsTimeKey(msg.text.value) ==>
        reply == FormatError && userStates == old(userStates)
      ensures !old(Ignored(msg, userStates)) && IsTimeKey(msg.text.value) ==>
        reply == SaveFailed && userStates == old(userStates) - {msg.chat.id}
    {
      if msg.text.None? || msg.text.value == "" {
        return NoReply;
      }
      var text := msg.text.value;
      if IsCommand(text) {
        return NoReply;
      }
      var chat := msg.chat.id;
      if chat !in userStates || userStates[chat].AwaitingLocation? {
        return NoReply;
      }
      if !IsTimeKey(text) {
        return FormatError;
      }
      // `msg.chat.from` is undefined, so `.username` raises a TypeError
      reply := SaveFailed;
      userStates := userStates - {chat};
    }

    /** `/unsubscribe`: a hard delete of the chat's record, active or not.
        `deleteFails` is the rejection of `findOneAndDelete`; then nothing
        changes, the pending entry included. */
    method Unsubscribe(chat: ChatId, deleteFails: bool) returns (reply: Reply)
      requires Valid()
      modifies this
      ensures Valid()
      ensures deleteFails ==>
        reply == UnsubscribeFailed && userStates == old(userStates) && store == old(store)
      ensures !deleteFails ==>
        && store == old(store) - {chat}
        && userStates == old(userStates) - {chat}
        && (reply == Unsubscribed <==> chat in old(store))
        && (reply == NotSubscribed <==> chat !in old(store))
    {
      if deleteFails {
        return UnsubscribeFailed;
      }
      var existed := chat in store;
      store := store - {chat};
      reply := if existed then Unsubscribed else NotSubscribed;
      userStates := userStates - {chat};
    }
  }
}
