/** The subscription record kept in the document collection, one per chat. */
module Records {
  import opened TimeKey

  /** Telegram chat identifier, the record's unique key. */
  type ChatId = int

  datatype Option<T> = None | Some(value: T)

  /** Coordinates of a location share; only copied, never computed with. */
  datatype Location = Location(latitude: real, longitude: real)

  datatype Subscription = Subscription(
    chatId: ChatId,
    username: Option<string>,
    location: Location,
    notificationTime: string,
    isActive: bool)

  /** The collection keyed by chat: the key is the record's own chat id and
      every stored time passed the `HH:MM` validator. */
  predicate WellFormedStore(store: map<ChatId, Subscription>) {
    forall c :: c in store ==> store[c].chatId == c && IsTimeKey(store[c].notificationTime)
  }
}
