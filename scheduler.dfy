/** The minute tick: select the active records whose time is the current
    key, then send each of them, one after the other, its forecast or a
    fallback notice. The tick only reads the collection, so it receives it as
    a value; the weather fetch and the sends are given as per-chat outcomes. */
module Scheduler {
  import opened Records
  import opened WeatherText

  /** The parts of the provider's answer the message uses: the city name and
      the `weather` list, whose first entry's description is shown. */
  datatype Weather = Weather(city: string, conditions: seq<string>)

  /** What happens to one due chat: the fetch (absent on any failure, the
      missing API key included), whether the forecast send succeeds and
      whether the fallback send succeeds. */
  datatype Attempt = Attempt(fetched: Option<Weather>, forecastSent: bool, fallbackSent: bool)

  /** A message delivered by the tick. */
  datatype Delivery =
    | Forecast(chatId: ChatId, city: string, headline: string)
    | Fallback(chatId: ChatId)

  datatype TickEnd = Completed | QueryFailed | AbortedAt(chatId: ChatId)

  datatype TickResult = TickResult(sent: seq<Delivery>, end: TickEnd)

  /** The query filter `{notificationTime: nowKey, isActive: true}`. */
  predicate IsDue(s: Subscription, nowKey: string) {
    s.notificationTime == nowKey && s.isActive
  }

  /** A forecast can be built and sent: the fetch succeeded, the `weather`
      list has a first entry (otherwise `weather[0].description` throws) and
      the send succeeded. */
  predicate ForecastGoesOut(a: Attempt) {
    a.fetched.Some? && |a.fetched.value.conditions| > 0 && a.forecastSent
  }

  /** One pass of the loop body: the forecast, else the fallback, else
      nothing, because a failing fallback send escapes the inner `catch`. */
  function AttemptOne(s: Subscription, a: Attempt): (d: Option<Delivery>)
    ensures d.Some? ==> d.value.chatId == s.chatId
    ensures d.Some? && d.value.Forecast? <==> ForecastGoesOut(a)
    ensures d.Some? && d.value.Fallback? <==> !ForecastGoesOut(a) && a.fallbackSent
    ensures d.Some? && d.value.Forecast? ==>
      d.value.city == a.fetched.value.city && d.value.headline == Capitalise(a.fetched.value.conditions[0])
  {
    if ForecastGoesOut(a) then
      var w := a.fetched.value;
      Some(Forecast(s.chatId, w.city, Capitalise(w.conditions[0])))
    else if a.fallbackSent then
      Some(Fallback(s.chatId))
    else
      None
  }

  /** The records the query returns, in the collection's order `order`. */
  function Due(store: map<ChatId, Subscription>, order: seq<ChatId>, nowKey: string): (due: seq<Subscription>)
    requires WellFormedStore(store)
    ensures |due| <= |order|
    ensures forall i :: 0 <= i < |due| ==>
      due[i].chatId in order && due[i].chatId in store && store[due[i].chatId] == due[i] && IsDue(due[i], nowKey)
    ensures forall c :: c in order && c in store && IsDue(store[c], nowKey) ==> store[c] in due
    decreases |order|
  {
    if order == [] then []
    else
      var c := order[0];
      var rest := Due(store, order[1..], nowKey);
      if c in store && IsDue(store[c], nowKey) then [store[c]] + rest else rest
  }

  predicate Distinct(order: seq<ChatId>) {
    forall i, j :: 0 <= i < j < |order| ==> order[i] != order[j]
  }

  /** The collection's order lists every key once. */
  predicate Enumerates(order: seq<ChatId>, store: map<ChatId, Subscription>) {
    && Distinct(order)
    && (forall c :: c in store ==> c in order)
    && (forall i :: 0 <= i < |order| ==> order[i] in store)
  }

  /** Over an order that lists each key once, the query returns every due
      record exactly once and nothing else. */
  lemma {:induction false} DueSelectsExactly(store: map<ChatId, Subscription>, order: seq<ChatId>, nowKey: string)
    requires WellFormedStore(store) && Enumerates(order, store)
    ensures forall c :: (exists i :: 0 <= i < |Due(store, order, nowKey)| && Due(store, order, nowKey)[i].chatId == c)
                          <==> c in store && IsDue(store[c], nowKey)
    ensures forall i, j :: 0 <= i < j < |Due(store, order, nowKey)| ==>
      Due(store, order, nowKey)[i].chatId != Due(store, order, nowKey)[j].chatId
  {
    var due := Due(store, order, nowKey);
    forall c
      ensures (exists i :: 0 <= i < |due| && due[i].chatId == c) <==> c in store && IsDue(store[c], nowKey)
    {
      if c in store && IsDue(store[c], nowKey) {
        assert store[c] in due;
        var i :| 0 <= i < |due| && due[i] == store[c];
        assert due[i].chatId == c;
      }
      if exists i :: 0 <= i < |due| && due[i].chatId == c {
        var i :| 0 <= i < |due| && due[i].chatId == c;
        assert store[c] == due[i];
      }
    }
    DueDistinct(store, order, nowKey);
  }

  lemma {:induction false} DueDistinct(store: map<ChatId, Subscription>, order: seq<ChatId>, nowKey: string)
    requires WellFormedStore(store) && Distinct(order)
    ensures forall i, j :: 0 <= i < j < |Due(store, order, nowKey)| ==>
      Due(store, order, nowKey)[i].chatId != Due(store, order, nowKey)[j].chatId
    decreases |order|
  {
    if order != [] {
      var rest := order[1..];
      assert Distinct(rest) by {
        forall i, j | 0 <= i < j < |rest| ensures rest[i] != rest[j] {
          assert rest[i] == order[i + 1] && rest[j] == order[j + 1];
        }
      }
      DueDistinct(store, rest, nowKey);
      var tail := Due(store, rest, nowKey);
      forall i | 0 <= i < |tail| ensures tail[i].chatId != order[0] {
        var k :| 0 <= k < |rest| && rest[k] == tail[i].chatId;
        assert order[k + 1] == rest[k];
      }
    }
  }

  /** The delivery loop over the selected records, from the `k`-th one on:
      one message per record in order, until a record gets none. */
  function Deliver(due: seq<Subscription>, k: nat, attempts: ChatId -> Attempt): (r: TickResult)
    requires k <= |due|
    ensures r.end != QueryFailed
    ensures |r.sent| <= |due| - k
    ensures forall i :: 0 <= i < |r.sent| ==> AttemptOne(due[k + i], attempts(due[k + i].chatId)) == Some(r.sent[i])
    ensures r.end == Completed <==> |r.sent| == |due| - k
    ensures r.end.AbortedAt? ==>
      && r.end.chatId == due[k + |r.sent|].chatId
      && AttemptOne(due[k + |r.sent|], attempts(due[k + |r.sent|].chatId)) == None
    decreases |due| - k
  {
    if k == |due| then TickResult([], Completed)
    else
      match AttemptOne(due[k], attempts(due[k].chatId))
      case None => TickResult([], AbortedAt(due[k].chatId))
      case Some(d) =>
        var rest := Deliver(due, k + 1, attempts);
        TickResult([d] + rest.sent, rest.end)
  }

  /** When every fallback send succeeds, no failure stops the tick: each due
      record gets exactly one message, its forecast or the fallback. */
  lemma DeliverReachesAll(due: seq<Subscription>, attempts: ChatId -> Attempt)
    requires forall i :: 0 <= i < |due| ==> attempts(due[i].chatId).fallbackSent
    ensures Deliver(due, 0, attempts).end == Completed
    ensures |Deliver(due, 0, attempts).sent| == |due|
  {
  }

  /** A failed fetch costs that chat its forecast only: it gets exactly the
      fallback notice, and the later records are still served. */
  lemma FetchFailureGetsFallback(due: seq<Subscription>, attempts: ChatId -> Attempt, j: nat)
    requires forall i :: 0 <= i < |due| ==> attempts(due[i].chatId).fallbackSent
    requires j < |due| && attempts(due[j].chatId).fetched.None?
    ensures |Deliver(due, 0, attempts).sent| == |due|
    ensures Deliver(due, 0, attempts).sent[j] == Fallback(due[j].chatId)
  {
  }

  /** The tick writes only to chats whose stored record is due now. */
  lemma TickSendsOnlyToDue(store: map<ChatId, Subscription>, order: seq<ChatId>, nowKey: string,
                           attempts: ChatId -> Attempt)
    requires WellFormedStore(store)
    ensures var sent := Deliver(Due(store, order, nowKey), 0, attempts).sent;
      forall i :: 0 <= i < |sent| ==> sent[i].chatId in store && IsDue(store[sent[i].chatId], nowKey)
  {
  }

  /** Over an order that lists each key once, no chat gets two messages in
      one tick. */
  lemma {:induction false} TickSendsOncePerChat(store: map<ChatId, Subscription>, order: seq<ChatId>, nowKey: string,
                                                attempts: ChatId -> Attempt)
    requires WellFormedStore(store) && Distinct(order)
    ensures var sent := Deliver(Due(store, order, nowKey), 0, attempts).sent;
      forall i, j :: 0 <= i < j < |sent| ==> sent[i].chatId != sent[j].chatId
  {
    var due := Due(store, order, nowKey);
    var sent := Deliver(due, 0, attempts).sent;
    DueDistinct(store, order, nowKey);
    forall i, j | 0 <= i < j < |sent| ensures sent[i].chatId != sent[j].chatId {
      assert AttemptOne(due[i], attempts(due[i].chatId)) == Some(sent[i]);
      assert AttemptOne(due[j], attempts(due[j].chatId)) == Some(sent[j]);
    }
  }

  /** The deliveries of the earlier iterations followed by the rest. */
  function Prepend(sent: seq<Delivery>, r: TickResult): TickResult {
    TickResult(sent + r.sent, r.end)
  }

  lemma PrependTwice(s: seq<Delivery>, t: seq<Delivery>, r: TickResult)
    ensures Prepend(s, Prepend(t, r)) == Prepend(s + t, r)
  {
  }

  /** The cron callback for the minute `nowKey`. `queryFails` is the
      rejection of the query, caught by the outer `catch`. */
  method Tick(store: map<ChatId, Subscription>, order: seq<ChatId>, nowKey: string, queryFails: bool,
              attempts: ChatId -> Attempt) returns (r: TickResult)
    requires WellFormedStore(store)
    ensures queryFails ==> r == TickResult([], QueryFailed)
    ensures !queryFails ==> r == Deliver(Due(store, order, nowKey), 0, attempts)
  {
    if queryFails {
      return TickResult([], QueryFailed);
    }
    var subs := Due(store, order, nowKey);
    if |subs| == 0 {
      return TickResult([], Completed);
    }
    var sent: seq<Delivery> := [];
    var i := 0;
    while i < |subs|
      invariant 0 <= i <= |subs|
      invariant Deliver(subs, 0, attempts) == Prepend(sent, Deliver(subs, i, attempts))
    {
      var sub := subs[i];
      var d := AttemptOne(sub, attempts(sub.chatId));
      if d.None? {
        return TickResult(sent, AbortedAt(sub.chatId));
      }
      PrependTwice(sent, [d.value], Deliver(subs, i + 1, attempts));
      sent := sent + [d.value];
      i := i + 1;
    }
    r := TickResult(sent, Completed);
  }
}
