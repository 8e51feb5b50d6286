/**
 The event log of the run service and its subscribers.

 Every state change and every log line is published under the service lock: it takes the
 next event number, is retained for replay within a fixed bound, and is offered to each
 subscriber channel without ever blocking on a full one.
 */
module EventLog {
  type RunId = nat
  type JobId = int
  type Line = string

  datatype Status =
    | Queued | Running | SkippedOverlap
    | Succeeded | Failed | Killed | TimedOut | StartFailed

  predicate Terminal(s: Status) {
    match s
    case Succeeded | Failed | Killed | TimedOut | StartFailed | SkippedOverlap => true
    case _ => false
  }

  datatype Body =
    | State(run: RunId, job: JobId, status: Status, historyError: bool)
    | Log(run: RunId, status: Status, line: Line)

  datatype Event = Event(id: nat, body: Body)

  /**
   A subscriber channel: everything ever put into it, of which its reader has taken the first
   `taken` events; the rest is the channel's buffer.
   */
  datatype Subscriber = Subscriber(capacity: nat, sent: seq<Event>, taken: nat, open: bool,
                                   from: nat, dropped: bool)

  /** `log` is everything ever published; `events` is the part retained for replay. */
  datatype Hub = Hub(maxEvents: nat, eventID: nat, events: seq<Event>, subs: map<nat, Subscriber>,
                     nextSub: nat, log: seq<Event>)

  function Retain(events: seq<Event>, maxEvents: nat): seq<Event> {
    if |events| > maxEvents then events[|events| - maxEvents..] else events
  }

  /** A non-blocking send. A closed channel has left the subscriber table. */
  function Offer(s: Subscriber, e: Event): Subscriber {
    if !s.open then s
    else if |s.sent| - s.taken < s.capacity then s.(sent := s.sent + [e])
    else s.(dropped := true)
  }

  function OfferAll(subs: map<nat, Subscriber>, e: Event): map<nat, Subscriber> {
    map i | i in subs :: Offer(subs[i], e)
  }

  function Publish(h: Hub, b: Body): Hub {
    var e := Event(h.eventID + 1, b);
    h.(eventID := h.eventID + 1,
       events := Retain(h.events + [e], h.maxEvents),
       subs := OfferAll(h.subs, e),
       log := h.log + [e])
  }

  function PublishAll(h: Hub, bodies: seq<Body>): Hub
    decreases |bodies|
  {
    if bodies == [] then h else PublishAll(Publish(h, bodies[0]), bodies[1..])
  }

  function After(events: seq<Event>, cursor: nat): seq<Event> {
    if events == [] then []
    else if events[0].id > cursor then [events[0]] + After(events[1..], cursor)
    else After(events[1..], cursor)
  }

  function Min(a: int, b: int): int { if a <= b then a else b }
  function Max(a: int, b: int): int { if a >= b then a else b }

  /** `from` records how many published events precede the first one this subscriber is owed. */
  function Subscribe(h: Hub, cursor: nat): Hub {
    var replay := After(h.events, cursor);
    var sub := Subscriber(|replay| + 64, replay, 0, true,
                          Max(Min(cursor, |h.log|), |h.log| - |h.events|), false);
    h.(nextSub := h.nextSub + 1, subs := h.subs[h.nextSub + 1 := sub])
  }

  function Receive(h: Hub, i: nat): Hub
    requires i in h.subs && h.subs[i].taken < |h.subs[i].sent|
  {
    h.(subs := h.subs[i := h.subs[i].(taken := h.subs[i].taken + 1)])
  }

  function Unsubscribe(h: Hub, i: nat): Hub
    requires i in h.subs
  {
    h.(subs := h.subs[i := h.subs[i].(open := false)])
  }

  // ---------- What every reachable event log satisfies ----------

  ghost predicate Numbered(log: seq<Event>) {
    forall k | 0 <= k < |log| :: log[k].id == k + 1
  }

  /** Event numbers only grow, and each delivered event is the published one of that number. */
  ghost predicate Ordered(sent: seq<Event>, log: seq<Event>, from: nat) {
    && (forall k | 0 <= k < |sent| :: PublishedAfter(sent[k], log, from))
    && (forall k, m | 0 <= k < m < |sent| :: sent[k].id < sent[m].id)
  }

  ghost predicate PublishedAfter(e: Event, log: seq<Event>, from: nat) {
    from < e.id <= |log| && log[e.id - 1] == e
  }

  ghost predicate SubscriberSound(s: Subscriber, log: seq<Event>) {
    && s.from <= |log|
    && s.taken <= |s.sent| <= s.taken + s.capacity
    && Ordered(s.sent, log, s.from)
    && (s.open && !s.dropped ==> s.sent == log[s.from..])
  }

  ghost predicate HubInv(h: Hub) {
    && h.eventID == |h.log|
    && Numbered(h.log)
    && h.events == h.log[|h.log| - Min(|h.log|, h.maxEvents)..]
    && SubscribersSound(h.subs, h.nextSub, h.log)
  }

  ghost predicate SubscribersSound(subs: map<nat, Subscriber>, nextSub: nat, log: seq<Event>) {
    forall i | i in subs :: i <= nextSub && SubscriberSound(subs[i], log)
  }

  lemma OrderedAppend(sent: seq<Event>, log: seq<Event>, from: nat, e: Event)
    requires Ordered(sent, log, from) && from <= |log| && e.id == |log| + 1
    ensures Ordered(sent + [e], log + [e], from)
  {
    OrderedFrame(sent, log, from, e);
  }

  lemma OrderedFrame(sent: seq<Event>, log: seq<Event>, from: nat, e: Event)
    requires Ordered(sent, log, from)
    ensures Ordered(sent, log + [e], from)
  {
    forall k | 0 <= k < |sent| ensures PublishedAfter(sent[k], log + [e], from) {
      assert PublishedAfter(sent[k], log, from);
    }
  }

  lemma OfferSound(s: Subscriber, log: seq<Event>, e: Event)
    requires SubscriberSound(s, log) && e.id == |log| + 1
    ensures SubscriberSound(Offer(s, e), log + [e])
  {
    var s', log' := Offer(s, e), log + [e];
    if s.open && |s.sent| - s.taken < s.capacity {
      OrderedAppend(s.sent, log, s.from, e);
      assert log'[s.from..] == log[s.from..] + [e];
    } else {
      OrderedFrame(s.sent, log, s.from, e);
    }
  }

  lemma PublishRetains(h: Hub, e: Event)
    requires h.events == h.log[|h.log| - Min(|h.log|, h.maxEvents)..]
    ensures var log := h.log + [e];
            Retain(h.events + [e], h.maxEvents) == log[|log| - Min(|log|, h.maxEvents)..]
  {
  }

  lemma PublishKeeps(h: Hub, b: Body)
    requires HubInv(h)
    ensures HubInv(Publish(h, b))
    ensures Publish(h, b).log == h.log + [Event(|h.log| + 1, b)]
  {
    var e := Event(h.eventID + 1, b);
    var h' := Publish(h, b);
    PublishRetains(h, e);
    forall i | i in h'.subs ensures i <= h'.nextSub && SubscriberSound(h'.subs[i], h'.log) {
      OfferSound(h.subs[i], h.log, e);
    }
  }

  lemma {:induction false} PublishAllThen(h: Hub, bodies: seq<Body>, b: Body)
    ensures PublishAll(h, bodies + [b]) == Publish(PublishAll(h, bodies), b)
    decreases |bodies|
  {
    if bodies == [] {
      assert bodies + [b] == [b];
    } else {
      assert (bodies + [b])[1..] == bodies[1..] + [b];
      PublishAllThen(Publish(h, bodies[0]), bodies[1..], b);
    }
  }

  function Numbering(bodies: seq<Body>, n: nat): seq<Event> {
    seq(|bodies|, k requires 0 <= k < |bodies| => Event(n + k + 1, bodies[k]))
  }

  lemma {:induction false} PublishAllKeeps(h: Hub, bodies: seq<Body>)
    requires HubInv(h)
    ensures HubInv(PublishAll(h, bodies))
    ensures PublishAll(h, bodies).log == h.log + Numbering(bodies, |h.log|)
    ensures PublishAll(h, bodies).maxEvents == h.maxEvents
    decreases |bodies|
  {
    if bodies != [] {
      PublishKeeps(h, bodies[0]);
      PublishAllKeeps(Publish(h, bodies[0]), bodies[1..]);
    }
  }

  lemma {:induction false} AfterIsSuffix(log: seq<Event>, lo: nat, cursor: nat)
    requires Numbered(log) && lo <= |log|
    ensures After(log[lo..], cursor) == log[Max(Min(cursor, |log|), lo)..]
    decreases |log| - lo
  {
    if lo < |log| {
      assert log[lo..][0] == log[lo] && log[lo..][1..] == log[lo + 1..];
      AfterIsSuffix(log, lo + 1, cursor);
      if cursor < lo + 1 {
        assert [log[lo]] + log[lo + 1..] == log[lo..];
      }
    }
  }

  function Replaying(log: seq<Event>, from: nat): Subscriber
    requires from <= |log|
  {
    Subscriber(|log| - from + 64, log[from..], 0, true, from, false)
  }

  lemma ReplayingSound(log: seq<Event>, from: nat)
    requires Numbered(log) && from <= |log|
    ensures SubscriberSound(Replaying(log, from), log)
  {
    OrderedSuffix(log, from);
  }

  /** What a new subscriber is owed: everything after its cursor that is still retained. */
  function FirstOwed(h: Hub, cursor: nat): nat
    requires HubInv(h)
  {
    Max(Min(cursor, |h.log|), |h.log| - Min(|h.log|, h.maxEvents))
  }

  lemma SubscribeReplays(h: Hub, cursor: nat)
    requires HubInv(h)
    ensures Subscribe(h, cursor).subs == h.subs[h.nextSub + 1 := Replaying(h.log, FirstOwed(h, cursor))]
  {
    AfterIsSuffix(h.log, |h.log| - Min(|h.log|, h.maxEvents), cursor);
  }

  lemma {:induction false} AfterHas(events: seq<Event>, cursor: nat, e: Event)
    ensures e in After(events, cursor) <==> e in events && e.id > cursor
    decreases |events|
  {
    if events != [] {
      AfterHas(events[1..], cursor, e);
      assert events == [events[0]] + events[1..];
    }
  }

  /** A new subscriber starts with every retained event above its cursor, and room for 64 more. */
  lemma SubscriberStarts(h: Hub, cursor: nat, e: Event)
    ensures var h' := Subscribe(h, cursor);
            && h.nextSub + 1 in h'.subs
            && var s := h'.subs[h.nextSub + 1];
               && s.open && s.taken == 0 && s.capacity == |s.sent| + 64
               && (e in s.sent <==> e in h.events && e.id > cursor)
  {
    AfterHas(h.events, cursor, e);
  }

  lemma AddSubscriber(subs: map<nat, Subscriber>, nextSub: nat, log: seq<Event>, s: Subscriber)
    requires SubscribersSound(subs, nextSub, log) && SubscriberSound(s, log)
    ensures SubscribersSound(subs[nextSub + 1 := s], nextSub + 1, log)
  {
  }

  lemma SubscribeKeeps(h: Hub, cursor: nat)
    requires HubInv(h)
    ensures HubInv(Subscribe(h, cursor))
  {
    SubscribeReplays(h, cursor);
    var new_ := Replaying(h.log, FirstOwed(h, cursor));
    ReplayingSound(h.log, FirstOwed(h, cursor));
    AddSubscriber(h.subs, h.nextSub, h.log, new_);
  }

  lemma OrderedSuffix(log: seq<Event>, from: nat)
    requires Numbered(log) && from <= |log|
    ensures Ordered(log[from..], log, from)
  {
    forall k | 0 <= k < |log[from..]| ensures log[from..][k].id == from + k + 1 {
      assert log[from..][k] == log[from + k];
    }
  }

  lemma ReceiveKeeps(h: Hub, i: nat)
    requires HubInv(h) && i in h.subs && h.subs[i].taken < |h.subs[i].sent|
    ensures HubInv(Receive(h, i))
  {
  }

  /** An event is missed only by a channel that was full when it was published. */
  lemma PublishDelivers(h: Hub, b: Body, i: nat)
    requires HubInv(h) && i in h.subs && h.subs[i].open
    ensures var s, s' := h.subs[i], Publish(h, b).subs[i];
            if |s.sent| - s.taken < s.capacity
            then s'.dropped == s.dropped && s'.sent == s.sent + [Event(|h.log| + 1, b)]
            else s'.dropped && s'.sent == s.sent
  {
  }
}
