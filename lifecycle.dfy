/**
  The connection lifecycle of `SenssunScaleSensor` (sensor.py), as functions
  from the entity's fields before an operation to its fields after it.

  The entity holds at most one BLE client, an availability flag, the last
  stable weight, the idle-disconnect timers scheduled with `call_later`, and
  the retry task. Every operation is one sequential step of the event loop:
  the connect lock, the awaits inside `connect`, and the task that
  `disconnect` spawns are taken to run to completion without interleaving.
  What the BLE transport answers is an argument of the step.
 */
module Lifecycle {

  import opened Wrappers
  import Decoder

  /** What `_client` holds: nothing, or a `BleakClient` with its link and subscription status. */
  datatype Client = Absent | Present(connected: bool, notifying: bool)

  /** The three `except` branches of `connect`. */
  datatype Failure = Timeout | BleakFailure | OtherFailure

  /** How the transport answers one attempt of `connect`. */
  datatype ConnectOutcome =
    | Established                      // `connect()` and `start_notify()` both succeed
    | ConnectFailed(failure: Failure)  // `connect()` times out or raises
    | NotifyFailed(failure: Failure)   // `connect()` succeeds, then `start_notify()` raises

  /** A call made into the BLE client. */
  datatype Call = NewClient | OpenLink | StartNotify | CloseLink

  /** The fields of the entity that the lifecycle reads and writes. */
  datatype Entity = Entity(
    client: Client,
    available: bool,               // `_available`
    state: Option<int>,            // `_state`: the last stable weight in grams
    disconnectTimerPending: bool,  // the timer in `_disconnect_timer` is still scheduled
    staleTimers: nat,              // idle timers still scheduled whose handle was overwritten
    retryPending: bool,            // the task in `_retry_task` is still scheduled
    calls: seq<Call>)              // the calls made into BLE clients, oldest first

  /** The fields as `__init__` sets them. */
  function Initial(): (s: Entity)
    ensures !s.available && s.state == None && s.client == Absent
    ensures PendingTimers(s) == 0 && !s.retryPending && s.calls == []
  {
    Entity(Absent, false, None, false, 0, false, [])
  }

  /** `self._client and self._client.is_connected` */
  predicate Linked(s: Entity) {
    s.client.Present? && s.client.connected
  }

  /** How many idle-disconnect callbacks are scheduled. */
  function PendingTimers(s: Entity): nat {
    s.staleTimers + (if s.disconnectTimerPending then 1 else 0)
  }

  /** How many times `c` occurs in `calls`. */
  function Count(calls: seq<Call>, c: Call): nat {
    if calls == [] then 0
    else Count(calls[..|calls| - 1], c) + (if calls[|calls| - 1] == c then 1 else 0)
  }

  /**
    Replays the client creations and closes in `calls`: `Some(true)` when a
    client created last has not been closed, `Some(false)` when none is held,
    and `None` once a close was issued while no client was held.
   */
  function ClientHeld(calls: seq<Call>): Option<bool> {
    if calls == [] then Some(false)
    else AfterCall(ClientHeld(calls[..|calls| - 1]), calls[|calls| - 1])
  }

  /** One step of `ClientHeld`. */
  function AfterCall(held: Option<bool>, c: Call): Option<bool> {
    match held
    case None => None
    case Some(h) =>
      if c == NewClient then Some(true)
      else if c == CloseLink then (if h then Some(false) else None)
      else Some(h)
  }

  /** `ClientHeld` of a sequence with one more call. */
  lemma HeldSnoc(calls: seq<Call>, c: Call)
    ensures ClientHeld(calls + [c]) == AfterCall(ClientHeld(calls), c)
  {
    assert (calls + [c])[..|calls|] == calls;
  }

  /**
    The entity invariant: availability needs a client, a subscription needs a
    link, the reported weight is a decoded stable reading, and the calls made
    so far never closed a client twice and agree with `_client`.
   */
  predicate Valid(s: Entity) {
    && (s.available ==> s.client.Present?)
    && (s.client.Present? && s.client.notifying ==> s.client.connected)
    && (s.state.Some? ==> s.state.value % Decoder.GramsPerUnit == 0 && -3276800 <= s.state.value <= 3276700)
    && ClientHeld(s.calls) == Some(s.client.Present?)
  }

  /** `_schedule_retry`: cancel the retry task if one is scheduled and schedule a new one. */
  function ScheduleRetry(s: Entity): (t: Entity)
    ensures t.retryPending
    ensures t.(retryPending := s.retryPending) == s
  {
    s.(retryPending := true)
  }

  /**
    `connect`: return at once when a connected client exists; otherwise create
    a client, open the link and subscribe, arming an idle timer on success, or
    mark the entity unavailable and schedule a retry on any failure.
   */
  function Connect(s: Entity, outcome: ConnectOutcome): (t: Entity)
    ensures Linked(s) ==> t == s
    ensures t.calls == s.calls <==> Linked(s)
    ensures !Linked(s) && outcome.Established? ==>
      Linked(t) && t.client.notifying && t.available && t.disconnectTimerPending &&
      PendingTimers(t) == PendingTimers(s) + 1 && t.retryPending == s.retryPending
    ensures !Linked(s) && !outcome.Established? ==>
      !t.available && t.retryPending && t.client.Present? && !t.client.notifying &&
      PendingTimers(t) == PendingTimers(s)
    ensures !Linked(s) && !outcome.Established? ==>
      t.disconnectTimerPending == s.disconnectTimerPending && t.staleTimers == s.staleTimers
    ensures !Linked(s) && outcome.ConnectFailed? ==> !Linked(t)
    ensures !Linked(s) && outcome.NotifyFailed? ==> Linked(t)
    ensures t.state == s.state
    ensures Valid(s) ==> Valid(t)
  {
    if Linked(s) then s
    else
      HeldSnoc(s.calls, NewClient);
      HeldSnoc(s.calls + [NewClient], OpenLink);
      HeldSnoc(s.calls + [NewClient] + [OpenLink], StartNotify);
      var created := s.(client := Present(false, false), calls := s.calls + [NewClient] + [OpenLink]);
      match outcome
      case Established =>
        created.(client := Present(true, true), available := true, calls := created.calls + [StartNotify],
                 staleTimers := s.staleTimers + (if s.disconnectTimerPending then 1 else 0),
                 disconnectTimerPending := true)
      case ConnectFailed(_) =>
        ScheduleRetry(created.(available := false))
      case NotifyFailed(_) =>
        ScheduleRetry(created.(client := Present(true, false), available := false,
                               calls := created.calls + [StartNotify]))
  }

  /**
    `notification_handler`: a stable reading becomes the state, marks the
    entity available and replaces the timer in `_disconnect_timer` with a
    fresh one. An unstable or malformed payload makes the handler raise (in
    `round(None, 1)` or in `unpack`) before it changes anything.
   */
  function NotificationHandler(s: Entity, data: seq<Decoder.byte>): (t: Entity)
    requires s.client.Present? && s.client.notifying
    ensures Decoder.DecodeWeight(data).Stable? ==>
      t.state == Some(Decoder.DecodeWeight(data).grams) && t.available &&
      t.disconnectTimerPending && t.staleTimers == s.staleTimers &&
      t.(state := s.state, available := s.available, disconnectTimerPending := s.disconnectTimerPending) == s
    ensures !Decoder.DecodeWeight(data).Stable? ==> t == s
    ensures Valid(s) ==> Valid(t)
  {
    match Decoder.DecodeWeight(data)
    case Stable(grams) => s.(state := Some(grams), available := true, disconnectTimerPending := true)
    case _ => s
  }

  /**
    `_disconnect`: close the client if there is one; whether or not the close
    raises, and also when there is no client, end with no client and the
    entity unavailable.
   */
  function CloseConnection(s: Entity): (t: Entity)
    ensures t.client == Absent && !t.available
    ensures s.client.Absent? ==> t.calls == s.calls
    ensures s.client.Present? ==> Count(t.calls, CloseLink) == Count(s.calls, CloseLink) + 1
    ensures t.(client := s.client, available := s.available, calls := s.calls) == s
    ensures Valid(s) ==> Valid(t)
  {
    HeldSnoc(s.calls, CloseLink);
    CountAppend(s.calls, [CloseLink], CloseLink);
    var closed := if s.client.Present? then s.(calls := s.calls + [CloseLink]) else s;
    closed.(client := Absent, available := false)
  }

  /** `disconnect`: run `_disconnect` only when a connected client exists. */
  function Disconnect(s: Entity): (t: Entity)
    ensures !Linked(s) ==> t == s
    ensures Linked(s) ==> t.client == Absent && !t.available
    ensures Linked(s) ==>
      t.(client := s.client, available := s.available, calls := s.calls) == s &&
      Count(t.calls, CloseLink) == Count(s.calls, CloseLink) + 1
    ensures Valid(s) ==> Valid(t)
  {
    if Linked(s) then CloseConnection(s) else s
  }

  /**
    One idle-disconnect callback runs `disconnect`: the one whose handle is in
    `_disconnect_timer`, or, when `stale`, one whose handle was overwritten.
   */
  function IdleTimerFires(s: Entity, stale: bool): (t: Entity)
    requires if stale then s.staleTimers > 0 else s.disconnectTimerPending
    ensures PendingTimers(t) == PendingTimers(s) - 1
    ensures stale ==> t.staleTimers == s.staleTimers - 1 && t.disconnectTimerPending == s.disconnectTimerPending
    ensures !stale ==> !t.disconnectTimerPending && t.staleTimers == s.staleTimers
    ensures Linked(s) ==> t.client == Absent && !t.available
    ensures Linked(s) ==> Count(t.calls, CloseLink) == Count(s.calls, CloseLink) + 1
    ensures !Linked(s) ==> t.client == s.client && t.available == s.available && t.calls == s.calls
    ensures t.state == s.state && t.retryPending == s.retryPending
    ensures Valid(s) ==> Valid(t)
  {
    var fired := if stale then s.(staleTimers := s.staleTimers - 1) else s.(disconnectTimerPending := false);
    Disconnect(fired)
  }

  /** `async_update`: connect only when no connected client exists. */
  function AsyncUpdate(s: Entity, outcome: ConnectOutcome): (t: Entity)
    ensures Linked(s) ==> t == s
    ensures !Linked(s) ==> t == Connect(s, outcome)
    ensures Valid(s) ==> Valid(t)
  {
    if Linked(s) then s else Connect(s, outcome)
  }

  /** `_retry_connect` once its sleep is over: the retry task runs `async_update`. */
  function RetryConnect(s: Entity, outcome: ConnectOutcome): (t: Entity)
    requires s.retryPending
    ensures t.retryPending <==> !Linked(s) && !outcome.Established?
    ensures Linked(s) ==> t == s.(retryPending := false)
    ensures !Linked(s) && outcome.Established? ==> Linked(t) && t.available && t.client.notifying
    ensures !Linked(s) && !outcome.Established? ==> !t.available && t.client.Present? && !t.client.notifying
    ensures t.state == s.state
    ensures Valid(s) ==> Valid(t)
  {
    AsyncUpdate(s.(retryPending := false), outcome)
  }

  /**
    `async_will_remove_from_hass`: cancel the retry task, then `_disconnect`.
    The idle timers are not cancelled.
   */
  function WillRemoveFromHass(s: Entity): (t: Entity)
    ensures !t.retryPending && t.client == Absent && !t.available
    ensures t.state == s.state && t.disconnectTimerPending == s.disconnectTimerPending
    ensures t.staleTimers == s.staleTimers
    ensures s.client.Present? ==> Count(t.calls, CloseLink) == Count(s.calls, CloseLink) + 1
    ensures s.client.Absent? ==> t.calls == s.calls
    ensures Valid(s) ==> Valid(t)
  {
    CloseConnection(s.(retryPending := false))
  }

  /** The scale drops the link on its own: `is_connected` turns false and the subscription ends. */
  function LinkLost(s: Entity): (t: Entity)
    requires Linked(s)
    ensures !Linked(t) && t.client.Present? && t.available == s.available
    ensures Valid(s) ==> Valid(t)
  {
    s.(client := Present(false, false))
  }

  // ---------------------------------------------------------------------------
  // Runs of the event loop
  // ---------------------------------------------------------------------------

  /** The events that drive the entity. */
  datatype Event =
    | Update(outcome: ConnectOutcome)     // Home Assistant calls `async_update`
    | Notification(data: seq<Decoder.byte>)
    | TimerFires(stale: bool)
    | RetryFires(outcome: ConnectOutcome)
    | LinkDrop
    | Removal                             // `async_will_remove_from_hass`

  /** Whether `e` can happen in `s`: a callback needs its subscription, timer, task or link. */
  predicate Enabled(s: Entity, e: Event) {
    match e
    case Notification(_) => s.client.Present? && s.client.notifying
    case TimerFires(stale) => if stale then s.staleTimers > 0 else s.disconnectTimerPending
    case RetryFires(_) => s.retryPending
    case LinkDrop => Linked(s)
    case _ => true
  }

  /** The effect of one event; an event that cannot happen leaves the entity as it is. */
  function Step(s: Entity, e: Event): (t: Entity)
    ensures !Enabled(s, e) ==> t == s
    ensures Valid(s) ==> Valid(t)
  {
    if !Enabled(s, e) then s
    else
      match e
      case Update(o) => AsyncUpdate(s, o)
      case Notification(data) => NotificationHandler(s, data)
      case TimerFires(stale) => IdleTimerFires(s, stale)
      case RetryFires(o) => RetryConnect(s, o)
      case LinkDrop => LinkLost(s)
      case Removal => WillRemoveFromHass(s)
  }

  /** The entity after the events `es`, in order. */
  function Run(s: Entity, es: seq<Event>): Entity
    decreases |es|
  {
    if es == [] then s else Run(Step(s, es[0]), es[1..])
  }

  // ---------------------------------------------------------------------------
  // Properties of the lifecycle
  // ---------------------------------------------------------------------------

  /** Every event keeps the invariant, so every run does. */
  lemma {:induction false} RunKeepsValid(s: Entity, es: seq<Event>)
    requires Valid(s)
    ensures Valid(Run(s, es))
    decreases |es|
  {
    if es != [] {
      RunKeepsValid(Step(s, es[0]), es[1..]);
    }
  }

  /** Every state the entity reaches from `__init__` satisfies the invariant. */
  lemma ReachableIsValid(es: seq<Event>)
    ensures Valid(Run(Initial(), es))
  {
    RunKeepsValid(Initial(), es);
  }

  /** Occurrences in a concatenation add up. */
  lemma {:induction false} CountAppend(a: seq<Call>, b: seq<Call>, c: Call)
    ensures Count(a + b, c) == Count(a, c) + Count(b, c)
    decreases |b|
  {
    if b != [] {
      var b' := b[..|b| - 1];
      assert (a + b)[..|a + b| - 1] == a + b';
      assert (a + b)[|a + b| - 1] == b[|b| - 1];
      CountAppend(a, b', c);
      assert Count(a + b, c) == Count(a + b', c) + (if b[|b| - 1] == c then 1 else 0);
    } else {
      assert a + b == a;
    }
  }

  /**
    Two `async_update` calls in a row open the link at most once unless the
    first connect itself failed: after a successful connect, or one whose
    subscription failed, a connected client exists and the second call returns
    at once.
   */
  lemma UpdateTwiceOpensOnce(s: Entity, o1: ConnectOutcome, o2: ConnectOutcome)
    requires !o1.ConnectFailed?
    ensures var t := AsyncUpdate(AsyncUpdate(s, o1), o2);
      Count(t.calls, OpenLink) == Count(s.calls, OpenLink) + (if Linked(s) then 0 else 1)
  {
    if !Linked(s) {
      var t := AsyncUpdate(s, o1);
      var added := if o1.Established? || o1.NotifyFailed? then [NewClient, OpenLink, StartNotify] else [];
      assert t.calls == s.calls + added;
      CountAppend(s.calls, added, OpenLink);
      assert added == [NewClient, OpenLink] + [StartNotify];
      CountAppend([NewClient, OpenLink], [StartNotify], OpenLink);
      CountAppend([NewClient], [OpenLink], OpenLink);
    }
  }

  /** Removal twice is removal once: the second finds no client and closes nothing. */
  lemma RemovalIsIdempotent(s: Entity)
    ensures WillRemoveFromHass(WillRemoveFromHass(s)) == WillRemoveFromHass(s)
    ensures Count(WillRemoveFromHass(s).calls, CloseLink) <= Count(s.calls, CloseLink) + 1
  {
  }

  /** No run ever closes a client it does not hold. */
  lemma NeverClosesTwice(es: seq<Event>)
    ensures ClientHeld(Run(Initial(), es).calls).Some?
  {
    ReachableIsValid(es);
  }

  /**
    After a stable reading, with no stale timer, the one pending idle timer
    belongs to that reading; when it fires the link is closed and the entity
    becomes unavailable.
   */
  lemma IdleTimeoutAfterReading(s: Entity, data: seq<Decoder.byte>)
    requires Linked(s) && s.client.notifying && s.staleTimers == 0
    requires Decoder.DecodeWeight(data).Stable?
    ensures var t := NotificationHandler(s, data);
      PendingTimers(t) == 1 && t.disconnectTimerPending &&
      IdleTimerFires(t, false).client == Absent && !IdleTimerFires(t, false).available
  {
  }

  /**
    A connect that succeeds while an earlier idle timer is still scheduled
    overwrites its handle without cancelling it: after connecting, losing the
    link and connecting again, two idle timers are pending, and the older one
    closes the new connection when it fires.
   */
  lemma ReconnectKeepsOldTimer()
    ensures var s := Run(Initial(), [Update(Established), LinkDrop, Update(Established)]);
      Linked(s) && PendingTimers(s) == 2 && s.staleTimers == 1 &&
      Run(s, [TimerFires(true)]).client == Absent
  {
  }

  /**
    A failed subscription leaves a connected client without notifications:
    the retry finds `is_connected` true and does nothing, so the entity stays
    unavailable with no retry and no idle timer scheduled.
   */
  lemma NotifyFailureIsNotRetried(o: ConnectOutcome)
    ensures var s := Run(Initial(), [Update(NotifyFailed(BleakFailure)), RetryFires(o)]);
      Linked(s) && !s.client.notifying && !s.available && !s.retryPending && PendingTimers(s) == 0 &&
      AsyncUpdate(s, o) == s
  {
    var s1 := Step(Initial(), Update(NotifyFailed(BleakFailure)));
    assert Linked(s1) && s1.retryPending;
    var s2 := Step(s1, RetryFires(o));
    assert Run(s1, [RetryFires(o)]) == Run(s2, []);
  }
}
