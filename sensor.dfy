/**
  `SenssunScaleSensor`: the entity object of sensor.py, whose methods update
  its fields in place. Each method is proved to move the fields exactly as the
  matching function of `Lifecycle` says, and to keep `Lifecycle.Valid`.
 */
module Sensor {

  import opened Wrappers
  import Decoder
  import Lifecycle

  class SenssunScaleSensor {
    /** `_client`: no client, or a BLE client with its link and subscription status. */
    var client: Lifecycle.Client
    /** `_available` */
    var available: bool
    /** `_state`: the last stable weight in grams. */
    var state: Option<int>
    /** The idle-disconnect timer held in `_disconnect_timer` is still scheduled. */
    var disconnectTimerPending: bool
    /** Idle-disconnect timers still scheduled whose handle was overwritten. */
    var staleTimers: nat
    /** The task held in `_retry_task` is still scheduled. */
    var retryPending: bool
    /** The calls made into BLE clients, oldest first. */
    var calls: seq<Lifecycle.Call>

    /** The fields as one value. */
    function Snapshot(): Lifecycle.Entity
      reads this
    {
      Lifecycle.Entity(client, available, state, disconnectTimerPending, staleTimers, retryPending, calls)
    }

    ghost predicate Valid()
      reads this
    {
      Lifecycle.Valid(Snapshot())
    }

    /** `__init__` */
    constructor ()
      ensures Valid() && Snapshot() == Lifecycle.Initial()
    {
      client := Lifecycle.Absent;
      available := false;
      state := None;
      disconnectTimerPending := false;
      staleTimers := 0;
      retryPending := false;
      calls := [];
    }

    /** `_schedule_retry` */
    method ScheduleRetry()
      modifies this
      ensures Snapshot() == Lifecycle.ScheduleRetry(old(Snapshot()))
      ensures Valid() <==> old(Valid())
    {
      if retryPending {
        retryPending := false;  // `self._retry_task.cancel()`
      }
      retryPending := true;
    }

    /** `connect`, with the transport's answer to this attempt as `outcome`. */
    method Connect(outcome: Lifecycle.ConnectOutcome)
      requires Valid()
      modifies this
      ensures Snapshot() == Lifecycle.Connect(old(Snapshot()), outcome)
      ensures Valid()
    {
      if client.Present? && client.connected {
        return;
      }
      client := Lifecycle.Present(false, false);
      calls := calls + [Lifecycle.NewClient];
      calls := calls + [Lifecycle.OpenLink];
      if outcome.ConnectFailed? {
        // all three `except` branches do the same
        available := false;
        ScheduleRetry();
        return;
      }
      client := Lifecycle.Present(true, false);
      available := true;
      calls := calls + [Lifecycle.StartNotify];
      if outcome.NotifyFailed? {
        available := false;
        ScheduleRetry();
        return;
      }
      client := Lifecycle.Present(true, true);
      if disconnectTimerPending {
        // the handle is overwritten; the timer it held stays scheduled
        staleTimers := staleTimers + 1;
      }
      disconnectTimerPending := true;
    }

    /** `notification_handler`, called by the client for each notification. */
    method NotificationHandler(data: seq<Decoder.byte>)
      requires Valid() && client.Present? && client.notifying
      modifies this
      ensures Snapshot() == Lifecycle.NotificationHandler(old(Snapshot()), data)
      ensures Valid()
    {
      var weight := Decoder.DecodeWeight(data);
      if !weight.Stable? {
        // `unpack` or `round(None, 1)` raises: the handler stops here
        return;
      }
      state := Some(weight.grams);
      available := true;
      if disconnectTimerPending {
        disconnectTimerPending := false;  // `self._disconnect_timer.cancel()`
      }
      disconnectTimerPending := true;
    }

    /** `_disconnect`: a failing close is caught, and the `finally` block always runs. */
    method CloseConnection()
      requires Valid()
      modifies this
      ensures Snapshot() == Lifecycle.CloseConnection(old(Snapshot()))
      ensures Valid()
    {
      if client.Present? {
        // with no client, `self._client.disconnect()` raises before any call is made
        calls := calls + [Lifecycle.CloseLink];
      }
      client := Lifecycle.Absent;
      available := false;
    }

    /** `disconnect`: the task it spawns is run to completion at once. */
    method Disconnect()
      requires Valid()
      modifies this
      ensures Snapshot() == Lifecycle.Disconnect(old(Snapshot()))
      ensures Valid()
    {
      if client.Present? && client.connected {
        CloseConnection();
      }
    }

    /** An idle-disconnect callback runs `disconnect`; `stale` picks one whose handle was overwritten. */
    method IdleTimerFires(stale: bool)
      requires Valid()
      requires if stale then staleTimers > 0 else disconnectTimerPending
      modifies this
      ensures Snapshot() == Lifecycle.IdleTimerFires(old(Snapshot()), stale)
      ensures Valid()
    {
      if stale {
        staleTimers := staleTimers - 1;
      } else {
        disconnectTimerPending := false;
      }
      Disconnect();
    }

    /** `async_update` */
    method AsyncUpdate(outcome: Lifecycle.ConnectOutcome)
      requires Valid()
      modifies this
      ensures Snapshot() == Lifecycle.AsyncUpdate(old(Snapshot()), outcome)
      ensures Valid()
    {
      if !client.Present? || !client.connected {
        Connect(outcome);
      }
    }

    /** `_retry_connect` after its sleep: the scheduled retry task runs `async_update`. */
    method RetryConnect(outcome: Lifecycle.ConnectOutcome)
      requires Valid() && retryPending
      modifies this
      ensures Snapshot() == Lifecycle.RetryConnect(old(Snapshot()), outcome)
      ensures Valid()
    {
      retryPending := false;
      AsyncUpdate(outcome);
    }

    /** `async_will_remove_from_hass` */
    method WillRemoveFromHass()
      requires Valid()
      modifies this
      ensures Snapshot() == Lifecycle.WillRemoveFromHass(old(Snapshot()))
      ensures Valid()
    {
      if retryPending {
        retryPending := false;  // `self._retry_task.cancel()`
      }
      CloseConnection();
    }

    /** The scale drops the link: `is_connected` turns false and notifications stop. */
    method LinkLost()
      requires Valid() && client.Present? && client.connected
      modifies this
      ensures Snapshot() == Lifecycle.LinkLost(old(Snapshot()))
      ensures Valid()
    {
      client := Lifecycle.Present(false, false);
    }
  }
}
