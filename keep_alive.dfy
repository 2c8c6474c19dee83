/** The mobile keep-alive service: while active it holds a 30-second ping
    interval and a subscription to app-state changes. */
module KeepAlive {
  import opened Wrappers

  const PingPeriodMs: nat := 30000

  class KeepAliveService {
    /** The armed ping interval's period, `None` when cleared. */
    var keepAliveInterval: Option<nat>
    var isActive: bool
    var appStateSubscribed: bool
    /** Keep-alive pings made so far (each one a log line in the app). */
    var pings: nat
    /** Battery-optimisation prompts scheduled so far. */
    var batteryPrompts: nat

    /** Active exactly when the ping interval is armed and the app-state
        subscription is held. */
    ghost predicate Valid()
      reads this
    {
      && (isActive <==> keepAliveInterval.Some?)
      && (isActive <==> appStateSubscribed)
      && (keepAliveInterval.Some? ==> keepAliveInterval.value == PingPeriodMs)
    }

    constructor ()
      ensures Valid() && !isActive && keepAliveInterval == None && !appStateSubscribed
      ensures pings == 0 && batteryPrompts == 0
    {
      keepAliveInterval, isActive, appStateSubscribed := None, false, false;
      pings, batteryPrompts := 0, 0;
    }

    /** `start`: a no-op when already active; otherwise subscribes to
        app-state changes, arms the 30 000 ms ping and schedules the
        battery prompt. */
    method Start()
      requires Valid()
      modifies this
      ensures Valid()
      ensures isActive && keepAliveInterval == Some(PingPeriodMs) && appStateSubscribed
      ensures old(isActive) ==> unchanged(this)
      ensures !old(isActive) ==> batteryPrompts == old(batteryPrompts) + 1 && pings == old(pings)
    {
      if isActive {
        return;
      }
      isActive := true;
      appStateSubscribed := true;
      keepAliveInterval := Some(PingPeriodMs);
      batteryPrompts := batteryPrompts + 1;
    }

    /** `stop`: a no-op when inactive; otherwise clears the interval and
        removes the subscription. */
    method Stop()
      requires Valid()
      modifies this
      ensures Valid()
      ensures !isActive && keepAliveInterval == None && !appStateSubscribed
      ensures !old(isActive) ==> unchanged(this)
      ensures pings == old(pings) && batteryPrompts == old(batteryPrompts)
    {
      if !isActive {
        return;
      }
      isActive := false;
      if keepAliveInterval.Some? {
        keepAliveInterval := None;
      }
      if appStateSubscribed {
        appStateSubscribed := false;
      }
    }

    /** `keepAlive`, what each interval firing runs: a ping only while active. */
    method KeepAlive()
      requires Valid()
      modifies this
      ensures Valid()
      ensures pings == if old(isActive) then old(pings) + 1 else old(pings)
      ensures isActive == old(isActive) && keepAliveInterval == old(keepAliveInterval)
      ensures appStateSubscribed == old(appStateSubscribed) && batteryPrompts == old(batteryPrompts)
    {
      if !isActive {
        return;
      }
      pings := pings + 1;
    }

    /** `handleAppStateChange`: moving to the background pings at once, but
        only while active. */
    method HandleAppStateChange(nextAppState: string)
      requires Valid()
      modifies this
      ensures Valid()
      ensures pings == if nextAppState == "background" && old(isActive) then old(pings) + 1 else old(pings)
      ensures isActive == old(isActive) && keepAliveInterval == old(keepAliveInterval)
      ensures appStateSubscribed == old(appStateSubscribed) && batteryPrompts == old(batteryPrompts)
    {
      if nextAppState == "background" && isActive {
        KeepAlive();
      }
    }

    /** `isRunning`: whether the ping interval and subscription are held. */
    function IsRunning(): (r: bool)
      reads this
      requires Valid()
      ensures r <==> keepAliveInterval == Some(PingPeriodMs)
      ensures r <==> appStateSubscribed
    {
      isActive
    }
  }

  /** Starting an inactive service and stopping it again restores every
      field but the count of scheduled battery prompts. */
  method StartThenStop(k: KeepAliveService)
    requires k.Valid() && !k.isActive
    modifies k
    ensures k.Valid() && !k.IsRunning()
    ensures k.isActive == old(k.isActive) && k.keepAliveInterval == old(k.keepAliveInterval)
    ensures k.appStateSubscribed == old(k.appStateSubscribed) && k.pings == old(k.pings)
    ensures k.batteryPrompts == old(k.batteryPrompts) + 1
  {
    k.Start();
    k.Stop();
  }
}
