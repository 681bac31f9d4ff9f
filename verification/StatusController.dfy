/** The status endpoint's health-check throttle and the system notification
    kept in the shared cache. */
module Status {
  import opened Common

  const TicksPerSecond: int := 10_000_000
  /** A fresh health check runs at most this often. */
  const HealthCheckInterval: int := 5 * TicksPerSecond
  const SystemNotificationKey: string := "system-notification"
  const AllSystemsCheckMessage: string := "All Systems Check"

  datatype HealthCheckResult = HealthCheckResult(isHealthy: bool, message: string)

  /** The settings and host facts the healthy response reports. */
  datatype AppInfo = AppInfo(informationalVersion: string, appScope: string, appMode: string, machineName: string)

  datatype StatusResponse =
    | ServiceUnavailable(message: string)
    | AllSystemsCheck(message: string, informationalVersion: string, appScope: Option<string>, appMode: string,
                      machineName: string)

  // ------------------------------------------------------------------
  // The throttle

  /** The two static fields: the last result (null before the first check)
      and the time the next check is due (`DateTime.MinValue` at start). */
  datatype CheckState = CheckState(last: Option<HealthCheckResult>, nextCheckTime: int)

  const InitialCheckState: CheckState := CheckState(None, 0)

  predicate NeedsCheck(s: CheckState, now: int) {
    s.last.None? || s.nextCheckTime < now
  }

  /** The state after a request at `now`, where `result` is what a check run
      then would return. */
  function AfterRequest(s: CheckState, now: int, result: HealthCheckResult): (r: CheckState)
    ensures NeedsCheck(s, now) ==> r == CheckState(Some(result), now + HealthCheckInterval)
    ensures !NeedsCheck(s, now) ==> r == s
  {
    if NeedsCheck(s, now) then CheckState(Some(result), now + HealthCheckInterval) else s
  }

  /** The response for a state that holds a result. */
  function Respond(result: HealthCheckResult, info: AppInfo): (r: StatusResponse)
    ensures !result.isHealthy <==> r.ServiceUnavailable?
    ensures !result.isHealthy ==> r.message == result.message
    ensures result.isHealthy ==> r.message == AllSystemsCheckMessage
                                 && (r.appScope.Some? <==> info.appScope != [])
  {
    if !result.isHealthy then ServiceUnavailable(result.message)
    else if info.appScope != [] then
      AllSystemsCheck(AllSystemsCheckMessage, info.informationalVersion, Some(info.appScope), info.appMode, info.machineName)
    else AllSystemsCheck(AllSystemsCheckMessage, info.informationalVersion, None, info.appMode, info.machineName)
  }

  /** The times at which a sequence of requests (time, result a check would
      return) actually runs a check. */
  function CheckTimes(s: CheckState, requests: seq<(int, HealthCheckResult)>): seq<int>
    decreases |requests|
  {
    if requests == [] then []
    else
      var now := requests[0].0;
      (if NeedsCheck(s, now) then [now] else []) + CheckTimes(AfterRequest(s, now, requests[0].1), requests[1..])
  }

  /** Every two times of `times` lie more than five seconds apart. */
  predicate Spaced(times: seq<int>) {
    forall i, j :: 0 <= i < j < |times| ==> times[j] - times[i] > HealthCheckInterval
  }

  predicate AllAfter(times: seq<int>, t: int) {
    forall i :: 0 <= i < |times| ==> times[i] > t
  }

  /** Checks run more than five seconds apart, pairwise, whatever the order of
      the request times: no five-second window ever holds two checks. Every
      check after the first also comes more than five seconds after the due
      time the state started with. */
  lemma {:induction false} ChecksAreSpaced(s: CheckState, requests: seq<(int, HealthCheckResult)>)
    ensures Spaced(CheckTimes(s, requests))
    ensures s.last.Some? ==> AllAfter(CheckTimes(s, requests), s.nextCheckTime)
    decreases |requests|
  {
    if requests != [] {
      var now := requests[0].0;
      var next := AfterRequest(s, now, requests[0].1);
      ChecksAreSpaced(next, requests[1..]);
      var rest := CheckTimes(next, requests[1..]);
      var times := CheckTimes(s, requests);
      if NeedsCheck(s, now) {
        assert times == [now] + rest;
        assert next.last.Some? && next.nextCheckTime == now + HealthCheckInterval;
        assert AllAfter(rest, now + HealthCheckInterval);
        forall i, j | 0 <= i < j < |times| ensures times[j] - times[i] > HealthCheckInterval {
          if i == 0 {
            assert times[j] == rest[j - 1];
          } else {
            assert times[i] == rest[i - 1] && times[j] == rest[j - 1];
          }
        }
      } else {
        assert times == rest;
      }
    }
  }

  /** Holder of the two static fields. */
  class HealthCheckCache {
    var lastResult: Option<HealthCheckResult>
    var nextHealthCheckTime: int

    constructor ()
      ensures CheckState(lastResult, nextHealthCheckTime) == InitialCheckState
    {
      lastResult := None;
      nextHealthCheckTime := 0;
    }

    /** `IndexAsync` at time `now`; `check` is what the health checker would
        return. `ran` tells whether it was called. */
    method Index(now: int, check: HealthCheckResult, info: AppInfo) returns (response: StatusResponse, ran: bool)
      modifies this
      ensures ran == NeedsCheck(old(CheckState(lastResult, nextHealthCheckTime)), now)
      ensures CheckState(lastResult, nextHealthCheckTime) ==
                AfterRequest(old(CheckState(lastResult, nextHealthCheckTime)), now, check)
      ensures lastResult.Some? && response == Respond(lastResult.value, info)
    {
      ran := lastResult.None? || nextHealthCheckTime < now;
      if ran {
        nextHealthCheckTime := now + HealthCheckInterval;
        lastResult := Some(check);
      }
      response := Respond(lastResult.value, info);
    }
  }

  /** Within five seconds of a check, a second request reuses its result,
      whatever the checker would now say. */
  method RepeatWithinIntervalIsCached(cache: HealthCheckCache, t: int, dt: int, first: HealthCheckResult,
                                      second: HealthCheckResult, info: AppInfo)
    returns (ran1: bool, r1: StatusResponse, ran2: bool, r2: StatusResponse)
    requires 0 <= dt <= HealthCheckInterval
    modifies cache
    ensures ran1 ==> !ran2 && r1 == r2 && r1 == Respond(first, info)
  {
    r1, ran1 := cache.Index(t, first, info);
    r2, ran2 := cache.Index(t + dt, second, info);
  }

  // ------------------------------------------------------------------
  // The system notification

  /** `SystemNotification`: its date and its message (None for the removal notice). */
  datatype SystemNotification = SystemNotification(date: int, message: Option<string>)

  datatype PostResponse = NotFound | Posted(notification: SystemNotification)

  class StatusController {
    /** The shared cache's system-notification entries. */
    var cache: map<string, SystemNotification>
    /** Messages handed to the message publisher. */
    var published: seq<SystemNotification>

    constructor (cache: map<string, SystemNotification>)
      ensures this.cache == cache && published == []
    {
      this.cache := cache;
      published := [];
    }

    /** `GetSystemNotificationAsync`: None is the empty OK. */
    function GetSystemNotification(): (r: Option<SystemNotification>)
      reads this
      ensures r.Some? <==> SystemNotificationKey in cache
      ensures r.Some? ==> r.value == cache[SystemNotificationKey]
    {
      if SystemNotificationKey in cache then Some(cache[SystemNotificationKey]) else None
    }

    /** `PostSystemNotificationAsync`; a null message is the empty string. */
    method PostSystemNotification(message: string, now: int) returns (r: PostResponse)
      modifies this
      ensures IsNullOrWhiteSpace(message) ==> r == NotFound && cache == old(cache) && published == old(published)
      ensures !IsNullOrWhiteSpace(message) ==>
                && r == Posted(SystemNotification(now, Some(message)))
                && cache == old(cache)[SystemNotificationKey := r.notification]
                && published == old(published) + [r.notification]
    {
      if IsNullOrWhiteSpace(message) {
        return NotFound;
      }
      var notification := SystemNotification(now, Some(message));
      cache := cache[SystemNotificationKey := notification];
      published := published + [notification];
      return Posted(notification);
    }

    /** `RemoveSystemNotificationAsync`: drop the entry and announce a
        notification without a message. */
    method RemoveSystemNotification(now: int)
      modifies this
      ensures cache == old(cache) - {SystemNotificationKey}
      ensures published == old(published) + [SystemNotification(now, None)]
    {
      cache := cache - {SystemNotificationKey};
      published := published + [SystemNotification(now, None)];
    }
  }

  /** A posted notification is what the next read returns; after a removal the
      read is empty again, and every change was announced in order. */
  method PostGetRemoveGet(controller: StatusController, message: string, t1: int, t2: int)
    returns (afterPost: Option<SystemNotification>, afterRemove: Option<SystemNotification>)
    requires !IsNullOrWhiteSpace(message)
    modifies controller
    ensures afterPost == Some(SystemNotification(t1, Some(message)))
    ensures afterRemove.None?
    ensures controller.published == old(controller.published)
              + [SystemNotification(t1, Some(message)), SystemNotification(t2, None)]
  {
    var posted := controller.PostSystemNotification(message, t1);
    afterPost := controller.GetSystemNotification();
    controller.RemoveSystemNotification(t2);
    afterRemove := controller.GetSystemNotification();
  }
}
