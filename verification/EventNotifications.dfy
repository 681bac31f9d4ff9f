/** The notification job: two cache-backed throttles in front of a fan-out to
    every recipient configured on the event's project. */
module Notifications {
  import opened Common
  import opened Models

  const TicksPerMinute: nat := 600_000_000
  /** A stack is not notified about again within this window ... */
  const StackThrottleWindow: nat := 30 * TicksPerMinute
  /** ... but its "last sent" entry only lives this long. */
  const StackThrottleExpiry: nat := 15 * TicksPerMinute
  /** Width of a project counter's time bucket, and the counter's expiry. */
  const ProjectThrottleWindow: nat := 30 * TicksPerMinute
  /** At most this many notifications per project and bucket (regressions exempt). */
  const ProjectThrottleLimit: nat := 10
  /** `DateTime.MinValue`, the default of a missing "last sent" entry. */
  const MinValue: int := 0
  /** The recipient key of the chat integration; every other key is a user id. */
  const SlackIntegration: string := "slack"

  datatype JobResult = Success | Cancelled

  datatype CacheValue = LastSent(time: int) | Counter(count: int)
  datatype CacheEntry = CacheEntry(value: CacheValue, expiresAt: int)
  type Cache = map<string, CacheEntry>

  /** Everything the job reads but does not own: the stores, the user-agent
      parser's spider verdict, the wildcard matcher, the outcomes of the Slack
      and mail collaborators, and the website settings. */
  datatype Collaborators = Collaborators(
    events: map<string, PersistentEvent>,
    projects: map<string, Project>,
    users: map<string, User>,
    isSpider: string -> bool,
    wildcardMatches: (string, seq<string>) -> bool,
    slackSends: bool,
    mailerSends: string -> bool,
    isProduction: bool,
    allowedOutboundAddresses: seq<string>)

  // ------------------------------------------------------------------
  // The cache as the job sees it

  predicate Live(cache: Cache, key: string, now: int) {
    key in cache && now < cache[key].expiresAt
  }

  /** `GetAsync<DateTime>(key, DateTime.MinValue)`. */
  function LastSentTime(cache: Cache, key: string, now: int): (t: int)
    ensures t != MinValue ==> Live(cache, key, now) && cache[key].value == LastSent(t)
  {
    if Live(cache, key, now) && cache[key].value.LastSent? then cache[key].value.time else MinValue
  }

  /** The value `IncrementAsync(key, 1, ...)` returns: one more than the live count. */
  function IncrementedCount(cache: Cache, key: string, now: int): (n: int)
    ensures Live(cache, key, now) && cache[key].value.Counter? ==> n == cache[key].value.count + 1
    ensures !(Live(cache, key, now) && cache[key].value.Counter?) ==> n == 1
  {
    if Live(cache, key, now) && cache[key].value.Counter? then cache[key].value.count + 1 else 1
  }

  function StackThrottleKey(stackId: string): string {
    "notify:stack-throttle:" + stackId
  }

  /** `now.Floor(window)`: the start of the bucket `now` falls in. */
  function Floor(now: nat, window: nat): (start: nat)
    requires window > 0
    ensures start <= now < start + window
    ensures start % window == 0
  {
    var q, m := now / window, now % window;
    assert now == q * window + m;
    MultipleHasNoRemainder(q, window);
    now - m
  }

  lemma MultipleHasNoRemainder(q: nat, window: nat)
    requires window > 0
    ensures (q * window) % window == 0
  {
    var x := q * window;
    var d, r := x / window, x % window;
    assert x == d * window + r && 0 <= r < window;
    DifferenceScaled(q, d, window);
    ScaledBounds(q - d, window);
  }

  lemma DifferenceScaled(a: int, b: int, w: int)
    ensures (a - b) * w == a * w - b * w
  {
  }

  /** A non-zero multiple of `w` is at least `w` away from zero. */
  lemma ScaledBounds(k: int, w: int)
    requires w > 0
    ensures k >= 1 ==> k * w >= w
    ensures k <= -1 ==> k * w <= -w
  {
    if k <= -1 {
      DifferenceScaled(0, -k, w);
    }
  }

  function ProjectThrottleKey(projectId: string, now: nat): string {
    "notify:project-throttle:" + projectId + "-" + NatToString(Floor(now, ProjectThrottleWindow))
  }

  // ------------------------------------------------------------------
  // Per-recipient decisions

  /** The five interest conjunctions of a recipient's settings. */
  predicate ShouldReport(s: NotificationSettings, wi: EventNotificationWorkItem, ev: PersistentEvent) {
    || (s.reportNewErrors && wi.isNew && ev.isError)
    || (s.reportCriticalErrors && ev.isCritical && ev.isError)
    || (s.reportEventRegressions && wi.isRegression)
    || (s.reportNewEvents && wi.isNew)
    || (s.reportCriticalEvents && ev.isCritical)
  }

  /** The event carries a user agent that the parser calls a spider or that
      matches one of the project's bot patterns. */
  predicate IsFromBot(ev: PersistentEvent, project: Project, env: Collaborators) {
    ev.userAgent != "" && (env.isSpider(ev.userAgent) || env.wildcardMatches(ev.userAgent, project.botPatterns))
  }

  /** `shouldReport` after the bot check. */
  predicate ShouldNotify(s: NotificationSettings, wi: EventNotificationWorkItem, ev: PersistentEvent,
                         project: Project, env: Collaborators) {
    ShouldReport(s, wi, ev) && !IsFromBot(ev, project, env)
  }

  /** `AllowedOutboundAddresses.Contains(v => address.Contains(v))`. */
  predicate AnyAllowed(allowed: seq<string>, address: string) {
    exists k :: 0 <= k < |allowed| && Contains(address, allowed[k])
  }

  /** `SendEmailNotificationAsync`: the eligibility guards, then the mailer. */
  function SendEmailNotification(userId: string, project: Project, env: Collaborators): bool {
    if userId !in env.users then false
    else
      var user := env.users[userId];
      if user.emailAddress == "" then false
      else if !user.isEmailAddressVerified then false
      else if !user.emailNotificationsEnabled then false
      else if project.organizationId !in user.organizationIds then false
      else if !env.isProduction && !AnyAllowed(env.allowedOutboundAddresses, ToLower(user.emailAddress)) then false
      else env.mailerSends(userId)
  }

  /** The `switch` on the recipient key. */
  function Dispatch(key: string, project: Project, env: Collaborators): bool {
    if key == SlackIntegration then env.slackSends else SendEmailNotification(key, project, env)
  }

  /** The recipient keys whose send succeeded, in enumeration order. */
  function Deliveries(rs: seq<(string, NotificationSettings)>, wi: EventNotificationWorkItem,
                      ev: PersistentEvent, project: Project, env: Collaborators): (d: seq<string>)
    ensures |d| <= |rs|
  {
    if rs == [] then []
    else
      var prev := Deliveries(rs[..|rs| - 1], wi, ev, project, env);
      var (key, s) := rs[|rs| - 1];
      if ShouldNotify(s, wi, ev, project, env) && Dispatch(key, project, env) then prev + [key] else prev
  }

  // ------------------------------------------------------------------
  // The whole job, as a function of the cache before it

  predicate StackThrottled(wi: EventNotificationWorkItem, lastSent: int, now: int) {
    && wi.totalOccurrences > 2
    && !wi.isRegression
    && lastSent != MinValue
    && lastSent > now - StackThrottleWindow
  }

  /** What one run reports (`sent` is `|delivered|`) and the cache it leaves. */
  datatype Outcome = Outcome(result: JobResult, delivered: seq<string>, cache: Cache)

  function Process(cache: Cache, wi: EventNotificationWorkItem, now: nat, cancellationRequested: bool,
                   env: Collaborators): Outcome {
    if wi.eventId !in env.events || env.events[wi.eventId].isDeleted then Outcome(Success, [], cache)
    else
      var ev := env.events[wi.eventId];
      if ev.projectId !in env.projects then Outcome(Success, [], cache)
      else
        var project := env.projects[ev.projectId];
        var stackKey := StackThrottleKey(ev.stackId);
        if StackThrottled(wi, LastSentTime(cache, stackKey, now), now) then Outcome(Success, [], cache)
        else if cancellationRequested then Outcome(Cancelled, [], cache)
        else
          var counterKey := ProjectThrottleKey(ev.projectId, now);
          var count := IncrementedCount(cache, counterKey, now);
          var counted := cache[counterKey := CacheEntry(Counter(count), now + ProjectThrottleWindow)];
          if count > ProjectThrottleLimit as int && !wi.isRegression then Outcome(Success, [], counted)
          else
            var delivered := Deliveries(project.notificationSettings, wi, ev, project, env);
            if |delivered| > 0
            then Outcome(Success, delivered, counted[stackKey := CacheEntry(LastSent(now), now + StackThrottleExpiry)])
            else Outcome(Success, delivered, counted)
  }

  /** The job over a cache it shares with other workers. */
  class EventNotificationsJob {
    var cache: Cache

    constructor (cache: Cache)
      ensures this.cache == cache
    {
      this.cache := cache;
    }

    /** `ProcessQueueEntryAsync`; `delivered` lists the recipients that were
        sent a notification, so `sent` is its length. */
    method ProcessQueueEntry(wi: EventNotificationWorkItem, now: nat, cancellationRequested: bool,
                             env: Collaborators) returns (result: JobResult, delivered: seq<string>)
      modifies this
      ensures Outcome(result, delivered, cache) == Process(old(cache), wi, now, cancellationRequested, env)
    {
      if wi.eventId !in env.events || env.events[wi.eventId].isDeleted {
        return Success, [];
      }
      var ev := env.events[wi.eventId];
      if ev.projectId !in env.projects {
        return Success, [];
      }
      var project := env.projects[ev.projectId];

      var lastTimeSentUtc := LastSentTime(cache, StackThrottleKey(ev.stackId), now);
      if wi.totalOccurrences > 2 && !wi.isRegression && lastTimeSentUtc != MinValue
        && lastTimeSentUtc > now - StackThrottleWindow {
        return Success, [];
      }

      if cancellationRequested {
        return Cancelled, [];
      }

      var cacheKey := ProjectThrottleKey(ev.projectId, now);
      var notificationCount := IncrementedCount(cache, cacheKey, now);
      cache := cache[cacheKey := CacheEntry(Counter(notificationCount), now + ProjectThrottleWindow)];
      if notificationCount > ProjectThrottleLimit as int && !wi.isRegression {
        return Success, [];
      }

      var recipients := project.notificationSettings;
      var sent := 0;
      delivered := [];
      for i := 0 to |recipients|
        invariant delivered == Deliveries(recipients[..i], wi, ev, project, env)
        invariant sent == |delivered|
      {
        assert recipients[..i + 1][..i] == recipients[..i];
        var (key, settings) := recipients[i];
        var shouldReport := ShouldReport(settings, wi, ev);
        if shouldReport && ev.userAgent != "" {
          if env.isSpider(ev.userAgent) || env.wildcardMatches(ev.userAgent, project.botPatterns) {
            shouldReport := false;
          }
        }
        if !shouldReport {
          continue;
        }
        var processed := Dispatch(key, project, env);
        if processed {
          sent := sent + 1;
          delivered := delivered + [key];
        }
      }
      assert recipients[..|recipients|] == recipients;

      if sent > 0 {
        cache := cache[StackThrottleKey(ev.stackId) := CacheEntry(LastSent(now), now + StackThrottleExpiry)];
      }
      return Success, delivered;
    }
  }

  // ------------------------------------------------------------------
  // Properties of a run

  /** A missing or deleted event, or a missing project, ends the run
      successfully with no sends and the cache untouched. */
  lemma UnloadableEventIsNoOp(cache: Cache, wi: EventNotificationWorkItem, now: nat, cancel: bool, env: Collaborators)
    requires || wi.eventId !in env.events
             || env.events[wi.eventId].isDeleted
             || env.events[wi.eventId].projectId !in env.projects
    ensures Process(cache, wi, now, cancel, env) == Outcome(Success, [], cache)
  {
  }

  /** The two throttle key families never collide. */
  lemma ThrottleKeysDistinct(stackId: string, projectId: string, now: nat)
    ensures StackThrottleKey(stackId) != ProjectThrottleKey(projectId, now)
  {
    assert StackThrottleKey(stackId)[7] == 's';
    assert ProjectThrottleKey(projectId, now)[7] == 'p';
  }

  /** Runs share a project counter exactly when their clocks fall in the same
      30-minute bucket. */
  lemma {:induction false} SameCounterIffSameBucket(projectId: string, t1: nat, t2: nat)
    ensures ProjectThrottleKey(projectId, t1) == ProjectThrottleKey(projectId, t2)
            <==> Floor(t1, ProjectThrottleWindow) == Floor(t2, ProjectThrottleWindow)
  {
    var prefix := "notify:project-throttle:" + projectId + "-";
    var k1, k2 := ProjectThrottleKey(projectId, t1), ProjectThrottleKey(projectId, t2);
    var s1, s2 := NatToString(Floor(t1, ProjectThrottleWindow)), NatToString(Floor(t2, ProjectThrottleWindow));
    assert k1 == prefix + s1 && k2 == prefix + s2;
    if k1 == k2 {
      assert s1 == k1[|prefix|..] == k2[|prefix|..] == s2;
      NatToStringInjective(Floor(t1, ProjectThrottleWindow), Floor(t2, ProjectThrottleWindow));
    }
  }

  /** Incrementing always leaves a different entry under the counter key. */
  lemma CountingChangesCache(cache: Cache, key: string, now: nat)
    ensures cache[key := CacheEntry(Counter(IncrementedCount(cache, key, now)), now + ProjectThrottleWindow)] != cache
  {
    var n := IncrementedCount(cache, key, now);
    var c := cache[key := CacheEntry(Counter(n), now + ProjectThrottleWindow)];
    if key in cache && c == cache {
      assert cache[key] == CacheEntry(Counter(n), now + ProjectThrottleWindow);
      assert Live(cache, key, now);
    }
  }

  /** The stack throttle suppresses, with the cache untouched and before the
      project counter moves, exactly when the work item is past its second
      occurrence, is no regression, and a "last sent" time newer than 30
      minutes is still cached. */
  lemma StackThrottleSuppressesBeforeCounting(cache: Cache, wi: EventNotificationWorkItem, now: nat, cancel: bool,
                                              env: Collaborators)
    requires wi.eventId in env.events && !env.events[wi.eventId].isDeleted
    requires env.events[wi.eventId].projectId in env.projects
    ensures Process(cache, wi, now, cancel, env) == Outcome(Success, [], cache)
            <==> StackThrottled(wi, LastSentTime(cache, StackThrottleKey(env.events[wi.eventId].stackId), now), now)
  {
    var ev := env.events[wi.eventId];
    var counterKey := ProjectThrottleKey(ev.projectId, now);
    CountingChangesCache(cache, counterKey, now);
    var counted := cache[counterKey := CacheEntry(Counter(IncrementedCount(cache, counterKey, now)), now + ProjectThrottleWindow)];
    ThrottleKeysDistinct(ev.stackId, ev.projectId, now);
    var c2 := counted[StackThrottleKey(ev.stackId) := CacheEntry(LastSent(now), now + StackThrottleExpiry)];
    assert c2[counterKey] == counted[counterKey];
    assert c2 != cache;
  }

  /** Cancellation is observed after the stack throttle and before the project
      counter: it ends the run with no sends and the cache untouched. */
  lemma CancellationBeforeCounting(cache: Cache, wi: EventNotificationWorkItem, now: nat, env: Collaborators)
    requires wi.eventId in env.events && !env.events[wi.eventId].isDeleted
    requires env.events[wi.eventId].projectId in env.projects
    requires !StackThrottled(wi, LastSentTime(cache, StackThrottleKey(env.events[wi.eventId].stackId), now), now)
    ensures Process(cache, wi, now, true, env) == Outcome(Cancelled, [], cache)
  {
  }

  /** A run that reaches the project counter raises it by exactly one with a
      fresh 30-minute expiry, suppresses a non-regression once the count passes
      10, refreshes the stack's "last sent" entry exactly when some recipient
      was sent a notification, and touches no other cache key. */
  lemma CountedRun(cache: Cache, wi: EventNotificationWorkItem, now: nat, env: Collaborators)
    requires wi.eventId in env.events && !env.events[wi.eventId].isDeleted
    requires env.events[wi.eventId].projectId in env.projects
    requires !StackThrottled(wi, LastSentTime(cache, StackThrottleKey(env.events[wi.eventId].stackId), now), now)
    ensures var ev := env.events[wi.eventId];
            var project := env.projects[ev.projectId];
            var counterKey := ProjectThrottleKey(ev.projectId, now);
            var stackKey := StackThrottleKey(ev.stackId);
            var count := IncrementedCount(cache, counterKey, now);
            var o := Process(cache, wi, now, false, env);
            && o.result == Success
            && counterKey in o.cache
            && o.cache[counterKey] == CacheEntry(Counter(count), now + ProjectThrottleWindow)
            && (count > ProjectThrottleLimit as int && !wi.isRegression ==> o.delivered == [])
            && (count <= ProjectThrottleLimit as int || wi.isRegression ==>
                  o.delivered == Deliveries(project.notificationSettings, wi, ev, project, env))
            && (|o.delivered| > 0 ==>
                  stackKey in o.cache && o.cache[stackKey] == CacheEntry(LastSent(now), now + StackThrottleExpiry))
            && (|o.delivered| == 0 ==> (stackKey in o.cache <==> stackKey in cache)
                                       && (stackKey in cache ==> o.cache[stackKey] == cache[stackKey]))
            && forall k :: k != counterKey && k != stackKey ==>
                  (k in o.cache <==> k in cache) && (k in cache ==> o.cache[k] == cache[k])
  {
    var ev := env.events[wi.eventId];
    ThrottleKeysDistinct(ev.stackId, ev.projectId, now);
  }

  /** Scenario: a stack notified `ago` ticks before now (less than the 15-minute
      lifetime of its entry), past its second occurrence and not regressed, is
      suppressed with zero sends. */
  lemma RecentSendSuppresses(cache: Cache, wi: EventNotificationWorkItem, now: nat, cancel: bool,
                             env: Collaborators, sentAt: int)
    requires wi.eventId in env.events && !env.events[wi.eventId].isDeleted
    requires env.events[wi.eventId].projectId in env.projects
    requires wi.totalOccurrences > 2 && !wi.isRegression
    requires var key := StackThrottleKey(env.events[wi.eventId].stackId);
             key in cache && cache[key] == CacheEntry(LastSent(sentAt), sentAt + StackThrottleExpiry)
    requires MinValue < sentAt <= now < sentAt + StackThrottleExpiry
    ensures Process(cache, wi, now, cancel, env) == Outcome(Success, [], cache)
  {
  }

  /** The "last sent" entry expires after 15 minutes, so from then on the stack
      throttle no longer suppresses, although the nominal window is 30 minutes. */
  lemma StackThrottleLapsesWithItsEntry(cache: Cache, wi: EventNotificationWorkItem, now: nat,
                                        stackId: string, sentAt: int)
    requires var key := StackThrottleKey(stackId);
             key in cache && cache[key] == CacheEntry(LastSent(sentAt), sentAt + StackThrottleExpiry)
    requires sentAt + StackThrottleExpiry <= now < sentAt + StackThrottleWindow
    ensures !StackThrottled(wi, LastSentTime(cache, StackThrottleKey(stackId), now), now)
  {
  }

  /** Scenario: with ten notifications already counted in the bucket, an
      eleventh non-regression is suppressed, while a regression still goes out
      to every eligible recipient. */
  lemma EleventhNotificationInBucket(cache: Cache, wi: EventNotificationWorkItem, now: nat, env: Collaborators)
    requires wi.eventId in env.events && !env.events[wi.eventId].isDeleted
    requires env.events[wi.eventId].projectId in env.projects
    requires !StackThrottled(wi, LastSentTime(cache, StackThrottleKey(env.events[wi.eventId].stackId), now), now)
    requires var key := ProjectThrottleKey(env.events[wi.eventId].projectId, now);
             Live(cache, key, now) && cache[key].value == Counter(10)
    ensures var ev := env.events[wi.eventId];
            var project := env.projects[ev.projectId];
            var o := Process(cache, wi, now, false, env);
            && (!wi.isRegression ==> o.delivered == [])
            && (wi.isRegression ==> o.delivered == Deliveries(project.notificationSettings, wi, ev, project, env))
  {
    CountedRun(cache, wi, now, env);
  }

  /** Every recipient in `Deliveries` wanted this event, was not filtered as a
      bot, and its channel reported success. */
  lemma {:induction false} DeliveredRecipientsWereEligible(rs: seq<(string, NotificationSettings)>,
      wi: EventNotificationWorkItem, ev: PersistentEvent, project: Project, env: Collaborators, key: string)
    requires key in Deliveries(rs, wi, ev, project, env)
    ensures exists i :: 0 <= i < |rs| && rs[i].0 == key
                        && ShouldNotify(rs[i].1, wi, ev, project, env) && Dispatch(key, project, env)
  {
    var n := |rs|;
    var prev := Deliveries(rs[..n - 1], wi, ev, project, env);
    if key in prev {
      DeliveredRecipientsWereEligible(rs[..n - 1], wi, ev, project, env, key);
      var i :| 0 <= i < n - 1 && rs[..n - 1][i].0 == key
               && ShouldNotify(rs[..n - 1][i].1, wi, ev, project, env) && Dispatch(key, project, env);
      assert rs[i] == rs[..n - 1][i];
    } else {
      assert rs[n - 1].0 == key;
    }
  }

  /** Conversely every eligible recipient whose channel succeeds is delivered to. */
  lemma {:induction false} EligibleRecipientsAreDelivered(rs: seq<(string, NotificationSettings)>,
      wi: EventNotificationWorkItem, ev: PersistentEvent, project: Project, env: Collaborators, i: nat)
    requires i < |rs|
    requires ShouldNotify(rs[i].1, wi, ev, project, env) && Dispatch(rs[i].0, project, env)
    ensures rs[i].0 in Deliveries(rs, wi, ev, project, env)
  {
    var n := |rs|;
    if i < n - 1 {
      assert rs[..n - 1][i] == rs[i];
      EligibleRecipientsAreDelivered(rs[..n - 1], wi, ev, project, env, i);
    }
  }

  /** An email goes out only when the user loads with a non-empty, verified
      address, has notifications enabled, still belongs to the project's
      organization and, outside production, has an allowed address; then the
      mailer's answer decides. */
  lemma EmailNeedsEveryGuard(userId: string, project: Project, env: Collaborators)
    ensures SendEmailNotification(userId, project, env) <==>
              && userId in env.users
              && env.users[userId].emailAddress != ""
              && env.users[userId].isEmailAddressVerified
              && env.users[userId].emailNotificationsEnabled
              && project.organizationId in env.users[userId].organizationIds
              && (env.isProduction || AnyAllowed(env.allowedOutboundAddresses, ToLower(env.users[userId].emailAddress)))
              && env.mailerSends(userId)
  {
  }

  /** Scenario: a user with email notifications disabled never receives one,
      whatever their interest flags say. */
  lemma DisabledUserNeverEmailed(rs: seq<(string, NotificationSettings)>, wi: EventNotificationWorkItem,
                                 ev: PersistentEvent, project: Project, env: Collaborators, userId: string)
    requires userId != SlackIntegration
    requires userId in env.users && !env.users[userId].emailNotificationsEnabled
    ensures userId !in Deliveries(rs, wi, ev, project, env)
  {
    if userId in Deliveries(rs, wi, ev, project, env) {
      DeliveredRecipientsWereEligible(rs, wi, ev, project, env, userId);
    }
  }

  /** The bot check can only turn a report off, and only for an event that
      carries a user agent. */
  lemma BotCheckOnlySuppresses(s: NotificationSettings, wi: EventNotificationWorkItem, ev: PersistentEvent,
                               project: Project, env: Collaborators)
    ensures ShouldNotify(s, wi, ev, project, env) ==> ShouldReport(s, wi, ev)
    ensures ShouldReport(s, wi, ev) && !ShouldNotify(s, wi, ev, project, env) ==> ev.userAgent != ""
    ensures ev.userAgent == "" ==> (ShouldNotify(s, wi, ev, project, env) <==> ShouldReport(s, wi, ev))
  {
  }

  /** Turning on more interest flags never stops a report. */
  lemma MoreInterestNeverReportsLess(s: NotificationSettings, t: NotificationSettings,
                                     wi: EventNotificationWorkItem, ev: PersistentEvent)
    requires s.reportNewErrors ==> t.reportNewErrors
    requires s.reportCriticalErrors ==> t.reportCriticalErrors
    requires s.reportEventRegressions ==> t.reportEventRegressions
    requires s.reportNewEvents ==> t.reportNewEvents
    requires s.reportCriticalEvents ==> t.reportCriticalEvents
    ensures ShouldReport(s, wi, ev) ==> ShouldReport(t, wi, ev)
  {
  }

  /** An event that is neither new, nor a regression, nor critical interests
      nobody. */
  lemma RoutineEventInterestsNobody(s: NotificationSettings, wi: EventNotificationWorkItem, ev: PersistentEvent)
    requires !wi.isNew && !wi.isRegression && !ev.isCritical
    ensures !ShouldReport(s, wi, ev)
  {
  }
}
