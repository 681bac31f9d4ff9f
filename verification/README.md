# Exceptionless core, modelled in Dafny

This project models the parts of the Exceptionless error-reporting server that
decide **who is told about an event, what is cached, and what a search may
see**:

- `EventNotifications.dfy` (module `Notifications`): the notification job.
  It has two cache-backed throttles: a per-stack "last sent" entry and a
  per-project counter with 30-minute buckets. After them comes a fan-out to
  every recipient configured on the project. Each recipient is checked for
  interest flags, bots and e-mail eligibility.
- `StackRepository.dfy` (module `Stacks`): the stack repository. It covers the
  stored merge of occurrence counters and the signature-hash cache with its
  keys and invalidation. It also covers the guard that refuses to remove
  stacks that still have events, and the defaults of a filtered search.
- `PluginManager.dfy` (module `Plugins`): the plugin registry. It is a list
  kept sorted by priority, loaded from the discovered plugin types. Disabled
  types are skipped, and the first failure aborts the load.
- `MetricsConnectionString.dfy` (module `Metrics`): parsing a metrics
  connection string into a case-insensitive option dictionary, then
  dispatching on its provider.
- `StorageExtensions.dfy` (module `Storage`): reading a queued event post, and
  completing it by archiving it under a dated path or deleting it.
- `SystemFilterQuery.dfy` (module `SystemFilter`): the system-filter query's
  constructors and the builder that restricts every search. The restriction
  is to the caller's organizations, projects or stack, within each
  organization's retention. Filters are given a meaning (`Eval`), so the
  lemmas state which documents a built filter admits.
- `UserRepository.dfy` (module `Users`): the user lookups by e-mail, token,
  OAuth account and organization, and the invalidation of e-mail keys and
  paged organization queries.
- `StatusController.dfy` (module `Status`): the throttled health check of the
  status endpoint, and the system notification kept in the shared cache.
- `Common.dfy` and `Models.dfy` hold the shared parts:
  - `Option` and `Result`;
  - the .NET string primitives the code relies on (ordinal, ASCII);
  - the entity records.

Code that updates state in place is modelled as classes: the job's cache, the
repositories' caches and stores, the plugin list, the file store, the query
context, the health-check statics and the controller. Each method's `ensures`
ties its new state to a pure function. The properties are proved about those
functions.

Time is an integer count of .NET ticks (100 ns), and `DateTime.MinValue` is
tick 0. A null reference is `None`. A null string is the empty string wherever
the code treats null and empty alike.

## Model

| member | source | states |
|---|---|---|
| Notifications.LastSentTime | src/Exceptionless.Core/Jobs/EventNotificationsJob.cs:60 | a time other than `DateTime.MinValue` is read only from a live "last sent" cache entry |
| Notifications.IncrementedCount | src/Exceptionless.Core/Jobs/EventNotificationsJob.cs:75 | the increment returns one more than a live counter, and 1 when the counter is missing or expired |
| Notifications.Floor | src/Exceptionless.Core/Jobs/EventNotificationsJob.cs:74 | `Floor` gives the start of the 30-minute bucket that contains `now`: a multiple of the window, at most `now`, less than one window before it |
| Notifications.Deliveries | src/Exceptionless.Core/Jobs/EventNotificationsJob.cs:81-126 | at most one delivery per configured recipient |
| Notifications.EventNotificationsJob.ProcessQueueEntry | src/Exceptionless.Core/Jobs/EventNotificationsJob.cs:44-135 | the job result, the recipients notified (`sent` is their number) and the cache left behind are those of the reference `Process` |
| Notifications.UnloadableEventIsNoOp | src/Exceptionless.Core/Jobs/EventNotificationsJob.cs:46-56 | a missing or deleted event, or a missing project, ends the run successfully with no sends and the cache unchanged |
| Notifications.ThrottleKeysDistinct | src/Exceptionless.Core/Jobs/EventNotificationsJob.cs:60-74 | a stack-throttle key never equals a project-throttle key |
| Notifications.SameCounterIffSameBucket | src/Exceptionless.Core/Jobs/EventNotificationsJob.cs:74 | two runs for one project share a counter key if and only if their clocks fall in the same 30-minute bucket |
| Notifications.CountingChangesCache | src/Exceptionless.Core/Jobs/EventNotificationsJob.cs:75 | incrementing the counter always changes the cache |
| Notifications.StackThrottleSuppressesBeforeCounting | src/Exceptionless.Core/Jobs/EventNotificationsJob.cs:59-67 | for a loadable event, the run ends with no sends and the cache unchanged if and only if all of these hold: more than 2 occurrences, not a regression, a cached "last sent" time newer than 30 minutes |
| Notifications.CancellationBeforeCounting | src/Exceptionless.Core/Jobs/EventNotificationsJob.cs:69-70 | a cancellation that passes the stack throttle yields `Cancelled`, no sends and the cache unchanged; the project counter is not touched |
| Notifications.CountedRun | src/Exceptionless.Core/Jobs/EventNotificationsJob.cs:72-135 | a counted run raises the bucket counter by one with a 30-minute expiry. Past 10 it suppresses a non-regression; otherwise it delivers exactly `Deliveries`. It sets the stack's "last sent" entry with a 15-minute expiry exactly when something was sent, and touches no other key |
| Notifications.RecentSendSuppresses | src/Exceptionless.Core/Jobs/EventNotificationsJob.cs:59-67 | a stack notified less than 15 minutes ago, past its second occurrence and not regressed, is suppressed |
| Notifications.StackThrottleLapsesWithItsEntry | src/Exceptionless.Core/Jobs/EventNotificationsJob.cs:130 | the "last sent" entry expires after 15 minutes, so from then on the stack throttle no longer suppresses, although its window is 30 minutes |
| Notifications.EleventhNotificationInBucket | src/Exceptionless.Core/Jobs/EventNotificationsJob.cs:76-79 | with 10 already counted, an eleventh non-regression is suppressed, while a regression still reaches every eligible recipient |
| Notifications.DeliveredRecipientsWereEligible | src/Exceptionless.Core/Jobs/EventNotificationsJob.cs:81-126 | every recipient notified was interested, was not filtered as a bot, and its channel (Slack or e-mail) succeeded |
| Notifications.EligibleRecipientsAreDelivered | src/Exceptionless.Core/Jobs/EventNotificationsJob.cs:81-126 | conversely, every interested, non-bot recipient whose channel succeeds is notified |
| Notifications.EmailNeedsEveryGuard | src/Exceptionless.Core/Jobs/EventNotificationsJob.cs:137-169 | an e-mail is sent if and only if all of these hold: the user loads, has a non-empty verified address, has notifications enabled and belongs to the project's organization; outside production the address is on the outbound list; and the mailer succeeds |
| Notifications.DisabledUserNeverEmailed | src/Exceptionless.Core/Jobs/EventNotificationsJob.cs:149-152 | a user with e-mail notifications disabled is never among the recipients notified |
| Notifications.BotCheckOnlySuppresses | src/Exceptionless.Core/Jobs/EventNotificationsJob.cs:96-108 | the bot check can only turn a report off, and only for an event with a user agent |
| Notifications.MoreInterestNeverReportsLess | src/Exceptionless.Core/Jobs/EventNotificationsJob.cs:85-91 | the five interest conditions are monotone in the settings flags |
| Notifications.RoutineEventInterestsNobody | src/Exceptionless.Core/Jobs/EventNotificationsJob.cs:85-91 | an event that is neither new, nor a regression, nor critical interests no recipient |
| Stacks.SignatureCacheKeyInjective | src/Exceptionless.Core/Repositories/StackRepository.cs:55-57 | distinct (project, signature hash) pairs get distinct cache keys when project ids hold no `:` |
| Stacks.SignatureKeyIsNoStackId | src/Exceptionless.Core/Repositories/StackRepository.cs:84-85 | a signature key never equals a stack id without `:`, so removing the id entry leaves the signature entry alone |
| Stacks.MergeOccurrences | src/Exceptionless.Core/Repositories/StackRepository.cs:67-73 | first occurrence: the new minimum, or reset when the total is 0. Last occurrence: the maximum. Total: raised by `count`. No other field changes |
| Stacks.MergesAreMonotonic | src/Exceptionless.Core/Repositories/StackRepository.cs:59-77 | over any sequence of merges with non-negative counts, the total grows by their sum and the last occurrence never moves back. Once occurrences exist, the first occurrence never moves forward. Nothing else changes |
| Stacks.RemovalRefusedIffEventsRemain | src/Exceptionless.Core/Repositories/StackRepository.cs:32-40 | only a removal is refused, and it is refused if and only if a removed stack still has events. The error names the first such stack |
| Stacks.GetByFilter | src/Exceptionless.Core/Repositories/StackRepository.cs:114-126 | the search carries the caller's system filter query, the date range over the given field (the last occurrence when none is given), the user filter and paging; an empty sort is replaced in the caller's own options by last occurrence, descending, and the search sorts by the options' fields |
| Stacks.DefaultSortSettles | src/Exceptionless.Core/Repositories/StackRepository.cs:115-116 | filling in the default sort a second time changes nothing, and a caller's own first sort field is kept |
| Stacks.RepeatedSearchKeepsSort | src/Exceptionless.Core/Repositories/StackRepository.cs:114-126 | two searches with the same options object sort alike, and the options are left with the default only if they were empty |
| Stacks.OriginalsAndModified | src/Exceptionless.Core/Repositories/StackRepository.cs:138 | the union holds exactly every modified document and every original |
| Stacks.SignatureEntries | src/Exceptionless.Core/Repositories/StackRepository.cs:47-48 | the entries added are keyed by exactly the documents' signature keys |
| Stacks.StackRepository.IncrementEventCounter | src/Exceptionless.Core/Repositories/StackRepository.cs:59-96 | a failed update changes nothing. A successful one stores the merge, removes the by-id cache entry and publishes one `Saved` message delayed by 1.5 s, when notifications are on |
| Stacks.StackRepository.GetStackBySignatureHash | src/Exceptionless.Core/Repositories/StackRepository.cs:98-112 | a cached entry is returned as is. Otherwise the result is a stored stack with that project and hash, or none exists; a hit is cached |
| Stacks.StackRepository.InvalidateCache | src/Exceptionless.Core/Repositories/StackRepository.cs:134-141 | removes exactly the signature keys of every original and modified document |
| Stacks.StackRepository.AddToCache | src/Exceptionless.Core/Repositories/StackRepository.cs:42-49 | caches every document under its signature key, the later of two equal keys winning |
| Stacks.StackRepository.MarkAsRegressed | src/Exceptionless.Core/Repositories/StackRepository.cs:128-132 | sets only the regressed flag of a stored stack; the save with caching leaves the regressed stack under its signature key and publishes one `Saved` change for it; a missing stack fails and changes nothing |
| Stacks.RegressedStackIsServed | src/Exceptionless.Core/Repositories/StackRepository.cs:128-132 | with caching on, the next signature lookup after marking a stack regressed returns the regressed stack |
| Stacks.RepeatedLookupHitsCache | src/Exceptionless.Core/Repositories/StackRepository.cs:98-112 | a second lookup of the same signature returns what the first found |
| Stacks.MergeLeavesSignatureEntry | src/Exceptionless.Core/Repositories/StackRepository.cs:84-85 | a merge leaves a cached signature entry with its pre-merge counters |
| Plugins.InsertContents | src/Exceptionless.Core/Plugins/PluginManagerBase.cs:36 | adding to the sorted list adds exactly the new entry |
| Plugins.InsertKeepsSorted | src/Exceptionless.Core/Plugins/PluginManagerBase.cs:36 | adding a new priority keeps the list strictly sorted |
| Plugins.InsertAt | src/Exceptionless.Core/Plugins/PluginManagerBase.cs:36 | the entry lands before the first larger priority |
| Plugins.Enabled | src/Exceptionless.Core/Plugins/PluginManagerBase.cs:42-46 | the enabled types are exactly those whose name is not on the disabled list, ignoring case |
| Plugins.LoadSucceedsIff | src/Exceptionless.Core/Plugins/PluginManagerBase.cs:39-55 | loading succeeds if and only if every enabled type can be created and no two of them, nor an earlier plugin, share a priority |
| Plugins.LoadedContents | src/Exceptionless.Core/Plugins/PluginManagerBase.cs:39-55 | a successful load is sorted and holds exactly the earlier plugins plus one per enabled type; no disabled type is added |
| Plugins.DuplicatePriorityAborts | src/Exceptionless.Core/Plugins/PluginManagerBase.cs:36 | the first enabled type whose priority is taken aborts the load with that error |
| Plugins.CreationFailureAborts | src/Exceptionless.Core/Plugins/PluginManagerBase.cs:48-53 | a type that cannot be created aborts the load with that error |
| Plugins.MetricPrefix | src/Exceptionless.Core/Plugins/PluginManagerBase.cs:19 | the prefix is the lower-cased type name followed by `.` |
| Plugins.PluginManager.Init | src/Exceptionless.Core/Plugins/PluginManagerBase.cs:17-25 | a new manager has the metric prefix of its type and an empty list |
| Plugins.PluginManager.AddPlugin | src/Exceptionless.Core/Plugins/PluginManagerBase.cs:31-37 | the list stays sorted; it becomes `Add`'s result, or is unchanged when `Add` fails with that error |
| Plugins.PluginManager.LoadDefaultPlugins | src/Exceptionless.Core/Plugins/PluginManagerBase.cs:39-55 | the list stays sorted and ends as `Load`'s result; otherwise the error is `Load`'s first error |
| Plugins.NewPluginManager | src/Exceptionless.Core/Plugins/PluginManagerBase.cs:17-27 | construction fails if and only if loading fails; otherwise the manager holds the loaded list |
| Common.Split | src/Exceptionless.Insulation/Metrics/MetricsConnectionString.cs:14 | splitting with empty entries removed yields non-empty pieces without the separator |
| Common.SplitJoinRoundTrip | src/Exceptionless.Insulation/Metrics/MetricsConnectionString.cs:14 | splitting cuts exactly at the separators: joining non-empty, separator-free pieces with the separator and splitting again gives the same pieces |
| Common.SplitLosesOnlySeparators | src/Exceptionless.Insulation/Metrics/MetricsConnectionString.cs:14 | the pieces, joined, are the input with the separators removed |
| Common.SplitAtFirst | src/Exceptionless.Insulation/Metrics/MetricsConnectionString.cs:16 | splitting into at most two pieces cuts at the first separator |
| Metrics.Segments | src/Exceptionless.Insulation/Metrics/MetricsConnectionString.cs:13-15 | every segment kept contains `=` and no `;` |
| Metrics.Filter | src/Exceptionless.Insulation/Metrics/MetricsConnectionString.cs:15 | keeps exactly the segments that contain `=` |
| Metrics.KeyValue | src/Exceptionless.Insulation/Metrics/MetricsConnectionString.cs:16 | the key holds no `=`, and the key, `=` and value rebuild the segment |
| Metrics.Pairs | src/Exceptionless.Insulation/Metrics/MetricsConnectionString.cs:16 | one key/value pair per segment, in order |
| Metrics.LastWrite | src/Exceptionless.Insulation/Metrics/MetricsConnectionString.cs:18-23 | the reference answer for one name: the value of the last write to it, or none if no write names it |
| Metrics.LastWriterWins | src/Exceptionless.Insulation/Metrics/MetricsConnectionString.cs:12-24 | the dictionary holds under each name exactly the value of the last pair writing it; a later duplicate key in any case overwrites an earlier one |
| Metrics.BlankPartsOfAPair | src/Exceptionless.Insulation/Metrics/MetricsConnectionString.cs:20-23 | a blank value stores the key under the empty name; a blank key with a value stores nothing |
| Metrics.ChosenProvider | src/Exceptionless.Insulation/Metrics/MetricsConnectionString.cs:26 | `provider` is preferred over `reporter`; there is no choice when both are missing |
| Metrics.KindOf | src/Exceptionless.Insulation/Metrics/MetricsConnectionString.cs:27-40 | the recognised kind's name equals the provider ignoring case; an unrecognised provider matches no kind's name |
| Metrics.KindNamesRoundTrip | src/Exceptionless.Insulation/Metrics/MetricsConnectionString.cs:27-40 | each kind is recognised by its own name in any case |
| Metrics.ProviderTakesPrecedence | src/Exceptionless.Insulation/Metrics/MetricsConnectionString.cs:26 | with a `provider` entry, changing or dropping `reporter` changes neither whether parsing succeeds nor the kind |
| Metrics.DispatchOutcomes | src/Exceptionless.Insulation/Metrics/MetricsConnectionString.cs:26-45 | the result is parsed if and only if the chosen provider names a kind; only Prometheus is built without the options. The missing-provider and unknown-provider errors are told apart |
| Metrics.StoreOptions | src/Exceptionless.Insulation/Metrics/MetricsConnectionString.cs:13-24 | the loop leaves the dictionary `OptionsOf` describes, the last writer winning |
| Metrics.Parse | src/Exceptionless.Insulation/Metrics/MetricsConnectionString.cs:8-46 | the loop's dictionary and the dispatch give `ParseOf`; the result is null exactly for an empty string |
| Storage.FileName | src/Exceptionless.Core/Extensions/StorageExtensions.cs:36 | the file name is the suffix of the path after its last directory separator |
| Storage.TwoDigits | src/Exceptionless.Core/Extensions/StorageExtensions.cs:36 | a number below 100 is written as two decimal digits whose value is the number (leading zero kept) |
| Storage.DateFolder | src/Exceptionless.Core/Extensions/StorageExtensions.cs:36 | `yy\MM\dd\HH`: the two-digit year of the century, month, day and hour, separated by `\`, 11 characters in all |
| Storage.ArchivePathShape | src/Exceptionless.Core/Extensions/StorageExtensions.cs:30-36 | an archive path starts with `archive`, so it is never archived twice, and keeps the file name |
| Storage.ArchivePathSeparatesHours | src/Exceptionless.Core/Extensions/StorageExtensions.cs:36 | equal archive paths for one file and project imply the same two-digit year, month, day and hour |
| Storage.FileStorage.GetEventPost | src/Exceptionless.Core/Extensions/StorageExtensions.cs:11-24 | a post is returned if and only if the path is non-empty and the read succeeds; it is the stored post |
| Storage.FileStorage.CompleteEventPost | src/Exceptionless.Core/Extensions/StorageExtensions.cs:26-45 | an empty path gives false; a path under `archive` gives true with nothing moved; a store fault gives false. Otherwise the post is renamed to its archive path or deleted, with the store's answer |
| Storage.ArchiveThenComplete | src/Exceptionless.Core/Extensions/StorageExtensions.cs:26-45 | archiving moves a post so it reads back unchanged from its archive path; completing the archived path again succeeds without touching the store |
| SystemFilter.ForOrganizations | src/Exceptionless.Core/Repositories/Queries/ExceptionlessSystemFilterQuery.cs:18-23 | a null list is rejected, naming `organizations` |
| SystemFilter.ForOrganization | src/Exceptionless.Core/Repositories/Queries/ExceptionlessSystemFilterQuery.cs:13-16 | a null organization is rejected; otherwise the query holds just that organization |
| SystemFilter.ForProjects | src/Exceptionless.Core/Repositories/Queries/ExceptionlessSystemFilterQuery.cs:33-38 | organizations are checked before projects; the query holds both lists |
| SystemFilter.ForProject | src/Exceptionless.Core/Repositories/Queries/ExceptionlessSystemFilterQuery.cs:25-31 | the organization is checked before the project; the query holds one of each |
| SystemFilter.NullOrganizationPassesStackConstructor | src/Exceptionless.Core/Repositories/Queries/ExceptionlessSystemFilterQuery.cs:40-45 | the stack constructor as written accepts a null organization into its list |
| SystemFilter.ForStack | src/Exceptionless.Core/Repositories/Queries/ExceptionlessSystemFilterQuery.cs:40-45 | corrected: both arguments are checked, the organization first |
| SystemFilter.RetentionFilter | src/Exceptionless.Core/Repositories/Queries/ExceptionlessSystemFilterQuery.cs:100-105 | a retention range exists exactly for a positive retention |
| SystemFilter.RetentionAdmits | src/Exceptionless.Core/Repositories/Queries/ExceptionlessSystemFilterQuery.cs:100-105 | the range admits documents dated from `retentionDays` days before today up to tomorrow; no retention admits everything |
| SystemFilter.DateField | src/Exceptionless.Core/Repositories/Queries/ExceptionlessSystemFilterQuery.cs:107-112 | the stack index filters on the last occurrence; anything else, or no options, on the event date |
| SystemFilter.AllowedOrganizations | src/Exceptionless.Core/Repositories/Queries/ExceptionlessSystemFilterQuery.cs:68 | premium organizations are always allowed, the others only for queries without premium features; none is allowed exactly when the query uses premium features and no organization has them |
| SystemFilter.Matching | src/Exceptionless.Core/Repositories/Queries/ExceptionlessSystemFilterQuery.cs:76 | the organizations with the given id, which `Single` needs to be exactly one |
| SystemFilter.NoAllowedOrganization | src/Exceptionless.Core/Repositories/Queries/ExceptionlessSystemFilterQuery.cs:68-72 | with no allowed organization the filter is `organization = none`; with one it is not, unless an organization is itself called `none` |
| SystemFilter.StackFilterAdmits | src/Exceptionless.Core/Repositories/Queries/ExceptionlessSystemFilterQuery.cs:75-79 | the stack branch admits exactly the stack's documents within its organization's retention |
| SystemFilter.ProjectsFilterAdmits | src/Exceptionless.Core/Repositories/Queries/ExceptionlessSystemFilterQuery.cs:81-90 | the projects filter admits exactly the documents of some project that lie within its owner's retention |
| SystemFilter.OrganizationsFilterAdmits | src/Exceptionless.Core/Repositories/Queries/ExceptionlessSystemFilterQuery.cs:92-97 | the organizations filter admits exactly the documents of some organization that lie within its retention |
| SystemFilter.OrganizationBranchUsesAllOrganizations | src/Exceptionless.Core/Repositories/Queries/ExceptionlessSystemFilterQuery.cs:92-97 | once any organization is allowed, the organizations branch filters by every organization, not only the allowed ones |
| SystemFilter.ProjectsFailurePersists | src/Exceptionless.Core/Repositories/Queries/ExceptionlessSystemFilterQuery.cs:83-86 | a project whose owner lookup fails fails the whole loop |
| SystemFilter.ProjectsContainer | src/Exceptionless.Core/Repositories/Queries/ExceptionlessSystemFilterQuery.cs:81-90 | the projects loop fails exactly when `ProjectsFilter` does; otherwise it builds that filter |
| SystemFilter.OrganizationsContainer | src/Exceptionless.Core/Repositories/Queries/ExceptionlessSystemFilterQuery.cs:92-97 | the organizations loop builds `OrganizationsFilter` |
| SystemFilter.Build | src/Exceptionless.Core/Repositories/Queries/ExceptionlessSystemFilterQuery.cs:63-98 | the context's filter is ANDed with `SystemFilterOf`, or kept when an owner lookup throws |
| Users.NormalizeEmail | src/Exceptionless.Core/Repositories/UserRepository.cs:29 | the normalised address is empty exactly for a blank one and holds no upper-case letter |
| Users.LowerThenTrim | src/Exceptionless.Core/Repositories/UserRepository.cs:29 | lower-casing then trimming, as written, gives the same address |
| Users.NormalizeEmailIdempotent | src/Exceptionless.Core/Repositories/UserRepository.cs:29 | normalising twice is normalising once |
| Users.EmailQuery | src/Exceptionless.Core/Repositories/UserRepository.cs:25-32 | no query for a blank address; otherwise the term is the normalised address under key `Email:` plus that address |
| Users.FirstWhere | src/Exceptionless.Core/Repositories/UserRepository.cs:34-35 | the hit is a stored user that matches, or no user matches |
| Users.GetByEmailAddress | src/Exceptionless.Core/Repositories/UserRepository.cs:25-36 | null for a blank address; otherwise a user with the normalised address, or none has it |
| Users.LookupKeyIsInvalidationKey | src/Exceptionless.Core/Repositories/UserRepository.cs:85 | the key a lookup caches under is the key that invalidating the found user removes, however the lookup was spelled |
| Users.SpellingsShareKey | src/Exceptionless.Core/Repositories/UserRepository.cs:29-32 | an address spelled with other ASCII case and with white space added at either end has the same cache key |
| Users.GetByPasswordResetToken | src/Exceptionless.Core/Repositories/UserRepository.cs:38-45 | null for an empty token; otherwise a user with that token, or none has it |
| Users.GetByVerifyEmailAddressToken | src/Exceptionless.Core/Repositories/UserRepository.cs:59-66 | null for an empty token; otherwise a user with that token, or none has it |
| Users.Candidates | src/Exceptionless.Core/Repositories/UserRepository.cs:53-54 | exactly the users with an account of that provider user id |
| Users.GetUserByOAuthProviderAsWritten | src/Exceptionless.Core/Repositories/UserRepository.cs:47-57 | as written: null for empty arguments; a hit has the provider user id on one account and the lower-cased provider on some account |
| Users.OAuthLookupMixesAccounts | src/Exceptionless.Core/Repositories/UserRepository.cs:53-56 | a user with GitHub account "1" and Google account "2" is returned for Google account "1", which the user lacks |
| Users.GetUserByOAuthProvider | src/Exceptionless.Core/Repositories/UserRepository.cs:47-57 | corrected: a hit has one account with both the lower-cased provider and the provider user id, and a miss means no user has such an account |
| Users.CorrectedLookupRefinesWritten | src/Exceptionless.Core/Repositories/UserRepository.cs:47-57 | whenever the corrected lookup finds a user, the lookup as written finds one too |
| Users.GetByOrganizationId | src/Exceptionless.Core/Repositories/UserRepository.cs:68-78 | no query for an empty id; otherwise it sorts by address ascending and carries the `paged:Organization:` key exactly when caching is asked for |
| Users.OriginalsAndModified | src/Exceptionless.Core/Repositories/UserRepository.cs:84 | the union holds every modified document and every original |
| Users.AllOrganizationIds | src/Exceptionless.Core/Repositories/UserRepository.cs:100 | exactly the organization ids of the users |
| Users.DistinctNonEmpty | src/Exceptionless.Core/Repositories/UserRepository.cs:100 | the non-empty ids, each once |
| Users.StaleOrganizations | src/Exceptionless.Core/Repositories/UserRepository.cs:100 | exactly the non-empty organization ids of the users |
| Users.UserRepository.InvalidateCachedQueries | src/Exceptionless.Core/Repositories/UserRepository.cs:99-103 | removes exactly the keys under `paged:Organization:{id}:` of every stale organization |
| Users.UserRepository.InvalidateCache | src/Exceptionless.Core/Repositories/UserRepository.cs:80-90 | removes the e-mail keys of every original and modified user, then their organizations' paged queries |
| Users.UserRepository.OnDocumentsAdded | src/Exceptionless.Core/Repositories/UserRepository.cs:92-97 | an added user makes its organizations' paged queries stale |
| Users.ChangeClearsLookups | src/Exceptionless.Core/Repositories/UserRepository.cs:80-90 | after a change, a cached lookup by the old address, in any spelling, is gone, and so is every cached page of the old and new organizations |
| Status.AfterRequest | src/Exceptionless.Web/Controllers/StatusController.cs:53-56 | a check runs before the first result exists or once the due time has passed; it records the result and a due time 5 s later; otherwise nothing changes |
| Status.Respond | src/Exceptionless.Web/Controllers/StatusController.cs:58-76 | unhealthy gives 503 with the check's message; healthy gives "All Systems Check", with the app scope exactly when it is set |
| Status.ChecksAreSpaced | src/Exceptionless.Web/Controllers/StatusController.cs:53-56 | for any sequence of requests, however their times are ordered, any two checks are more than 5 s apart |
| Status.HealthCheckCache.constructor | src/Exceptionless.Web/Controllers/StatusController.cs:32-33 | no result and a due time of `DateTime.MinValue` at start |
| Status.HealthCheckCache.Index | src/Exceptionless.Web/Controllers/StatusController.cs:52-77 | the checker is called exactly when `NeedsCheck` holds; the statics follow `AfterRequest`, and the response comes from the stored result |
| Status.RepeatWithinIntervalIsCached | src/Exceptionless.Web/Controllers/StatusController.cs:52-77 | within 5 s of a check, a second request reuses its response without calling the checker |
| Status.StatusController.GetSystemNotification | src/Exceptionless.Web/Controllers/StatusController.cs:129-135 | returns the cached notification, and an empty OK when there is none |
| Status.StatusController.PostSystemNotification | src/Exceptionless.Web/Controllers/StatusController.cs:139-148 | a blank message gives 404 and changes nothing; otherwise the notification is cached and published |
| Status.StatusController.RemoveSystemNotification | src/Exceptionless.Web/Controllers/StatusController.cs:152-156 | drops the cached notification and publishes one without a message |
| Status.PostGetRemoveGet | src/Exceptionless.Web/Controllers/StatusController.cs:129-156 | a posted notification is what the next read returns; after a removal the read is empty, and both changes are published in order |

## Left out

- Logging, metrics counters and `async`/`AnyContext` plumbing are left out. They do not affect the results.
- Concurrency between workers and requests is not modelled. Each operation is one atomic step over the state it reads.
- `Stacks.StackRepository.IncrementEventCounter`: the store's retry-on-conflict (3 attempts) is not modelled. The `writeConflict` flag stands for all retries failing. A stack missing from the store is treated as an invalid update.
- The base repositories' own caching is left out: entries by id, the default expiry, `base.AddToCacheAsync` and `base.InvalidateCacheAsync`. The models cover only the keys these classes add. Cache lifetimes are modelled only in the notification job, where they matter.
- The paged organization query caches under `paged:Organization:{id}`. Invalidation removes keys starting with `paged:Organization:{id}:`. That match relies on the base repository appending a paging suffix to the key, which is not part of this model. `Users.UserRepository.InvalidateCachedQueries` states the prefix removal only.
- The Slack service, the mailer, the user-agent parser and the wildcard matcher are inputs: their verdicts are parameters. So are the health checker, the website mode and the outbound address list.
- The clock is a parameter read once per operation. `IndexAsync` reads it twice (once in the guard, once for the due time), and one run of the notification job reads it for the stack throttle, again for the project bucket and twice more for the "last sent" entry (`EventNotificationsJob.cs` lines 64, 74 and 130); the model uses one instant for each.
- `Status.HealthCheckCache.Index`: the checker is modelled as always returning. In the source the due time is set before the checker is awaited, so a checker that throws leaves the due time advanced and the previous result (or none) in place; the model does not capture that path.
- Query paging, sorting and the document results of searches are not evaluated. Only the query that is built is modelled, and for the system filter the set of documents it admits.
- Filter `&&` and `||` follow NEST's filter-container semantics: a null operand is dropped.
- Case and white space follow the ASCII rules only. There is no culture-specific case mapping and no Unicode white space.
- The metrics option dictionary is modelled with lower-cased keys; it looks up case-insensitively. The key spelling it keeps for enumeration is not modelled. The connection-string objects built for each kind are reduced to their kind, the string and the options they receive.
- `Storage.FileStorage.CompleteEventPost`: the rename and delete use the in-memory file store's semantics: a missing file fails and changes nothing. Any exception from the store is the `storageFault` flag, and a failed or unreadable read is `readFault` or an unreadable file. The date format assumes a valid calendar time; only the year modulo 100 enters the path.
- The stack throttle uses an entry with a 15-minute expiry against a 30-minute window. The model keeps both constants as written (see `Notifications.StackThrottleLapsesWithItsEntry`).
- A duplicate plugin priority makes `SortedList.Add` throw, which aborts the whole load. The model follows that code rather than a tie-break by type name.
- `Stacks.StackRepository.MarkAsRegressed`: the base repository's `SaveAsync` is not part of this model. The model takes its effect as invalidating the signature entry, then re-caching the saved stack through this class's `AddToCache` override, then publishing a `Saved` change without delay. The by-id entry the base class caches is not modelled. A missing stack makes the source throw a `NullReferenceException`; the model returns false and changes nothing.
- `Stacks.GetByFilter`: only the search is built; running it, paging and the result documents are not modelled. The system filter query is carried as a value; what it admits is stated by `SystemFilter.Build` and its lemmas.
- `Storage.FileName`: `Path.GetFileName` depends on the platform. On Unix only `/` separates directories; on Windows `\` and `/` do (and the .NET Framework also splits at `:` and throws on invalid path characters, which the completion's catch would turn into false). The model treats both `\` and `/` as separators and never throws.
- `Storage.FileStorage.CompleteEventPost`: `path.StartsWith("archive")` uses the current culture in the source; the model compares ordinally, which agrees for every ASCII path.
- A project's notification settings are a dictionary in the source, so each recipient appears once. The model holds them as a sequence of pairs and does not require distinct keys; with a repeated key the model would deliver to that recipient twice, which the source cannot.
- `IncrementEventCounter` removes only the cache entry keyed by the stack id, not the stack's signature entry. The model follows the code (see `Stacks.MergeLeavesSignatureEntry`).
- `Notifications.Deliveries`: its own contract states only a bound. Its contents are stated by `Notifications.DeliveredRecipientsWereEligible` and `Notifications.EligibleRecipientsAreDelivered`.
- `ExceptionlessSystemFilterQuery`'s settable `UsesPremiumFeatures` and `IsUserOrganizationsFilter` are plain fields of the query value. The builder never reads `IsUserOrganizationsFilter`.

## Findings

| source | as written | input that shows it | evidently intended | confidence | as-written member | corrected member |
|---|---|---|---|---|---|---|
| src/Exceptionless.Core/Repositories/Queries/ExceptionlessSystemFilterQuery.cs:40-45 | the stack constructor checks the stack for null but not the organization, so a null organization enters the query's list; the builder later dereferences it | `new ExceptionlessSystemFilterQuery(stack, null)` succeeds with `Organizations == [null]` | throw `ArgumentNullException("organization")` like the other single-organization constructors | not executed | SystemFilter.NullOrganizationPassesStackConstructor | SystemFilter.ForStack |
| src/Exceptionless.Core/Repositories/UserRepository.cs:53-56 | the OAuth lookup matches the provider user id on one account and the provider on any account of the same user | a user with accounts (github, "1") and (google, "2") is returned for provider "Google", id "1" | return only a user with one account having both the provider and the provider user id | not executed | Users.OAuthLookupMixesAccounts | Users.GetUserByOAuthProvider |
