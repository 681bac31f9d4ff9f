/** The entities of the modelled core, reduced to the fields its logic reads or
    writes. Times are .NET ticks (100 ns); `DateTime.MinValue` is tick 0. */
module Models {

  /** The stack index's last-occurrence field. */
  const LastOccurrenceField: string := "last_occurrence"

  /** A deduplicated problem: every event with the same signature hash in a
      project counts towards one stack. */
  datatype Stack = Stack(
    id: string,
    organizationId: string,
    projectId: string,
    signatureHash: string,
    totalOccurrences: int,
    firstOccurrence: int,
    lastOccurrence: int,
    isRegressed: bool)

  /** What one recipient of a project wants to hear about. */
  datatype NotificationSettings = NotificationSettings(
    reportNewErrors: bool,
    reportCriticalErrors: bool,
    reportEventRegressions: bool,
    reportNewEvents: bool,
    reportCriticalEvents: bool)

  /** A project: its owner, its recipients (user id or integration name, in
      dictionary enumeration order) and its configured bot user-agent patterns
      (empty when the setting is absent). */
  datatype Project = Project(
    id: string,
    organizationId: string,
    notificationSettings: seq<(string, NotificationSettings)>,
    botPatterns: seq<string>)

  datatype Organization = Organization(
    id: string,
    hasPremiumFeatures: bool,
    retentionDays: int)

  datatype OAuthAccount = OAuthAccount(provider: string, providerUserId: string)

  datatype User = User(
    id: string,
    emailAddress: string,
    isEmailAddressVerified: bool,
    emailNotificationsEnabled: bool,
    organizationIds: seq<string>,
    oauthAccounts: seq<OAuthAccount>,
    passwordResetToken: string,
    verifyEmailAddressToken: string)

  /** A stored event. `userAgent` is the request user agent, "" when the event
      carries no request information. */
  datatype PersistentEvent = PersistentEvent(
    id: string,
    organizationId: string,
    projectId: string,
    stackId: string,
    isDeleted: bool,
    isError: bool,
    isCritical: bool,
    userAgent: string)

  /** The notification queue's payload. */
  datatype EventNotificationWorkItem = EventNotificationWorkItem(
    eventId: string,
    isNew: bool,
    isRegression: bool,
    totalOccurrences: int)

  datatype ChangeType = Added | Saved | Removed

  /** A change message handed to the message bus, with its publish delay. */
  datatype EntityChanged = EntityChanged(
    changeType: ChangeType,
    id: string,
    organizationId: string,
    projectId: string,
    typeName: string,
    delayMilliseconds: nat)
}
