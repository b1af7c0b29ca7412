/**
 * The application store (`useStore`): the signed-in user, the settings, the
 * authentication and dark-mode flags and the notification list, and the
 * actions that build each new state from the old one.
 *
 * `set(partial)` merges the fields it names into the state and keeps the
 * rest, so every action is a state-to-state function here. The id and the
 * creation time `addNotification` reads from the clock are parameters.
 */
module Store {
  import opened Wrappers

  datatype User = User(id: string, username: string, email: string)

  datatype Theme = Light | Dark | System
  datatype EmailFrequency = Daily | Weekly | Monthly
  datatype PrivacyLevel = High | Balanced | Low

  datatype Settings = Settings(
    language: string,
    theme: Theme,
    notifications: bool,
    emailFrequency: EmailFrequency,
    aiModel: string,
    privacyLevel: PrivacyLevel)

  /** `Partial<Settings>`: each field either supplied or absent. */
  datatype PartialSettings = PartialSettings(
    language: Option<string>,
    theme: Option<Theme>,
    notifications: Option<bool>,
    emailFrequency: Option<EmailFrequency>,
    aiModel: Option<string>,
    privacyLevel: Option<PrivacyLevel>)

  datatype NotificationType = Info | Success | Warning | Error

  type Time = int

  datatype Notification = Notification(
    id: string, title: string, message: string, kind: NotificationType, read: bool, createdAt: Time)

  /** What a caller passes to `addNotification`: a notification without id, read flag and time. */
  datatype NotificationInput = NotificationInput(title: string, message: string, kind: NotificationType)

  datatype AppState = AppState(
    user: Option<User>,
    settings: Settings,
    isAuthenticated: bool,
    isDarkMode: bool,
    notifications: seq<Notification>)

  const DefaultSettings := Settings("en", System, true, Daily, "gpt-3.5-turbo", Balanced)

  const NoSettings := PartialSettings(None, None, None, None, None, None)

  /** The state the store is created with. */
  function Initial(): (s: AppState)
    ensures s.user == None && !s.isAuthenticated && !s.isDarkMode && s.notifications == []
    ensures s.settings == DefaultSettings
  {
    AppState(None, DefaultSettings, false, false, [])
  }

  /** `setUser(user)`: replaces the user and nothing else. */
  function SetUser(s: AppState, user: Option<User>): (r: AppState)
    ensures r.user == user
    ensures r.settings == s.settings && r.isAuthenticated == s.isAuthenticated
    ensures r.isDarkMode == s.isDarkMode && r.notifications == s.notifications
  {
    s.(user := user)
  }

  function Pick<T>(supplied: Option<T>, current: T): T
  {
    match supplied
    case Some(v) => v
    case None => current
  }

  /** `{ ...current, ...supplied }` on settings. */
  function Merge(current: Settings, supplied: PartialSettings): (r: Settings)
    // a supplied field wins, an absent one keeps its value
    ensures supplied.language.Some? ==> r.language == supplied.language.value
    ensures supplied.language.None? ==> r.language == current.language
    ensures supplied.theme.Some? ==> r.theme == supplied.theme.value
    ensures supplied.theme.None? ==> r.theme == current.theme
    ensures supplied.notifications.Some? ==> r.notifications == supplied.notifications.value
    ensures supplied.notifications.None? ==> r.notifications == current.notifications
    ensures supplied.emailFrequency.Some? ==> r.emailFrequency == supplied.emailFrequency.value
    ensures supplied.emailFrequency.None? ==> r.emailFrequency == current.emailFrequency
    ensures supplied.aiModel.Some? ==> r.aiModel == supplied.aiModel.value
    ensures supplied.aiModel.None? ==> r.aiModel == current.aiModel
    ensures supplied.privacyLevel.Some? ==> r.privacyLevel == supplied.privacyLevel.value
    ensures supplied.privacyLevel.None? ==> r.privacyLevel == current.privacyLevel
  {
    Settings(
      Pick(supplied.language, current.language),
      Pick(supplied.theme, current.theme),
      Pick(supplied.notifications, current.notifications),
      Pick(supplied.emailFrequency, current.emailFrequency),
      Pick(supplied.aiModel, current.aiModel),
      Pick(supplied.privacyLevel, current.privacyLevel))
  }

  /** `setSettings(partial)`: merges the supplied fields into the settings; nothing else changes. */
  function SetSettings(s: AppState, supplied: PartialSettings): (r: AppState)
    ensures r.settings == Merge(s.settings, supplied)
    ensures r.user == s.user && r.isAuthenticated == s.isAuthenticated
    ensures r.isDarkMode == s.isDarkMode && r.notifications == s.notifications
  {
    s.(settings := Merge(s.settings, supplied))
  }

  /** `setIsAuthenticated(flag)`: replaces the flag and nothing else. */
  function SetIsAuthenticated(s: AppState, isAuthenticated: bool): (r: AppState)
    ensures r.isAuthenticated == isAuthenticated
    ensures r.user == s.user && r.settings == s.settings
    ensures r.isDarkMode == s.isDarkMode && r.notifications == s.notifications
  {
    s.(isAuthenticated := isAuthenticated)
  }

  /** `toggleDarkMode()`: flips the dark-mode flag and nothing else. */
  function ToggleDarkMode(s: AppState): (r: AppState)
    ensures r.isDarkMode != s.isDarkMode
    ensures r.user == s.user && r.settings == s.settings
    ensures r.isAuthenticated == s.isAuthenticated && r.notifications == s.notifications
  {
    s.(isDarkMode := !s.isDarkMode)
  }

  /** `logout()`: forgets the user and clears the flag; settings, dark mode and notifications stay. */
  function Logout(s: AppState): (r: AppState)
    ensures r.user == None && !r.isAuthenticated
    ensures r.settings == s.settings && r.isDarkMode == s.isDarkMode && r.notifications == s.notifications
  {
    s.(user := None, isAuthenticated := false)
  }

  /** `addNotification(input)`: the new notification, unread, goes in front of the old list. */
  function AddNotification(s: AppState, input: NotificationInput, id: string, now: Time): (r: AppState)
    ensures |r.notifications| == |s.notifications| + 1
    ensures r.notifications[0] == Notification(id, input.title, input.message, input.kind, false, now)
    ensures r.notifications[1..] == s.notifications
    ensures r.user == s.user && r.settings == s.settings
    ensures r.isAuthenticated == s.isAuthenticated && r.isDarkMode == s.isDarkMode
  {
    var n := Notification(id, input.title, input.message, input.kind, false, now);
    s.(notifications := [n] + s.notifications)
  }

  /** `markNotificationAsRead(id)`: every notification with that id becomes read; the rest, and the order, stay. */
  function MarkRead(ns: seq<Notification>, id: string): (r: seq<Notification>)
    ensures |r| == |ns|
    ensures forall i :: 0 <= i < |ns| && ns[i].id == id ==> r[i] == ns[i].(read := true)
    ensures forall i :: 0 <= i < |ns| && ns[i].id != id ==> r[i] == ns[i]
  {
    seq(|ns|, i requires 0 <= i < |ns| => if ns[i].id == id then ns[i].(read := true) else ns[i])
  }

  function MarkNotificationAsRead(s: AppState, id: string): (r: AppState)
    ensures r.notifications == MarkRead(s.notifications, id)
    ensures r.user == s.user && r.settings == s.settings
    ensures r.isAuthenticated == s.isAuthenticated && r.isDarkMode == s.isDarkMode
  {
    s.(notifications := MarkRead(s.notifications, id))
  }

  /** `clearNotifications()`: empties the list and nothing else. */
  function ClearNotifications(s: AppState): (r: AppState)
    ensures r.notifications == []
    ensures r.user == s.user && r.settings == s.settings
    ensures r.isAuthenticated == s.isAuthenticated && r.isDarkMode == s.isDarkMode
  {
    s.(notifications := [])
  }

  /** How many notifications are still unread (what a badge would show). */
  function UnreadCount(ns: seq<Notification>): (n: nat)
    ensures n <= |ns|
  {
    if ns == [] then 0 else (if ns[0].read then 0 else 1) + UnreadCount(ns[1..])
  }

  // ---- Properties relating several actions ----

  /** An empty partial changes nothing. */
  lemma SetSettingsEmpty(s: AppState)
    ensures SetSettings(s, NoSettings) == s
  {
  }

  /** The later of two partials wins field by field: two calls are one call with the combined partial. */
  function Combine(first: PartialSettings, second: PartialSettings): PartialSettings
  {
    PartialSettings(
      if second.language.Some? then second.language else first.language,
      if second.theme.Some? then second.theme else first.theme,
      if second.notifications.Some? then second.notifications else first.notifications,
      if second.emailFrequency.Some? then second.emailFrequency else first.emailFrequency,
      if second.aiModel.Some? then second.aiModel else first.aiModel,
      if second.privacyLevel.Some? then second.privacyLevel else first.privacyLevel)
  }

  lemma SetSettingsTwice(s: AppState, first: PartialSettings, second: PartialSettings)
    ensures SetSettings(SetSettings(s, first), second) == SetSettings(s, Combine(first, second))
    ensures SetSettings(SetSettings(s, first), first) == SetSettings(s, first)
  {
  }

  /** Two toggles restore the original state. */
  lemma ToggleTwice(s: AppState)
    ensures ToggleDarkMode(ToggleDarkMode(s)) == s
  {
  }

  /** Logging out twice is logging out once, and logging out from the initial state changes nothing. */
  lemma LogoutIdempotent(s: AppState)
    ensures Logout(Logout(s)) == Logout(s)
    ensures Logout(Initial()) == Initial()
  {
  }

  /** Marking twice is marking once. */
  lemma MarkReadIdempotent(ns: seq<Notification>, id: string)
    ensures MarkRead(MarkRead(ns, id), id) == MarkRead(ns, id)
  {
  }

  /** After marking, no notification with that id is unread, and the ids are those before. */
  lemma MarkReadEffect(ns: seq<Notification>, id: string)
    ensures forall i :: 0 <= i < |ns| ==> MarkRead(ns, id)[i].id == ns[i].id
    ensures forall i :: 0 <= i < |ns| && ns[i].id == id ==> MarkRead(ns, id)[i].read
  {
  }

  /** Marking never makes a notification unread, so the unread count never grows. */
  lemma {:induction false} MarkReadUnreadCount(ns: seq<Notification>, id: string)
    ensures UnreadCount(MarkRead(ns, id)) <= UnreadCount(ns)
    ensures (forall i :: 0 <= i < |ns| ==> ns[i].id != id) ==> UnreadCount(MarkRead(ns, id)) == UnreadCount(ns)
  {
    if ns != [] {
      assert MarkRead(ns, id)[1..] == MarkRead(ns[1..], id);
      MarkReadUnreadCount(ns[1..], id);
    }
  }

  /** Adding a notification adds one unread one. */
  lemma AddNotificationUnread(s: AppState, input: NotificationInput, id: string, now: Time)
    ensures UnreadCount(AddNotification(s, input, id, now).notifications) == UnreadCount(s.notifications) + 1
  {
    var ns := AddNotification(s, input, id, now).notifications;
    assert ns[1..] == s.notifications;
  }
}
