/**
  * The settings store (src/hooks/useSettings.ts): the initial load from
  * storage and the updaters passed to `setSettings`, each a pure function
  * from the previous record to the next; and the completion rule of the
  * page (src/pages/Index.tsx), which counts finished work sessions.
  *
  * Storage, JSON and the DOM are not modelled: what `JSON.parse` made of the
  * stored text is an input, a record whose top-level keys may each be absent.
  */
module Settings {
  import opened Options
  import opened PomodoroTypes

  /** What `JSON.parse` made of the stored text: a record with optional top-level keys, or a parse error. */
  datatype StoredSettings = StoredSettings(
    theme: Option<string>,
    designStyle: Option<string>,
    timerSettings: Option<TimerSettings>,
    notifications: Option<NotificationSettings>,
    integrations: Option<IntegrationSettings>,
    stats: Option<Stats>)

  datatype ParseOutcome = Parsed(value: StoredSettings) | ParseError

  /** A stored record with every key present: what saving `s` writes. */
  function Stored(s: PomodoroSettings): StoredSettings {
    StoredSettings(Some(s.theme), Some(s.designStyle), Some(s.timerSettings),
      Some(s.notifications), Some(s.integrations), Some(s.stats))
  }

  /**
    * The initial load: with stored, non-empty text that parses, each
    * top-level key present in it replaces the default's wholesale and every
    * other key keeps its default; otherwise the defaults.
    */
  function LoadSettings(stored: Option<string>, parsed: ParseOutcome): (s: PomodoroSettings)
    ensures (stored.None? || stored.value == [] || parsed.ParseError?) ==> s == DefaultSettings()
    ensures stored.Some? && stored.value != [] && parsed.Parsed? ==>
      var p := parsed.value;
      && s.theme == p.theme.GetOr(DefaultSettings().theme)
      && s.designStyle == p.designStyle.GetOr(DefaultSettings().designStyle)
      && s.timerSettings == p.timerSettings.GetOr(DefaultSettings().timerSettings)
      && s.notifications == p.notifications.GetOr(DefaultSettings().notifications)
      && s.integrations == p.integrations.GetOr(DefaultSettings().integrations)
      && s.stats == p.stats.GetOr(DefaultSettings().stats)
  {
    if stored.None? || stored.value == [] then DefaultSettings()
    else match parsed
      case ParseError => DefaultSettings()
      case Parsed(p) =>
        var d := DefaultSettings();
        PomodoroSettings(
          p.theme.GetOr(d.theme), p.designStyle.GetOr(d.designStyle), p.timerSettings.GetOr(d.timerSettings),
          p.notifications.GetOr(d.notifications), p.integrations.GetOr(d.integrations), p.stats.GetOr(d.stats))
  }

  /** Loading what was saved gives back the saved record. */
  lemma LoadStoredRoundTrip(text: string, s: PomodoroSettings)
    requires text != []
    ensures LoadSettings(Some(text), Parsed(Stored(s))) == s
  {
  }

  /** A stored record with an `integrations` key replaces both integrations, not just the one it mentions. */
  lemma LoadIsShallow(text: string, p: StoredSettings, i: IntegrationSettings)
    requires text != [] && p.integrations == Some(i)
    ensures LoadSettings(Some(text), Parsed(p)).integrations.webhook == i.webhook
    ensures LoadSettings(Some(text), Parsed(p)).integrations.telegram == i.telegram
  {
  }

  /** `toggleTheme`: "light" becomes "dark", anything else "light"; nothing else changes. */
  function ToggleTheme(s: PomodoroSettings): (r: PomodoroSettings)
    ensures r == s.(theme := r.theme)
    ensures r.theme == DarkTheme <==> s.theme == LightTheme
    ensures r.theme == LightTheme || r.theme == DarkTheme
  {
    s.(theme := if s.theme == LightTheme then DarkTheme else LightTheme)
  }

  /** Toggling twice restores a "light" or "dark" record. */
  lemma ToggleThemeTwice(s: PomodoroSettings)
    requires s.theme == LightTheme || s.theme == DarkTheme
    ensures ToggleTheme(ToggleTheme(s)) == s
  {
  }

  /** Any other stored theme is not restored: the first toggle gives "light", the second "dark". */
  lemma ToggleThemeNormalises(s: PomodoroSettings)
    requires s.theme != LightTheme && s.theme != DarkTheme
    ensures ToggleTheme(s).theme == LightTheme && ToggleTheme(ToggleTheme(s)).theme == DarkTheme
    ensures ToggleTheme(ToggleTheme(s)) != s
  {
  }

  /** `setDesignStyle(d)`: sets the design style and nothing else. */
  function SetDesignStyle(s: PomodoroSettings, d: string): (r: PomodoroSettings)
    ensures r.designStyle == d
    ensures r.(designStyle := s.designStyle) == s
  {
    s.(designStyle := d)
  }

  /** A `Partial<NotificationSettings>`: a key that is absent is `None`. */
  datatype NotificationsPatch = NotificationsPatch(sound: Option<bool>, browser: Option<bool>)

  /** A `Partial<TelegramSettings>`. */
  datatype TelegramPatch = TelegramPatch(enabled: Option<bool>, token: Option<string>, chatId: Option<string>)

  /** A `Partial<WebhookSettings>`. */
  datatype WebhookPatch = WebhookPatch(enabled: Option<bool>, url: Option<string>, payload: Option<string>)

  /** A later value for a key if there is one, else the earlier. */
  function Later<T>(earlier: Option<T>, later: Option<T>): Option<T> {
    if later.Some? then later else earlier
  }

  /** `{...n, ...p}`. */
  function MergeNotifications(n: NotificationSettings, p: NotificationsPatch): NotificationSettings {
    NotificationSettings(p.sound.GetOr(n.sound), p.browser.GetOr(n.browser))
  }

  function MergeTelegram(t: TelegramSettings, p: TelegramPatch): TelegramSettings {
    TelegramSettings(p.enabled.GetOr(t.enabled), p.token.GetOr(t.token), p.chatId.GetOr(t.chatId))
  }

  function MergeWebhook(w: WebhookSettings, p: WebhookPatch): WebhookSettings {
    WebhookSettings(p.enabled.GetOr(w.enabled), p.url.GetOr(w.url), p.payload.GetOr(w.payload))
  }

  /** One patch followed by another: keys of the second win. */
  function ThenNotifications(p: NotificationsPatch, q: NotificationsPatch): NotificationsPatch {
    NotificationsPatch(Later(p.sound, q.sound), Later(p.browser, q.browser))
  }

  function ThenTelegram(p: TelegramPatch, q: TelegramPatch): TelegramPatch {
    TelegramPatch(Later(p.enabled, q.enabled), Later(p.token, q.token), Later(p.chatId, q.chatId))
  }

  function ThenWebhook(p: WebhookPatch, q: WebhookPatch): WebhookPatch {
    WebhookPatch(Later(p.enabled, q.enabled), Later(p.url, q.url), Later(p.payload, q.payload))
  }

  /**
    * The merges behave as shallow spreads: the empty patch changes nothing,
    * applying a patch twice is applying it once, and two patches in turn are
    * the combined patch in which the second's keys win.
    */
  lemma NotificationsMergeLaws(n: NotificationSettings, p: NotificationsPatch, q: NotificationsPatch)
    ensures MergeNotifications(n, NotificationsPatch(None, None)) == n
    ensures MergeNotifications(MergeNotifications(n, p), p) == MergeNotifications(n, p)
    ensures MergeNotifications(MergeNotifications(n, p), q) == MergeNotifications(n, ThenNotifications(p, q))
  {
  }

  lemma TelegramMergeLaws(t: TelegramSettings, p: TelegramPatch, q: TelegramPatch)
    ensures MergeTelegram(t, TelegramPatch(None, None, None)) == t
    ensures MergeTelegram(MergeTelegram(t, p), p) == MergeTelegram(t, p)
    ensures MergeTelegram(MergeTelegram(t, p), q) == MergeTelegram(t, ThenTelegram(p, q))
  {
  }

  lemma WebhookMergeLaws(w: WebhookSettings, p: WebhookPatch, q: WebhookPatch)
    ensures MergeWebhook(w, WebhookPatch(None, None, None)) == w
    ensures MergeWebhook(MergeWebhook(w, p), p) == MergeWebhook(w, p)
    ensures MergeWebhook(MergeWebhook(w, p), q) == MergeWebhook(w, ThenWebhook(p, q))
  {
  }

  /** `updateNotifications(p)`: merges `p` into the notification settings; nothing else changes. */
  function UpdateNotifications(s: PomodoroSettings, p: NotificationsPatch): (r: PomodoroSettings)
    ensures r.notifications.sound == if p.sound.Some? then p.sound.value else s.notifications.sound
    ensures r.notifications.browser == if p.browser.Some? then p.browser.value else s.notifications.browser
    ensures r.(notifications := s.notifications) == s
  {
    s.(notifications := MergeNotifications(s.notifications, p))
  }

  /** `updateTelegram(p)`: merges `p` into the Telegram settings; the webhook and the rest are unchanged. */
  function UpdateTelegram(s: PomodoroSettings, p: TelegramPatch): (r: PomodoroSettings)
    ensures r.integrations.telegram.enabled == if p.enabled.Some? then p.enabled.value else s.integrations.telegram.enabled
    ensures r.integrations.telegram.token == if p.token.Some? then p.token.value else s.integrations.telegram.token
    ensures r.integrations.telegram.chatId == if p.chatId.Some? then p.chatId.value else s.integrations.telegram.chatId
    ensures r.integrations.webhook == s.integrations.webhook
    ensures r.(integrations := s.integrations) == s
  {
    s.(integrations := s.integrations.(telegram := MergeTelegram(s.integrations.telegram, p)))
  }

  /** `updateWebhook(p)`: merges `p` into the webhook settings; Telegram and the rest are unchanged. */
  function UpdateWebhook(s: PomodoroSettings, p: WebhookPatch): (r: PomodoroSettings)
    ensures r.integrations.webhook.enabled == if p.enabled.Some? then p.enabled.value else s.integrations.webhook.enabled
    ensures r.integrations.webhook.url == if p.url.Some? then p.url.value else s.integrations.webhook.url
    ensures r.integrations.webhook.payload == if p.payload.Some? then p.payload.value else s.integrations.webhook.payload
    ensures r.integrations.telegram == s.integrations.telegram
    ensures r.(integrations := s.integrations) == s
  {
    s.(integrations := s.integrations.(webhook := MergeWebhook(s.integrations.webhook, p)))
  }

  /** Updates of the two integrations touch disjoint parts, so their order does not matter. */
  lemma IntegrationUpdatesCommute(s: PomodoroSettings, tp: TelegramPatch, wp: WebhookPatch)
    ensures UpdateTelegram(UpdateWebhook(s, wp), tp) == UpdateWebhook(UpdateTelegram(s, tp), wp)
  {
  }

  /** `incrementSessions`: the counter goes up by exactly one; nothing else changes. */
  function IncrementSessions(s: PomodoroSettings): (r: PomodoroSettings)
    ensures r.stats.sessionsCompleted == s.stats.sessionsCompleted + 1
    ensures r.(stats := s.stats) == s
  {
    s.(stats := s.stats.(sessionsCompleted := s.stats.sessionsCompleted + 1))
  }

  /** What the page's completion handler does: the new settings and the mode it asks to be notified about. */
  datatype Completion = Completion(settings: PomodoroSettings, notified: TimerMode)

  /**
    * `handleTimerComplete(mode)`: counts the session when the finished mode
    * is work, and asks for the completion notification whatever the mode.
    */
  function OnTimerComplete(s: PomodoroSettings, m: TimerMode): (r: Completion)
    ensures r.notified == m
    ensures r.settings.stats.sessionsCompleted == s.stats.sessionsCompleted + (if m == Work then 1 else 0)
    ensures r.settings.(stats := s.stats) == s
  {
    var next := if ModeId(m) == "work" then IncrementSessions(s) else s;
    Completion(next, m)
  }

  /** The completion handler applied to each finished mode in turn. */
  function CompleteAll(s: PomodoroSettings, ms: seq<TimerMode>): PomodoroSettings
    decreases |ms|
  {
    if ms == [] then s else CompleteAll(OnTimerComplete(s, ms[0]).settings, ms[1..])
  }

  /** How many work sessions a sequence of completions holds. */
  function WorkCount(ms: seq<TimerMode>): nat
    decreases |ms|
  {
    if ms == [] then 0 else (if ms[0] == Work then 1 else 0) + WorkCount(ms[1..])
  }

  /**
    * The counter counts work sessions: after any sequence of completions it
    * has grown by the number of work sessions among them, and nothing else
    * in the settings has changed.
    */
  lemma {:induction false} CounterCountsWorkSessions(s: PomodoroSettings, ms: seq<TimerMode>)
    ensures CompleteAll(s, ms).stats.sessionsCompleted == s.stats.sessionsCompleted + WorkCount(ms)
    ensures CompleteAll(s, ms).(stats := s.stats) == s
    decreases |ms|
  {
    if ms != [] {
      CounterCountsWorkSessions(OnTimerComplete(s, ms[0]).settings, ms[1..]);
    }
  }
}
