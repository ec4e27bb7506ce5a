/**
  * The data model shared by the timer, the notification dispatcher and the
  * settings store (src/types/pomodoro.ts): the three timer modes, the
  * settings records, the default settings and the two per-mode tables.
  * Durations and counters are JavaScript numbers; the model takes them as
  * unbounded integers.
  */
module PomodoroTypes {
  import opened JsText

  datatype TimerMode = Work | ShortBreak | LongBreak

  /** The keys of `TimerSettings`, which `MODE_DURATIONS` maps each mode to. */
  datatype DurationKey = WorkDuration | ShortBreakDuration | LongBreakDuration

  /** Per-mode durations, in seconds. */
  datatype TimerSettings = TimerSettings(workDuration: int, shortBreakDuration: int, longBreakDuration: int)

  datatype NotificationSettings = NotificationSettings(sound: bool, browser: bool)

  datatype TelegramSettings = TelegramSettings(enabled: bool, token: string, chatId: string)

  /** `payload` is the body template with its `{{timestamp}}` and `{{mode}}` placeholders. */
  datatype WebhookSettings = WebhookSettings(enabled: bool, url: string, payload: string)

  datatype IntegrationSettings = IntegrationSettings(telegram: TelegramSettings, webhook: WebhookSettings)

  datatype Stats = Stats(sessionsCompleted: int)

  /**
    * The whole settings record. `theme` and `designStyle` are kept as the
    * strings the record holds: a stored record may carry any value there.
    */
  datatype PomodoroSettings = PomodoroSettings(
    theme: string,
    designStyle: string,
    timerSettings: TimerSettings,
    notifications: NotificationSettings,
    integrations: IntegrationSettings,
    stats: Stats)

  const LightTheme: string := "light"
  const DarkTheme: string := "dark"
  const Glassmorphism: string := "glassmorphism"
  const Flat: string := "flat"

  const TimestampPlaceholder: string := "{{timestamp}}"
  const ModePlaceholder: string := "{{mode}}"
  /** The default template, `{"event": "pomodoro_complete", "timestamp": "{{timestamp}}"}`, written in three pieces. */
  const DefaultPayloadHead: string := "\"event\": \"pomodoro_complete\", \"timestamp\": \""
  const DefaultWebhookPayload: string := "{" + DefaultPayloadHead + TimestampPlaceholder + "\"}"

  /** The string a mode is written as (the `TimerMode` literal type). */
  function ModeId(m: TimerMode): string {
    match m
    case Work => "work"
    case ShortBreak => "shortBreak"
    case LongBreak => "longBreak"
  }

  /** `MODE_DURATIONS`: which duration field belongs to a mode. */
  function ModeDurationKey(m: TimerMode): DurationKey {
    match m
    case Work => WorkDuration
    case ShortBreak => ShortBreakDuration
    case LongBreak => LongBreakDuration
  }

  /** `timerSettings[key]`. */
  function DurationAt(ts: TimerSettings, key: DurationKey): int {
    match key
    case WorkDuration => ts.workDuration
    case ShortBreakDuration => ts.shortBreakDuration
    case LongBreakDuration => ts.longBreakDuration
  }

  /** The configured duration of a mode, `timerSettings[MODE_DURATIONS[m]]`. */
  function ModeDuration(ts: TimerSettings, m: TimerMode): (d: int)
    ensures m == Work ==> d == ts.workDuration
    ensures m == ShortBreak ==> d == ts.shortBreakDuration
    ensures m == LongBreak ==> d == ts.longBreakDuration
  {
    DurationAt(ts, ModeDurationKey(m))
  }

  /** `MODE_LABELS`: the label shown for a mode. */
  function ModeLabel(m: TimerMode): string {
    match m
    case Work => "Работа"
    case ShortBreak => "Короткий перерыв"
    case LongBreak => "Длинный перерыв"
  }

  /** `DEFAULT_SETTINGS`. */
  function DefaultSettings(): PomodoroSettings {
    PomodoroSettings(
      DarkTheme,
      Glassmorphism,
      TimerSettings(25 * 60, 5 * 60, 15 * 60),
      NotificationSettings(true, true),
      IntegrationSettings(
        TelegramSettings(false, "", ""),
        WebhookSettings(false, "", DefaultWebhookPayload)),
      Stats(0))
  }

  /** The mode a duration key belongs to: the inverse of `MODE_DURATIONS`. */
  function KeyMode(k: DurationKey): TimerMode {
    match k
    case WorkDuration => Work
    case ShortBreakDuration => ShortBreak
    case LongBreakDuration => LongBreak
  }

  /** `MODE_DURATIONS` is a bijection between modes and duration keys, with `KeyMode` its inverse. */
  lemma ModeDurationKeyBijective(m: TimerMode, k: DurationKey)
    ensures KeyMode(ModeDurationKey(m)) == m
    ensures ModeDurationKey(KeyMode(k)) == k
  {
  }

  /** `MODE_LABELS` gives every mode a non-empty label, and no two modes share one. */
  lemma ModeLabelsDistinct()
    ensures forall m: TimerMode :: |ModeLabel(m)| > 0
    ensures forall a: TimerMode, b: TimerMode :: ModeLabel(a) == ModeLabel(b) ==> a == b
  {
    assert ModeLabel(Work)[0] != ModeLabel(ShortBreak)[0];
    assert ModeLabel(Work)[0] != ModeLabel(LongBreak)[0];
    assert ModeLabel(ShortBreak)[0] != ModeLabel(LongBreak)[0];
  }

  /** Mode identifiers are pairwise distinct, so a mode can be read back from its id. */
  lemma ModeIdsDistinct()
    ensures forall a: TimerMode, b: TimerMode :: ModeId(a) == ModeId(b) ==> a == b
  {
    assert ModeId(Work)[0] != ModeId(ShortBreak)[0];
    assert ModeId(Work)[0] != ModeId(LongBreak)[0];
    assert ModeId(ShortBreak)[0] != ModeId(LongBreak)[0];
  }

  /** The default durations: 25, 5 and 15 minutes, all positive. */
  lemma DefaultDurations()
    ensures DefaultSettings().timerSettings == TimerSettings(1500, 300, 900)
    ensures forall m: TimerMode :: ModeDuration(DefaultSettings().timerSettings, m) > 0
  {
  }

  /** By default sound and browser notifications are on, both remote channels are off, and no session is counted. */
  lemma DefaultChannels()
    ensures DefaultSettings().notifications == NotificationSettings(true, true)
    ensures !DefaultSettings().integrations.telegram.enabled
    ensures DefaultSettings().integrations.telegram.token == [] && DefaultSettings().integrations.telegram.chatId == []
    ensures !DefaultSettings().integrations.webhook.enabled && DefaultSettings().integrations.webhook.url == []
    ensures DefaultSettings().stats.sessionsCompleted == 0
    ensures DefaultSettings().theme == DarkTheme
  {
  }

  /** In the default template two opening braces follow each other only where `{{timestamp}}` starts. */
  lemma DefaultPayloadDoubleBrace(j: nat)
    requires j + 1 < |DefaultWebhookPayload|
    requires DefaultWebhookPayload[j] == '{' && DefaultWebhookPayload[j + 1] == '{'
    ensures j == 45
  {
    var p, h, t := DefaultWebhookPayload, DefaultPayloadHead, TimestampPlaceholder;
    assert forall i :: 0 <= i < |h| ==> h[i] != '{';
    assert forall i :: 2 <= i < |t| ==> t[i] != '{';
    assert |h| == 44 && |t| == 13;
  }

  /**
    * The default webhook template holds exactly one `{{timestamp}}`, at
    * index 45, and no `{{mode}}`.
    */
  lemma DefaultPayloadPlaceholders()
    ensures IsFirstOccurrence(DefaultWebhookPayload, TimestampPlaceholder, 45)
    ensures forall j: nat :: j != 45 ==> !OccursAt(DefaultWebhookPayload, TimestampPlaceholder, j)
    ensures forall j: nat :: !OccursAt(DefaultWebhookPayload, ModePlaceholder, j)
  {
    var p, t, m := DefaultWebhookPayload, TimestampPlaceholder, ModePlaceholder;
    assert p[45..58] == t;
    assert p[45..53][2] == t[2] != m[2];
    forall j: nat | OccursAt(p, t, j) ensures j == 45 {
      assert p[j..j + |t|][0] == p[j] && p[j..j + |t|][1] == p[j + 1];
      DefaultPayloadDoubleBrace(j);
    }
    forall j: nat ensures !OccursAt(p, m, j) {
      if OccursAt(p, m, j) {
        assert p[j..j + |m|][0] == p[j] && p[j..j + |m|][1] == p[j + 1];
        DefaultPayloadDoubleBrace(j);
      }
    }
  }
}
