# Pomodoro timer: a verified model of its core

Pomodoro Mastermind is a browser Pomodoro timer. A Web Worker counts down
once per second and talks to the page's timer hook through messages: the
hook posts START, PAUSE, RESET(seconds) and SET_TIME(seconds), and the
worker answers with TICK(remaining) and one COMPLETE when the count reaches
zero. On completion the page counts finished work sessions and a
notification dispatcher plays a sound, shows a browser notification and
calls Telegram and a webhook, each guarded by the settings and each
catching its own failures. Settings live in one record, loaded from storage
over defaults and changed by small updater functions. The build computes
the base path the site is served under on GitHub Pages.

This project models those pieces in Dafny and proves what they promise:

- `tick_source.dfy`: the worker (`public/timer-worker.js`). Each message
  handler and the interval callback is a function from the old state to the
  new state and the events posted. The class `Worker` holds the script's
  three variables and its methods are proved against those functions. The
  lemmas prove the countdown: after START with n > 0 seconds left, n firings
  post TICK(n-1) … TICK(0) and one COMPLETE, and stop the worker.
- `timer_hook.dfy`: the timer hook (`src/hooks/useTimer.ts`), with its state
  cells and `modeRef` as the class `Timer`, the pure transitions that specify
  it, and `formatTime` with a round trip through "mm:ss".
- `timer_session.dfy`: the hook and the worker together, with the messages
  between them in two FIFO queues and each delivery or firing an explicit
  step. It proves that a whole countdown reports completion exactly once, with
  the current mode, and that START at zero leaves the hook saying "running"
  with nothing ever arriving.
- `notifications.dfy`: the dispatcher (`src/hooks/useNotifications.ts`):
  guards, requests, toasts, the webhook placeholder substitution, the two test
  entry points, and the lazily created audio context as the class `Notifier`.
- `settings.dfy`: the settings updaters and initial load
  (`src/hooks/useSettings.ts`) and the completion rule of the page
  (`src/pages/Index.tsx`).
- `pomodoro_types.dfy`: the data model, defaults and per-mode tables
  (`src/types/pomodoro.ts`).
- `deploy_base.dfy`: the base-path computation (`vite.config.ts`).
- `js_text.dfy`, `options.dfy`: the JavaScript string operations the core
  uses (`toString`, `padStart`, `split`, `includes`, `replace` with a string
  pattern) and an `Option` type.

What the browser and the network do is an input to the model. That covers
the permission state, what `fetch` returned, the ISO timestamp, what
`JSON.parse` made of the stored text and the environment variables of the
build. Behaviours of the code that the model keeps as written:

- Timer state lives only in the hook's state cells and the worker's
  variables; nothing about the running timer is saved or reconciled after a
  reload.
- `start` in the hook posts START and sets `isRunning` even when no time is
  left. The worker then ignores START and no COMPLETE follows
  (`TimerSession.StartAtZeroStalls`).
- COMPLETE reports `modeRef.current` when the event is handled, not the mode
  that was active when counting started. A mode change that overtakes a queued
  COMPLETE is reported with the new mode
  (`TimerSession.CompleteReportsCurrentMode`).
- The only test entry points are `testTelegram` and `testWebhook`.
- `notifyComplete` starts the four channels one after another without
  awaiting them. The model records the calls in that order
  (`Notifications.Notifier.NotifyComplete`) and proves that each channel's
  outcome depends only on its own settings and answer.
- The settings store is persisted to `localStorage` and loaded by a shallow
  merge over the defaults.

## Model

| member | source | states |
|---|---|---|
| PomodoroTypes.ModeId | src/types/pomodoro.ts:1 | the `TimerMode` literal of each mode: "work", "shortBreak", "longBreak" (distinct, by `ModeIdsDistinct`) |
| PomodoroTypes.ModeDurationKey | src/types/pomodoro.ts:71-75 | `MODE_DURATIONS`: each mode's duration key (a bijection, by `ModeDurationKeyBijective`) |
| PomodoroTypes.DurationAt | src/hooks/useTimer.ts:62 | `timerSettings[key]`: the field of the settings the key names |
| PomodoroTypes.ModeLabel | src/types/pomodoro.ts:77-81 | `MODE_LABELS`: each mode's Russian label (non-empty and distinct, by `ModeLabelsDistinct`) |
| PomodoroTypes.DefaultSettings | src/types/pomodoro.ts:42-69 | `DEFAULT_SETTINGS` field by field (its values are stated by `DefaultDurations`, `DefaultChannels` and the payload lemmas) |
| PomodoroTypes.ModeDuration | src/types/pomodoro.ts:71-75 | `timerSettings[MODE_DURATIONS[m]]` is the work, short-break or long-break duration for the three modes |
| PomodoroTypes.ModeDurationKeyBijective | src/types/pomodoro.ts:71-75 | `MODE_DURATIONS` is a bijection between modes and duration keys; `KeyMode` is its inverse both ways |
| PomodoroTypes.ModeLabelsDistinct | src/types/pomodoro.ts:77-81 | every mode has a non-empty label and no two modes share one |
| PomodoroTypes.ModeIdsDistinct | src/types/pomodoro.ts:1 | the three mode identifiers are pairwise distinct |
| PomodoroTypes.DefaultDurations | src/types/pomodoro.ts:45-49 | default durations are 1500, 300 and 900 seconds, all positive |
| PomodoroTypes.DefaultChannels | src/types/pomodoro.ts:42-68 | by default sound and browser are on, Telegram and webhook are off with empty credentials, the theme is dark and the counter is 0 |
| PomodoroTypes.DefaultPayloadDoubleBrace | src/types/pomodoro.ts:63 | in the default payload two opening braces are adjacent only at index 45 |
| PomodoroTypes.DefaultPayloadPlaceholders | src/types/pomodoro.ts:63 | the default payload holds exactly one `{{timestamp}}`, first at index 45, and no `{{mode}}` |
| TickSource.StartStep | public/timer-worker.js:12-28 | START posts nothing, schedules the interval only when not running and time is left, and otherwise changes nothing |
| TickSource.PauseStep | public/timer-worker.js:30-36 | PAUSE posts nothing, clears the interval, stops, and keeps the time left |
| TickSource.ResetStep | public/timer-worker.js:38-46 | RESET(p) stops, clears the interval, sets the time left to p and posts one TICK(p) |
| TickSource.SetTimeStep | public/timer-worker.js:48-51 | SET_TIME(p) sets the time left to p, posts one TICK(p), and leaves running and the interval as they were |
| TickSource.HandleCommand | public/timer-worker.js:8-52 | every command keeps the invariant "running exactly when an interval is scheduled" |
| TickSource.FireStep | public/timer-worker.js:15-26 | a firing decrements a positive count and posts TICK of the new value; reaching zero also posts COMPLETE and stops; COMPLETE is posted exactly when the count is then 0; a negative count changes nothing |
| TickSource.TicksDownAt | public/timer-worker.js:16-19 | the i-th event of a countdown from n is TICK(n-1-i), and it holds no COMPLETE |
| TickSource.Run | public/timer-worker.js:15-26 | up to k firings of the interval, stopping once it has been cleared; the events are those of the firings in order (stated by the lemmas below) |
| TickSource.RunAppend | public/timer-worker.js:15-26 | a+b firings are a firings followed by b more |
| TickSource.RunCountsDown | public/timer-worker.js:15-26 | k firings of a running worker with n ≥ k seconds left post TICK(n-1)…TICK(n-k), plus COMPLETE and a stopped worker when k = n |
| TickSource.StartCountsDown | public/timer-worker.js:12-28 | after START with n > 0 left, n or more firings post exactly TICK(n-1)…TICK(0), COMPLETE, and leave the worker stopped |
| TickSource.NoEarlyComplete | public/timer-worker.js:20-25 | fewer firings than seconds left post no COMPLETE and the worker keeps running |
| TickSource.NegativeCountSpins | public/timer-worker.js:16-20 | with a negative count the interval keeps firing and posts nothing, forever |
| TickSource.SetTimeZeroCompletes | public/timer-worker.js:48-51 | SET_TIME(0) while running posts TICK(0), and the next firing of the interval (lines 20-25) posts COMPLETE and stops |
| TickSource.PauseIdempotent | public/timer-worker.js:30-36 | PAUSE twice is PAUSE once |
| TickSource.Replay | public/timer-worker.js:4-52 | the worker's state after a sequence of messages and firings handled in order |
| TickSource.ReplayKeepsInvariants | public/timer-worker.js:4-52 | over any sequence of messages and firings the worker stays consistent, and with non-negative payloads the time left stays non-negative |
| TickSource.Worker.constructor | public/timer-worker.js:4-6 | the variables start at 0 seconds, not running, no interval |
| TickSource.Worker.Start | public/timer-worker.js:12-28 | updates the variables in place as `StartStep` says and returns what it posted |
| TickSource.Worker.Pause | public/timer-worker.js:30-36 | as `PauseStep` |
| TickSource.Worker.Reset | public/timer-worker.js:38-46 | as `ResetStep` |
| TickSource.Worker.SetTime | public/timer-worker.js:48-51 | as `SetTimeStep` |
| TickSource.Worker.OnMessage | public/timer-worker.js:8-52 | dispatches on the command as `HandleCommand` |
| TickSource.Worker.Fire | public/timer-worker.js:15-26 | one run of the interval callback, as `FireStep` |
| TimerHook.InitialState | src/hooks/useTimer.ts:10-14 | the hook mounts in work mode with the work duration, not running, `modeRef` in sync |
| TimerHook.MountCommand | src/hooks/useTimer.ts:39-43 | the mount effect posts SET_TIME with the work duration |
| TimerHook.OnStart | src/hooks/useTimer.ts:50-53 | `start` posts START and sets running whatever time is left; mode and time are unchanged |
| TimerHook.OnPause | src/hooks/useTimer.ts:55-58 | `pause` posts PAUSE and clears running; mode and time are unchanged |
| TimerHook.OnReset | src/hooks/useTimer.ts:60-65 | `reset` posts RESET with the current mode's duration and clears running; the mode is unchanged |
| TimerHook.OnChangeMode | src/hooks/useTimer.ts:67-73 | `changeMode(m)` sets the mode (and `modeRef`) to m, posts RESET with m's duration, clears running; the time left waits for the TICK |
| TimerHook.OnWorkerMessage | src/hooks/useTimer.ts:25-37 | TICK(v) sets only the time left; COMPLETE clears running and reports `modeRef` once |
| TimerHook.OnUserAction | src/hooks/useTimer.ts:50-73 | no command writes the time left; the timer is running after a command exactly when it was `start` |
| TimerHook.JsRem60 | src/hooks/useTimer.ts:77 | JavaScript `%` by 60: the truncating remainder, that is the unique r with -60 < r < 60, s - r a multiple of 60 and r zero or of the dividend's sign; Dafny's `%` for non-negative counts |
| TimerHook.Pad2 | src/hooks/useTimer.ts:78 | `n.toString().padStart(2, '0')`: never shorter than two characters |
| TimerHook.FormatTime | src/hooks/useTimer.ts:75-79 | `formatTime`: padded minutes (rounded down), a colon, padded JavaScript remainder; never shorter than five characters (read back by `FormatTimeRoundTrip` and `FormatTimeFields`) |
| TimerHook.ParseClock | src/hooks/useTimer.ts:75-79 | reads "mm:ss" (seconds field below 60) back into a count below 6000 (the reference partner of `formatTime`) |
| TimerHook.Pad2Digits | src/hooks/useTimer.ts:78 | a number below 100 pads to exactly its two digits |
| TimerHook.ParseTwoDigits | src/hooks/useTimer.ts:78 | two digits read back as the number they write |
| TimerHook.FormatTimeFields | src/hooks/useTimer.ts:75-79 | for any count ≥ 0 the text ends in ":ss", two digits reading back as the count mod 60 |
| TimerHook.Pad2ReadsBack | src/hooks/useTimer.ts:78 | a number below 100 pads to two digits that read back as the number |
| TimerHook.ClockReadsBack | src/hooks/useTimer.ts:78 | padded minutes below 100 and seconds below 60, joined by a colon, are five characters that read back as 60·minutes + seconds |
| TimerHook.FormatTimeRoundTrip | src/hooks/useTimer.ts:75-79 | below 100 minutes the text is five characters and reads back as the count |
| TimerHook.Timer.constructor | src/hooks/useTimer.ts:10-14 | the state cells start as `InitialState` |
| TimerHook.Timer.Mount | src/hooks/useTimer.ts:39-43 | returns the SET_TIME message of `MountCommand` |
| TimerHook.Timer.Start | src/hooks/useTimer.ts:50-53 | updates the cells and returns the message as `OnStart` |
| TimerHook.Timer.Pause | src/hooks/useTimer.ts:55-58 | as `OnPause` |
| TimerHook.Timer.Reset | src/hooks/useTimer.ts:60-65 | as `OnReset` |
| TimerHook.Timer.ChangeMode | src/hooks/useTimer.ts:67-73 | as `OnChangeMode`, together with the effect (lines 17-19) that copies the mode into `modeRef` |
| TimerHook.Timer.OnMessage | src/hooks/useTimer.ts:25-37 | as `OnWorkerMessage`, returning the mode `onComplete` got, if any |
| TimerSession.Boot | src/hooks/useTimer.ts:39-43 | after mounting, SET_TIME(work duration) is the only message in flight and nothing is reported |
| TimerSession.Press | src/hooks/useTimer.ts:50-73 | a button appends exactly one message to the worker's queue and leaves the worker and the event queue alone |
| TimerSession.DeliverCommand | public/timer-worker.js:8-52 | the worker consumes the oldest command; the hook is untouched |
| TimerSession.FireTimes | public/timer-worker.js:15-26 | firings change only the worker and the event queue |
| TimerSession.DeliverEvent | src/hooks/useTimer.ts:25-37 | the hook consumes the oldest event; the worker is untouched |
| TimerSession.DrainEvents | src/hooks/useTimer.ts:25-37 | handling every queued event empties the event queue and leaves the worker alone |
| TimerSession.StalledStaysPut | public/timer-worker.js:8-52 | with no message in flight and no interval, no internal step changes anything |
| TimerSession.BootSettles | src/hooks/useTimer.ts:39-43 | after start-up both sides agree on the work duration, nothing runs, nothing is reported |
| TimerSession.ChangeModeSettles | src/hooks/useTimer.ts:67-73 | after `changeMode(m)` and its echo both sides hold m's duration, stopped, in mode m |
| TimerSession.ResetSettles | src/hooks/useTimer.ts:60-65 | after `reset` and its echo both sides hold the current mode's duration, stopped |
| TimerSession.StartAtZeroStalls | src/hooks/useTimer.ts:50-53 | START at zero: the hook says running, the worker does not, and no COMPLETE ever arrives |
| TimerSession.CompleteReportsCurrentMode | src/hooks/useTimer.ts:32-35 | a COMPLETE handled after `changeMode(m)` reports m |
| TimerSession.DrainCountdown | src/hooks/useTimer.ts:29-35 | handling a countdown's events leaves the last TICK's value, stops the hook and reports its mode once |
| TimerSession.CountdownCompletesOnce | src/hooks/useTimer.ts:25-53 | a whole countdown from a settled session ends settled at zero, worker stopped, with `onComplete` called exactly once with the session's mode |
| Notifications.BrowserBody | src/hooks/useNotifications.ts:54 | the notification body names the mode's label |
| Notifications.SoundGuard | src/hooks/useNotifications.ts:15 | the sound channel runs only when `notifications.sound` is on |
| Notifications.BrowserGuard | src/hooks/useNotifications.ts:45 | the browser channel runs only when `notifications.browser` is on |
| Notifications.TelegramGuard | src/hooks/useNotifications.ts:64 | Telegram runs only when enabled with a non-empty token and chat id |
| Notifications.WebhookGuard | src/hooks/useNotifications.ts:93 | the webhook runs only when enabled with a non-empty URL |
| Notifications.ShowBrowserNotification | src/hooks/useNotifications.ts:44-61 | permission is requested exactly when browser notifications are on and the state is "default"; a notification titled "Pomodoro Timer" with the mode's body is shown exactly when the resulting state is "granted" |
| Notifications.TelegramUrl | src/hooks/useNotifications.ts:68 | the endpoint is the Bot API prefix, the token, then "/sendMessage", and the token can be read back from it |
| Notifications.TelegramUrlInjective | src/hooks/useNotifications.ts:68 | distinct tokens give distinct endpoints |
| Notifications.CompletionText | src/hooks/useNotifications.ts:74 | the Telegram text names the mode's label |
| Notifications.SendTelegramMessage | src/hooks/useNotifications.ts:63-90 | a request is sent exactly when enabled with a token and chat id; the error toast is shown exactly when it was sent and failed |
| Notifications.WebhookBody | src/hooks/useNotifications.ts:96-98 | the two `replace` calls in order: the first `{{timestamp}}`, then the first `{{mode}}` of the result (the lemmas below state what that gives) |
| Notifications.WebhookBodyWithoutPlaceholders | src/hooks/useNotifications.ts:96-98 | a template without placeholders is sent unchanged |
| Notifications.PlaceholderNeedsDoubleBrace | src/hooks/useNotifications.ts:96-98 | a placeholder cannot start where no two opening braces are adjacent |
| Notifications.ExampleTimestampFilled | src/hooks/useNotifications.ts:97 | in `{"t":"{{timestamp}}","m":"{{mode}}"}` the first `replace` fills the timestamp and keeps the rest |
| Notifications.NoModeBeforeSecondPlaceholder | src/hooks/useNotifications.ts:98 | once a brace-free timestamp is in, no `{{mode}}` starts before the template's own |
| Notifications.WebhookBodyFillsBoth | src/hooks/useNotifications.ts:96-98 | `{"t":"{{timestamp}}","m":"{{mode}}"}` is sent with the timestamp and mode in place |
| Notifications.NoModeAt | src/hooks/useNotifications.ts:98 | no `{{mode}}` occurs in a brace-free timestamp followed by " {{timestamp}}" |
| Notifications.WebhookBodySecondTimestampKept | src/hooks/useNotifications.ts:96-98 | only the first `{{timestamp}}` is replaced; a second one is sent as written |
| Notifications.SendWebhook | src/hooks/useNotifications.ts:92-117 | a request with the substituted template is sent exactly when enabled with a URL; the error toast is shown exactly when it was sent and failed |
| Notifications.DefaultsSendNothingRemote | src/hooks/useNotifications.ts:63-117 | under the default settings neither remote channel sends or toasts |
| Notifications.TestTelegram | src/hooks/useNotifications.ts:119-151 | sends the test text whatever the settings; returns true exactly on an ok response; one toast either way, carrying the API description, "Unknown error", the rejection message or the fallback |
| Notifications.TestWebhook | src/hooks/useNotifications.ts:153-185 | sends the template with mode "test"; returns true exactly on an ok response; one toast either way; a failure mentioning "Failed to fetch" is reported as CORS, any other by its message or the fallback |
| Notifications.WebhookFailureMessage | src/hooks/useNotifications.ts:166 | the message of the caught error: "HTTP <status>" for a response that is not ok, the rejection's message otherwise |
| Notifications.HttpStatusNotCors | src/hooks/useNotifications.ts:165-175 | "HTTP <status>" never contains "Failed to fetch" |
| Notifications.WebhookTestHttpFailure | src/hooks/useNotifications.ts:165-180 | a non-ok test response is reported as "HTTP <status>" |
| Notifications.CompletionDispatch | src/hooks/useNotifications.ts:187-192 | each channel's outcome is its own function of its settings and its own answer from the outside world |
| Notifications.CompletionToastsOnFailureOnly | src/hooks/useNotifications.ts:82-116 | on completion the only toasts are one error toast per remote channel that was sent and failed |
| Notifications.WebhookFailureIsolated | src/hooks/useNotifications.ts:187-192 | the webhook's answer does not change sound, browser or Telegram outcomes |
| Notifications.TelegramFailureIsolated | src/hooks/useNotifications.ts:187-192 | Telegram's answer does not change the webhook's outcome |
| Notifications.Notifier.constructor | src/hooks/useNotifications.ts:12 | there is no audio context yet |
| Notifications.Notifier.PlaySound | src/hooks/useNotifications.ts:14-42 | is called (it joins the call record) and does nothing more unless sound is on; then the audio context is created if missing and reused after, so at most one exists |
| Notifications.Notifier.ShowNotification | src/hooks/useNotifications.ts:44-61 | joins the call record and gives `ShowBrowserNotification`'s outcome; the audio context is untouched |
| Notifications.Notifier.SendTelegram | src/hooks/useNotifications.ts:63-90 | joins the call record and gives `SendTelegramMessage`'s outcome; the audio context is untouched |
| Notifications.Notifier.PostWebhook | src/hooks/useNotifications.ts:92-117 | joins the call record and gives `SendWebhook`'s outcome; the audio context is untouched |
| Notifications.Notifier.NotifyComplete | src/hooks/useNotifications.ts:187-192 | calls sound, browser, Telegram and webhook in that order, each whatever the earlier ones did, with the outcomes of `CompletionDispatch`; creates the audio context only when sound is on |
| Settings.LoadSettings | src/hooks/useSettings.ts:7-17 | absent or empty storage or a parse error gives the defaults; otherwise each stored top-level key replaces the default's, the rest keep defaults |
| Settings.LoadStoredRoundTrip | src/hooks/useSettings.ts:7-25 | loading a saved complete record gives that record back |
| Settings.LoadIsShallow | src/hooks/useSettings.ts:11 | a stored `integrations` key replaces both integrations wholesale |
| Settings.ToggleTheme | src/hooks/useSettings.ts:35-40 | "light" becomes "dark" and anything else "light"; nothing else changes |
| Settings.ToggleThemeTwice | src/hooks/useSettings.ts:35-40 | two toggles restore "light" or "dark" |
| Settings.ToggleThemeNormalises | src/hooks/useSettings.ts:35-40 | any other theme goes to "light" and then "dark", so it is not restored |
| Settings.SetDesignStyle | src/hooks/useSettings.ts:42-44 | sets the design style and nothing else |
| Settings.MergeNotifications | src/hooks/useSettings.ts:49 | `{...notifications, ...patch}`: a key present in the patch wins (laws below) |
| Settings.MergeTelegram | src/hooks/useSettings.ts:58 | `{...telegram, ...patch}` |
| Settings.MergeWebhook | src/hooks/useSettings.ts:68 | `{...webhook, ...patch}` |
| Settings.NotificationsMergeLaws | src/hooks/useSettings.ts:46-51 | for `updateNotifications`: the empty patch changes nothing; a patch applied twice is applied once; two patches in turn are one combined patch in which the later keys win |
| Settings.TelegramMergeLaws | src/hooks/useSettings.ts:53-61 | the same three laws for `updateTelegram` |
| Settings.WebhookMergeLaws | src/hooks/useSettings.ts:63-71 | the same three laws for `updateWebhook` |
| Settings.UpdateNotifications | src/hooks/useSettings.ts:46-51 | present keys take the patch's value, absent keys keep theirs, nothing else changes |
| Settings.UpdateTelegram | src/hooks/useSettings.ts:53-61 | merges into Telegram only; the webhook and everything else are unchanged |
| Settings.UpdateWebhook | src/hooks/useSettings.ts:63-71 | merges into the webhook only; Telegram and everything else are unchanged |
| Settings.IntegrationUpdatesCommute | src/hooks/useSettings.ts:53-71 | Telegram and webhook updates commute |
| Settings.IncrementSessions | src/hooks/useSettings.ts:73-81 | the counter rises by exactly one and nothing else changes |
| Settings.OnTimerComplete | src/pages/Index.tsx:27-32 | the counter rises by one exactly for a work session; the notification is requested for every mode; nothing else changes |
| Settings.CounterCountsWorkSessions | src/pages/Index.tsx:27-32 | over any sequence of completions the counter grows by the number of work sessions among them |
| DeployBase.RepoName | vite.config.ts:8 | absent exactly when the variable is unset or has no "/"; never contains "/" |
| DeployBase.RepoNameOfSlug | vite.config.ts:8 | "owner/name" and "owner/name/more" give `name` |
| DeployBase.IsUserOrOrgPages | vite.config.ts:9 | a non-empty repository name ending in ".github.io" |
| DeployBase.Base | vite.config.ts:9-12 | "/" unless a Pages build of a non-empty, non-user-site name; always starts and ends with "/"; "/" whenever `GITHUB_PAGES` is not "true" |
| DeployBase.BaseNamesRepository | vite.config.ts:11-12 | a base other than "/" holds exactly the repository name between its slashes |
| DeployBase.ProjectSiteBase | vite.config.ts:8-12 | a project repository built for Pages is served under "/name/" |
| DeployBase.UserSiteBase | vite.config.ts:8-12 | "owner/owner.github.io" is served at "/" |
| DeployBase.Plugins | vite.config.ts:23 | React comes first; the component tagger is included exactly in development mode |
| JsText.NatToString | src/hooks/useTimer.ts:78 | `Number.prototype.toString` for naturals: decimal digits, no leading zero, one digit exactly below 10 |
| JsText.ParseNatToString | src/hooks/useTimer.ts:78 | reading the digits back gives the number |
| JsText.IntToString | src/hooks/useTimer.ts:78 | a negative number prints as "-" then its magnitude |
| JsText.PadStart | src/hooks/useTimer.ts:78 | `padStart`: the text keeps its end and is filled on the left to the width |
| JsText.Includes | src/hooks/useNotifications.ts:175 | `includes`: some occurrence of the pattern exists (by `IndexOf`'s contract) |
| JsText.EndsWith | vite.config.ts:9 | `endsWith`: the text's last characters are the suffix |
| JsText.IndexOf | src/hooks/useNotifications.ts:175 | the first occurrence of the pattern, or none anywhere |
| JsText.ReplaceFirst | src/hooks/useNotifications.ts:97 | `replace` with a string pattern: the text unchanged when there is no occurrence, else the replacement spliced in at the first one (`ReplaceFirstAt`, `ReplaceFirstAbsent`) |
| JsText.ReplaceFirstAt | src/hooks/useNotifications.ts:96-98 | `replace` with a string pattern splices the replacement in at the first occurrence |
| JsText.ReplaceFirstAbsent | src/hooks/useNotifications.ts:96-98 | with no occurrence `replace` changes nothing |
| JsText.ReplaceFirstKeepsLater | src/hooks/useNotifications.ts:96-98 | a later, non-overlapping occurrence survives the replacement, shifted |
| JsText.Split | vite.config.ts:8 | `split`: at least one part, no part holds the separator, exactly one part when the separator is absent |
| JsText.JoinSplit | vite.config.ts:8 | joining the parts with the separator gives the text back |
| JsText.SplitHead | vite.config.ts:8 | the first part runs up to the first separator, and the rest splits the remainder |

## Left out

- Timing and threading: `setInterval`'s one-second period, message latency
  and `terminate` are not modelled. Each firing and each delivery is an
  explicit step over FIFO queues.
- React's effect timing: the effect that copies `mode` into `modeRef` is
  taken to have run before the next worker event is handled, so
  `TimerHook.Timer.ChangeMode` updates both cells.
- `formattedTime` is `formatTime(remainingSeconds)` on every render. Only
  `formatTime` itself is modelled.
- The Web Audio cue (oscillator frequencies, gain ramps) is floating point
  on a foreign API. Only the guard and the lazy creation of the audio
  context are modelled. A failure to create the context, which is caught and
  logged, is not modelled.
- `Notification`, `fetch`, `toast` and `console` are foreign. Their answers
  are inputs and their effects are the request and toast values. Logging is
  not modelled. The notification's icon and the request headers are
  constant and not modelled.
- Notifications.ShowBrowserNotification: an exception from the
  Notification API is caught and only logged, so the model has no error path
  for it.
- Notifications.TestTelegram: a non-ok response whose body is not JSON makes
  `response.json()` reject. Its message then becomes the toast's description.
  The model takes the parsed `description` (empty when missing) as given.
- Notifications.CompletionDispatch: the four channels are started without
  being awaited and finish in any order. The model gives their call order
  (`Notifications.Notifier.NotifyComplete`) and their independent outcomes,
  not the order in which they finish.
- The ISO-8601 timestamp from `new Date().toISOString()` is an input string.
- `replace` special replacement patterns (`$&` and the like) are not
  modelled. The timestamp and mode identifiers contain no `$`.
- `localStorage`, `JSON.parse`/`JSON.stringify`, the save effect and the DOM
  class toggles (`src/hooks/useSettings.ts:19-33`) are not modelled. A stored
  value is an optional record whose top-level keys may be absent. A nested
  object in it is assumed to have the right shape.
- Settings.UpdateNotifications, Settings.UpdateTelegram, Settings.UpdateWebhook:
  a key that is present in the patch with the value `undefined` overwrites
  the field in JavaScript. Here an absent key and an undefined one are both
  `None`.
- Numbers are unbounded integers. Fractional durations, `NaN` and
  floating-point effects of JavaScript numbers are not modelled.
- The presentation components and the JSX of `src/pages/Index.tsx` are not
  part of this model, nor are the Vite plugin objects, path aliases and
  dev-server settings.
