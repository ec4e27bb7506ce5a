/**
  * The notification dispatcher (src/hooks/useNotifications.ts): the
  * completion fan-out to sound, browser notification, Telegram and webhook,
  * and the two test entry points for Telegram and the webhook.
  *
  * What the browser and the network do is an input: the permission state
  * before and after asking, what `fetch` gave back (a response with its ok
  * flag, status and parsed `description`, or a rejection with its message),
  * and the ISO-8601 timestamp. Each channel's outcome is the request it
  * would send and the toast it would show. Audio synthesis and logging are
  * not modelled.
  */
module Notifications {
  import opened Options
  import opened JsText
  import opened PomodoroTypes

  /** `Notification.permission`. */
  datatype Permission = DefaultPermission | Granted | Denied

  /** A toast: title, description, and whether it is the destructive (error) variant. */
  datatype Toast = Toast(title: string, description: string, destructive: bool)

  /** The body of a POST: Telegram's JSON `{chat_id, text}`, or a webhook's text as is. */
  datatype Body = TelegramMessage(chatId: string, text: string) | RawBody(text: string)

  /** A POST with a JSON content type. */
  datatype Request = Request(url: string, body: Body)

  /** What `fetch` gave back: a response, or a rejection (a network or CORS failure). */
  datatype FetchOutcome =
    | Responded(ok: bool, status: int, description: string)
    | Rejected(message: string)

  predicate Succeeded(f: FetchOutcome) {
    f.Responded? && f.ok
  }

  /** A channel's visible effect: the request it sent, if any, and the toast it showed, if any. */
  datatype ChannelReport = ChannelReport(request: Option<Request>, toast: Option<Toast>)

  const NotificationTitle: string := "Pomodoro Timer"
  const TelegramApiPrefix: string := "https://api.telegram.org/bot"
  const SendMessagePath: string := "/sendMessage"
  const TelegramTestText: string := "🍅 Pomodoro Timer: Тестовое сообщение успешно!"
  const TestModeId: string := "test"
  const FailedToFetch: string := "Failed to fetch"
  const UnknownError: string := "Unknown error"
  const CorsMessage: string := "Ошибка CORS. Сервер может не разрешать кросс-доменные запросы."

  const TelegramErrorToast: Toast :=
    Toast("Ошибка Telegram", "Не удалось отправить сообщение. Проверьте данные.", true)
  const WebhookErrorToast: Toast :=
    Toast("Ошибка Webhook", "Не удалось отправить запрос. Проверьте URL.", true)
  const TelegramTestSuccessToast: Toast :=
    Toast("Успешно!", "Тестовое сообщение отправлено в Telegram.", false)
  const TelegramTestFailureTitle: string := "Ошибка теста Telegram"
  const TelegramTestFallback: string := "Проверьте токен бота и ID чата."
  const WebhookTestSuccessToast: Toast := Toast("Успешно!", "Тест Webhook успешен.", false)
  const WebhookTestFailureTitle: string := "Ошибка теста Webhook"
  const WebhookTestFallback: string := "Проверьте URL и данные."

  /** The sound channel's guard: a cue is attempted only when sound is on. */
  predicate SoundGuard(ns: NotificationSettings) {
    ns.sound
  }

  /** The browser channel's guard. */
  predicate BrowserGuard(ns: NotificationSettings) {
    ns.browser
  }

  /** The Telegram channel's guard: enabled, with a token and a chat id. */
  predicate TelegramGuard(t: TelegramSettings) {
    t.enabled && t.token != [] && t.chatId != []
  }

  /** The webhook channel's guard: enabled, with a URL. */
  predicate WebhookGuard(w: WebhookSettings) {
    w.enabled && w.url != []
  }

  /** The body of the completion notification, which names the mode's label. */
  function BrowserBody(m: TimerMode): (body: string)
    ensures OccursAt(body, ModeLabel(m), 8)
  {
    var prefix := "Сессия \"";
    assert |prefix| == 8;
    var body := prefix + ModeLabel(m) + "\" завершена!";
    assert body[8..8 + |ModeLabel(m)|] == ModeLabel(m);
    body
  }

  /** A notification on screen: `new Notification(title, {body})`. */
  datatype ShownNotification = ShownNotification(title: string, body: string)

  /** What the browser channel did: whether it asked for permission, and the notification it showed. */
  datatype BrowserOutcome = BrowserOutcome(requested: bool, shown: Option<ShownNotification>)

  /**
    * `showBrowserNotification`: with browser notifications on, it asks for
    * permission only while the state is "default", and shows the notification
    * only if the state is then "granted". `afterRequest` is the state once
    * the request has been answered.
    */
  function ShowBrowserNotification(ns: NotificationSettings, m: TimerMode, before: Permission, afterRequest: Permission): (r: BrowserOutcome)
    ensures r.requested == (BrowserGuard(ns) && before == DefaultPermission)
    ensures r.shown.Some? == (BrowserGuard(ns) && (if before == DefaultPermission then afterRequest else before) == Granted)
    ensures r.shown.Some? ==> r.shown.value == ShownNotification(NotificationTitle, BrowserBody(m))
  {
    if !ns.browser then BrowserOutcome(false, None)
    else
      var requested := before == DefaultPermission;
      var permission := if requested then afterRequest else before;
      BrowserOutcome(requested, if permission == Granted then Some(ShownNotification(NotificationTitle, BrowserBody(m))) else None)
  }

  /** The Bot API endpoint for a token. */
  function TelegramUrl(token: string): (url: string)
    ensures |url| == |TelegramApiPrefix| + |token| + |SendMessagePath|
    ensures url[..|TelegramApiPrefix|] == TelegramApiPrefix
    ensures url[|TelegramApiPrefix|..|url| - |SendMessagePath|] == token
    ensures url[|url| - |SendMessagePath|..] == SendMessagePath
  {
    var url := TelegramApiPrefix + token + SendMessagePath;
    assert url[|TelegramApiPrefix|..|url| - |SendMessagePath|] == token;
    url
  }

  /** Distinct tokens give distinct endpoints: the token can be read back from the URL. */
  lemma TelegramUrlInjective(a: string, b: string)
    requires TelegramUrl(a) == TelegramUrl(b)
    ensures a == b
  {
    var ua, ub := TelegramUrl(a), TelegramUrl(b);
    assert a == ua[|TelegramApiPrefix|..|ua| - |SendMessagePath|];
  }

  /** The text of the completion message, which names the mode's label. */
  function CompletionText(m: TimerMode): (text: string)
    ensures exists i :: OccursAt(text, ModeLabel(m), i)
  {
    var prefix := "🍅 Pomodoro: Сессия \"";
    var text := prefix + ModeLabel(m) + "\" завершена!";
    assert OccursAt(text, ModeLabel(m), |prefix|) by {
      assert text[|prefix|..|prefix| + |ModeLabel(m)|] == ModeLabel(m);
    }
    text
  }

  /**
    * `sendTelegramMessage`: when the guard holds, one POST to the token's
    * endpoint with the chat id and the completion text; any failure, a
    * response that is not ok or a rejection, shows the Telegram error toast.
    */
  function SendTelegramMessage(t: TelegramSettings, m: TimerMode, outcome: FetchOutcome): (r: ChannelReport)
    ensures r.request.Some? == TelegramGuard(t)
    ensures r.request.Some? ==> r.request.value == Request(TelegramUrl(t.token), TelegramMessage(t.chatId, CompletionText(m)))
    ensures r.toast.Some? == (TelegramGuard(t) && !Succeeded(outcome))
    ensures r.toast.Some? ==> r.toast.value == TelegramErrorToast
  {
    if !t.enabled || t.token == [] || t.chatId == [] then ChannelReport(None, None)
    else
      var request := Request(TelegramUrl(t.token), TelegramMessage(t.chatId, CompletionText(m)));
      ChannelReport(Some(request), if Succeeded(outcome) then None else Some(TelegramErrorToast))
  }

  /**
    * The payload substitution: the first `{{timestamp}}` becomes the
    * timestamp, then the first `{{mode}}` becomes the mode id.
    */
  function WebhookBody(template: string, timestamp: string, modeId: string): string {
    ReplaceFirst(ReplaceFirst(template, TimestampPlaceholder, timestamp), ModePlaceholder, modeId)
  }

  /** A template without placeholders is sent unchanged. */
  lemma {:induction false} WebhookBodyWithoutPlaceholders(template: string, timestamp: string, modeId: string)
    requires forall j :: !OccursAt(template, TimestampPlaceholder, j)
    requires forall j :: !OccursAt(template, ModePlaceholder, j)
    ensures WebhookBody(template, timestamp, modeId) == template
  {
    ReplaceFirstAbsent(template, TimestampPlaceholder, timestamp);
    ReplaceFirstAbsent(template, ModePlaceholder, modeId);
  }

  /** A placeholder opens with two braces, so it cannot start where no two braces follow each other. */
  lemma PlaceholderNeedsDoubleBrace(s: string, placeholder: string, n: nat)
    requires |placeholder| >= 2 && placeholder[0] == '{' && placeholder[1] == '{'
    requires forall j :: 0 <= j < n && j + 1 < |s| ==> s[j] != '{' || s[j + 1] != '{'
    ensures forall j :: 0 <= j < n ==> !OccursAt(s, placeholder, j)
  {
    forall j: nat | OccursAt(s, placeholder, j)
      ensures s[j] == '{' && s[j + 1] == '{'
    {
      assert s[j..j + |placeholder|][0] == s[j] && s[j..j + |placeholder|][1] == s[j + 1];
    }
  }

  /** The head of the example template below, before its first placeholder. */
  const ExampleHead: string := "{\"t\":\""
  /** The piece of the example template between its two placeholders. */
  const ExampleMiddle: string := "\",\"m\":\""
  /** The tail of the example template, after its second placeholder. */
  const ExampleTail: string := "\"}"

  /** In the example template, `{{timestamp}}` first occurs right after the head. */
  lemma ExampleTimestampFilled(timestamp: string)
    ensures var head, mid, tail := ExampleHead, ExampleMiddle, ExampleTail;
      ReplaceFirst(head + TimestampPlaceholder + mid + ModePlaceholder + tail, TimestampPlaceholder, timestamp)
        == head + timestamp + mid + ModePlaceholder + tail
  {
    var head, mid, tail, t := ExampleHead, ExampleMiddle, ExampleTail, TimestampPlaceholder;
    var template := head + t + mid + ModePlaceholder + tail;
    assert template[6..19] == t;
    forall j | 0 <= j < 6 ensures !OccursAt(template, t, j) {
      if j == 0 {
        MismatchNoOccurrence(template, t, j, 1);
      } else {
        MismatchNoOccurrence(template, t, j, 0);
      }
    }
    ReplaceFirstAt(template, t, timestamp, 6);
    assert template[..6] == head && template[19..] == mid + ModePlaceholder + tail;
  }

  /**
    * Once the timestamp is in, no `{{mode}}` starts before the middle piece
    * ends: the head opens with a brace and a quote, and no other brace
    * precedes the placeholder.
    */
  lemma {:induction false} NoModeBeforeSecondPlaceholder(timestamp: string, j: nat)
    requires '{' !in timestamp
    requires j < |ExampleHead| + |timestamp| + |ExampleMiddle|
    ensures !OccursAt(ExampleHead + timestamp + ExampleMiddle + ModePlaceholder + ExampleTail, ModePlaceholder, j)
  {
    var head, mid, m := ExampleHead, ExampleMiddle, ModePlaceholder;
    var s := head + timestamp + mid + m + ExampleTail;
    var n := |timestamp|;
    if j == 0 {
      assert s[1] == '"';
      MismatchNoOccurrence(s, m, j, 1);
    } else if j < 6 {
      assert s[j] == head[j];
      MismatchNoOccurrence(s, m, j, 0);
    } else if j < 6 + n {
      assert s[j] == timestamp[j - 6];
      MismatchNoOccurrence(s, m, j, 0);
    } else {
      assert s[j] == mid[j - 6 - n];
      MismatchNoOccurrence(s, m, j, 0);
    }
  }

  /**
    * A template of the form `{"t":"{{timestamp}}","m":"{{mode}}"}` is sent
    * with the timestamp and the mode id in place of the placeholders,
    * whatever the timestamp, as long as it has no brace (an ISO-8601
    * timestamp has none).
    */
  lemma {:induction false} WebhookBodyFillsBoth(timestamp: string, modeId: string)
    requires '{' !in timestamp
    ensures var head, mid, tail := ExampleHead, ExampleMiddle, ExampleTail;
      WebhookBody(head + TimestampPlaceholder + mid + ModePlaceholder + tail, timestamp, modeId)
        == head + timestamp + mid + modeId + tail
  {
    var head, mid, tail, m := ExampleHead, ExampleMiddle, ExampleTail, ModePlaceholder;
    ExampleTimestampFilled(timestamp);
    var s := head + timestamp + mid + m + tail;
    var n := |head| + |timestamp| + |mid|;
    forall j | 0 <= j < n ensures !OccursAt(s, m, j) {
      NoModeBeforeSecondPlaceholder(timestamp, j);
    }
    assert s[n..n + 8] == m;
    ReplaceFirstAt(s, m, modeId, n);
    assert s[..n] == head + timestamp + mid && s[n + 8..] == tail;
  }

  /**
    * No `{{mode}}` starts at offset `j` of a brace-free text followed by a
    * space and `{{timestamp}}`: inside the text or at the space the first
    * character is not a brace; inside `{{timestamp}}` the second or third
    * character is not what `{{mode}}` has there.
    */
  lemma {:induction false} NoModeAt(timestamp: string, j: nat)
    requires '{' !in timestamp
    ensures !OccursAt(timestamp + " " + TimestampPlaceholder, ModePlaceholder, j)
  {
    var s, t, m := timestamp + " " + TimestampPlaceholder, TimestampPlaceholder, ModePlaceholder;
    var n := |timestamp|;
    if j + |m| <= |s| {
      if j < n {
        assert s[j] == timestamp[j];
        MismatchNoOccurrence(s, m, j, 0);
      } else if j == n {
        assert s[j] == ' ';
        MismatchNoOccurrence(s, m, j, 0);
      } else if j == n + 1 {
        assert s[j + 2] == t[2] == 't';
        MismatchNoOccurrence(s, m, j, 2);
      } else {
        var o := j - n - 1;
        assert 1 <= o <= 5 && s[j + 1] == t[o + 1];
        assert t[o + 1] in "times";
        MismatchNoOccurrence(s, m, j, 1);
      }
    }
  }

  /**
    * Only the first `{{timestamp}}` is replaced: a second one is sent as
    * written.
    */
  lemma {:induction false} WebhookBodySecondTimestampKept(timestamp: string, modeId: string)
    requires '{' !in timestamp
    ensures WebhookBody(TimestampPlaceholder + " " + TimestampPlaceholder, timestamp, modeId)
      == timestamp + " " + TimestampPlaceholder
  {
    var t, m := TimestampPlaceholder, ModePlaceholder;
    var template := t + " " + t;
    assert template[..13] == t;
    ReplaceFirstAt(template, t, timestamp, 0);
    var s := timestamp + " " + t;
    assert template[13..] == " " + t;
    assert s == template[..0] + timestamp + template[13..];
    forall j: nat ensures !OccursAt(s, m, j) {
      NoModeAt(timestamp, j);
    }
    ReplaceFirstAbsent(s, m, modeId);
  }

  /**
    * `sendWebhook`: when the guard holds, one POST of the substituted
    * template to the URL; any failure shows the webhook error toast.
    */
  function SendWebhook(w: WebhookSettings, m: TimerMode, timestamp: string, outcome: FetchOutcome): (r: ChannelReport)
    ensures r.request.Some? == WebhookGuard(w)
    ensures r.request.Some? ==> r.request.value == Request(w.url, RawBody(WebhookBody(w.payload, timestamp, ModeId(m))))
    ensures r.toast.Some? == (WebhookGuard(w) && !Succeeded(outcome))
    ensures r.toast.Some? ==> r.toast.value == WebhookErrorToast
  {
    if !w.enabled || w.url == [] then ChannelReport(None, None)
    else
      var payload := WebhookBody(w.payload, timestamp, ModeId(m));
      ChannelReport(Some(Request(w.url, RawBody(payload))), if Succeeded(outcome) then None else Some(WebhookErrorToast))
  }

  /** Under the default settings neither remote channel sends anything. */
  lemma DefaultsSendNothingRemote(m: TimerMode, timestamp: string, f: FetchOutcome, g: FetchOutcome)
    ensures SendTelegramMessage(DefaultSettings().integrations.telegram, m, f) == ChannelReport(None, None)
    ensures SendWebhook(DefaultSettings().integrations.webhook, m, timestamp, g) == ChannelReport(None, None)
  {
  }

  /** What a test entry point did: the request it sent, what it returned, and its one toast. */
  datatype TestResult = TestResult(request: Request, success: bool, toast: Toast)

  /**
    * `testTelegram(token, chatId)`: sends the fixed test text whatever the
    * stored settings and enable flag say, returns true exactly when the
    * response is ok, and shows one toast either way. A response that is not
    * ok is described by the API's `description`, or "Unknown error".
    */
  function TestTelegram(token: string, chatId: string, outcome: FetchOutcome): (r: TestResult)
    ensures r.request == Request(TelegramUrl(token), TelegramMessage(chatId, TelegramTestText))
    ensures r.success == Succeeded(outcome)
    ensures r.success ==> r.toast == TelegramTestSuccessToast
    ensures !r.success ==> r.toast.title == TelegramTestFailureTitle && r.toast.destructive
    ensures outcome.Responded? && !outcome.ok ==>
      r.toast.description == if outcome.description != [] then outcome.description else UnknownError
    ensures outcome.Rejected? ==>
      r.toast.description == if outcome.message != [] then outcome.message else TelegramTestFallback
  {
    var request := Request(TelegramUrl(token), TelegramMessage(chatId, TelegramTestText));
    match outcome
    case Responded(ok, _, description) =>
      if ok then TestResult(request, true, TelegramTestSuccessToast)
      else
        var message := if description != [] then description else UnknownError;
        TestResult(request, false, Toast(TelegramTestFailureTitle, message, true))
    case Rejected(message) =>
      var text := if message != [] then message else TelegramTestFallback;
      TestResult(request, false, Toast(TelegramTestFailureTitle, text, true))
  }

  /** The message of the error `testWebhook` catches: "HTTP <status>" for a response that is not ok. */
  function WebhookFailureMessage(outcome: FetchOutcome): string {
    match outcome
    case Responded(_, status, _) => "HTTP " + IntToString(status)
    case Rejected(message) => message
  }

  /**
    * `testWebhook(url, payload)`: substitutes the template with mode "test",
    * sends it, returns true exactly when the response is ok, and shows one
    * toast either way. A failure whose message contains "Failed to fetch" is
    * reported as a CORS problem; otherwise by its message, or a fallback when
    * the message is empty.
    */
  function TestWebhook(url: string, payload: string, timestamp: string, outcome: FetchOutcome): (r: TestResult)
    ensures r.request == Request(url, RawBody(WebhookBody(payload, timestamp, TestModeId)))
    ensures r.success == Succeeded(outcome)
    ensures r.success ==> r.toast == WebhookTestSuccessToast
    ensures !r.success ==> r.toast.title == WebhookTestFailureTitle && r.toast.destructive
    ensures !r.success && Includes(WebhookFailureMessage(outcome), FailedToFetch) ==> r.toast.description == CorsMessage
    ensures !r.success && !Includes(WebhookFailureMessage(outcome), FailedToFetch) ==>
      r.toast.description == if WebhookFailureMessage(outcome) != [] then WebhookFailureMessage(outcome) else WebhookTestFallback
  {
    var body := WebhookBody(payload, timestamp, TestModeId);
    var request := Request(url, RawBody(body));
    if Succeeded(outcome) then TestResult(request, true, WebhookTestSuccessToast)
    else
      var message := WebhookFailureMessage(outcome);
      var description := if Includes(message, FailedToFetch) then CorsMessage
                         else if message != [] then message else WebhookTestFallback;
      TestResult(request, false, Toast(WebhookTestFailureTitle, description, true))
  }

  /** An HTTP error status is never mistaken for a CORS failure: "HTTP <status>" has no "F" in it. */
  lemma HttpStatusNotCors(status: int)
    ensures !Includes("HTTP " + IntToString(status), FailedToFetch)
  {
    var s := "HTTP " + IntToString(status);
    var digits := NatToString(if status < 0 then -status else status);
    assert forall i :: 0 <= i < |digits| ==> IsDigit(digits[i]);
    assert forall i :: 0 <= i < |s| ==> s[i] != 'F' by {
      forall i | 0 <= i < |s| ensures s[i] != 'F' {
        if i >= 5 {
          if status < 0 {
            assert i == 5 || s[i] == digits[i - 6];
          } else {
            assert s[i] == digits[i - 5];
          }
        }
      }
    }
    assert FailedToFetch[0] == 'F';
  }

  /** An HTTP failure in a webhook test is reported as "HTTP <status>", never as the CORS message. */
  lemma {:induction false} WebhookTestHttpFailure(url: string, payload: string, timestamp: string, status: int, description: string)
    ensures TestWebhook(url, payload, timestamp, Responded(false, status, description)).toast.description
      == "HTTP " + IntToString(status)
  {
    HttpStatusNotCors(status);
  }

  /** The channels of the completion fan-out, in the order `notifyComplete` invokes them. */
  datatype Channel = SoundChannel | BrowserChannel | TelegramChannel | WebhookChannel

  /** What the outside world answers during one completion. */
  datatype Environment = Environment(
    permission: Permission,
    permissionAfterRequest: Permission,
    timestamp: string,
    telegramFetch: FetchOutcome,
    webhookFetch: FetchOutcome)

  /** The outcome of one `notifyComplete`: channel by channel. */
  datatype Dispatch = Dispatch(
    soundAttempted: bool,
    browser: BrowserOutcome,
    telegram: ChannelReport,
    webhook: ChannelReport)

  /**
    * `notifyComplete`'s outcome: each channel catches its own failures, so
    * each channel's outcome depends on its own settings and its own answer
    * from the outside world only. The order of the calls is kept by
    * `Notifier.NotifyComplete`.
    */
  function CompletionDispatch(ns: NotificationSettings, t: TelegramSettings, w: WebhookSettings, m: TimerMode, env: Environment): (d: Dispatch)
    ensures d.soundAttempted == SoundGuard(ns)
    ensures d.browser == ShowBrowserNotification(ns, m, env.permission, env.permissionAfterRequest)
    ensures d.telegram == SendTelegramMessage(t, m, env.telegramFetch)
    ensures d.webhook == SendWebhook(w, m, env.timestamp, env.webhookFetch)
  {
    Dispatch(
      ns.sound,
      ShowBrowserNotification(ns, m, env.permission, env.permissionAfterRequest),
      SendTelegramMessage(t, m, env.telegramFetch),
      SendWebhook(w, m, env.timestamp, env.webhookFetch))
  }

  /** The toasts a completion shows, in order. */
  function CompletionToasts(d: Dispatch): seq<Toast> {
    (match d.telegram.toast case Some(x) => [x] case None => [])
    + (match d.webhook.toast case Some(x) => [x] case None => [])
  }

  /**
    * On the completion path only a failing remote channel shows a toast:
    * one error toast for each of Telegram and the webhook that was sent and
    * failed, and nothing for sound or the browser notification.
    */
  lemma CompletionToastsOnFailureOnly(ns: NotificationSettings, t: TelegramSettings, w: WebhookSettings, m: TimerMode, env: Environment)
    ensures var toasts := CompletionToasts(CompletionDispatch(ns, t, w, m, env));
      toasts ==
        (if TelegramGuard(t) && !Succeeded(env.telegramFetch) then [TelegramErrorToast] else [])
        + (if WebhookGuard(w) && !Succeeded(env.webhookFetch) then [WebhookErrorToast] else [])
  {
  }

  /**
    * Failure isolation: two completions whose environments differ only in
    * the webhook's answer have the same sound, browser and Telegram outcomes.
    */
  lemma WebhookFailureIsolated(ns: NotificationSettings, t: TelegramSettings, w: WebhookSettings, m: TimerMode, env: Environment, webhookFetch: FetchOutcome)
    ensures var a := CompletionDispatch(ns, t, w, m, env);
      var b := CompletionDispatch(ns, t, w, m, env.(webhookFetch := webhookFetch));
      a.soundAttempted == b.soundAttempted && a.browser == b.browser && a.telegram == b.telegram
  {
  }

  /** The same for a failing Telegram call: the webhook's outcome does not depend on it. */
  lemma TelegramFailureIsolated(ns: NotificationSettings, t: TelegramSettings, w: WebhookSettings, m: TimerMode, env: Environment, telegramFetch: FetchOutcome)
    ensures CompletionDispatch(ns, t, w, m, env).webhook == CompletionDispatch(ns, t, w, m, env.(telegramFetch := telegramFetch)).webhook
  {
  }

  /**
    * The hook's one piece of state, the audio context, created on the first
    * cue and reused after; `calls` records the channels invoked so far.
    */
  class Notifier {
    var audioContextCreated: bool
    ghost var contextsCreated: nat
    ghost var calls: seq<Channel>

    ghost predicate Valid()
      reads this
    {
      contextsCreated == if audioContextCreated then 1 else 0
    }

    constructor ()
      ensures Valid() && !audioContextCreated && calls == []
    {
      audioContextCreated := false;
      contextsCreated := 0;
      calls := [];
    }

    /** `playSound`: nothing unless sound is on; otherwise the context is created if it does not exist yet. */
    method PlaySound(ns: NotificationSettings) returns (attempted: bool)
      requires Valid()
      modifies this
      ensures Valid() && attempted == SoundGuard(ns)
      ensures audioContextCreated == (old(audioContextCreated) || ns.sound)
      ensures contextsCreated <= 1
      ensures calls == old(calls) + [SoundChannel]
    {
      calls := calls + [SoundChannel];
      if !ns.sound {
        return false;
      }
      if !audioContextCreated {
        audioContextCreated := true;
        contextsCreated := contextsCreated + 1;
      }
      attempted := true;
    }

    /** `showBrowserNotification(m)`. */
    method ShowNotification(ns: NotificationSettings, m: TimerMode, before: Permission, afterRequest: Permission)
      returns (r: BrowserOutcome)
      modifies this
      ensures r == ShowBrowserNotification(ns, m, before, afterRequest)
      ensures calls == old(calls) + [BrowserChannel]
      ensures audioContextCreated == old(audioContextCreated) && contextsCreated == old(contextsCreated)
    {
      calls := calls + [BrowserChannel];
      r := ShowBrowserNotification(ns, m, before, afterRequest);
    }

    /** `sendTelegramMessage(m)`. */
    method SendTelegram(t: TelegramSettings, m: TimerMode, outcome: FetchOutcome) returns (r: ChannelReport)
      modifies this
      ensures r == SendTelegramMessage(t, m, outcome)
      ensures calls == old(calls) + [TelegramChannel]
      ensures audioContextCreated == old(audioContextCreated) && contextsCreated == old(contextsCreated)
    {
      calls := calls + [TelegramChannel];
      r := SendTelegramMessage(t, m, outcome);
    }

    /** `sendWebhook(m)`. */
    method PostWebhook(w: WebhookSettings, m: TimerMode, timestamp: string, outcome: FetchOutcome) returns (r: ChannelReport)
      modifies this
      ensures r == SendWebhook(w, m, timestamp, outcome)
      ensures calls == old(calls) + [WebhookChannel]
      ensures audioContextCreated == old(audioContextCreated) && contextsCreated == old(contextsCreated)
    {
      calls := calls + [WebhookChannel];
      r := SendWebhook(w, m, timestamp, outcome);
    }

    /**
      * `notifyComplete`: the four channels, in order, each one whatever the
      * earlier ones did.
      */
    method NotifyComplete(ns: NotificationSettings, t: TelegramSettings, w: WebhookSettings, m: TimerMode, env: Environment)
      returns (d: Dispatch)
      requires Valid()
      modifies this
      ensures Valid() && d == CompletionDispatch(ns, t, w, m, env)
      ensures audioContextCreated == (old(audioContextCreated) || ns.sound)
      ensures calls == old(calls) + [SoundChannel, BrowserChannel, TelegramChannel, WebhookChannel]
    {
      var attempted := PlaySound(ns);
      var browser := ShowNotification(ns, m, env.permission, env.permissionAfterRequest);
      var telegram := SendTelegram(t, m, env.telegramFetch);
      var webhook := PostWebhook(w, m, env.timestamp, env.webhookFetch);
      d := Dispatch(attempted, browser, telegram, webhook);
    }
  }
}
