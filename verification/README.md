# Discord webhook client: payload shaping and dispatch

This project models the core of a small Python Discord webhook client. `DiscordClient` is built
from an optional webhook URL, an optional default sender username and avatar URL, a `wait` flag and
a timeout. `notify(data)` then does one of three things:

- **Print mode.** The URL is missing, empty or `"print"`. The rendering of the notification is logged.
- **Bypass mode.** The URL is `"bypass"`. Nothing happens.
- **URL mode.** The client builds a payload and POSTs it once. Building the payload means copying
  the notification, filling an empty `username` / `avatar_url` from the configured defaults, and
  rewriting every empty embed field value to `"-"`. Any failure of the POST or of
  `raise_for_status` is logged and swallowed.

The three payload records (`Field`, `Embed`, `Notification`) are immutable datatypes. Their
constructor defaults mirror the dataclass defaults, and their `__str__` renderings are modelled
as functions. Python's `str.join` is `Text.Join`.

The HTTP session is a parameter of `Notify`. It is a total function from the `Request` to the
`Reply` it produced: a status, a body and whether the response's `raise_for_status` raised, or an
exception raised while posting. Which statuses raise belongs to the session library: the default
`requests` session raises for 4xx and 5xx, while the `httpx` client the tests inject raises for
every status outside 2xx. Logging is modelled
as the sequence of `LogRecord`s a call emits. `notify` returns `None` in every mode, so `Notify`
returns an `Outcome` that records the effects: what was logged and what was handed to the session.

Modules: `Wrappers` (`Option`, Python truthiness of `Optional[str]`), `Text` (join and substring
occurrence), `Models` (records and renderings), `Payload` (defaults, normalisation and the
reference relation `PayloadOf`), `WebhookClient` (construction, mode dispatch, `Notify`) and
`Scenarios` (the situations of the test suite, as the code handles them).

## Model

| member | source | states |
|---|---|---|
| `Text.Join` | discord_webhook_client/models.py:34 | `"\n".join`: the empty list joins to `""`, one part joins to itself, and the length is the parts' lengths plus one separator between each pair of neighbours |
| `Text.JoinSepAt` | discord_webhook_client/models.py:34 | the separator sits right after every part but the last; with `JoinPartAt` and the length clause this fixes every position of the joined string |
| `Text.JoinPartAt` | discord_webhook_client/models.py:34 | every part appears in the joined string, at the offset given by the earlier parts and separators |
| `Models.DefaultValues` | discord_webhook_client/models.py:13-47 | the records built with no arguments have empty texts, colour 0 and no children, and render as `": "`, `""` and `":\n"` |
| `Models.FieldText` | discord_webhook_client/models.py:21-22 | a field renders as its name, then `": "`, then its value |
| `Models.FieldTexts` | discord_webhook_client/models.py:34 | the field renderings, one per field, in order |
| `Models.EmbedText` | discord_webhook_client/models.py:33-34 | an embed with no fields renders as the empty string; with one field it renders as that field |
| `Models.EmbedTexts` | discord_webhook_client/models.py:47 | the embed renderings, one per embed, in order |
| `Models.NotificationText` | discord_webhook_client/models.py:46-47 | a notification renders as its content, then `":\n"`, then its embeds; with no embeds it renders as exactly `content + ":\n"` |
| `Models.EmbedShowsField` | discord_webhook_client/models.py:33-34 | every field's `name: value` occurs in its embed's rendering |
| `Models.NotificationShowsField` | discord_webhook_client/models.py:46-47 | every field of every embed occurs, as `name: value`, in the notification's rendering |
| `Payload.ApplyDefaults` | discord_webhook_client/client.py:47-50 | a default applies only when it is set and non-empty and the notification's own value is empty. A non-empty own value is never overwritten. The result is non-empty exactly when the own value or the default is. Content and embeds are untouched |
| `Payload.NormalizeField` | discord_webhook_client/client.py:54-55 | an empty value becomes exactly `"-"`, a non-empty value is kept, and `name` and `inline` are never touched |
| `Payload.NormalizeFields` | discord_webhook_client/client.py:53-55 | same number of fields in the same order, each shaped by the field rule, all values non-empty |
| `Payload.NormalizeEmbed` | discord_webhook_client/client.py:52-55 | description and colour are kept, and the fields are shaped one by one with all values non-empty |
| `Payload.NormalizeEmbeds` | discord_webhook_client/client.py:52-55 | same number of embeds in the same order, each embed shaped, every value non-empty |
| `Payload.Normalize` | discord_webhook_client/client.py:52-55 | content, username and avatar URL are kept, embeds are shaped in place, and afterwards every field value in every embed is non-empty |
| `Payload.BuildPayload` | discord_webhook_client/client.py:45-55 | the posted payload is related to the notification by `PayloadOf`, the independent reference relation (defaulted sender, same content, same embeds and fields in order, only empty values replaced), and has no empty field value |
| `Payload.FieldShapedUnique` | discord_webhook_client/client.py:54-55 | the field rule determines the normalised field |
| `Payload.EmbedShapedUnique` | discord_webhook_client/client.py:52-55 | the embed rule determines the normalised embed |
| `Payload.PayloadOfIffBuild` | discord_webhook_client/client.py:45-55 | a payload satisfies the reference relation exactly when it is the one `notify` builds |
| `Payload.NormalizeFixpointIff` | discord_webhook_client/client.py:52-55 | normalisation leaves a notification unchanged if and only if none of its field values is empty |
| `Payload.BuildPayloadIdempotent` | discord_webhook_client/client.py:47-55 | building a payload from an already-built payload returns it unchanged |
| `WebhookClient.NewClient` | discord_webhook_client/client.py:20-34 | a missing or empty URL is stored as `"print"`, any other URL is stored as given, and the defaults, `wait` and timeout are kept |
| `WebhookClient.ModeOf` | discord_webhook_client/client.py:38-43 | `"print"` selects print mode, `"bypass"` selects bypass mode, and any other stored URL is the POST target |
| `WebhookClient.NewClientMode` | discord_webhook_client/client.py:30-43 | a client prints exactly when built from `None`, `""` or `"print"`, and bypasses exactly when built from `"bypass"`. Every other URL posts |
| `WebhookClient.DeliveryLogs` | discord_webhook_client/client.py:57-67 | a response body is logged at debug level. A failure is logged exactly when posting raised or the response's status check raised, and that record comes last |
| `WebhookClient.Notify` | discord_webhook_client/client.py:37-67 | print mode logs the original notification. Bypass does nothing. URL mode posts the reference payload to the stored URL with the configured timeout, sends `wait=true` only when `wait` is set and no params otherwise, and logs a failure exactly when the session's reply is one |
| `WebhookClient.DevModesNeverPost` | discord_webhook_client/client.py:38-43 | print and bypass hand nothing to the session, and their outcome is the same whatever the session would do |
| `WebhookClient.UrlModePostsOnce` | discord_webhook_client/client.py:45-67 | URL mode posts exactly once (no retry), the request is the same whatever the session returns, and its body is `BuildPayload` of the notification |
| `WebhookClient.PrintLogShowsNotification` | discord_webhook_client/client.py:38-40 | the print-mode log contains the notification's content and every field's `name: value` |
| `Scenarios.DefaultsAndWaitScenario` | tests/test_client.py:34-57 | defaults `bot` / `icon` fill an empty sender, and with `wait` off no query parameter is sent |
| `Scenarios.FieldDashScenario` | tests/test_client.py:60-83 | an empty field value is posted as `"-"` under the constructor's default username, with `wait=true` |
| `Scenarios.BadRequestScenario` | tests/test_client.py:109-118 | an HTTP 400 from the injected `httpx` client is logged as a failure and does not escape `notify` |
| `Scenarios.RateLimitScenario` | tests/test_client.py:86-106 | a 429 is posted once and logged as a failure; nothing is retried. The test's `max_retries=1` is left out, since the constructor does not accept it |
| `Scenarios.EmptyBypassScenario` | tests/test_client.py:121-124 | the empty notification passes through bypass mode without error |

## Where the tests differ from the code

The model follows `client.py` as written. The test suite expects several things that the code
does not do:

- **No validation.** tests/test_client.py:121-124 expects a `ValueError` for a notification with
  empty content and no embeds. Bypass returns before any check, so nothing is raised
  (`Scenarios.EmptyBypassScenario`).
- **No retry on 429.** tests/test_client.py:86-106 expects one sleep and a second POST. The
  constructor has no `max_retries` parameter, so as written that test fails with a `TypeError`
  when the client is built. Without the argument, a 429 is one POST whose failure is logged
  (`Scenarios.RateLimitScenario`).
- **No raised errors.** tests/test_client.py:109-118 expects an exception on HTTP 400. Every
  exception from the POST or from `raise_for_status` is logged and swallowed
  (`Scenarios.BadRequestScenario`).
- **No `wait=false`.** tests/test_client.py:57 expects `wait=false` in the query. With `wait` off,
  no query parameters are sent at all (`Scenarios.DefaultsAndWaitScenario`).
- **No response returned.** tests/test_client_e2e.py:36-39 uses the client as a context manager
  and expects `notify` to return the response. `notify` returns `None`, and the client is not a
  context manager.
- **No payload limits.** Discord documents payload limits (the webhook reference cited in
  models.py:4); no code enforces them.

## Left out

- The HTTP session and its construction (`session or requests.Session()`) are left out, because they are I/O in a foreign library. The session is a parameter of `Notify`, and its reply only decides which records are logged.
- `WebhookClient.DeliveryLogs`: which statuses make `raise_for_status` raise is not fixed by the model. The session reports it with each response, because the rule differs between `requests` (4xx and 5xx) and `httpx` (everything outside 2xx).
- The timeout is passed through in the `Request` as a `real`; what it does inside the session is not modelled.
- The request body is the typed `Notification` record, not the dictionary `dataclasses.asdict` produces. Keys and values correspond one to one, and the copy is implicit because values are immutable.
- Log records keep the level and message only. The traceback `logger.exception` appends, and the `b'...'` form in which a bytes body is formatted, are not modelled.
- `WebhookClient.Notify`: the failure record renders the original notification through `NotificationText`. The `%s` substitution of Python logging is represented by plain string concatenation.
- The end-to-end tests against a real webhook and the package's re-export module are left out, because they contain no logic of the client.
