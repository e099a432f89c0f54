/**
 * `DiscordClient`: construction (URL to mode, sender defaults) and `notify`.
 * The HTTP session is a black box: a total function from the request to
 * the reply it produced, whose outcome `notify` only logs.
 */
module WebhookClient {
  import opened Wrappers
  import opened Text
  import opened Models
  import opened Payload

  /** Sentinel URLs selecting the development modes. */
  const PrintUrl: string := "print"
  const BypassUrl: string := "bypass"

  /** Constructor defaults. */
  const DefaultUsername: string := "Capitan Hook (Squad)"
  const DefaultAvatarUrl: string := "https://github.com/offerland-ca.png"
  const DefaultTimeout: real := 30.0

  /** The configured client; `url` is the stored destination after the constructor's fallback. */
  datatype Client = Client(
    url: string,
    defaultUsername: Option<string>,
    defaultAvatarUrl: Option<string>,
    wait: bool,
    timeout: real)

  /** Where `notify` sends a notification. */
  datatype Mode = PrintMode | BypassMode | UrlMode(target: string)

  /** The stored destination: a missing or empty URL falls back to print mode; anything else is kept. */
  function NewClient(
    url: Option<string>,
    defaultUsername: Option<string> := Some(DefaultUsername),
    defaultAvatarUrl: Option<string> := Some(DefaultAvatarUrl),
    wait: bool := true,
    timeout: real := DefaultTimeout): (c: Client)
    ensures c.url != ""
    ensures !Truthy(url) ==> c.url == PrintUrl
    ensures Truthy(url) ==> c.url == url.value
    ensures c.defaultUsername == defaultUsername && c.defaultAvatarUrl == defaultAvatarUrl
    ensures c.wait == wait && c.timeout == timeout
  {
    Client(if Truthy(url) then url.value else PrintUrl, defaultUsername, defaultAvatarUrl, wait, timeout)
  }

  /** The mode `notify` dispatches on, read from the stored URL. */
  function ModeOf(url: string): (m: Mode)
    ensures m == PrintMode <==> url == PrintUrl
    ensures m == BypassMode <==> url == BypassUrl
    ensures m.UrlMode? ==> m.target == url
  {
    if url == PrintUrl then PrintMode
    else if url == BypassUrl then BypassMode
    else UrlMode(url)
  }

  /** Query parameters of the POST: `wait=true` when waiting, none at all otherwise. */
  function QueryParams(wait: bool): Option<map<string, string>> {
    if wait then Some(map["wait" := "true"]) else None
  }

  /** One POST handed to the session. */
  datatype Request = Request(url: string, json: Notification, params: Option<map<string, string>>, timeout: real)

  /**
   * What the session produced: a response, or an exception raised while
   * posting. Which statuses make the response's `raise_for_status` raise is
   * the session library's rule, so the session reports it: the default
   * `requests` session raises for 4xx and 5xx, an injected `httpx` client
   * for every status outside 2xx.
   */
  datatype Reply = Response(status: int, body: string, statusRaises: bool) | PostError

  /** The reply makes the `try` block raise. */
  predicate Failed(reply: Reply) {
    reply.PostError? || reply.statusRaises
  }

  datatype Level = Debug | Info | Error

  datatype LogRecord = LogRecord(level: Level, message: string)

  /** The error record names the destination and renders the caller's original notification. */
  function FailureRecord(url: string, data: Notification): LogRecord {
    LogRecord(Error, "failed to send discord notification to " + url + "\n" + NotificationText(data))
  }

  /** The records logged after the POST: the response body at debug level, then the failure if any. */
  function DeliveryLogs(url: string, data: Notification, reply: Reply): (logs: seq<LogRecord>)
    ensures 1 <= |logs| <= 2
    ensures Failed(reply) <==> FailureRecord(url, data) in logs
    ensures Failed(reply) ==> logs[|logs| - 1] == FailureRecord(url, data)
    ensures reply.Response? ==> logs[0] == LogRecord(Debug, reply.body)
  {
    match reply
    case PostError => [FailureRecord(url, data)]
    case Response(_, body, statusRaises) =>
      [LogRecord(Debug, body)] + (if statusRaises then [FailureRecord(url, data)] else [])
  }

  /** The observable effect of one `notify` call, which itself always returns `None`. */
  datatype Outcome =
    | Printed(log: LogRecord)
    | Bypassed
    | Posted(request: Request, logs: seq<LogRecord>)

  /** The requests handed to the session. */
  function Sent(o: Outcome): seq<Request> {
    if o.Posted? then [o.request] else []
  }

  /** `DiscordClient.notify`. */
  function Notify(c: Client, data: Notification, send: Request -> Reply): (o: Outcome)
    ensures o.Printed? <==> ModeOf(c.url) == PrintMode
    ensures o.Bypassed? <==> ModeOf(c.url) == BypassMode
    ensures o.Printed? ==> o.log == LogRecord(Info, NotificationText(data))
    ensures o.Posted? ==> o.request.url == c.url && o.request.timeout == c.timeout
    ensures o.Posted? ==> PayloadOf(data, c.defaultUsername, c.defaultAvatarUrl, o.request.json)
    ensures o.Posted? ==> AllValuesNonEmpty(o.request.json)
    ensures o.Posted? ==> (o.request.params.Some? <==> c.wait)
    ensures o.Posted? && c.wait ==> o.request.params == Some(map["wait" := "true"])
    ensures o.Posted? ==> (Failed(send(o.request)) <==> FailureRecord(c.url, data) in o.logs)
  {
    match ModeOf(c.url)
    case PrintMode => Printed(LogRecord(Info, NotificationText(data)))
    case BypassMode => Bypassed
    case UrlMode(target) =>
      var payload := BuildPayload(data, c.defaultUsername, c.defaultAvatarUrl);
      var request := Request(target, payload, QueryParams(c.wait), c.timeout);
      Posted(request, DeliveryLogs(target, data, send(request)))
  }

  /** A client built from a missing or empty URL, or from "print", prints. */
  lemma NewClientMode(url: Option<string>)
    ensures ModeOf(NewClient(url).url) == PrintMode <==> !Truthy(url) || url == Some(PrintUrl)
    ensures ModeOf(NewClient(url).url) == BypassMode <==> url == Some(BypassUrl)
    ensures ModeOf(NewClient(url).url).UrlMode? <==> Truthy(url) && url.value != PrintUrl && url.value != BypassUrl
  {
  }

  /**
   * The development modes return before any payload exists: they post
   * nothing, and what they do does not depend on the session at all.
   */
  lemma DevModesNeverPost(c: Client, data: Notification, send1: Request -> Reply, send2: Request -> Reply)
    requires !ModeOf(c.url).UrlMode?
    ensures Sent(Notify(c, data, send1)) == []
    ensures Notify(c, data, send1) == Notify(c, data, send2)
  {
  }

  /**
   * URL mode posts exactly once, and what it posts does not depend on
   * the session; whatever the session does, `notify` completes.
   */
  lemma UrlModePostsOnce(c: Client, data: Notification, send1: Request -> Reply, send2: Request -> Reply)
    requires ModeOf(c.url).UrlMode?
    ensures |Sent(Notify(c, data, send1))| == 1
    ensures Sent(Notify(c, data, send1)) == Sent(Notify(c, data, send2))
    ensures Notify(c, data, send1).request.json == BuildPayload(data, c.defaultUsername, c.defaultAvatarUrl)
  {
  }

  /** Print mode logs the original notification: its content and every field's `name: value` show up. */
  lemma PrintLogShowsNotification(c: Client, data: Notification, send: Request -> Reply)
    requires ModeOf(c.url) == PrintMode
    ensures Occurs(data.content, Notify(c, data, send).log.message)
    ensures forall i, j :: 0 <= i < |data.embeds| && 0 <= j < |data.embeds[i].fields| ==>
              Occurs(FieldText(data.embeds[i].fields[j]), Notify(c, data, send).log.message)
  {
    var text := NotificationText(data);
    assert OccursAt(data.content, text, 0);
    forall i, j | 0 <= i < |data.embeds| && 0 <= j < |data.embeds[i].fields|
      ensures Occurs(FieldText(data.embeds[i].fields[j]), text)
    {
      NotificationShowsField(data, i, j);
    }
  }
}
