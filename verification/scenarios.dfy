/**
 * The notifications and replies the repository's test suite uses, as
 * `notify` as written handles them. The tests inject an `httpx` client as
 * the session, so a response's status check raises outside 2xx.
 */
module Scenarios {
  import opened Wrappers
  import opened Models
  import opened WebhookClient

  const Url: string := "https://example.com/webhook"

  /** A response from an `httpx` client: `raise_for_status` raises for every status outside 2xx. */
  function HttpxResponse(status: int, body: string): Reply {
    Response(status, body, !(200 <= status < 300))
  }

  /** A session that answers every POST with 204 No Content. */
  function NoContent(r: Request): Reply {
    HttpxResponse(204, "{}")
  }

  /**
   * Defaults `bot` and `icon` fill an empty sender; with `wait` off the
   * request carries no query parameters at all (no `wait=false`).
   */
  lemma DefaultsAndWaitScenario()
    ensures var c := NewClient(Some(Url), Some("bot"), Some("icon"), false);
            var o := Notify(c, Notification(content := "hi"), NoContent);
            && o.Posted?
            && o.request.json == Notification("hi", "bot", "icon", [])
            && o.request.params == None
            && o.logs == [LogRecord(Debug, "{}")]
  {
  }

  /** An empty field value is posted as the placeholder, under the constructor's default sender. */
  lemma FieldDashScenario()
    ensures var data := Notification(content := "with embed",
                                     embeds := [Embed(color := 0xFF0000, fields := [Field(name := "ID")])]);
            var o := Notify(NewClient(Some(Url)), data, NoContent);
            && o.Posted?
            && o.request.json.embeds[0].fields[0] == Field("ID", "-", false)
            && o.request.json.username == DefaultUsername
            && o.request.params == Some(map["wait" := "true"])
  {
  }

  /** An HTTP 400 is logged as a failure and swallowed: `notify` still completes with one POST. */
  lemma BadRequestScenario()
    ensures var data := Notification(content := "bad request");
            var o := Notify(NewClient(Some(Url)), data, (r: Request) => HttpxResponse(400, "bad"));
            && o.Posted?
            && o.logs == [LogRecord(Debug, "bad"), FailureRecord(Url, data)]
  {
  }

  /**
   * A 429 is not retried: it is one POST whose failure is logged. The test
   * also passes `max_retries=1`, which the constructor does not accept, so
   * as written that test fails with a `TypeError` before `notify` runs; this
   * lemma leaves the argument out and shows what `notify` would do.
   */
  lemma RateLimitScenario()
    ensures var data := Notification(content := "retry me");
            var o := Notify(NewClient(Some(Url)), data, (r: Request) => HttpxResponse(429, "{\"retry_after\": 0}"));
            && |Sent(o)| == 1
            && FailureRecord(Url, data) in o.logs
  {
  }

  /** The empty notification is silently accepted in bypass mode. */
  lemma EmptyBypassScenario()
    ensures Notify(NewClient(Some("bypass")), Notification(), NoContent) == Bypassed
  {
  }
}
