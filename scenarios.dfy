/**
 * Cases of the handler's table-driven tests, restated as lemmas under the
 * configuration those tests set.
 */
module Scenarios {
  import opened Wrappers
  import opened Config
  import opened Store
  import opened Mail
  import opened Services
  import opened Handler

  function TestConfig(): Config {
    Config(
      baseUrl := "https://example.com",
      errorPage := "/error",
      successPage := "/success",
      confirmSubscribePage := "/confirm-subscribe",
      confirmUnsubscribePage := "/confirm-unsubscribe",
      subscribePath := "subscribe",
      verifyPath := "verify",
      unsubscribePath := "unsubscribe",
      senderName := "Test Sender",
      senderEmail := "sender@example.com",
      apiUrl := "https://api.example.com")
  }

  /** "Subscribe - Success": the pending item is written and the confirm-subscribe page is shown. */
  lemma SubscribeSuccess(t: Table, parse: string -> Option<string>, freshId: string, now: string)
    requires parse("new@example.com") == Some("new@example.com")
    ensures var o := Handled(TestConfig(), t, Request("/subscribe/", map["email" := "new@example.com"]),
                             parse, freshId, now, NoFaults);
      && Location(o.resp) == "https://example.com/confirm-subscribe"
      && o.resp.statusCode == 303 && o.err == None
      && o.table["new@example.com"] == Record("new@example.com", freshId, now, false)
      && o.sent == [VerificationMessage(TestConfig(), "new@example.com", freshId)]
  {
  }

  /** "Verify - ID Mismatch": the stored id differs; error page, no error, no update. */
  lemma VerifyIdMismatch(parse: string -> Option<string>, freshId: string, now: string, ts: string, confirm: bool)
    ensures var t := map["mismatch@example.com" := Record("mismatch@example.com", "correct-id", ts, confirm)];
      var o := Handled(TestConfig(), t,
                       Request("/verify/", map["email" := "mismatch@example.com", "id" := "wrong-id"]),
                       parse, freshId, now, NoFaults);
      && Location(o.resp) == "https://example.com/error"
      && o.err == None && o.table == t
  {
  }

  /** "Unknown Path": error page, no error, table unchanged, nothing sent. */
  lemma UnknownPathScenario(t: Table, parse: string -> Option<string>, freshId: string, now: string)
    ensures var o := Handled(TestConfig(), t, Request("/unknown/", map[]), parse, freshId, now, NoFaults);
      Location(o.resp) == "https://example.com/error" && o.err == None && o.table == t && o.sent == []
  {
  }
}
