# simple-subscribe: a Dafny model of the double opt-in handler

This project models the confirmed opt-in subscription workflow of `main.go`.
One serverless handler answers three routes:

- **subscribe** parses an address, upserts a pending item `{email, id, timestamp, confirm=false}` keyed by email, and mails a verification link;
- **verify** confirms the item when the stored email and id match the link's parameters;
- **unsubscribe** deletes the item under the same match, with a conditional delete.

Every answer is a 303 redirect to one of four configured pages, with `Access-Control-Allow-Origin: *`.

Layout:

- `wrappers.dfy`: `Option`.
- `config.dfy`: the configuration record (one field per environment variable), the four page URLs, and the route string `"/" + segment + "/"`.
- `store.dfy`: the table as a `map<string, Record>`, the match test, the upsert and the conditional delete as functions on tables.
- `mail.dfy`: the verification message: link, HTML and text bodies, sender, subject.
- `services.dfy`: class `Services`. It holds the table (a `map` field the store calls reassign) and a ghost `outbox` of delivered messages. It has one method per store or mail call. Each method takes a `fail` flag that stands for the service answering with an error.
- `handler.dfy`: the request and response, the per-call-site failure flags (`Faults`), the pure outcome `Handled`, and the method `LambdaHandler`. The method keeps the source's ordered early-return `if` blocks. It is proved to produce exactly `Handled`'s response, error and table, and to append `Handled`'s messages to the outbox.
- `properties.dfy`: the router's guarantees as lemmas over `Handled`.
- `scenarios.dfy`: three cases of the handler test table, restated as lemmas under the test configuration.

Inputs that the source takes from its environment are parameters:

- configuration (`os.Getenv`) is the `Config` record;
- the fresh id (`uuid.New`) is `freshId`;
- the clock reading (`time.Now`, formatted) is `now`;
- the address parser (`net/mail.ParseAddress`) is `parse: string -> Option<string>`, returning the normalised address;
- each service call's success or failure is a flag in `Faults`.

Two behaviours of the code that the model keeps as written:

- A verify request whose lookup succeeds without a match does not answer inside the verify block. Control falls through to the unsubscribe check and then to the final "no path match" redirect (error page, no error). With distinct route segments this looks like "no match, error page" (`VerifyNoMatchFallsThrough`). When `VERIFY_PATH` equals `UNSUBSCRIBE_PATH`, the unsubscribe block also runs; `Handled` keeps that shape, with its own lookup flag.
- For a verify or unsubscribe request with no match and no lookup failure, the handler returns no error. Only a failed lookup, update or delete is returned as an error there.

## Model

| member | source | states |
|---|---|---|
| Config.RouteInjective | main.go:282 | A path selects a branch exactly when it equals `"/" + segment + "/"`. Two routes coincide exactly when their segments are equal. |
| Config.PageUrlInjective | main.go:273-276 | Prefixing `BASE_URL` keeps distinct page paths distinct. |
| Config.DistinctPageUrls | main.go:273-276 | Pairwise different page paths give four pairwise different redirect URLs. |
| Store.IsMatch | main.go:79 | The match test on a fetched item: its stored email and its stored id both equal the inputs. |
| Store.Matches | main.go:75-80 | An item is stored under `email`, and it passes the match test. |
| Config.ErrorPage | main.go:273 | `BASE_URL + ERROR_PAGE`. |
| Config.SuccessPage | main.go:274 | `BASE_URL + SUCCESS_PAGE`. |
| Config.ConfirmSubscribePage | main.go:275 | `BASE_URL + CONFIRM_SUBSCRIBE_PAGE`. |
| Config.ConfirmUnsubscribePage | main.go:276 | `BASE_URL + CONFIRM_UNSUBSCRIBE_PAGE`. |
| Config.Route | main.go:282 | The path a branch answers: `"/" + segment + "/"`. |
| Mail.VerifyLink | main.go:209-212 | The verification link: `API_URL + VERIFY_PATH + "/?email=" + email + "&id=" + id`. |
| Mail.Sender | main.go:215 | The "from" value: the quoted sender name, then the sender address in angle brackets. |
| Mail.VerificationMessage | main.go:209-241 | The message: recipient list `[email]`, the sender as source, `SENDER_EMAIL` as return path, the fixed subject, and the HTML and text bodies, each built around the link. |
| Handler.QueryValue | main.go:284 | A query parameter, or `""` when the key is absent, as a Go map read returns. |
| Handler.Subscribed | main.go:282-314 | The subscribe branch. A rejected address gives the error page and `AddressInvalid`. A failed write gives the error page and `UpdateFailed`. A failed send keeps the write and gives `SendFailed`. Otherwise the table is upserted with `confirm=false`, the confirm-subscribe page is shown, and one message is sent. |
| Handler.Verified | main.go:317-348 | The verify branch. Missing parameters give the error page and no error. A match with no lookup failure confirms the item, or gives `UpdateFailed` if the update fails. A failed lookup gives `LookupFailed`. A successful lookup with no match gives no answer, and control falls through. |
| Handler.Unsubscribed | main.go:351-379 | The unsubscribe branch. Missing parameters give the error page and no error. A match with no lookup failure gives the conditional delete and the confirm-unsubscribe page, or `DeleteFailed` if the delete fails. Otherwise the error page, with `LookupFailed` exactly when the lookup failed. |
| Store.Upsert | main.go:87-120 | The update keyed by email creates or overwrites the item: new keys are the old plus `email`, the item is `{email, id, timestamp, confirm}`, and every other key keeps its item. |
| Store.ConditionalDelete | main.go:153-172 | The delete removes `email` only when the stored email and id equal the inputs; otherwise the table keeps its keys; surviving items are unchanged. |
| Store.UpsertWellKeyed | main.go:93-97 | An upsert keeps every item stored under its own email. |
| Store.ConditionalDeleteWellKeyed | main.go:156-160 | A delete keeps every item stored under its own email. |
| Store.UpsertThenMatches | main.go:79 | After an upsert, the match test on the written email succeeds for the written id and for no other id. |
| Store.UpsertLastWriterWins | main.go:91-92 | Two subscribes with the same email: the second upsert replaces the first outright. |
| Store.ConditionalDeleteOnlyOnMatch | main.go:169-170 | The conditional delete changes the table if and only if the match holds, and then removes exactly `email`. |
| Mail.VerificationMessageCarriesLink | main.go:209-240 | The message goes to the subscribing address alone. Both bodies contain `API_URL + VERIFY_PATH + "/?email=" + email + "&id=" + id`. The source is `"\"" + SENDER_NAME + "\" <" + SENDER_EMAIL + ">"`, the return path is `SENDER_EMAIL`, and the subject is fixed. |
| Mail.LinkParamsRoundTrip | main.go:209-212 | A query-string parser that splits values at '&' reads back exactly the email and id the link was built from, provided neither contains '&'. |
| Mail.LinkParamsAmpersandAddress | main.go:209-212 | The link does not escape its parameters. For the address `a&b@example.com`, the email and id read back are not the ones the link was built from. |
| Mail.TakeUntilAmp | main.go:209-212 | One query value is the longest prefix without '&'; it is followed by '&' or is the whole rest. |
| Mail.ContainsMiddle | main.go:209-212 | A piece placed between a head and a tail occurs in the result. |
| Services.Services.EmailExistsWithId | main.go:42-84 | Reports a match if and only if the lookup did not fail, an item is stored under `email`, and its stored email and id equal the inputs. It returns an error exactly when the lookup failed; an absent item or a wrong id is no match and no error. |
| Services.Services.UpdateItem | main.go:87-150 | On failure the table is unchanged and the error is returned; otherwise the table becomes the upsert of the old one. |
| Services.Services.DeleteEmail | main.go:153-202 | On failure, or when the condition no longer holds, the table is unchanged and an error is returned. Otherwise exactly `email` is removed. |
| Services.Services.SendEmail | main.go:205-269 | A successful send appends the verification message for `email` and `id` to the outbox. A failed send appends nothing and returns the error. |
| Handler.Handled | main.go:271-385 | Every outcome is status 303, has exactly the CORS and Location headers, and redirects to one of the four pages. Any returned error comes with the error page. At most one email is sent. Well-keyed tables stay well-keyed. |
| Handler.LambdaHandler | main.go:271-385 | The imperative handler's response, error and new table equal `Handled` of the old table. The outbox grows by exactly `Handled`'s messages. |
| HandlerProperties.ExactlyOnePage | main.go:273-279 | With pairwise different page paths, every response has status 303, `Access-Control-Allow-Origin: *`, and a Location equal to exactly one of the four pages. |
| HandlerProperties.SubscribeInvalidAddress | main.go:284-289 | An address the parser rejects gives the error page and the parse error. Nothing is written and no email is sent. |
| HandlerProperties.SubscribeValidAddress | main.go:291-312 | A failed write sends nothing and shows the error page. A successful write replaces the item under the parsed address with the fresh id, `now` and `confirm=false`, leaving every other key alone. Only write plus send success shows the confirm-subscribe page and sends the one message. |
| HandlerProperties.SubscribeDoesNotRevealMembership | main.go:309-312 | Subscribe returns the same response, error and email whatever the table held before. |
| HandlerProperties.SubscribeTouchesOnlyItsAddress | main.go:284-299 | Subscribe changes or creates at most the item under the parsed address; a rejected address changes nothing. |
| HandlerProperties.VerifyOutcomes | main.go:317-347 | On a match, verify keeps the id, sets `confirm=true` and the new timestamp, and shows the success page. A failed update shows the error page with the table unchanged. A failed lookup shows the error page and returns the failure. |
| HandlerProperties.VerifyNoMatchFallsThrough | main.go:342-384 | A verify lookup that succeeds without a match reaches the final redirect: error page, no error, table unchanged. |
| HandlerProperties.UnsubscribeOutcomes | main.go:351-379 | On a match, unsubscribe deletes exactly that item and shows the confirm-unsubscribe page; a failed delete leaves the table and shows the error page. With no match or a failed lookup there is no delete and the error page is shown. |
| HandlerProperties.MissingParameters | main.go:319-359 | Verify or unsubscribe without both `email` and `id`: error page, no error, table untouched, no email. |
| HandlerProperties.UnknownPath | main.go:381-384 | A path matching no route: error page, no error, nothing touched. |
| HandlerProperties.OnlyMatchingEmailAndIdChange | main.go:316-379 | Outside subscribe, no item is created and no email is sent. Ids and emails of surviving items never change. Any item changed or removed is the one named by the query's email, and its stored id equals the query's id. |
| HandlerProperties.SubscribeThenVerify | main.go:292-340 | A successful subscribe mails a link with the parsed address and the fresh id. A verify request with those two parameters then shows the success page and confirms that item. |
| HandlerProperties.MailedLinkVerifies | main.go:209-212 | The parameters decoded from the mailed link are the stored address and the fresh id, provided neither contains '&'. A verify request carrying them then shows the success page and confirms the item. |
| HandlerProperties.UnsubscribeTwice | main.go:361-378 | After a successful unsubscribe, the same request again shows the error page and changes nothing. |
| Scenarios.SubscribeSuccess | main_test.go:321-336 | Test case "Subscribe - Success": confirm-subscribe page, pending item written, one message sent. |
| Scenarios.VerifyIdMismatch | main_test.go:420-440 | Test case "Verify - ID Mismatch": error page, no error, table unchanged. |
| Scenarios.UnknownPathScenario | main_test.go:575-586 | Test case "Unknown Path": error page, no error, nothing touched. |

## Left out

- AWS plumbing (`session.New`, the DynamoDB and SES clients, `lambda.Start`, main.go:387-396). This is I/O; the table is the `Services.table` map and the mail service is the ghost `outbox`.
- The per-error-code `switch` blocks and all logging (main.go:56-73, 124-147, 176-199, 245-264). They only choose a log line. Each failure is one `Error` constructor per call, and error message texts are not modelled.
- `net/mail.ParseAddress` (the address grammar of section 3.4 of RFC 5322) is a foreign library. It is the `parse` parameter, applied to the query's `email` value, or to `""` when absent, as a Go map read gives.
- `uuid.New()` and `time.Now().Format(...)` are nondeterministic. They are the `freshId` and `now` parameters; the timestamp format is not modelled.
- `os.Getenv` is the immutable `Config` record. `DB_TABLE_NAME` is not modelled, because there is only one table.
- The `Charset: "UTF-8"` fields of the SES message are not modelled; the `Message` datatype holds recipients, source, return path, subject and both bodies.
- The table is modelled as strongly consistent: each invocation reads what earlier invocations wrote. The lookup at main.go:44-52 does not ask for a consistent read, so the service may answer from a stale copy. `HandlerProperties.SubscribeThenVerify`, `HandlerProperties.MailedLinkVerifies` and `HandlerProperties.UnsubscribeTwice`, which chain two invocations, rely on this.
- Concurrency between invocations. The conditional delete's race protection is modelled only as the condition re-checked inside `Services.DeleteEmail`; in one sequential call a successful match always satisfies it.
- The panic main.go:79 would raise on a stored item without an `email` or `id` attribute. Every `Record` has both.
- A failed lookup is modelled as returning no item. The source would also compare the fields of an item returned alongside an error; the SDK does not return one.
- HandlerProperties.SubscribeThenVerify: assumes that the verify request carries exactly the stored address and id. Nothing decodes the mailed link in this lemma.
  - The link puts `email` and `id` into the query unescaped (main.go:209, 212). An address the parser accepts with '&' or '#' in its local part would not come back intact: `Mail.LinkParamsAmpersandAddress` shows this for '&'.
  - `HandlerProperties.MailedLinkVerifies` closes the loop only for addresses and ids without '&'.
  - The platform's real query decoding (percent-decoding, '+', '#' fragments) is not modelled.
- The mail service keeps no record of failed sends: `outbox` holds delivered messages only.
- The single-step variant with a bot filter is not part of this model; it is not in `main.go`.
- The test file's mock types are test scaffolding, not behaviour.
