/**
 * The request router: one invocation maps a path and query parameters to a
 * 303 redirect, at most two store calls and at most one email. `Handled` is
 * the outcome as a function of the table before the call; `LambdaHandler`
 * performs the calls on the services and is proved to reach that outcome.
 */
module Handler {
  import opened Wrappers
  import opened Config
  import opened Store
  import opened Mail
  import opened Services

  const StatusSeeOther: int := 303
  const AllowOrigin: string := "Access-Control-Allow-Origin"
  const LocationHeader: string := "Location"

  /** The parts of the inbound event the handler reads. */
  datatype Request = Request(rawPath: string, query: map<string, string>)

  datatype Response = Response(statusCode: int, headers: map<string, string>)

  /** Which service calls of one invocation fail, one flag per call site. */
  datatype Faults = Faults(
    subscribeUpdate: bool,
    send: bool,
    verifyLookup: bool,
    verifyUpdate: bool,
    unsubscribeLookup: bool,
    unsubscribeDelete: bool)

  const NoFaults: Faults := Faults(false, false, false, false, false, false)

  /** What one invocation returns and leaves behind: the response, its error, the new table, the emails delivered. */
  datatype Outcome = Outcome(resp: Response, err: Option<Error>, table: Table, sent: seq<Message>)

  /** A query parameter, or the empty string when it is absent. */
  function QueryValue(query: map<string, string>, key: string): string {
    if key in query then query[key] else ""
  }

  function Redirect(location: string): Response {
    Response(StatusSeeOther, map[AllowOrigin := "*", LocationHeader := location])
  }

  function Location(r: Response): string {
    if LocationHeader in r.headers then r.headers[LocationHeader] else ""
  }

  /** Every response: status 303, the open CORS header, and a Location that is one of the four pages. */
  predicate IsRedirect(c: Config, r: Response) {
    && r.statusCode == StatusSeeOther
    && r.headers.Keys == {AllowOrigin, LocationHeader}
    && r.headers[AllowOrigin] == "*"
    && IsPage(c, r.headers[LocationHeader])
  }

  predicate HasEmailAndId(query: map<string, string>) {
    "email" in query && "id" in query
  }

  /** The subscribe branch: parse the address, upsert a pending item with the fresh id, send the link. */
  function Subscribed(c: Config, t: Table, query: map<string, string>, parse: string -> Option<string>,
                      freshId: string, now: string, f: Faults): Outcome
  {
    match parse(QueryValue(query, "email"))
    case None => Outcome(Redirect(ErrorPage(c)), Some(AddressInvalid), t, [])
    case Some(address) =>
      if f.subscribeUpdate then Outcome(Redirect(ErrorPage(c)), Some(UpdateFailed), t, [])
      else
        var t' := Upsert(t, address, freshId, now, false);
        if f.send then Outcome(Redirect(ErrorPage(c)), Some(SendFailed), t', [])
        else Outcome(Redirect(ConfirmSubscribePage(c)), None, t', [VerificationMessage(c, address, freshId)])
  }

  /**
   * The verify branch. `None` is the case where the block ends without a
   * response: both parameters present, the lookup succeeded, no match.
   */
  function Verified(c: Config, t: Table, query: map<string, string>, now: string, f: Faults): Option<Outcome> {
    if !HasEmailAndId(query) then Some(Outcome(Redirect(ErrorPage(c)), None, t, []))
    else
      var email, id := query["email"], query["id"];
      if !f.verifyLookup && Matches(t, email, id) then
        if f.verifyUpdate then Some(Outcome(Redirect(ErrorPage(c)), Some(UpdateFailed), t, []))
        else Some(Outcome(Redirect(SuccessPage(c)), None, Upsert(t, email, id, now, true), []))
      else if f.verifyLookup then Some(Outcome(Redirect(ErrorPage(c)), Some(LookupFailed), t, []))
      else None
  }

  /** The unsubscribe branch: look up, then delete on condition that email and id still match. */
  function Unsubscribed(c: Config, t: Table, query: map<string, string>, f: Faults): Outcome {
    if !HasEmailAndId(query) then Outcome(Redirect(ErrorPage(c)), None, t, [])
    else
      var email, id := query["email"], query["id"];
      if !f.unsubscribeLookup && Matches(t, email, id) then
        if f.unsubscribeDelete then Outcome(Redirect(ErrorPage(c)), Some(DeleteFailed), t, [])
        else Outcome(Redirect(ConfirmUnsubscribePage(c)), None, ConditionalDelete(t, email, id), [])
      else Outcome(Redirect(ErrorPage(c)), if f.unsubscribeLookup then Some(LookupFailed) else None, t, [])
  }

  /**
   * The outcome of one invocation on table `t`: the path is compared with the
   * subscribe, verify and unsubscribe routes in that order, and a path that no
   * branch answers ends on the error page with no error.
   */
  function Handled(c: Config, t: Table, req: Request, parse: string -> Option<string>,
                   freshId: string, now: string, f: Faults): (o: Outcome)
    ensures IsRedirect(c, o.resp)
    ensures WellKeyed(t) ==> WellKeyed(o.table)
    ensures o.err.Some? ==> Location(o.resp) == ErrorPage(c)
    ensures |o.sent| <= 1
  {
    if req.rawPath == Route(c.subscribePath) then
      Subscribed(c, t, req.query, parse, freshId, now, f)
    else
      var v := if req.rawPath == Route(c.verifyPath) then Verified(c, t, req.query, now, f) else None;
      if v.Some? then v.value
      else if req.rawPath == Route(c.unsubscribePath) then Unsubscribed(c, t, req.query, f)
      else Outcome(Redirect(ErrorPage(c)), None, t, [])
  }

  function WithLocation(r: Response, location: string): Response {
    r.(headers := r.headers[LocationHeader := location])
  }

  /** The handler: ordered path checks, each branch returning early with its redirect. */
  method LambdaHandler(svc: Services, c: Config, event: Request, parse: string -> Option<string>,
                       freshId: string, now: string, f: Faults)
    returns (resp: Response, err: Option<Error>)
    requires svc.Valid()
    modifies svc
    ensures svc.Valid()
    ensures var o := Handled(c, old(svc.table), event, parse, freshId, now, f);
      && resp == o.resp && err == o.err
      && svc.table == o.table
      && svc.outbox == old(svc.outbox) + o.sent
  {
    var errorPage := ErrorPage(c);
    var successPage := SuccessPage(c);
    var confirmSubscribe := ConfirmSubscribePage(c);
    var confirmUnsubscribe := ConfirmUnsubscribePage(c);
    resp := Response(0, map[]);
    resp := resp.(headers := resp.headers[AllowOrigin := "*"]);
    resp := resp.(statusCode := StatusSeeOther);

    if event.rawPath == Route(c.subscribePath) {
      var address := parse(QueryValue(event.query, "email"));
      if address.None? {
        return WithLocation(resp, errorPage), Some(AddressInvalid);
      }
      var uerr := svc.UpdateItem(address.value, freshId, now, false, f.subscribeUpdate);
      if uerr.Some? {
        return WithLocation(resp, errorPage), uerr;
      }
      var serr := svc.SendEmail(c, address.value, freshId, f.send);
      if serr.Some? {
        return WithLocation(resp, errorPage), serr;
      }
      return WithLocation(resp, confirmSubscribe), None;
    }

    if event.rawPath == Route(c.verifyPath) {
      if !("email" in event.query) || !("id" in event.query) {
        return WithLocation(resp, errorPage), None;
      }
      var email, id := event.query["email"], event.query["id"];
      var found, lerr := svc.EmailExistsWithId(email, id, f.verifyLookup);
      if found {
        var uerr := svc.UpdateItem(email, id, now, true, f.verifyUpdate);
        if uerr.Some? {
          return WithLocation(resp, errorPage), uerr;
        }
        return WithLocation(resp, successPage), None;
      }
      if lerr.Some? {
        return WithLocation(resp, errorPage), lerr;
      }
    }

    if event.rawPath == Route(c.unsubscribePath) {
      if !("email" in event.query) || !("id" in event.query) {
        return WithLocation(resp, errorPage), None;
      }
      var email, id := event.query["email"], event.query["id"];
      var found, lerr := svc.EmailExistsWithId(email, id, f.unsubscribeLookup);
      if found {
        var derr := svc.DeleteEmail(email, id, f.unsubscribeDelete);
        if derr.None? {
          resp := WithLocation(resp, confirmUnsubscribe);
        } else {
          resp := WithLocation(resp, errorPage);
        }
        return resp, derr;
      }
      if !found || lerr.Some? {
        return WithLocation(resp, errorPage), lerr;
      }
    }

    return WithLocation(resp, errorPage), None;
  }
}
