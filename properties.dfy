/**
 * What the router promises, stated over `Handled` for every table, request,
 * parser, fresh id, clock reading and combination of service failures.
 */
module HandlerProperties {
  import opened Wrappers
  import opened Config
  import opened Store
  import opened Mail
  import opened Services
  import opened Handler

  /** How many of the four pages `url` equals. */
  function PageCount(c: Config, url: string): nat {
    (if url == ErrorPage(c) then 1 else 0)
    + (if url == SuccessPage(c) then 1 else 0)
    + (if url == ConfirmSubscribePage(c) then 1 else 0)
    + (if url == ConfirmUnsubscribePage(c) then 1 else 0)
  }

  /** With pairwise different page paths, every response redirects to exactly one of the four pages. */
  lemma ExactlyOnePage(c: Config, t: Table, req: Request, parse: string -> Option<string>,
                       freshId: string, now: string, f: Faults)
    requires DistinctPages(c)
    ensures var o := Handled(c, t, req, parse, freshId, now, f);
      && o.resp.statusCode == 303
      && o.resp.headers[AllowOrigin] == "*"
      && PageCount(c, Location(o.resp)) == 1
  {
    DistinctPageUrls(c);
  }

  /** Subscribe with an address the parser rejects: error page, the parse error, no write, no email. */
  lemma SubscribeInvalidAddress(c: Config, t: Table, req: Request, parse: string -> Option<string>,
                                freshId: string, now: string, f: Faults)
    requires req.rawPath == Route(c.subscribePath)
    requires parse(QueryValue(req.query, "email")).None?
    ensures Handled(c, t, req, parse, freshId, now, f) == Outcome(Redirect(ErrorPage(c)), Some(AddressInvalid), t, [])
  {
  }

  /**
   * Subscribe with a valid address: a failed write sends nothing and shows the
   * error page; a successful write replaces the item under the parsed address
   * with the fresh id, the clock reading and confirm=false, touching no other
   * key; the email goes out only after the write, and only both succeeding
   * shows the confirm-subscribe page.
   */
  lemma SubscribeValidAddress(c: Config, t: Table, req: Request, parse: string -> Option<string>,
                              freshId: string, now: string, f: Faults, address: string)
    requires req.rawPath == Route(c.subscribePath)
    requires parse(QueryValue(req.query, "email")) == Some(address)
    ensures var o := Handled(c, t, req, parse, freshId, now, f);
      && (f.subscribeUpdate ==> o == Outcome(Redirect(ErrorPage(c)), Some(UpdateFailed), t, []))
      && (!f.subscribeUpdate ==>
            && o.table.Keys == t.Keys + {address}
            && o.table[address] == Record(address, freshId, now, false)
            && (forall k :: k in t && k != address ==> o.table[k] == t[k]))
      && (!f.subscribeUpdate && f.send ==>
            o.resp == Redirect(ErrorPage(c)) && o.err == Some(SendFailed) && o.sent == [])
      && (!f.subscribeUpdate && !f.send ==>
            && o.resp == Redirect(ConfirmSubscribePage(c)) && o.err == None
            && o.sent == [VerificationMessage(c, address, freshId)])
  {
  }

  /** Subscribe shows the same page and returns the same error whether or not the address was already stored. */
  lemma SubscribeDoesNotRevealMembership(c: Config, t1: Table, t2: Table, req: Request, parse: string -> Option<string>,
                                         freshId: string, now: string, f: Faults)
    requires req.rawPath == Route(c.subscribePath)
    ensures var o1 := Handled(c, t1, req, parse, freshId, now, f);
      var o2 := Handled(c, t2, req, parse, freshId, now, f);
      o1.resp == o2.resp && o1.err == o2.err && o1.sent == o2.sent
  {
  }

  /**
   * Verify with both parameters: on a match the item keeps its id, gets
   * confirm=true and the new timestamp, and the success page is shown (the
   * error page if the update fails); a lookup failure shows the error page
   * and returns the failure; in every case other than a successful update the
   * table is unchanged.
   */
  lemma VerifyOutcomes(c: Config, t: Table, req: Request, parse: string -> Option<string>,
                       freshId: string, now: string, f: Faults)
    requires c.verifyPath != c.subscribePath
    requires req.rawPath == Route(c.verifyPath)
    requires HasEmailAndId(req.query)
    ensures var o := Handled(c, t, req, parse, freshId, now, f);
      var email, id := req.query["email"], req.query["id"];
      && o.sent == []
      && (!f.verifyLookup && Matches(t, email, id) && !f.verifyUpdate ==>
            && o.resp == Redirect(SuccessPage(c)) && o.err == None
            && o.table == t[email := t[email].(timestamp := now, confirm := true)])
      && (!f.verifyLookup && Matches(t, email, id) && f.verifyUpdate ==>
            o == Outcome(Redirect(ErrorPage(c)), Some(UpdateFailed), t, []))
      && (f.verifyLookup ==> o == Outcome(Redirect(ErrorPage(c)), Some(LookupFailed), t, []))
  {
    RouteInjective(c.verifyPath, c.subscribePath);
  }

  /**
   * Verify whose lookup succeeds without a match says nothing itself: control
   * reaches the final no-path redirect, which shows the error page with no
   * error and leaves the table as it was.
   */
  lemma VerifyNoMatchFallsThrough(c: Config, t: Table, req: Request, parse: string -> Option<string>,
                                  freshId: string, now: string, f: Faults)
    requires c.verifyPath != c.subscribePath && c.verifyPath != c.unsubscribePath
    requires req.rawPath == Route(c.verifyPath)
    requires HasEmailAndId(req.query)
    requires !f.verifyLookup && !Matches(t, req.query["email"], req.query["id"])
    ensures Handled(c, t, req, parse, freshId, now, f) == Outcome(Redirect(ErrorPage(c)), None, t, [])
  {
    RouteInjective(c.verifyPath, c.subscribePath);
    RouteInjective(c.verifyPath, c.unsubscribePath);
  }

  /**
   * Unsubscribe with both parameters: on a match the item is deleted and the
   * confirm-unsubscribe page is shown, unless the delete fails, which leaves
   * the table and shows the error page; with no match or a failed lookup no
   * delete happens and the error page is shown.
   */
  lemma UnsubscribeOutcomes(c: Config, t: Table, req: Request, parse: string -> Option<string>,
                            freshId: string, now: string, f: Faults)
    requires c.unsubscribePath != c.subscribePath && c.unsubscribePath != c.verifyPath
    requires req.rawPath == Route(c.unsubscribePath)
    requires HasEmailAndId(req.query)
    ensures var o := Handled(c, t, req, parse, freshId, now, f);
      var email, id := req.query["email"], req.query["id"];
      && o.sent == []
      && (!f.unsubscribeLookup && Matches(t, email, id) && !f.unsubscribeDelete ==>
            o == Outcome(Redirect(ConfirmUnsubscribePage(c)), None, t - {email}, []))
      && (!f.unsubscribeLookup && Matches(t, email, id) && f.unsubscribeDelete ==>
            o == Outcome(Redirect(ErrorPage(c)), Some(DeleteFailed), t, []))
      && (f.unsubscribeLookup || !Matches(t, email, id) ==>
            o == Outcome(Redirect(ErrorPage(c)), if f.unsubscribeLookup then Some(LookupFailed) else None, t, []))
  {
    RouteInjective(c.unsubscribePath, c.subscribePath);
    RouteInjective(c.unsubscribePath, c.verifyPath);
    ConditionalDeleteOnlyOnMatch(t, req.query["email"], req.query["id"]);
  }

  /**
   * Verify or unsubscribe without both `email` and `id`: error page, no error,
   * table unchanged and nothing sent, whichever service calls would have failed.
   */
  lemma MissingParameters(c: Config, t: Table, req: Request, parse: string -> Option<string>,
                          freshId: string, now: string, f: Faults)
    requires req.rawPath == Route(c.verifyPath) || req.rawPath == Route(c.unsubscribePath)
    requires req.rawPath != Route(c.subscribePath)
    requires !HasEmailAndId(req.query)
    ensures Handled(c, t, req, parse, freshId, now, f) == Outcome(Redirect(ErrorPage(c)), None, t, [])
  {
  }

  /** A path matching none of the three routes: error page, no error, nothing touched. */
  lemma UnknownPath(c: Config, t: Table, req: Request, parse: string -> Option<string>,
                    freshId: string, now: string, f: Faults)
    requires req.rawPath != Route(c.subscribePath)
    requires req.rawPath != Route(c.verifyPath)
    requires req.rawPath != Route(c.unsubscribePath)
    ensures Handled(c, t, req, parse, freshId, now, f) == Outcome(Redirect(ErrorPage(c)), None, t, [])
  {
  }

  /**
   * Outside subscribe, only the holder of an item's email and id can change it:
   * no item is created, an item that is changed or removed is the one named by
   * the query's email and its stored id is the query's id, ids and emails of
   * surviving items never change, and no email is sent.
   */
  lemma OnlyMatchingEmailAndIdChange(c: Config, t: Table, req: Request, parse: string -> Option<string>,
                                     freshId: string, now: string, f: Faults)
    requires req.rawPath != Route(c.subscribePath)
    requires WellKeyed(t)
    ensures var o := Handled(c, t, req, parse, freshId, now, f);
      && o.table.Keys <= t.Keys
      && o.sent == []
      && (forall k :: k in o.table ==> o.table[k].email == t[k].email && o.table[k].id == t[k].id)
      && (forall k :: k in t && (k !in o.table || o.table[k] != t[k]) ==>
            HasEmailAndId(req.query) && req.query["email"] == k && Matches(t, k, req.query["id"]))
  {
  }

  /** Subscribe changes at most the item under the parsed address and creates no other. */
  lemma SubscribeTouchesOnlyItsAddress(c: Config, t: Table, req: Request, parse: string -> Option<string>,
                                       freshId: string, now: string, f: Faults)
    requires req.rawPath == Route(c.subscribePath)
    ensures var o := Handled(c, t, req, parse, freshId, now, f);
      && (parse(QueryValue(req.query, "email")).None? ==> o.table == t)
      && (parse(QueryValue(req.query, "email")).Some? ==>
            var address := parse(QueryValue(req.query, "email")).value;
            && o.table.Keys <= t.Keys + {address}
            && (forall k :: k in t && k != address ==> k in o.table && o.table[k] == t[k]))
  {
  }

  /**
   * The double opt-in round trip: a successful subscribe mails a link carrying
   * the parsed address and the fresh id, and a verify request with exactly
   * those two parameters then succeeds and confirms that item.
   */
  lemma SubscribeThenVerify(c: Config, t: Table, raw: string, parse: string -> Option<string>, address: string,
                            freshId: string, now1: string, id2: string, now2: string)
    requires c.verifyPath != c.subscribePath
    requires parse(raw) == Some(address)
    ensures var o1 := Handled(c, t, Request(Route(c.subscribePath), map["email" := raw]), parse, freshId, now1, NoFaults);
      var o2 := Handled(c, o1.table, Request(Route(c.verifyPath), map["email" := address, "id" := freshId]),
                        parse, id2, now2, NoFaults);
      && |o1.sent| == 1
      && o1.sent[0].to == [address]
      && Contains(o1.sent[0].html, VerifyLink(c, address, freshId))
      && Contains(o1.sent[0].text, VerifyLink(c, address, freshId))
      && o2.resp == Redirect(SuccessPage(c)) && o2.err == None
      && o2.table == t[address := Record(address, freshId, now2, true)]
  {
    RouteInjective(c.verifyPath, c.subscribePath);
    VerificationMessageCarriesLink(c, address, freshId);
    var t1 := Upsert(t, address, freshId, now1, false);
    assert Matches(t1, address, freshId);
    assert t1[address := Record(address, freshId, now2, true)] == t[address := Record(address, freshId, now2, true)];
  }

  /** A second unsubscribe with the same email and id, after the first deleted the item, shows the error page. */
  lemma UnsubscribeTwice(c: Config, t: Table, req: Request, parse: string -> Option<string>,
                         freshId: string, now: string, f1: Faults, f2: Faults)
    requires c.unsubscribePath != c.subscribePath && c.unsubscribePath != c.verifyPath
    requires req.rawPath == Route(c.unsubscribePath)
    requires HasEmailAndId(req.query)
    requires Matches(t, req.query["email"], req.query["id"])
    requires !f1.unsubscribeLookup && !f1.unsubscribeDelete
    ensures var o1 := Handled(c, t, req, parse, freshId, now, f1);
      var o2 := Handled(c, o1.table, req, parse, freshId, now, f2);
      && o1.resp == Redirect(ConfirmUnsubscribePage(c))
      && req.query["email"] !in o1.table
      && o2.resp == Redirect(ErrorPage(c))
      && o2.table == o1.table
  {
    UnsubscribeOutcomes(c, t, req, parse, freshId, now, f1);
    UnsubscribeOutcomes(c, t - {req.query["email"]}, req, parse, freshId, now, f2);
  }

  /**
   * The mailed link, decoded by a query-string parser, leads to verification:
   * for an address and id without '&', the parameters read back from the link
   * are the address and id that subscribe stored, and a verify request with
   * them confirms the item.
   */
  lemma MailedLinkVerifies(c: Config, t: Table, raw: string, parse: string -> Option<string>, address: string,
                           freshId: string, now1: string, id2: string, now2: string)
    requires c.verifyPath != c.subscribePath
    requires parse(raw) == Some(address)
    requires '&' !in address && '&' !in freshId
    ensures var o1 := Handled(c, t, Request(Route(c.subscribePath), map["email" := raw]), parse, freshId, now1, NoFaults);
      && LinkParams(c, VerifyLink(c, address, freshId)) == Some((address, freshId))
      && var (email, id) := LinkParams(c, VerifyLink(c, address, freshId)).value;
         var o2 := Handled(c, o1.table, Request(Route(c.verifyPath), map["email" := email, "id" := id]),
                           parse, id2, now2, NoFaults);
         o2.resp == Redirect(SuccessPage(c)) && o2.table == t[address := Record(address, freshId, now2, true)]
  {
    LinkParamsRoundTrip(c, address, freshId);
    SubscribeThenVerify(c, t, raw, parse, address, freshId, now1, id2, now2);
  }
}
