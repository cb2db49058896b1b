/**
 * The verification email that a subscribe request sends: an HTML body and a
 * plain-text body, each carrying the verification link, a fixed subject, and
 * a sender built from configuration.
 */
module Mail {
  import opened Wrappers
  import opened Config

  datatype Message = Message(
    to: seq<string>,
    source: string,
    returnPath: string,
    subject: string,
    html: string,
    text: string)

  const Subject: string := "Confirm your subscription"

  const HtmlHead: string :=
    "<p>Hello! You're receiving this email because you requested a subscription to my list.</p>"
    + "<p>To complete your subscription, please click this link to finish signing up:</p>"
    + "<p><a class=\"ulink\" href=\""
  const HtmlTail: string :=
    "\" target=\"_blank\">Confirm subscription</a>.</p>"
    + "<p>If you did not request this email, you can safely ignore it. "
    + "Your email address has not yet been added to my list.</p>"

  const TextHead: string :=
    "Hello! You're receiving this email because you requested a subscription to my list.\n\n"
    + "To complete your subscription, please visit this link to finish signing up.\n\n"
  const TextTail: string :=
    "\n\nIf you did not request this email, you can safely ignore it. "
    + "Your email address has not yet been added to my list."

  /** The link the subscriber follows: API_URL, VERIFY_PATH, then the email and id as query parameters. */
  function VerifyLink(c: Config, email: string, id: string): string {
    c.apiUrl + c.verifyPath + "/?email=" + email + "&id=" + id
  }

  function HtmlBody(c: Config, email: string, id: string): string {
    HtmlHead + VerifyLink(c, email, id) + HtmlTail
  }

  function TextBody(c: Config, email: string, id: string): string {
    TextHead + VerifyLink(c, email, id) + TextTail
  }

  /** The "from" value: the quoted sender name followed by the sender address in angle brackets. */
  function Sender(c: Config): string {
    "\"" + c.senderName + "\" <" + c.senderEmail + ">"
  }

  function VerificationMessage(c: Config, email: string, id: string): Message {
    Message([email], Sender(c), c.senderEmail, Subject, HtmlBody(c, email, id), TextBody(c, email, id))
  }

  /** `t` occurs in `s` as a contiguous piece. */
  predicate Contains(s: string, t: string) {
    exists i :: 0 <= i <= |s| && t <= s[i..]
  }

  lemma ContainsMiddle(a: string, t: string, b: string)
    ensures Contains(a + t + b, t)
  {
    var s := a + t + b;
    assert s[|a|..] == t + b;
    assert t <= s[|a|..];
  }

  /**
   * The message goes to the subscribing address alone, both bodies carry the
   * verification link for that address and id, and the sender is taken from
   * configuration.
   */
  lemma VerificationMessageCarriesLink(c: Config, email: string, id: string)
    ensures var m := VerificationMessage(c, email, id);
      && m.to == [email]
      && Contains(m.html, VerifyLink(c, email, id))
      && Contains(m.text, VerifyLink(c, email, id))
      && m.source == "\"" + c.senderName + "\" <" + c.senderEmail + ">"
      && m.returnPath == c.senderEmail
      && m.subject == Subject
  {
    ContainsMiddle(HtmlHead, VerifyLink(c, email, id), HtmlTail);
    ContainsMiddle(TextHead, VerifyLink(c, email, id), TextTail);
  }

  /** The piece of `s` before its first '&': one query value as a query-string parser reads it. */
  function TakeUntilAmp(s: string): (r: string)
    ensures r <= s && '&' !in r
    ensures |r| < |s| ==> s[|r|] == '&'
  {
    if s == [] || s[0] == '&' then [] else [s[0]] + TakeUntilAmp(s[1..])
  }

  lemma {:induction false} TakeUntilAmpOfJoin(a: string, b: string)
    requires '&' !in a
    requires b == [] || b[0] == '&'
    ensures TakeUntilAmp(a + b) == a
  {
    if a != [] {
      assert (a + b)[1..] == a[1..] + b;
      TakeUntilAmpOfJoin(a[1..], b);
    }
  }

  /**
   * The `email` and `id` values that a query-string parser reads back from a
   * verification link: each value runs up to the next '&', and the id must
   * directly follow the email as "&id=". None when the link has another shape.
   */
  function LinkParams(c: Config, link: string): Option<(string, string)> {
    var head := c.apiUrl + c.verifyPath + "/?email=";
    if !(head <= link) then None
    else
      var query := link[|head|..];
      var email := TakeUntilAmp(query);
      var rest := query[|email|..];
      if !("&id=" <= rest) then None
      else Some((email, TakeUntilAmp(rest[4..])))
  }

  /** A link for an email and an id without '&' gives those two values back. */
  lemma LinkParamsRoundTrip(c: Config, email: string, id: string)
    requires '&' !in email && '&' !in id
    ensures LinkParams(c, VerifyLink(c, email, id)) == Some((email, id))
  {
    var head := c.apiUrl + c.verifyPath + "/?email=";
    var link := VerifyLink(c, email, id);
    assert link == head + (email + ("&id=" + id));
    assert link[|head|..] == email + ("&id=" + id);
    TakeUntilAmpOfJoin(email, "&id=" + id);
    assert (email + ("&id=" + id))[|email|..] == "&id=" + id;
    assert ("&id=" + id)[4..] == id + [];
    TakeUntilAmpOfJoin(id, []);
  }

  /**
   * The link puts the address into the query unescaped: for an address with
   * '&' in its local part, which the address parser accepts, the email read
   * back is not the address that was stored.
   */
  lemma LinkParamsAmpersandAddress(c: Config, id: string)
    ensures LinkParams(c, VerifyLink(c, "a&b@example.com", id)) != Some(("a&b@example.com", id))
  {
  }
}
