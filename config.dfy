/**
 * The deployment configuration that main.go reads from the environment,
 * the four redirect pages built from it and the route strings the handler
 * compares request paths against.
 */
module Config {

  /** One field per environment variable the handler and the mailer read. */
  datatype Config = Config(
    baseUrl: string,                 // BASE_URL
    errorPage: string,               // ERROR_PAGE
    successPage: string,             // SUCCESS_PAGE
    confirmSubscribePage: string,    // CONFIRM_SUBSCRIBE_PAGE
    confirmUnsubscribePage: string,  // CONFIRM_UNSUBSCRIBE_PAGE
    subscribePath: string,           // SUBSCRIBE_PATH
    verifyPath: string,              // VERIFY_PATH
    unsubscribePath: string,         // UNSUBSCRIBE_PATH
    senderName: string,              // SENDER_NAME
    senderEmail: string,             // SENDER_EMAIL
    apiUrl: string)                  // API_URL

  function ErrorPage(c: Config): string { c.baseUrl + c.errorPage }
  function SuccessPage(c: Config): string { c.baseUrl + c.successPage }
  function ConfirmSubscribePage(c: Config): string { c.baseUrl + c.confirmSubscribePage }
  function ConfirmUnsubscribePage(c: Config): string { c.baseUrl + c.confirmUnsubscribePage }

  /** The four locations a response may redirect to. */
  predicate IsPage(c: Config, url: string) {
    || url == ErrorPage(c)
    || url == SuccessPage(c)
    || url == ConfirmSubscribePage(c)
    || url == ConfirmUnsubscribePage(c)
  }

  /** The request path that selects a handler branch: the segment between slashes. */
  function Route(segment: string): string { "/" + segment + "/" }

  /** Two routes are the same path exactly when their segments are equal. */
  lemma RouteInjective(a: string, b: string)
    ensures Route(a) == Route(b) <==> a == b
  {
    if Route(a) == Route(b) {
      assert a == Route(a)[1..|Route(a)| - 1];
      assert b == Route(b)[1..|Route(b)| - 1];
    }
  }

  /** Prefixing the base URL keeps distinct page paths distinct. */
  lemma PageUrlInjective(base: string, p: string, q: string)
    ensures base + p == base + q <==> p == q
  {
    if base + p == base + q {
      assert p == (base + p)[|base|..];
      assert q == (base + q)[|base|..];
    }
  }

  /** Page paths that differ pairwise give four pairwise different redirect URLs. */
  predicate DistinctPages(c: Config) {
    && c.errorPage != c.successPage
    && c.errorPage != c.confirmSubscribePage
    && c.errorPage != c.confirmUnsubscribePage
    && c.successPage != c.confirmSubscribePage
    && c.successPage != c.confirmUnsubscribePage
    && c.confirmSubscribePage != c.confirmUnsubscribePage
  }

  lemma DistinctPageUrls(c: Config)
    requires DistinctPages(c)
    ensures ErrorPage(c) != SuccessPage(c)
    ensures ErrorPage(c) != ConfirmSubscribePage(c)
    ensures ErrorPage(c) != ConfirmUnsubscribePage(c)
    ensures SuccessPage(c) != ConfirmSubscribePage(c)
    ensures SuccessPage(c) != ConfirmUnsubscribePage(c)
    ensures ConfirmSubscribePage(c) != ConfirmUnsubscribePage(c)
  {
    PageUrlInjective(c.baseUrl, c.errorPage, c.successPage);
    PageUrlInjective(c.baseUrl, c.errorPage, c.confirmSubscribePage);
    PageUrlInjective(c.baseUrl, c.errorPage, c.confirmUnsubscribePage);
    PageUrlInjective(c.baseUrl, c.successPage, c.confirmSubscribePage);
    PageUrlInjective(c.baseUrl, c.successPage, c.confirmUnsubscribePage);
    PageUrlInjective(c.baseUrl, c.confirmSubscribePage, c.confirmUnsubscribePage);
  }
}
