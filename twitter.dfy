/**
 * org.jreleaser.sdk.twitter.Twitter: a thin wrapper around the twitter4j
 * client that checks its credentials once, fixes the dry-run flag, and
 * either suppresses or performs each remote operation.
 */
module TwitterSdk {
  import opened Wrappers
  import opened Util

  /** `twitter4j.TwitterException`, the client's failure; its contents are opaque. */
  datatype ClientError = ClientError(detail: string)

  /** `org.jreleaser.sdk.twitter.TwitterException`, wrapping the client's failure. */
  datatype TwitterException = TwitterException(message: string, cause: ClientError)

  const OperationFailedMessage: string := "Twitter operation failed"

  /** What the constructor throws. */
  datatype ConstructionError =
    | NullPointer(message: string)      // from requireNonNull
    | IllegalArgument(message: string)  // from requireNonBlank
    | IllegalState(message: string)     // from the client's setOAuthConsumer

  /** twitter4j's message when a client that already holds a consumer pair is given another. */
  const ConsumerAlreadySetMessage: string := "consumer key/secret pair already set."

  /** The remote operations `wrap` can run. */
  datatype Operation = UpdateStatusOp(status: string)

  /**
   * `Character.isWhitespace` as of Java 9 (Unicode 6.3 and later; under
   * Java 8, U+180E would count as well): the ASCII controls tab to carriage return and
   * U+001C to U+001F, and the Unicode space, line and paragraph separators
   * except the non-breaking ones (U+00A0, U+2007, U+202F).
   */
  predicate IsWhitespace(c: char) {
    c == ' ' || c == '\t' || c == '\n' || c == '\U{B}' || c == '\U{C}' || c == '\r'
    || ('\U{1C}' <= c <= '\U{1F}')
    || c == '\U{1680}'
    || ('\U{2000}' <= c <= '\U{2006}')
    || ('\U{2008}' <= c <= '\U{200A}')
    || c == '\U{2028}' || c == '\U{2029}'
    || c == '\U{205F}' || c == '\U{3000}'
  }

  /** `StringUtils.isBlank` on a non-null string: empty or all whitespace. */
  function IsBlank(s: string): (b: bool)
    ensures b <==> forall i :: 0 <= i < |s| ==> IsWhitespace(s[i])
  {
    if s == [] then true else IsWhitespace(s[0]) && IsBlank(s[1..])
  }

  /** `StringUtils.isBlank` on a nullable string: null counts as blank. */
  predicate Blank(s: Option<string>)
    ensures Blank(s) <==> s.None? || forall i :: 0 <= i < |s.value| ==> IsWhitespace(s.value[i])
  {
    s.None? || IsBlank(s.value)
  }

  /**
   * The constructor's argument checks, in source order: the first one that
   * fails decides the exception.
   */
  function CheckArguments(logger: Option<Logger>, consumerKey: Option<string>, consumerToken: Option<string>,
                          accessToken: Option<string>, accessTokenSecret: Option<string>): (r: Outcome<ConstructionError>)
    ensures r.Pass? <==>
      logger.Some? && !Blank(consumerKey) && !Blank(consumerToken) && !Blank(accessToken) && !Blank(accessTokenSecret)
    ensures r.Fail? && r.error.NullPointer? <==> logger.None?
    ensures logger.None? ==> r == Fail(NullPointer("'logger' must not be blank"))
    ensures r.Fail? ==> !r.error.IllegalState?
    ensures r == Fail(IllegalArgument("'consumerKey' must not be blank")) <==>
      logger.Some? && Blank(consumerKey)
    ensures r == Fail(IllegalArgument("'consumerToken' must not be blank")) <==>
      logger.Some? && !Blank(consumerKey) && Blank(consumerToken)
    ensures r == Fail(IllegalArgument("'accessToken' must not be blank")) <==>
      logger.Some? && !Blank(consumerKey) && !Blank(consumerToken) && Blank(accessToken)
    ensures r == Fail(IllegalArgument("'accessTokenSecret' must not be blank")) <==>
      logger.Some? && !Blank(consumerKey) && !Blank(consumerToken) && !Blank(accessToken) && Blank(accessTokenSecret)
  {
    if logger.None? then Fail(NullPointer("'logger' must not be blank"))
    else if Blank(consumerKey) then Fail(IllegalArgument("'consumerKey' must not be blank"))
    else if Blank(consumerToken) then Fail(IllegalArgument("'consumerToken' must not be blank"))
    else if Blank(accessToken) then Fail(IllegalArgument("'accessToken' must not be blank"))
    else if Blank(accessTokenSecret) then Fail(IllegalArgument("'accessTokenSecret' must not be blank"))
    else Pass
  }

  /** A credential made only of an ideographic space (U+3000) is rejected as blank. */
  lemma IdeographicSpaceIsBlank(logger: Logger)
    ensures CheckArguments(Some(logger), Some("\U{3000}"), Some("t"), Some("a"), Some("s"))
         == Fail(IllegalArgument("'consumerKey' must not be blank"))
  {
  }

  /**
   * The twitter4j client, reduced to what the wrapper observes: the OAuth
   * credentials it was given, every status update it was asked for, the ones
   * it posted, and an injected failure that makes every remote call throw.
   */
  class StatusClient {
    var consumer: Option<(string, string)>
    var accessToken: Option<(string, string)>
    var attempts: seq<string>
    var posted: seq<string>
    var failure: Option<ClientError>

    constructor (failure: Option<ClientError>)
      ensures consumer == None && accessToken == None
      ensures attempts == [] && posted == [] && this.failure == failure
    {
      consumer, accessToken := None, None;
      attempts, posted := [], [];
      this.failure := failure;
    }

    /**
     * `setOAuthConsumer`: accepted only by a client without a consumer pair;
     * otherwise twitter4j throws IllegalStateException and keeps the old pair.
     */
    method SetOAuthConsumer(key: string, secret: string) returns (ok: bool)
      modifies this`consumer
      ensures ok <==> old(consumer).None?
      ensures consumer == if ok then Some((key, secret)) else old(consumer)
    {
      ok := consumer.None?;
      if ok {
        consumer := Some((key, secret));
      }
    }

    method SetOAuthAccessToken(token: string, secret: string)
      modifies this`accessToken
      ensures accessToken == Some((token, secret))
    {
      accessToken := Some((token, secret));
    }

    /** `twitter4j.Twitter.updateStatus`: recorded as attempted; posted unless it fails. */
    method UpdateStatus(status: string) returns (e: Option<ClientError>)
      modifies this`attempts, this`posted
      ensures e == failure
      ensures attempts == old(attempts) + [status]
      ensures posted == if e.None? then old(posted) + [status] else old(posted)
    {
      e := failure;
      attempts := attempts + [status];
      if e.None? {
        posted := posted + [status];
      }
    }
  }

  class Twitter {
    const logger: Logger
    const client: StatusClient
    /** Final in the source: fixed by the constructor, read by every operation. */
    const dryRun: bool

    /**
     * The constructor's field assignments, reached only once its argument
     * checks pass: keep the logger, the dry-run flag and the shared client
     * (`TwitterFactory.getSingleton()`, passed in here).
     */
    constructor (logger: Logger, consumerKey: string, consumerToken: string,
                 accessToken: string, accessTokenSecret: string, dryRun: bool, client: StatusClient)
      requires CheckArguments(Some(logger), Some(consumerKey), Some(consumerToken),
                              Some(accessToken), Some(accessTokenSecret)).Pass?
      ensures this.logger == logger && this.dryRun == dryRun && this.client == client
    {
      this.logger := logger;
      this.dryRun := dryRun;
      this.client := client;
    }

    /**
     * `new Twitter(...)`: null and blank arguments are rejected with the
     * exception of the first failing check, before the client is touched;
     * then the credentials go to the shared client, which refuses a second
     * consumer pair.
     */
    static method Create(logger: Option<Logger>, consumerKey: Option<string>, consumerToken: Option<string>,
                         accessToken: Option<string>, accessTokenSecret: Option<string>, dryRun: bool,
                         client: StatusClient) returns (r: Result<Twitter, ConstructionError>)
      modifies client
      ensures var check := CheckArguments(logger, consumerKey, consumerToken, accessToken, accessTokenSecret);
        r.Failure? <==> check.Fail? || old(client.consumer).Some?
      ensures var check := CheckArguments(logger, consumerKey, consumerToken, accessToken, accessTokenSecret);
        check.Fail? ==> r == Failure(check.error) && unchanged(client)
      ensures var check := CheckArguments(logger, consumerKey, consumerToken, accessToken, accessTokenSecret);
        check.Pass? && old(client.consumer).Some? ==>
          r == Failure(IllegalState(ConsumerAlreadySetMessage)) && unchanged(client)
      ensures r.Success? ==> fresh(r.value) && r.value.logger == logger.value
      ensures r.Success? ==> r.value.dryRun == dryRun && r.value.client == client
      ensures r.Success? ==> client.consumer == Some((consumerKey.value, consumerToken.value))
      ensures r.Success? ==> client.accessToken == Some((accessToken.value, accessTokenSecret.value))
      ensures client.attempts == old(client.attempts) && client.posted == old(client.posted)
      ensures client.failure == old(client.failure)
    {
      var check := CheckArguments(logger, consumerKey, consumerToken, accessToken, accessTokenSecret);
      if check.Fail? {
        return Failure(check.error);
      }
      var t := new Twitter(logger.value, consumerKey.value, consumerToken.value,
                           accessToken.value, accessTokenSecret.value, dryRun, client);
      var ok := client.SetOAuthConsumer(consumerKey.value, consumerToken.value);
      if !ok {
        return Failure(IllegalState(ConsumerAlreadySetMessage));
      }
      client.SetOAuthAccessToken(accessToken.value, accessTokenSecret.value);
      r := Success(t);
    }

    /** `updateStatus`: post `status` through `wrap`. */
    method UpdateStatus(status: string) returns (r: Outcome<TwitterException>)
      modifies client
      ensures dryRun ==> r == Pass && unchanged(client)
      ensures !dryRun ==> client.attempts == old(client.attempts) + [status]
      ensures !dryRun && client.failure.None? ==> r == Pass && client.posted == old(client.posted) + [status]
      ensures !dryRun && client.failure.Some? ==>
        r == Fail(TwitterException(OperationFailedMessage, client.failure.value)) && client.posted == old(client.posted)
      ensures client.failure == old(client.failure)
      ensures client.consumer == old(client.consumer) && client.accessToken == old(client.accessToken)
    {
      r := Wrap(UpdateStatusOp(status));
    }

    /**
     * `wrap`: run the operation only when not in dry-run mode, and turn a
     * client failure into a TwitterException.
     */
    method Wrap(op: Operation) returns (r: Outcome<TwitterException>)
      modifies client
      ensures dryRun ==> r == Pass && unchanged(client)
      ensures !dryRun ==> client.attempts == old(client.attempts) + [op.status]
      ensures !dryRun && client.failure.None? ==> r == Pass && client.posted == old(client.posted) + [op.status]
      ensures !dryRun && client.failure.Some? ==>
        r == Fail(TwitterException(OperationFailedMessage, client.failure.value)) && client.posted == old(client.posted)
      ensures client.failure == old(client.failure)
      ensures client.consumer == old(client.consumer) && client.accessToken == old(client.accessToken)
    {
      if dryRun {
        return Pass;
      }
      match op
      case UpdateStatusOp(status) =>
        var e := client.UpdateStatus(status);
        r := if e.Some? then Fail(TwitterException(OperationFailedMessage, e.value)) else Pass;
    }
  }

  /**
   * A client of the contracts above: two dry-run updates both succeed, even
   * against a failing client, and the client is never called.
   */
  method DryRunTwice(logger: Logger, failure: Option<ClientError>)
    returns (client: StatusClient, first: Outcome<TwitterException>, second: Outcome<TwitterException>)
    ensures first == Pass && second == Pass
    ensures client.attempts == [] && client.posted == [] && client.failure == failure
  {
    client := new StatusClient(failure);
    assert !IsWhitespace("key"[0]) && !IsWhitespace("token"[0]);
    assert !IsWhitespace("access"[0]) && !IsWhitespace("secret"[0]);
    var twitter := new Twitter(logger, "key", "token", "access", "secret", true, client);
    first := twitter.UpdateStatus("hello");
    second := twitter.UpdateStatus("again");
  }

  /**
   * Every wrapper shares one client, so in one process only the first
   * construction succeeds: the second is refused by the client even with
   * valid credentials.
   */
  method SecondConstructionFails(logger: Logger)
    returns (first: Result<Twitter, ConstructionError>, second: Result<Twitter, ConstructionError>)
    ensures first.Success?
    ensures second == Failure(IllegalState(ConsumerAlreadySetMessage))
  {
    var client := new StatusClient(None);
    assert !IsWhitespace("key"[0]) && !IsWhitespace("token"[0]);
    assert !IsWhitespace("access"[0]) && !IsWhitespace("secret"[0]);
    first := Twitter.Create(Some(logger), Some("key"), Some("token"), Some("access"), Some("secret"), false, client);
    second := Twitter.Create(Some(logger), Some("key"), Some("token"), Some("access"), Some("secret"), true, client);
  }
}
