/**
 * The HTTP GET handler that mints a channel token: an ordered chain of
 * validations over the query parameters and the configured credentials,
 * then the expiry arithmetic and the response body.
 *
 * The token builder is a parameter (`build`), the clock is the parameter
 * `nowMs` (milliseconds since the epoch), and `parseInt` is the simplified
 * parser of module Decimal.
 */
module TokenRoute {
  import opened Common
  import Decimal

  /** `searchParams.get(...)` of each parameter: `None` when the parameter is absent. */
  datatype Query = Query(channel: Option<string>, uid: Option<string>, role: Option<string>, expiration: Option<string>)

  /** The two environment variables the handler reads. */
  datatype Env = Env(appId: Option<string>, appCertificate: Option<string>)

  datatype BuilderRole = Publisher | Subscriber

  /** The arguments handed to the token builder. */
  datatype TokenRequest = TokenRequest(appId: string, appCertificate: string, channelName: string, uid: int, role: BuilderRole, privilegeExpiredTs: int)

  /** What the token builder did: returned a token, or threw (with an `Error`'s message, or a non-`Error` value). */
  datatype BuildResult = Built(token: string) | Threw(message: Option<string>)

  datatype Body =
    | ErrorBody(error: string, message: Option<string>)
    | TokenBody(token: string, appId: string, channelName: string, uid: int, role: string,
                expirationTimeInSeconds: int, expiresAtMs: int)

  datatype Response = Response(status: nat, body: Body)

  const DefaultExpiration := 3600 * 24
  const DefaultRole := "publisher"

  /** The largest distance from the epoch, in milliseconds, that a JavaScript `Date` can hold. */
  const MaxDateMs := 8_640_000_000_000_000

  const ChannelRequired := "Channel name is required. Use ?channel=YOUR_CHANNEL_NAME"
  const CredentialsMissing := "Agora credentials not configured. Please set AGORA_APPID and AGORA_APPCERTIFICATE in your environment variables."
  const InvalidUid := "Invalid UID. Must be a number or \"0\" for auto-generation."
  const InvalidExpiration := "Invalid expiration time. Must be a positive number of seconds."
  const GenerationFailed := "Failed to generate token"
  const UnknownError := "Unknown error"
  const InvalidTimeValue := "Invalid time value"

  /** JavaScript truthiness of a parameter: present and not the empty string. */
  predicate Given(p: Option<string>) {
    p.Some? && p.value != ""
  }

  /** `roleParam === 'subscriber' ? SUBSCRIBER : PUBLISHER`. */
  function BuilderRoleOf(roleParam: string): (r: BuilderRole)
    ensures r == Subscriber <==> roleParam == "subscriber"
  {
    if roleParam == "subscriber" then Subscriber else Publisher
  }

  /** `uidParam ? parseInt(uidParam, 10) : 0`, with `None` for NaN. */
  function UidOf(uidParam: Option<string>): (r: Option<int>)
    ensures !Given(uidParam) ==> r == Some(0)
    ensures Given(uidParam) && Decimal.AllDigits(uidParam.value) ==> r == Some(Decimal.DigitsValue(uidParam.value) as int)
    ensures Given(uidParam) ==> (r.None? <==> Decimal.ParseInt(uidParam.value).None?)
  {
    if Given(uidParam) then
      (if Decimal.AllDigits(uidParam.value) then Decimal.ParseIntOfDigits(uidParam.value); Decimal.ParseInt(uidParam.value)
       else Decimal.ParseInt(uidParam.value))
    else Some(0)
  }

  /** `expirationParam ? parseInt(expirationParam, 10) : 3600 * 24`, with `None` for NaN. */
  function ExpirationOf(expirationParam: Option<string>): (r: Option<int>)
    ensures !Given(expirationParam) ==> r == Some(86400)
    ensures Given(expirationParam) && Decimal.AllDigits(expirationParam.value) ==> r == Some(Decimal.DigitsValue(expirationParam.value) as int)
    ensures Given(expirationParam) ==> (r.None? <==> Decimal.ParseInt(expirationParam.value).None?)
  {
    if Given(expirationParam) then
      (if Decimal.AllDigits(expirationParam.value) then Decimal.ParseIntOfDigits(expirationParam.value); Decimal.ParseInt(expirationParam.value)
       else Decimal.ParseInt(expirationParam.value))
    else Some(DefaultExpiration)
  }

  function Error400(message: string): Response {
    Response(400, ErrorBody(message, None))
  }

  function Error500(message: string): Response {
    Response(500, ErrorBody(message, None))
  }

  /** The catch block: 500 with the thrown `Error`'s message, or "Unknown error". */
  function GenerationFailure(message: Option<string>): Response {
    Response(500, ErrorBody(GenerationFailed, Some(if message.Some? then message.value else UnknownError)))
  }

  /** The handler. */
  function Get(q: Query, env: Env, nowMs: nat, build: TokenRequest -> BuildResult): (r: Response)
    // The status is always one of the three, and a body has a token exactly when it is 200.
    ensures r.status in {200, 400, 500}
    ensures r.status == 200 <==> r.body.TokenBody?
    // A missing channel is rejected first, before the configuration is looked at.
    ensures !Given(q.channel) ==> r == Error400(ChannelRequired)
    // Missing configuration is a 500, reached only once a channel is given.
    ensures Given(q.channel) && !(Given(env.appId) && Given(env.appCertificate)) ==> r == Error500(CredentialsMissing)
    // Every success echoes the inputs and keeps the expiry arithmetic.
    ensures r.status == 200 ==>
      && Given(q.channel) && Given(env.appId) && Given(env.appCertificate)
      && r.body.channelName == q.channel.value && r.body.appId == env.appId.value
      && Some(r.body.uid) == UidOf(q.uid)
      && Some(r.body.expirationTimeInSeconds) == ExpirationOf(q.expiration)
      && r.body.expirationTimeInSeconds > 0
      && r.body.role == (if Given(q.role) then q.role.value else DefaultRole)
      && r.body.expiresAtMs == (nowMs / 1000 + r.body.expirationTimeInSeconds) * 1000
      && build(TokenRequest(env.appId.value, env.appCertificate.value, q.channel.value, r.body.uid,
                            BuilderRoleOf(r.body.role), nowMs / 1000 + r.body.expirationTimeInSeconds)) == Built(r.body.token)
    // Every failure carries an error text.
    ensures r.status != 200 ==> r.body.error != ""
  {
    if !Given(q.channel) then Error400(ChannelRequired)
    else if !Given(env.appId) || !Given(env.appCertificate) then Error500(CredentialsMissing)
    else
      var uid := UidOf(q.uid);
      if uid.None? && q.uid != Some("0") then Error400(InvalidUid)
      else
        var uidValue := if uid.Some? then uid.value else 0;
        var roleParam := if Given(q.role) then q.role.value else DefaultRole;
        var role := BuilderRoleOf(roleParam);
        var expiration := ExpirationOf(q.expiration);
        if expiration.None? || expiration.value <= 0 then Error400(InvalidExpiration)
        else
          var currentTimestamp := nowMs / 1000;
          var privilegeExpiredTs := currentTimestamp + expiration.value;
          var request := TokenRequest(env.appId.value, env.appCertificate.value, q.channel.value, uidValue, role, privilegeExpiredTs);
          match build(request)
          case Threw(message) => GenerationFailure(message)
          case Built(token) =>
            var expiresAtMs := privilegeExpiredTs * 1000;
            if expiresAtMs > MaxDateMs then GenerationFailure(Some(InvalidTimeValue))
            else Response(200, TokenBody(token, env.appId.value, q.channel.value, uidValue, roleParam, expiration.value, expiresAtMs))
  }

  /** A request that passes the channel and configuration checks. */
  predicate Configured(q: Query, env: Env) {
    Given(q.channel) && Given(env.appId) && Given(env.appCertificate)
  }

  /**
   * The user id: absent or empty means 0; a value `parseInt` reads as NaN
   * is a 400. The extra `uidParam !== '0'` test never matters, because
   * "0" parses.
   */
  lemma UidValidation(q: Query, env: Env, nowMs: nat, build: TokenRequest -> BuildResult)
    requires Configured(q, env)
    ensures !Given(q.uid) ==> UidOf(q.uid) == Some(0)
    ensures UidOf(Some("0")) == Some(0)
    ensures UidOf(q.uid).None? <==> Get(q, env, nowMs, build) == Error400(InvalidUid)
  {
    Decimal.ParseIntRoundTrip(0);
    assert Decimal.NatToString(0) == "0";
  }

  /**
   * The lifetime: absent or empty means 86400 seconds; once the user id is
   * valid, a NaN or a value not above zero is a 400.
   */
  lemma ExpirationValidation(q: Query, env: Env, nowMs: nat, build: TokenRequest -> BuildResult)
    requires Configured(q, env) && UidOf(q.uid).Some?
    ensures !Given(q.expiration) ==> ExpirationOf(q.expiration) == Some(86400)
    ensures (ExpirationOf(q.expiration).None? || ExpirationOf(q.expiration).value <= 0)
            <==> Get(q, env, nowMs, build) == Error400(InvalidExpiration)
  {
  }

  /**
   * Past validation, a builder that throws gives a 500 with "Failed to
   * generate token"; a builder that returns gives 200 unless the expiry
   * instant is beyond what a `Date` can hold.
   */
  lemma BuildOutcome(q: Query, env: Env, nowMs: nat, build: TokenRequest -> BuildResult)
    requires Configured(q, env) && UidOf(q.uid).Some?
    requires ExpirationOf(q.expiration).Some? && ExpirationOf(q.expiration).value > 0
    ensures var role := BuilderRoleOf(if Given(q.role) then q.role.value else DefaultRole);
      var ts := nowMs / 1000 + ExpirationOf(q.expiration).value;
      var request := TokenRequest(env.appId.value, env.appCertificate.value, q.channel.value, UidOf(q.uid).value, role, ts);
      var r := Get(q, env, nowMs, build);
      && (build(request).Threw? ==> r == GenerationFailure(build(request).message) && r.body.error == GenerationFailed)
      && (build(request).Built? && ts * 1000 <= MaxDateMs ==> r.status == 200 && r.body.token == build(request).token)
      && (build(request).Built? && ts * 1000 > MaxDateMs ==> r.status == 500 && r.body.error == GenerationFailed)
  {
  }

  /** With a clock before year 255,000 or so and a lifetime of at most a day, the expiry instant fits in a `Date`. */
  lemma ExpiryFits(nowMs: nat, expiration: int)
    requires nowMs <= 8_000_000_000_000_000 && expiration <= 86400
    ensures (nowMs / 1000 + expiration) * 1000 <= MaxDateMs
  {
    var secs := nowMs / 1000;
    assert secs * 1000 <= nowMs;
    assert (secs + expiration) * 1000 == secs * 1000 + expiration * 1000;
  }

  /**
   * The builder gets SUBSCRIBER only for the exact text "subscriber", while
   * the response echoes whatever role text was sent: "Subscriber" is built
   * as a publisher and still reported as "Subscriber".
   */
  lemma RoleEchoedRaw(channel: string, env: Env, nowMs: nat, build: TokenRequest -> BuildResult)
    requires channel != "" && Given(env.appId) && Given(env.appCertificate)
    requires nowMs <= 8_000_000_000_000_000
    requires forall req :: build(req).Built?
    ensures var r := Get(Query(Some(channel), None, Some("Subscriber"), None), env, nowMs, build);
      && r.status == 200 && r.body.role == "Subscriber"
      && BuilderRoleOf(r.body.role) == Publisher
  {
  }

  /** A request naming only a channel gets the defaults: uid 0, role "publisher", a lifetime of 86400 seconds. */
  lemma Defaults(channel: string, env: Env, nowMs: nat, build: TokenRequest -> BuildResult)
    requires channel != "" && Given(env.appId) && Given(env.appCertificate)
    requires nowMs <= 8_000_000_000_000_000
    requires forall req :: build(req).Built?
    ensures var r := Get(Query(Some(channel), None, None, None), env, nowMs, build);
      && r.status == 200
      && r.body.uid == 0 && r.body.role == "publisher" && r.body.expirationTimeInSeconds == 86400
      && r.body.expiresAtMs == (nowMs / 1000 + 86400) * 1000
      && build(TokenRequest(env.appId.value, env.appCertificate.value, channel, 0, Publisher, nowMs / 1000 + 86400)) == Built(r.body.token)
  {
  }

  lemma ExampleUid()
    ensures UidOf(Some("12345")) == Some(12345)
  {
    Decimal.ParseIntRoundTrip(12345);
    assert Decimal.NatToString(12345) == "12345";
  }

  lemma ExampleExpiration()
    ensures ExpirationOf(Some("3600")) == Some(3600)
  {
    Decimal.ParseIntRoundTrip(3600);
    assert Decimal.NatToString(3600) == "3600";
  }

  /** channel=10000, uid=12345, role=subscriber, expiration=3600 mints a subscriber token for one hour. */
  lemma SubscriberExample(q: Query, env: Env, nowMs: nat, build: TokenRequest -> BuildResult)
    requires q == Query(Some("10000"), Some("12345"), Some("subscriber"), Some("3600"))
    requires Given(env.appId) && Given(env.appCertificate)
    requires nowMs <= 8_000_000_000_000_000
    requires forall req :: build(req).Built?
    ensures var r := Get(q, env, nowMs, build);
      && r.status == 200
      && r.body.uid == 12345 && r.body.role == "subscriber" && r.body.expirationTimeInSeconds == 3600
      && r.body.expiresAtMs == (nowMs / 1000 + 3600) * 1000
      && build(TokenRequest(env.appId.value, env.appCertificate.value, "10000", 12345, Subscriber, nowMs / 1000 + 3600)) == Built(r.body.token)
  {
    ExampleUid();
    ExampleExpiration();
    ExpiryFits(nowMs, 3600);
    BuildOutcome(q, env, nowMs, build);
  }
}
