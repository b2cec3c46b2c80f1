/**
 * The session adapter around the real-time messaging SDK client: one
 * client, at most one channel, a logged-in flag and the current user id.
 *
 * The SDK is an oracle: every awaited SDK call is a parameter saying
 * whether that call resolved or rejected, and with what. The step
 * functions (`LoginStep`, `JoinStep`, ...) say what each operation does to
 * a `Session` value; the class `AgoraRTMService` keeps the same four fields
 * and updates them in place, and each of its methods is proved to do
 * exactly what its step function says.
 */
module RtmService {
  import opened Common

  /**
   * A value thrown by the adapter or by the SDK. `isError` tells whether it
   * is an `Error` instance; `code` is the SDK's numeric error code, if any.
   */
  datatype Thrown = Thrown(isError: bool, message: string, code: Option<int>)

  /** `new Error(message)`. */
  function NewError(message: string): Thrown {
    Thrown(true, message, None)
  }

  /** What one awaited SDK call did. */
  datatype SdkResult = Resolved | Rejected(reason: Thrown)

  datatype ChannelEvent = ChannelMessage | MemberJoined | MemberLeft

  /** The SDK client: built from the app id and the user id of the login that created it. */
  datatype Client = Client(appId: string, userId: string, peerListeners: nat)

  /** A channel object made by the client, with the listeners registered on it in order. */
  datatype Channel = Channel(name: string, listeners: seq<ChannelEvent>)

  datatype Session = Session(client: Option<Client>, channel: Option<Channel>, isLoggedIn: bool, currentUid: string)

  /** The session after an operation, and how the operation ended. */
  datatype Step = Step(next: Session, outcome: Outcome<Thrown>)

  const Initial := Session(None, None, false, "")

  const AppIdMissing := "Agora App ID is not configured"
  const SdkMissing := "Agora RTM SDK RTM is not available"
  const RtmNotEnabled := "RTM service is not enabled. Please enable RTM in Agora Console: Project Management > Edit > Enable RTM service"
  const TokenRequired := "Token authentication required. Your project has App Certificate enabled. Please provide a valid token or disable App Certificate in Agora Console."
  const LoginRequiredToJoin := "Must be logged in before joining a channel"
  const AlreadyInChannel := "Already in a channel. Leave current channel first."
  const LoginRequiredToSend := "Must be logged in to send messages"
  const ChannelRequiredToSend := "Must be in a channel to send channel messages"
  const ClientNotInitialized := "Client not initialized"
  const NotInChannel := "Not in a channel"
  const NoClientYet := "RTM client not initialized. Call login() first."

  /** SDK error codes that `login` translates into guidance. */
  const RtmNotEnabledCode := -10015
  const TokenRequiredCode := -10005

  predicate IsInChannel(s: Session) {
    s.channel.Some?
  }

  /** The error `login` throws when the SDK rejects the login. */
  function LoginError(reason: Thrown): (e: Thrown)
    ensures reason.isError ==> e.isError
    ensures e.code.Some? ==> e == reason
    ensures e != reason ==> e.isError && e.code.None?
  {
    if reason.code == Some(RtmNotEnabledCode) then NewError(RtmNotEnabled)
    else if reason.code == Some(TokenRequiredCode) then NewError(TokenRequired)
    else reason
  }

  /**
   * `login(uid)`: with no client, an empty app id or a missing SDK
   * constructor throws before anything changes; otherwise a client is
   * created if there is none (and kept from then on), and the SDK login
   * decides whether the flag and the user id are set. There is no check
   * for an existing login.
   */
  function LoginStep(s: Session, uid: string, appId: string, sdkAvailable: bool, sdk: SdkResult): (r: Step)
    ensures r.next.channel == s.channel
    ensures s.client.Some? ==> r.next.client == s.client
    ensures r.outcome.Pass? <==> sdk.Resolved? && (s.client.Some? || (appId != "" && sdkAvailable))
    ensures r.outcome.Pass? ==> r.next.isLoggedIn && r.next.currentUid == uid
    ensures r.outcome.Fail? ==> r.next.isLoggedIn == s.isLoggedIn && r.next.currentUid == s.currentUid
  {
    if s.client.None? && appId == "" then Step(s, Fail(NewError(AppIdMissing)))
    else if s.client.None? && !sdkAvailable then Step(s, Fail(NewError(SdkMissing)))
    else
      var withClient := if s.client.Some? then s else s.(client := Some(Client(appId, uid, 0)));
      match sdk
      case Resolved => Step(withClient.(isLoggedIn := true, currentUid := uid), Pass)
      case Rejected(reason) => Step(withClient, Fail(LoginError(reason)))
  }

  /** `leaveChannel()`: nothing to do without a channel; the channel is dropped only once the SDK leave resolves. */
  function LeaveStep(s: Session, leave: SdkResult): (r: Step)
    ensures r.next.client == s.client && r.next.isLoggedIn == s.isLoggedIn && r.next.currentUid == s.currentUid
    ensures r.outcome.Pass? ==> r.next.channel.None?
    ensures r.outcome.Fail? ==> r.next == s
  {
    if s.channel.None? then Step(s, Pass)
    else match leave
      case Resolved => Step(s.(channel := None), Pass)
      case Rejected(reason) => Step(s, Fail(reason))
  }

  /**
   * `logout()`: leaves any channel first (a failed leave propagates), then,
   * only with a client and a login, logs the client out; a failed client
   * logout is swallowed.
   */
  function LogoutStep(s: Session, leave: SdkResult, sdkLogout: SdkResult): (r: Step)
    ensures r.next.client == s.client
    ensures r.outcome.Pass? ==> r.next.channel.None?
    ensures r.outcome.Fail? ==> r.next == s
    ensures r.next.isLoggedIn != s.isLoggedIn ==> !r.next.isLoggedIn && r.next.currentUid == ""
  {
    var left := LeaveStep(s, leave);
    if left.outcome.Fail? then left
    else
      var t := left.next;
      if t.client.Some? && t.isLoggedIn && sdkLogout.Resolved? then Step(t.(isLoggedIn := false, currentUid := ""), Pass)
      else Step(t, Pass)
  }

  /**
   * `joinChannel(name)`: needs a client and a login, and no channel; the
   * new channel is stored before the SDK join is awaited, so a failed join
   * leaves it in place.
   */
  function JoinStep(s: Session, name: string, create: SdkResult, join: SdkResult): (r: Step)
    ensures r.next.client == s.client && r.next.isLoggedIn == s.isLoggedIn && r.next.currentUid == s.currentUid
    ensures r.next == s || r.next == s.(channel := Some(Channel(name, [])))
    ensures r.outcome.Pass? ==> s.channel.None? && r.next.channel == Some(Channel(name, []))
  {
    if s.client.None? || !s.isLoggedIn then Step(s, Fail(NewError(LoginRequiredToJoin)))
    else if s.channel.Some? then Step(s, Fail(NewError(AlreadyInChannel)))
    else match create
      case Rejected(reason) => Step(s, Fail(reason))
      case Resolved =>
        var withChannel := s.(channel := Some(Channel(name, [])));
        match join
        case Resolved => Step(withChannel, Pass)
        case Rejected(reason) => Step(withChannel, Fail(reason))
  }

  /** `sendPeerMessage`: needs a client and a login; the session never changes. */
  function SendPeerStep(s: Session, sdk: SdkResult): (r: Step)
    ensures r.next == s
    ensures r.outcome.Pass? ==> s.client.Some? && s.isLoggedIn && sdk.Resolved?
  {
    if s.client.None? || !s.isLoggedIn then Step(s, Fail(NewError(LoginRequiredToSend)))
    else match sdk
      case Resolved => Step(s, Pass)
      case Rejected(reason) => Step(s, Fail(reason))
  }

  /** `sendChannelMessage`: needs a channel; the session never changes. */
  function SendChannelStep(s: Session, sdk: SdkResult): (r: Step)
    ensures r.next == s
    ensures r.outcome.Pass? ==> s.channel.Some? && sdk.Resolved?
  {
    if s.channel.None? then Step(s, Fail(NewError(ChannelRequiredToSend)))
    else match sdk
      case Resolved => Step(s, Pass)
      case Rejected(reason) => Step(s, Fail(reason))
  }

  /** `onPeerMessage`: registers one more peer-message listener on the client. */
  function SubscribePeerStep(s: Session): (r: Step)
    ensures r.next.channel == s.channel && r.next.isLoggedIn == s.isLoggedIn && r.next.currentUid == s.currentUid
    ensures r.outcome.Fail? ==> r.next == s
    ensures r.outcome.Pass? ==>
      && s.client.Some? && r.next.client.Some?
      && r.next.client.value.peerListeners == s.client.value.peerListeners + 1
      && r.next.client.value.appId == s.client.value.appId
      && r.next.client.value.userId == s.client.value.userId
  {
    if s.client.None? then Step(s, Fail(NewError(ClientNotInitialized)))
    else Step(s.(client := Some(s.client.value.(peerListeners := s.client.value.peerListeners + 1))), Pass)
  }

  /** `onChannelMessage`, `onMemberJoined`, `onMemberLeft`: register a listener on the channel. */
  function SubscribeChannelStep(s: Session, event: ChannelEvent): (r: Step)
    ensures r.next.client == s.client && r.next.isLoggedIn == s.isLoggedIn && r.next.currentUid == s.currentUid
    ensures r.outcome.Fail? ==> r.next == s
    ensures r.outcome.Pass? ==>
      && s.channel.Some? && r.next.channel.Some?
      && r.next.channel.value.name == s.channel.value.name
      && r.next.channel.value.listeners == s.channel.value.listeners + [event]
  {
    if s.channel.None? then Step(s, Fail(NewError(NotInChannel)))
    else Step(s.(channel := Some(s.channel.value.(listeners := s.channel.value.listeners + [event]))), Pass)
  }

  /**
   * `cleanup()`: leave the channel, log out (the inner leave is then a
   * no-op), and drop the client together with all its listeners.
   */
  function CleanupStep(s: Session, leave: SdkResult, sdkLogout: SdkResult): (r: Step)
    ensures r.outcome.Pass? ==> r.next.client.None? && r.next.channel.None?
    ensures r.outcome.Fail? ==> r.next == s
  {
    var left := LeaveStep(s, leave);
    if left.outcome.Fail? then left
    else
      var out := LogoutStep(left.next, leave, sdkLogout);
      if out.outcome.Fail? then out
      else Step(out.next.(client := None), Pass)
  }

  /** `joinChannel` without a client or a login throws and changes nothing. */
  lemma JoinRequiresLogin(s: Session, name: string, create: SdkResult, join: SdkResult)
    requires s.client.None? || !s.isLoggedIn
    ensures JoinStep(s, name, create, join) == Step(s, Fail(NewError(LoginRequiredToJoin)))
  {
  }

  /** `joinChannel` while a channel is held throws and keeps that channel. */
  lemma JoinKeepsExistingChannel(s: Session, name: string, create: SdkResult, join: SdkResult)
    requires s.client.Some? && s.isLoggedIn && s.channel.Some?
    ensures JoinStep(s, name, create, join) == Step(s, Fail(NewError(AlreadyInChannel)))
  {
  }

  /**
   * A join whose SDK call rejects still leaves the new channel stored: the
   * adapter reports being in a channel, and the next join is refused as
   * "already in a channel".
   */
  lemma FailedJoinLeavesChannel(s: Session, name: string, reason: Thrown, create2: SdkResult, join2: SdkResult, name2: string)
    requires s.client.Some? && s.isLoggedIn && s.channel.None?
    ensures var st := JoinStep(s, name, Resolved, Rejected(reason));
      && st.outcome == Fail(reason)
      && st.next == s.(channel := Some(Channel(name, [])))
      && IsInChannel(st.next)
      && JoinStep(st.next, name2, create2, join2) == Step(st.next, Fail(NewError(AlreadyInChannel)))
  {
  }

  /** A successful join holds exactly the named channel, with no listeners yet, and nothing else changes. */
  lemma JoinSuccess(s: Session, name: string)
    requires s.client.Some? && s.isLoggedIn && s.channel.None?
    ensures JoinStep(s, name, Resolved, Resolved) == Step(s.(channel := Some(Channel(name, []))), Pass)
  {
  }

  /**
   * `leaveChannel` without a channel is a no-op that succeeds; with one, a
   * resolved SDK leave drops the channel and nothing else, and a rejected
   * one keeps it and rethrows the SDK's value.
   */
  lemma LeaveCases(s: Session, leave: SdkResult)
    ensures s.channel.None? ==> LeaveStep(s, leave) == Step(s, Pass)
    ensures s.channel.Some? && leave.Resolved? ==> LeaveStep(s, leave) == Step(s.(channel := None), Pass)
    ensures s.channel.Some? && leave.Rejected? ==> LeaveStep(s, leave) == Step(s, Fail(leave.reason))
    ensures LeaveStep(s, leave).next.isLoggedIn == s.isLoggedIn
    ensures LeaveStep(s, leave).next.currentUid == s.currentUid
  {
  }

  /**
   * `login` on a session that can reach the SDK: success sets the flag and
   * the user id; failure leaves both as they were and throws the translated
   * error. A session that is already logged in is not refused.
   */
  lemma LoginOutcome(s: Session, uid: string, appId: string, sdkAvailable: bool, sdk: SdkResult)
    requires s.client.Some? || (appId != "" && sdkAvailable)
    ensures var st := LoginStep(s, uid, appId, sdkAvailable, sdk);
      && st.next.channel == s.channel
      && st.next.client.Some?
      && (sdk.Resolved? ==> st.outcome == Pass && st.next.isLoggedIn && st.next.currentUid == uid)
      && (sdk.Rejected? ==> st.outcome == Fail(LoginError(sdk.reason))
                            && st.next.isLoggedIn == s.isLoggedIn && st.next.currentUid == s.currentUid)
  {
  }

  /** The two SDK codes with guidance get fixed messages; any other rejection is rethrown unchanged. */
  lemma LoginErrorMapping(reason: Thrown)
    ensures reason.code == Some(-10015) ==> LoginError(reason) == Thrown(true, RtmNotEnabled, None)
    ensures reason.code == Some(-10005) ==> LoginError(reason) == Thrown(true, TokenRequired, None)
    ensures reason.code != Some(-10015) && reason.code != Some(-10005) ==> LoginError(reason) == reason
  {
  }

  /** Without a client, an empty app id makes `login` throw before a client exists. */
  lemma LoginWithoutAppId(s: Session, uid: string, sdkAvailable: bool, sdk: SdkResult)
    requires s.client.None?
    ensures LoginStep(s, uid, "", sdkAvailable, sdk) == Step(s, Fail(NewError(AppIdMissing)))
  {
  }

  /**
   * The client made by a login is kept even when that login is rejected,
   * and a later login (with any app id or user id) reuses it: the client
   * keeps the user id it was created with while `currentUid` moves on.
   */
  lemma ClientKeptAcrossLogins(s: Session, uid: string, appId: string, reason: Thrown, uid2: string, appId2: string, sdk2: SdkResult)
    requires s.client.None? && appId != ""
    ensures var first := LoginStep(s, uid, appId, true, Rejected(reason));
      var second := LoginStep(first.next, uid2, appId2, false, sdk2);
      && first.next.client == Some(Client(appId, uid, 0))
      && second.next.client == first.next.client
      && (sdk2.Resolved? ==> second.next.currentUid == uid2 && second.next.client.value.userId == uid)
  {
  }

  /** Logging in twice with the same user succeeds both times and leaves the same session as once. */
  lemma LoginTwiceNotRefused(s: Session, uid: string, appId: string)
    requires appId != ""
    ensures var once := LoginStep(s, uid, appId, true, Resolved);
      && once.outcome == Pass
      && LoginStep(once.next, uid, appId, true, Resolved) == once
  {
  }

  /**
   * `logout`: a channel is left first and a failed leave propagates with
   * nothing changed; after that, a login with a client is ended when the
   * SDK logout resolves, and a rejected SDK logout is swallowed leaving the
   * flag and the user id as they were.
   */
  lemma LogoutCases(s: Session, leave: SdkResult, sdkLogout: SdkResult)
    ensures s.channel.Some? && leave.Rejected? ==> LogoutStep(s, leave, sdkLogout) == Step(s, Fail(leave.reason))
    ensures s.channel.None? || leave.Resolved? ==>
      var st := LogoutStep(s, leave, sdkLogout);
      && st.outcome == Pass
      && st.next.channel.None?
      && st.next.client == s.client
      && (s.client.Some? && s.isLoggedIn && sdkLogout.Resolved? ==> !st.next.isLoggedIn && st.next.currentUid == "")
      && (sdkLogout.Rejected? || s.client.None? || !s.isLoggedIn ==>
            st.next.isLoggedIn == s.isLoggedIn && st.next.currentUid == s.currentUid)
  {
  }

  /**
   * The guards of sending and subscribing: a channel message and the
   * channel subscriptions need a channel, a peer message needs a client and
   * a login, a peer subscription needs a client; sending never changes the
   * session.
   */
  lemma SendAndSubscribeGuards(s: Session, sdk: SdkResult, event: ChannelEvent)
    ensures SendPeerStep(s, sdk).next == s && SendChannelStep(s, sdk).next == s
    ensures SendPeerStep(s, sdk).outcome.Fail? <==> s.client.None? || !s.isLoggedIn || sdk.Rejected?
    ensures SendChannelStep(s, sdk).outcome.Fail? <==> s.channel.None? || sdk.Rejected?
    ensures SubscribeChannelStep(s, event).outcome.Fail? <==> s.channel.None?
    ensures SubscribePeerStep(s).outcome.Fail? <==> s.client.None?
    ensures s.channel.None? ==> SubscribeChannelStep(s, event).next == s
    ensures s.client.None? ==> SubscribePeerStep(s).next == s
  {
  }

  /** Applies `n` successful login-and-subscribe rounds, as the hook's login does each time. */
  function LoginRounds(s: Session, uid: string, appId: string, n: nat): Session
    decreases n
  {
    if n == 0 then s
    else
      var logged := LoginStep(s, uid, appId, true, Resolved).next;
      LoginRounds(SubscribePeerStep(logged).next, uid, appId, n - 1)
  }

  /**
   * Each successful login followed by a peer subscription adds one more
   * peer-message listener to the same client: `n` rounds from a fresh
   * adapter leave `n` listeners, so every inbound peer message is then
   * delivered `n` times.
   */
  lemma {:induction false} ListenersAccumulate(s: Session, uid: string, appId: string, n: nat)
    requires appId != ""
    requires s.client.Some?
    ensures var t := LoginRounds(s, uid, appId, n);
      && t.client.Some?
      && t.client.value.peerListeners == s.client.value.peerListeners + n
      && t.client.value.userId == s.client.value.userId
    decreases n
  {
    if n > 0 {
      var logged := LoginStep(s, uid, appId, true, Resolved).next;
      ListenersAccumulate(SubscribePeerStep(logged).next, uid, appId, n - 1);
    }
  }

  /** From a fresh adapter: joining before any login fails and leaves the adapter logged out with no channel. */
  lemma JoinBeforeLoginScenario(name: string, create: SdkResult, join: SdkResult)
    ensures JoinStep(Initial, name, create, join).next == Initial
    ensures JoinStep(Initial, name, create, join).outcome.Fail?
  {
  }

  /**
   * From a fresh adapter: login, join, then logout with every SDK call
   * resolving ends with neither a login nor a channel.
   */
  lemma LogoutClearsScenario(uid: string, appId: string, name: string)
    requires appId != ""
    ensures var a := LoginStep(Initial, uid, appId, true, Resolved).next;
      var b := JoinStep(a, name, Resolved, Resolved).next;
      var c := LogoutStep(b, Resolved, Resolved);
      && IsInChannel(b)
      && c.outcome == Pass && !c.next.isLoggedIn && !IsInChannel(c.next) && c.next.currentUid == ""
  {
  }

  /**
   * `cleanup` whose SDK logout rejects still drops the client but keeps
   * the login flag: the adapter then reports being logged in while a join
   * is refused for want of a login.
   */
  lemma CleanupWithRejectedLogout(s: Session, reason: Thrown, name: string, create: SdkResult, join: SdkResult)
    requires s.client.Some? && s.isLoggedIn
    ensures var st := CleanupStep(s, Resolved, Rejected(reason));
      && st.outcome == Pass
      && st.next.client.None? && st.next.channel.None?
      && st.next.isLoggedIn && st.next.currentUid == s.currentUid
      && JoinStep(st.next, name, create, join) == Step(st.next, Fail(NewError(LoginRequiredToJoin)))
  {
  }

  /** `cleanup` with resolving SDK calls leaves no client, no channel and no login. */
  lemma CleanupResets(s: Session)
    ensures var st := CleanupStep(s, Resolved, Resolved);
      && st.outcome == Pass
      && st.next.client.None? && st.next.channel.None?
      && (s.client.Some? ==> !st.next.isLoggedIn)
      && (s.client.Some? && s.isLoggedIn ==> st.next.currentUid == "")
  {
  }

  class AgoraRTMService {
    var client: Option<Client>
    var channel: Option<Channel>
    var isLoggedIn: bool
    var currentUid: string

    function Snapshot(): Session
      reads this
    {
      Session(client, channel, isLoggedIn, currentUid)
    }

    constructor ()
      ensures Snapshot() == Initial
    {
      client := None;
      channel := None;
      isLoggedIn := false;
      currentUid := "";
    }

    /** `getClient()`: the client, or an error before the first login created it. */
    method GetClient() returns (r: Outcome<Thrown>, c: Option<Client>)
      ensures c == client
      ensures r == if client.None? then Fail(NewError(NoClientYet)) else Pass
    {
      c := client;
      if client.None? {
        r := Fail(NewError(NoClientYet));
      } else {
        r := Pass;
      }
    }

    method Login(uid: string, appId: string, sdkAvailable: bool, sdk: SdkResult) returns (r: Outcome<Thrown>)
      modifies this
      ensures Snapshot() == LoginStep(old(Snapshot()), uid, appId, sdkAvailable, sdk).next
      ensures r == LoginStep(old(Snapshot()), uid, appId, sdkAvailable, sdk).outcome
    {
      if client.None? {
        if appId == "" {
          return Fail(NewError(AppIdMissing));
        }
        if !sdkAvailable {
          return Fail(NewError(SdkMissing));
        }
        client := Some(Client(appId, uid, 0));
      }
      match sdk {
        case Resolved =>
          isLoggedIn := true;
          currentUid := uid;
          r := Pass;
        case Rejected(reason) =>
          r := Fail(LoginError(reason));
      }
    }

    method LeaveChannel(leave: SdkResult) returns (r: Outcome<Thrown>)
      modifies this
      ensures Snapshot() == LeaveStep(old(Snapshot()), leave).next
      ensures r == LeaveStep(old(Snapshot()), leave).outcome
    {
      r := Pass;
      if channel.Some? {
        match leave {
          case Resolved =>
            channel := None;
          case Rejected(reason) =>
            r := Fail(reason);
        }
      }
    }

    method Logout(leave: SdkResult, sdkLogout: SdkResult) returns (r: Outcome<Thrown>)
      modifies this
      ensures Snapshot() == LogoutStep(old(Snapshot()), leave, sdkLogout).next
      ensures r == LogoutStep(old(Snapshot()), leave, sdkLogout).outcome
    {
      if channel.Some? {
        r := LeaveChannel(leave);
        if r.Fail? {
          return;
        }
      }
      if client.Some? && isLoggedIn {
        match sdkLogout {
          case Resolved =>
            isLoggedIn := false;
            currentUid := "";
          case Rejected(_) =>
        }
      }
      r := Pass;
    }

    method JoinChannel(name: string, create: SdkResult, join: SdkResult) returns (r: Outcome<Thrown>)
      modifies this
      ensures Snapshot() == JoinStep(old(Snapshot()), name, create, join).next
      ensures r == JoinStep(old(Snapshot()), name, create, join).outcome
    {
      if client.None? || !isLoggedIn {
        return Fail(NewError(LoginRequiredToJoin));
      }
      if channel.Some? {
        return Fail(NewError(AlreadyInChannel));
      }
      match create {
        case Rejected(reason) =>
          return Fail(reason);
        case Resolved =>
      }
      channel := Some(Channel(name, []));
      match join {
        case Resolved =>
          r := Pass;
        case Rejected(reason) =>
          r := Fail(reason);
      }
    }

    method SendPeerMessage(peerId: string, text: string, sdk: SdkResult) returns (r: Outcome<Thrown>)
      ensures r == SendPeerStep(Snapshot(), sdk).outcome
    {
      if client.None? || !isLoggedIn {
        return Fail(NewError(LoginRequiredToSend));
      }
      match sdk {
        case Resolved =>
          r := Pass;
        case Rejected(reason) =>
          r := Fail(reason);
      }
    }

    method SendChannelMessage(text: string, sdk: SdkResult) returns (r: Outcome<Thrown>)
      ensures r == SendChannelStep(Snapshot(), sdk).outcome
    {
      if channel.None? {
        return Fail(NewError(ChannelRequiredToSend));
      }
      match sdk {
        case Resolved =>
          r := Pass;
        case Rejected(reason) =>
          r := Fail(reason);
      }
    }

    method OnPeerMessage() returns (r: Outcome<Thrown>)
      modifies this
      ensures Snapshot() == SubscribePeerStep(old(Snapshot())).next
      ensures r == SubscribePeerStep(old(Snapshot())).outcome
    {
      if client.None? {
        return Fail(NewError(ClientNotInitialized));
      }
      client := Some(client.value.(peerListeners := client.value.peerListeners + 1));
      r := Pass;
    }

    /** The registration shared by `onChannelMessage`, `onMemberJoined` and `onMemberLeft`. */
    method OnChannelEvent(event: ChannelEvent) returns (r: Outcome<Thrown>)
      modifies this
      ensures Snapshot() == SubscribeChannelStep(old(Snapshot()), event).next
      ensures r == SubscribeChannelStep(old(Snapshot()), event).outcome
    {
      if channel.None? {
        return Fail(NewError(NotInChannel));
      }
      channel := Some(channel.value.(listeners := channel.value.listeners + [event]));
      r := Pass;
    }

    method OnChannelMessage() returns (r: Outcome<Thrown>)
      modifies this
      ensures Snapshot() == SubscribeChannelStep(old(Snapshot()), ChannelMessage).next
      ensures r == SubscribeChannelStep(old(Snapshot()), ChannelMessage).outcome
    {
      r := OnChannelEvent(ChannelMessage);
    }

    method OnMemberJoined() returns (r: Outcome<Thrown>)
      modifies this
      ensures Snapshot() == SubscribeChannelStep(old(Snapshot()), MemberJoined).next
      ensures r == SubscribeChannelStep(old(Snapshot()), MemberJoined).outcome
    {
      r := OnChannelEvent(MemberJoined);
    }

    method OnMemberLeft() returns (r: Outcome<Thrown>)
      modifies this
      ensures Snapshot() == SubscribeChannelStep(old(Snapshot()), MemberLeft).next
      ensures r == SubscribeChannelStep(old(Snapshot()), MemberLeft).outcome
    {
      r := OnChannelEvent(MemberLeft);
    }

    method GetCurrentUid() returns (uid: string)
      ensures uid == currentUid
    {
      uid := currentUid;
    }

    method GetIsLoggedIn() returns (b: bool)
      ensures b == isLoggedIn
    {
      b := isLoggedIn;
    }

    method GetIsInChannel() returns (b: bool)
      ensures b <==> IsInChannel(Snapshot())
    {
      b := channel.Some?;
    }

    method Cleanup(leave: SdkResult, sdkLogout: SdkResult) returns (r: Outcome<Thrown>)
      modifies this
      ensures Snapshot() == CleanupStep(old(Snapshot()), leave, sdkLogout).next
      ensures r == CleanupStep(old(Snapshot()), leave, sdkLogout).outcome
    {
      r := LeaveChannel(leave);
      if r.Fail? {
        return;
      }
      r := Logout(leave, sdkLogout);
      assert r.Pass?;
      if client.Some? {
        client := None;
      }
    }
  }
}
