/**
 * The UI-side bookkeeping over the session adapter: flags, the current
 * user id, the last error, the joined channel's name and an append-only
 * message log. Inbound SDK events, which arrive through the listeners the
 * hook registers, are explicit method calls here.
 */
module UseAgoraRTM {
  import opened Common
  import opened RtmService
  import Decimal

  datatype MessageKind = PeerKind | ChannelKind

  datatype Message = Message(id: string, text: string, uid: string, timestamp: nat, kind: MessageKind)

  const LoginFailed := "Login failed"
  const LogoutFailed := "Logout failed"
  const JoinFailed := "Join channel failed"
  const LeaveFailed := "Leave channel failed"
  const SendFailed := "Send message failed"

  /**
   * `${Date.now()}-${uid}`: the digits before the first non-digit read
   * back as the clock value, and the text after the dash is the user id.
   */
  function MessageId(now: nat, uid: string): (id: string)
    ensures var d := Decimal.DigitPrefix(id);
      && d == Decimal.NatToString(now) && Decimal.DigitsValue(d) == now
      && |d| < |id| && id[|d|] == '-' && id[|d| + 1..] == uid
  {
    var d := Decimal.NatToString(now);
    Decimal.DigitPrefixOfDigits(d, "-" + uid);
    Decimal.NatToStringRoundTrip(now);
    assert d + "-" + uid == d + ("-" + uid);
    assert (d + "-" + uid)[|d| + 1..] == uid;
    d + "-" + uid
  }

  /** Two messages get the same id only when they were stamped at the same instant by the same user. */
  lemma MessageIdInjective(now1: nat, uid1: string, now2: nat, uid2: string)
    requires MessageId(now1, uid1) == MessageId(now2, uid2)
    ensures now1 == now2 && uid1 == uid2
  {
  }

  /** `err instanceof Error ? err : new Error(fallback)`: what the hook stores and rethrows. */
  function Wrap(err: Thrown, fallback: string): (e: Thrown)
    ensures e.isError
    ensures err.isError ==> e == err
    ensures !err.isError ==> e.message == fallback && e.code.None?
  {
    if err.isError then err else NewError(fallback)
  }

  /** `message.text || ''`: an absent text reads as the empty string. */
  function InboundText(text: Option<string>): (t: string)
    ensures text.Some? ==> t == text.value
    ensures text.None? ==> t == ""
  {
    match text
    case Some(v) => v
    case None => ""
  }

  /** `k` copies of `m`: what `k` registered listeners append for one SDK event. */
  function Repeat(m: Message, k: nat): (r: seq<Message>)
    ensures |r| == k
    ensures forall i :: 0 <= i < k ==> r[i] == m
  {
    if k == 0 then [] else Repeat(m, k - 1) + [m]
  }

  /** How many listeners the hook has registered for inbound peer messages. */
  function PeerListeners(s: Session): nat {
    if s.client.Some? then s.client.value.peerListeners else 0
  }

  /** How many occurrences of `e` are in `events`. */
  function Occurrences(events: seq<ChannelEvent>, e: ChannelEvent): nat {
    if events == [] then 0
    else (if events[0] == e then 1 else 0) + Occurrences(events[1..], e)
  }

  /** How many listeners the hook has registered for inbound channel messages. */
  function ChannelListeners(s: Session): nat {
    if s.channel.Some? then Occurrences(s.channel.value.listeners, ChannelMessage) else 0
  }

  class HookState {
    const service: AgoraRTMService
    var isLoggedIn: bool
    var isInChannel: bool
    var messages: seq<Message>
    var currentUid: string
    var error: Option<Thrown>
    var channelName: string

    constructor (service: AgoraRTMService)
      ensures this.service == service
      ensures !isLoggedIn && !isInChannel && messages == [] && currentUid == "" && error.None? && channelName == ""
    {
      this.service := service;
      isLoggedIn := false;
      isInChannel := false;
      messages := [];
      currentUid := "";
      error := None;
      channelName := "";
    }

    method Login(uid: string, appId: string, sdkAvailable: bool, sdk: SdkResult) returns (r: Outcome<Thrown>)
      modifies this, service
      ensures var st := LoginStep(old(service.Snapshot()), uid, appId, sdkAvailable, sdk);
        match st.outcome
        case Pass =>
          && r == Pass && error.None?
          && isLoggedIn && currentUid == uid
          && service.Snapshot() == SubscribePeerStep(st.next).next
          && isInChannel == old(isInChannel) && messages == old(messages) && channelName == old(channelName)
        case Fail(e) =>
          && r == Fail(Wrap(e, LoginFailed)) && error == Some(Wrap(e, LoginFailed))
          && service.Snapshot() == st.next
          && isLoggedIn == old(isLoggedIn) && currentUid == old(currentUid)
          && isInChannel == old(isInChannel) && messages == old(messages) && channelName == old(channelName)
    {
      error := None;
      r := service.Login(uid, appId, sdkAvailable, sdk);
      if r.Fail? {
        var e := Wrap(r.error, LoginFailed);
        error := Some(e);
        return Fail(e);
      }
      isLoggedIn := true;
      currentUid := uid;
      r := service.OnPeerMessage();
      assert r.Pass?;
    }

    method Logout(leave: SdkResult, sdkLogout: SdkResult) returns (r: Outcome<Thrown>)
      modifies this, service
      ensures var st := LogoutStep(old(service.Snapshot()), leave, sdkLogout);
        && service.Snapshot() == st.next
        && isInChannel == old(isInChannel) && channelName == old(channelName)
        && match st.outcome
          case Pass =>
            r == Pass && error.None? && !isLoggedIn && currentUid == "" && messages == []
          case Fail(e) =>
            && r == Fail(Wrap(e, LogoutFailed)) && error == Some(Wrap(e, LogoutFailed))
            && isLoggedIn == old(isLoggedIn) && currentUid == old(currentUid) && messages == old(messages)
    {
      error := None;
      r := service.Logout(leave, sdkLogout);
      if r.Fail? {
        var e := Wrap(r.error, LogoutFailed);
        error := Some(e);
        return Fail(e);
      }
      isLoggedIn := false;
      currentUid := "";
      messages := [];
    }

    method JoinChannel(name: string, create: SdkResult, join: SdkResult) returns (r: Outcome<Thrown>)
      modifies this, service
      ensures var st := JoinStep(old(service.Snapshot()), name, create, join);
        && isLoggedIn == old(isLoggedIn) && currentUid == old(currentUid) && messages == old(messages)
        && match st.outcome
          case Pass =>
            && r == Pass && error.None? && isInChannel && channelName == name
            && service.Snapshot() == st.next.(channel := Some(Channel(name, [ChannelMessage, MemberJoined, MemberLeft])))
          case Fail(e) =>
            && r == Fail(Wrap(e, JoinFailed)) && error == Some(Wrap(e, JoinFailed))
            && service.Snapshot() == st.next
            && isInChannel == old(isInChannel) && channelName == old(channelName)
    {
      error := None;
      r := service.JoinChannel(name, create, join);
      if r.Fail? {
        var e := Wrap(r.error, JoinFailed);
        error := Some(e);
        return Fail(e);
      }
      ghost var joined := service.Snapshot();
      assert joined.channel == Some(Channel(name, []));
      channelName := name;
      isInChannel := true;
      r := service.OnChannelMessage();
      assert [] + [ChannelMessage] == [ChannelMessage];
      assert r.Pass? && service.Snapshot() == joined.(channel := Some(Channel(name, [ChannelMessage])));
      r := service.OnMemberJoined();
      assert [ChannelMessage] + [MemberJoined] == [ChannelMessage, MemberJoined];
      assert r.Pass? && service.Snapshot() == joined.(channel := Some(Channel(name, [ChannelMessage, MemberJoined])));
      r := service.OnMemberLeft();
      assert [ChannelMessage, MemberJoined] + [MemberLeft] == [ChannelMessage, MemberJoined, MemberLeft];
      assert r.Pass? && service.Snapshot() == joined.(channel := Some(Channel(name, [ChannelMessage, MemberJoined, MemberLeft])));
    }

    method LeaveChannel(leave: SdkResult) returns (r: Outcome<Thrown>)
      modifies this, service
      ensures var st := LeaveStep(old(service.Snapshot()), leave);
        && service.Snapshot() == st.next
        && isLoggedIn == old(isLoggedIn) && currentUid == old(currentUid) && messages == old(messages)
        && match st.outcome
          case Pass =>
            r == Pass && error.None? && !isInChannel && channelName == ""
          case Fail(e) =>
            && r == Fail(Wrap(e, LeaveFailed)) && error == Some(Wrap(e, LeaveFailed))
            && isInChannel == old(isInChannel) && channelName == old(channelName)
    {
      error := None;
      r := service.LeaveChannel(leave);
      if r.Fail? {
        var e := Wrap(r.error, LeaveFailed);
        error := Some(e);
        return Fail(e);
      }
      isInChannel := false;
      channelName := "";
    }

    /** Sends a peer message; the sent message is logged only after the SDK call resolves. */
    method SendPeerMessage(peerId: string, text: string, sdk: SdkResult, now: nat) returns (r: Outcome<Thrown>)
      modifies this
      ensures unchanged(service)
      ensures isLoggedIn == old(isLoggedIn) && isInChannel == old(isInChannel)
      ensures currentUid == old(currentUid) && channelName == old(channelName)
      ensures var st := SendPeerStep(service.Snapshot(), sdk);
        match st.outcome
        case Pass =>
          && r == Pass && error.None?
          && messages == old(messages) + [Message(MessageId(now, currentUid), text, currentUid, now, PeerKind)]
        case Fail(e) =>
          r == Fail(Wrap(e, SendFailed)) && error == Some(Wrap(e, SendFailed)) && messages == old(messages)
    {
      error := None;
      r := service.SendPeerMessage(peerId, text, sdk);
      if r.Fail? {
        var e := Wrap(r.error, SendFailed);
        error := Some(e);
        return Fail(e);
      }
      messages := messages + [Message(MessageId(now, currentUid), text, currentUid, now, PeerKind)];
    }

    /** Sends a channel message; the sent message is logged only after the SDK call resolves. */
    method SendChannelMessage(text: string, sdk: SdkResult, now: nat) returns (r: Outcome<Thrown>)
      modifies this
      ensures unchanged(service)
      ensures isLoggedIn == old(isLoggedIn) && isInChannel == old(isInChannel)
      ensures currentUid == old(currentUid) && channelName == old(channelName)
      ensures var st := SendChannelStep(service.Snapshot(), sdk);
        match st.outcome
        case Pass =>
          && r == Pass && error.None?
          && messages == old(messages) + [Message(MessageId(now, currentUid), text, currentUid, now, ChannelKind)]
        case Fail(e) =>
          r == Fail(Wrap(e, SendFailed)) && error == Some(Wrap(e, SendFailed)) && messages == old(messages)
    {
      error := None;
      r := service.SendChannelMessage(text, sdk);
      if r.Fail? {
        var e := Wrap(r.error, SendFailed);
        error := Some(e);
        return Fail(e);
      }
      messages := messages + [Message(MessageId(now, currentUid), text, currentUid, now, ChannelKind)];
    }

    /**
     * The SDK delivers a peer message from `peerId`: each registered
     * peer listener appends one record at the end of the log.
     */
    method ReceivePeerMessage(text: Option<string>, peerId: string, now: nat)
      modifies this
      ensures messages == old(messages) + Repeat(Message(MessageId(now, peerId), InboundText(text), peerId, now, PeerKind), PeerListeners(service.Snapshot()))
      ensures isLoggedIn == old(isLoggedIn) && isInChannel == old(isInChannel) && currentUid == old(currentUid)
      ensures error == old(error) && channelName == old(channelName)
    {
      messages := messages + Repeat(Message(MessageId(now, peerId), InboundText(text), peerId, now, PeerKind), PeerListeners(service.Snapshot()));
    }

    /**
     * The SDK delivers a channel message from `memberId`: each registered
     * channel-message listener appends one record at the end of the log.
     */
    method ReceiveChannelMessage(text: Option<string>, memberId: string, now: nat)
      modifies this
      ensures messages == old(messages) + Repeat(Message(MessageId(now, memberId), InboundText(text), memberId, now, ChannelKind), ChannelListeners(service.Snapshot()))
      ensures isLoggedIn == old(isLoggedIn) && isInChannel == old(isInChannel) && currentUid == old(currentUid)
      ensures error == old(error) && channelName == old(channelName)
    {
      messages := messages + Repeat(Message(MessageId(now, memberId), InboundText(text), memberId, now, ChannelKind), ChannelListeners(service.Snapshot()));
    }

    method ClearMessages()
      modifies this
      ensures messages == []
      ensures isLoggedIn == old(isLoggedIn) && isInChannel == old(isInChannel) && currentUid == old(currentUid)
      ensures error == old(error) && channelName == old(channelName)
    {
      messages := [];
    }

    /** Unmount: the adapter is cleaned up and any error it throws is only logged. */
    method Unmount(leave: SdkResult, sdkLogout: SdkResult)
      modifies service
      ensures service.Snapshot() == CleanupStep(old(service.Snapshot()), leave, sdkLogout).next
    {
      var _ := service.Cleanup(leave, sdkLogout);
    }
  }
}
