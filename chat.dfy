/** The chat component: the contact list, the message list of the open chat, the
    call-data record and the call-active flag, updated by socket events and by the
    user's actions. */
module Chat {
  import opened Signaling
  import VideoCall

  datatype User = User(username: UserId, displayName: string)

  /** A chat message; the server's timestamp and id are not modelled. */
  datatype Message = Message(sender: UserId, receiver: UserId, content: string, isRead: bool)

  /** The fetched users without the current user. */
  function WithoutUser(users: seq<User>, me: UserId): (r: seq<User>)
    ensures forall u :: u in r <==> u in users && u.username != me
    ensures |r| <= |users|
  {
    if users == [] then []
    else (if users[0].username != me then [users[0]] else []) + WithoutUser(users[1..], me)
  }

  /** The filter keeps the original order: it distributes over concatenation. */
  lemma {:induction false} WithoutUserConcat(a: seq<User>, b: seq<User>, me: UserId)
    ensures WithoutUser(a + b, me) == WithoutUser(a, me) + WithoutUser(b, me)
  {
    if a == [] {
      assert a + b == b;
    } else {
      var head := if a[0].username != me then [a[0]] else [];
      assert (a + b)[0] == a[0];
      assert (a + b)[1..] == a[1..] + b;
      WithoutUserConcat(a[1..], b, me);
      calc {
        WithoutUser(a + b, me);
        head + WithoutUser(a[1..] + b, me);
        head + (WithoutUser(a[1..], me) + WithoutUser(b, me));
        (head + WithoutUser(a[1..], me)) + WithoutUser(b, me);
        WithoutUser(a, me) + WithoutUser(b, me);
      }
    }
  }

  /** A list without the current user passes through unchanged. */
  lemma {:induction false} WithoutUserKeepsOthers(users: seq<User>, me: UserId)
    requires forall i :: 0 <= i < |users| ==> users[i].username != me
    ensures WithoutUser(users, me) == users
  {
    if users != [] {
      WithoutUserKeepsOthers(users[1..], me);
    }
  }

  /** Filtering twice is filtering once. */
  lemma WithoutUserIdempotent(users: seq<User>, me: UserId)
    ensures WithoutUser(WithoutUser(users, me), me) == WithoutUser(users, me)
  {
    var r := WithoutUser(users, me);
    forall i | 0 <= i < |r| ensures r[i].username != me {
      assert r[i] in r;
    }
    WithoutUserKeepsOthers(r, me);
  }

  /** A received message belongs in the list when a chat is open and the message
      was sent by or to that chat's user. */
  predicate BelongsToOpenChat(currentChat: Option<User>, m: Message)
  {
    currentChat.Some? && (m.sender == currentChat.value.username || m.receiver == currentChat.value.username)
  }

  /** Whether the record names a caller: the field is set and not empty. */
  predicate HasCaller(cd: CallData)
  {
    cd.caller.Some? && cd.caller.value != ""
  }

  datatype CallPhase = Idle | Ringing | Calling | Answered

  /** Where the call-data record and the call-active flag stand: idle, an incoming
      call prompt, an outgoing call, or an accepted incoming call. */
  function Phase(isCallActive: bool, cd: CallData): CallPhase
  {
    if !isCallActive then (if cd.isReceivingCall then Ringing else Idle)
    else if cd.isInitiator then Calling
    else Answered
  }

  class ChatView {
    const me: UserId
    var connected: bool                  // the socket state is set
    var sent: seq<Envelope>              // what this component emitted, in order
    var users: seq<User>
    var messages: seq<Message>
    var currentChat: Option<User>
    var isCallActive: bool
    var callData: CallData

    /** The contact list never shows the current user, and the call record is never
        both an incoming and an outgoing call. */
    ghost predicate Valid()
      reads this
    {
      && (forall u :: u in users ==> u.username != me)
      && (callData.isReceivingCall ==> !callData.isInitiator)
    }

    constructor (me: UserId)
      ensures this.me == me && !connected && sent == []
      ensures users == [] && messages == [] && currentChat.None?
      ensures !isCallActive && callData == NoCall
      ensures Valid()
    {
      this.me := me;
      connected := false;
      sent := [];
      users := [];
      messages := [];
      currentChat := None;
      isCallActive := false;
      callData := NoCall;
    }

    /** The socket connects and joins the user's room when the user has a name. */
    method Connect()
      requires Valid()
      modifies this`connected, this`sent
      ensures Valid() && connected
      ensures sent == old(sent) + (if me != "" then [Envelope(Join, None, me, NoPayload)] else [])
    {
      connected := true;
      if me != "" {
        sent := sent + [Envelope(Join, None, me, NoPayload)];
      }
    }

    /** The user list arrives (None: the request failed and was logged). */
    method LoadUsers(fetched: Option<seq<User>>)
      requires Valid()
      modifies this`users
      ensures Valid()
      ensures fetched.Some? ==> users == WithoutUser(fetched.value, me)
      ensures fetched.None? ==> users == old(users)
    {
      if fetched.Some? {
        users := WithoutUser(fetched.value, me);
      }
    }

    method HandleChatSelect(u: User)
      requires Valid()
      modifies this`currentChat
      ensures Valid() && currentChat == Some(u)
    {
      currentChat := Some(u);
    }

    /** The history of the open chat arrives and replaces the list. */
    method LoadMessages(fetched: Option<seq<Message>>)
      requires Valid()
      modifies this`messages
      ensures Valid()
      ensures currentChat.Some? && fetched.Some? ==> messages == fetched.value
      ensures currentChat.None? || fetched.None? ==> messages == old(messages)
    {
      if currentChat.Some? && fetched.Some? {
        messages := fetched.value;
      }
    }

    /** receiveMessage: appended only when it belongs to the open chat. */
    method OnReceiveMessage(m: Message)
      requires Valid() && connected
      modifies this`messages
      ensures Valid()
      ensures BelongsToOpenChat(currentChat, m) ==> messages == old(messages) + [m]
      ensures !BelongsToOpenChat(currentChat, m) ==> messages == old(messages)
    {
      if BelongsToOpenChat(currentChat, m) {
        messages := messages + [m];
      }
    }

    /** Sends to the open chat and appends the message optimistically, unread. */
    method HandleSendMessage(content: string)
      requires Valid()
      modifies this`sent, this`messages
      ensures Valid()
      ensures !connected || currentChat.None? ==> sent == old(sent) && messages == old(messages)
      ensures connected && currentChat.Some? ==>
        && sent == old(sent) + [Envelope(SendMessage, Some(currentChat.value.username), me, Content(content))]
        && messages == old(messages) + [Message(me, currentChat.value.username, content, false)]
    {
      if !connected || currentChat.None? {
        return;
      }
      sent := sent + [Envelope(SendMessage, Some(currentChat.value.username), me, Content(content))];
      messages := messages + [Message(me, currentChat.value.username, content, false)];
    }

    /** call-made: the record becomes an incoming call from the sender, whatever
        state it was in. */
    method OnCallMade(from: UserId, offer: Option<Sdp>)
      requires Valid() && connected
      modifies this`callData
      ensures Valid()
      ensures callData == Incoming(from, me, offer)
      ensures !isCallActive ==> Phase(isCallActive, callData) == Ringing
    {
      callData := Incoming(from, me, offer);
    }

    /** call-rejected: back to idle. */
    method OnCallRejected()
      requires Valid() && connected
      modifies this`isCallActive, this`callData
      ensures Valid()
      ensures !isCallActive && callData == NoCall && Phase(isCallActive, callData) == Idle
    {
      isCallActive := false;
      callData := NoCall;
    }

    /** call-ended: back to idle. */
    method OnCallEnded()
      requires Valid() && connected
      modifies this`isCallActive, this`callData
      ensures Valid()
      ensures !isCallActive && callData == NoCall && Phase(isCallActive, callData) == Idle
    {
      isCallActive := false;
      callData := NoCall;
    }

    /** Starts a call with the open chat's user; nothing when no chat is open. */
    method HandleStartCall()
      requires Valid()
      modifies this`isCallActive, this`callData
      ensures Valid()
      ensures currentChat.None? ==> isCallActive == old(isCallActive) && callData == old(callData)
      ensures currentChat.Some? ==>
        && isCallActive && callData == Outgoing(me, currentChat.value.username)
        && Phase(isCallActive, callData) == Calling
    {
      if currentChat.None? {
        return;
      }
      isCallActive := true;
      callData := Outgoing(me, currentChat.value.username);
    }

    /** Accept from the incoming-call prompt: the call view opens. */
    method HandleAcceptCall()
      requires Valid()
      modifies this`isCallActive
      ensures Valid() && isCallActive
      ensures old(Phase(isCallActive, callData)) == Ringing ==> Phase(isCallActive, callData) == Answered
    {
      isCallActive := true;
    }

    /** Decline from the incoming-call prompt: one reject-call to the caller and the
        record is reset; the call-active flag is left as it is. A null or empty
        caller is no caller: nothing happens. */
    method HandleRejectCall()
      requires Valid()
      modifies this`sent, this`callData
      ensures Valid()
      ensures !connected || !HasCaller(old(callData)) ==> sent == old(sent) && callData == old(callData)
      ensures connected && HasCaller(old(callData)) ==>
        sent == old(sent) + [Envelope(RejectCall, old(callData).caller, me, NoPayload)] && callData == NoCall
    {
      if !connected || !HasCaller(callData) {
        return;
      }
      sent := sent + [Envelope(RejectCall, callData.caller, me, NoPayload)];
      callData := NoCall;
    }

    /** Hang up (also the video call's onEndCall): one end-call to the callee when
        this user initiated, to the caller otherwise; then back to idle. */
    method HandleEndCall()
      requires Valid()
      modifies this`sent, this`isCallActive, this`callData
      ensures Valid()
      ensures !connected ==> sent == old(sent) && isCallActive == old(isCallActive) && callData == old(callData)
      ensures connected ==>
        && sent == old(sent) + [Envelope(EndCall, OtherUser(old(callData)), me, NoPayload)]
        && !isCallActive && callData == NoCall
    {
      if !connected {
        return;
      }
      sent := sent + [Envelope(EndCall, OtherUser(callData), me, NoPayload)];
      isCallActive := false;
      callData := NoCall;
    }
  }

  /** The hang-up handler is not idempotent: run a second time, it reads the reset
      record and sends another end-call, addressed to the null user. (No screen runs
      it after the record has been reset: the re-render that shows the reset record
      also removes the call view, its only caller.) */
  method HangUpTwice(me: UserId, peer: User) returns (sent: seq<Envelope>)
    ensures sent == [Envelope(EndCall, Some(peer.username), me, NoPayload), Envelope(EndCall, None, me, NoPayload)]
  {
    var c := new ChatView(me);
    c.Connect();
    c.HandleChatSelect(peer);
    c.HandleStartCall();
    var before := c.sent;
    c.HandleEndCall();
    c.HandleEndCall();
    sent := c.sent[|before|..];
  }

  /** Hanging up from the call view sends end-call to the peer twice: once from the
      call view, and once more from this component's hang-up handler, which the
      call view invokes as its end-of-call callback. */
  method HangUpFromCallView(me: UserId, peer: User) returns (sent: seq<Envelope>)
    ensures sent == [Envelope(EndCall, Some(peer.username), me, NoPayload), Envelope(EndCall, Some(peer.username), me, NoPayload)]
  {
    var c := new ChatView(me);
    c.Connect();
    c.HandleChatSelect(peer);
    c.HandleStartCall();
    var v := new VideoCall.Session(me, c.callData);
    var before := c.sent;
    v.HandleEndCall();
    c.HandleEndCall();
    sent := v.sent + c.sent[|before|..];
  }

  /** An incoming call rings and is declined: the record returns to idle with one
      reject-call sent to the caller. From an empty caller name, declining does
      nothing and the call keeps ringing. */
  method DeclineIncoming(me: UserId, caller: UserId, offer: Sdp) returns (phase: CallPhase, rejects: seq<Envelope>)
    ensures caller != "" ==> phase == Idle && rejects == [Envelope(RejectCall, Some(caller), me, NoPayload)]
    ensures caller == "" ==> phase == Ringing && rejects == []
  {
    var c := new ChatView(me);
    c.Connect();
    var before := c.sent;
    c.OnCallMade(caller, Some(offer));
    c.HandleRejectCall();
    phase := Phase(c.isCallActive, c.callData);
    rejects := c.sent[|before|..];
  }
}
