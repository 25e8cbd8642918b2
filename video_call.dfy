/** The session negotiator of the video-call component: one peer-connection handle,
    the pending-candidate queue, the call status, the local media stream and the
    envelopes the component emits. Each awaited browser operation is one atomic
    step whose success or failure (and whose produced description) is a parameter. */
module VideoCall {
  import opened Signaling

  /** The abstract RTCPeerConnection: whether it is closed, its remote and local
      descriptions, the number of local tracks attached and the candidates it has
      accepted through addIceCandidate, in order. The component closes a connection
      only in the effect cleanup, which forgets it in the same step, so a session
      never holds a closed one; `closed` stays for the restart guard, which tests it. */
  datatype Peer = Peer(closed: bool, remote: Option<Sdp>, local: Option<Sdp>, tracks: nat, applied: seq<Candidate>)

  /** A newly constructed connection. */
  const FreshPeer: Peer := Peer(false, None, None, 0, [])

  /** getUserMedia asks for one video and one audio track. */
  const TracksPerStream: nat := 2

  datatype CallStatus = Connecting | Connected | Rejected | Ended | Error

  /** The local media stream: whether its audio and video tracks are enabled, and
      whether its tracks are still running. */
  datatype Stream = Stream(audioEnabled: bool, videoEnabled: bool, live: bool)

  const LiveStream: Stream := Stream(true, true, true)

  datatype ConnectionState = NewState | ConnectingState | ConnectedState | DisconnectedState | FailedState | ClosedState

  datatype IceConnectionState = IceNew | IceChecking | IceConnected | IceCompleted | IceDisconnected | IceFailed | IceClosed

  /** What a state-change listener does. */
  datatype Reaction = MarkConnected | Restart | Ignore

  /** The connectionstatechange listener: connected marks the call connected, failed
      and disconnected restart ICE, every other state is ignored. */
  function ConnectionReaction(s: ConnectionState): (r: Reaction)
    ensures r == MarkConnected <==> s == ConnectedState
    ensures r == Restart <==> s == FailedState || s == DisconnectedState
  {
    if s == ConnectedState then MarkConnected
    else if s == FailedState || s == DisconnectedState then Restart
    else Ignore
  }

  /** The iceconnectionstatechange listener: connected and completed mark the call
      connected, only failed restarts ICE (disconnected is ignored here). */
  function IceReaction(s: IceConnectionState): (r: Reaction)
    ensures r == MarkConnected <==> s == IceConnected || s == IceCompleted
    ensures r == Restart <==> s == IceFailed
  {
    if s == IceConnected || s == IceCompleted then MarkConnected
    else if s == IceFailed then Restart
    else Ignore
  }

  /** The connection the negotiator works on: the existing one, or a new one. */
  function Ensured(pc: Option<Peer>): Peer
  {
    if pc.Some? then pc.value else FreshPeer
  }

  /** An ICE restart goes ahead only on an open connection whose new offer was
      created and set. */
  predicate RestartGoesAhead(pc: Option<Peer>, ok: bool)
  {
    pc.Some? && !pc.value.closed && ok
  }

  // ----- the drain of the candidate queue -----

  /** The candidates the connection accepts when `queue` is drained front to back;
      the apply at drain position i throws exactly when i is in `failed`. */
  function Accepted(queue: seq<Candidate>, failed: set<nat>): (r: seq<Candidate>)
    ensures |r| <= |queue|
  {
    if queue == [] then []
    else
      var n := |queue| - 1;
      Accepted(queue[..n], failed) + (if n in failed then [] else [queue[n]])
  }

  /** `failed` moved down by k positions. */
  function Shifted(failed: set<nat>, k: nat): set<nat>
  {
    set i | i in failed && i >= k :: i - k
  }

  /** With no failing apply, every queued candidate is applied, once, in queue order. */
  lemma {:induction false} AcceptedWithoutFailures(queue: seq<Candidate>, failed: set<nat>)
    requires forall i :: 0 <= i < |queue| ==> i !in failed
    ensures Accepted(queue, failed) == queue
  {
    if queue != [] {
      var n := |queue| - 1;
      AcceptedWithoutFailures(queue[..n], failed);
      assert queue[..n] + [queue[n]] == queue;
    }
  }

  /** A failed apply drops only that candidate: the drain goes on with the rest. */
  lemma {:induction false} AcceptedSkipsOne(queue: seq<Candidate>, k: nat)
    requires k < |queue|
    ensures Accepted(queue, {k}) == queue[..k] + queue[k + 1..]
  {
    var n := |queue| - 1;
    if k == n {
      AcceptedWithoutFailures(queue[..n], {k});
    } else {
      AcceptedSkipsOne(queue[..n], k);
      assert queue[..n][..k] == queue[..k];
      assert queue[..n][k + 1..] + [queue[n]] == queue[k + 1..];
    }
  }

  /** No candidate is applied more often than it was queued. */
  lemma {:induction false} AcceptedAtMostOnce(queue: seq<Candidate>, failed: set<nat>)
    ensures multiset(Accepted(queue, failed)) <= multiset(queue)
  {
    if queue != [] {
      var n := |queue| - 1;
      AcceptedAtMostOnce(queue[..n], failed);
      assert queue[..n] + [queue[n]] == queue;
    }
  }

  /** FIFO: draining a queue `a + b` applies what survives of `a` before what
      survives of `b`. */
  lemma {:induction false} AcceptedAppend(a: seq<Candidate>, b: seq<Candidate>, failed: set<nat>)
    ensures Accepted(a + b, failed) == Accepted(a, failed) + Accepted(b, Shifted(failed, |a|))
  {
    if b == [] {
      assert a + b == a;
    } else {
      var n := |b| - 1;
      AcceptedAppend(a, b[..n], failed);
      assert (a + b)[..|a + b| - 1] == a + b[..n];
      assert (|a| + n in failed) <==> (n in Shifted(failed, |a|)) by {
        if |a| + n in failed {
          assert (|a| + n) - |a| in Shifted(failed, |a|);
        }
      }
    }
  }

  // ----- signaling listeners installed by the component's effects -----

  datatype SignalEvent = CallMade | AnswerMade | IceCandidateIn | CallRejected | CallEnded

  /** The listeners the effects install, as written: the offer, answer and candidate
      listeners are installed only when a peer connection already exists. */
  function ListenersAsWritten(isInitiator: bool, connectionExists: bool): (r: set<SignalEvent>)
    ensures CallRejected in r && CallEnded in r
    ensures CallMade in r <==> connectionExists && !isInitiator
    ensures AnswerMade in r <==> connectionExists && isInitiator
    ensures IceCandidateIn in r <==> connectionExists
  {
    {CallRejected, CallEnded}
    + (if connectionExists && !isInitiator then {CallMade} else {})
    + (if connectionExists && isInitiator then {AnswerMade} else {})
    + (if connectionExists then {IceCandidateIn} else {})
  }

  /** The listeners as evidently intended: offers for the responder, answers for the
      initiator, candidates, rejection and ending for both, whether or not the
      connection exists yet (each handler reads the connection when it runs). */
  function Listeners(isInitiator: bool): (r: set<SignalEvent>)
    ensures CallRejected in r && CallEnded in r && IceCandidateIn in r
    ensures CallMade in r <==> !isInitiator
    ensures AnswerMade in r <==> isInitiator
  {
    {CallRejected, CallEnded, IceCandidateIn} + (if isInitiator then {AnswerMade} else {CallMade})
  }

  /** The as-written set never holds a listener the intended set lacks, and equals it
      exactly when a connection exists. */
  lemma ListenersAsWrittenWithinIntended(isInitiator: bool, connectionExists: bool)
    ensures ListenersAsWritten(isInitiator, connectionExists) <= Listeners(isInitiator)
    ensures ListenersAsWritten(isInitiator, connectionExists) == Listeners(isInitiator) <==> connectionExists
  {
    if !connectionExists {
      assert IceCandidateIn !in ListenersAsWritten(isInitiator, connectionExists);
    }
  }

  /** The stream with its audio tracks' enabled flag flipped. */
  function FlipAudio(s: Stream): Stream
  {
    s.(audioEnabled := !s.audioEnabled)
  }

  /** The stream with its video tracks' enabled flag flipped. */
  function FlipVideo(s: Stream): Stream
  {
    s.(videoEnabled := !s.videoEnabled)
  }

  /** The video-call component of one call, on one end. */
  class Session {
    const me: UserId
    const callData: CallData
    var pc: Option<Peer>                 // the peer-connection ref
    var queue: seq<Candidate>            // the pending-candidate ref
    var status: CallStatus
    var showAcceptReject: bool           // the incoming-call prompt
    var localStream: Option<Stream>
    var isMuted: bool
    var isVideoOff: bool
    var timeouts: seq<CallStatus>        // pending 30 s timers, each with the status it captured
    var effectStream: bool               // the media effect's cleanup captured a local stream
    var endCallRequests: nat             // invocations of the onEndCall callback
    var listening: set<SignalEvent>
    var connectionsCreated: nat
    var sent: seq<Envelope>              // what this component emitted, in order

    /** The session's invariant: no candidate is applied before a remote description
        exists, no candidate waits once one exists, only the responder sees the
        prompt, no media is held while it is shown (so the media effect's cleanup
        never captures a stream), and everything emitted is from this user to the
        other user, with no answer ever coming from the initiator. */
    ghost predicate Valid()
      reads this
    {
      && (pc.Some? && pc.value.remote.None? ==> pc.value.applied == [])
      && (pc.Some? && pc.value.remote.Some? ==> queue == [])
      && (callData.isInitiator ==> !showAcceptReject)
      && (showAcceptReject ==> localStream.None?)
      && !effectStream
      && listening <= Listeners(callData.isInitiator)
      && (forall e :: e in sent ==> e.from == me && e.to == OtherUser(callData))
      && (callData.isInitiator ==> forall e :: e in sent ==> e.event != MakeAnswer)
    }

    /** The envelope carrying an offer to the other user. */
    function OfferTo(offer: Sdp): Envelope
    {
      Envelope(CallUser, OtherUser(callData), me, Offer(offer))
    }

    constructor (me: UserId, callData: CallData)
      ensures this.me == me && this.callData == callData
      ensures pc.None? && queue == [] && status == Connecting
      ensures showAcceptReject == !callData.isInitiator
      ensures localStream.None? && !isMuted && !isVideoOff
      ensures timeouts == [] && !effectStream && endCallRequests == 0 && listening == {}
      ensures connectionsCreated == 0 && sent == []
      ensures Valid()
    {
      this.me := me;
      this.callData := callData;
      pc := None;
      queue := [];
      status := Connecting;
      showAcceptReject := !callData.isInitiator;
      localStream := None;
      isMuted := false;
      isVideoOff := false;
      timeouts := [];
      effectStream := false;
      endCallRequests := 0;
      listening := {};
      connectionsCreated := 0;
      sent := [];
    }

    /** The effects that run at mount install their listeners (corrected version:
        not gated on the connection). */
    method MountEffects()
      requires Valid()
      modifies this`listening
      ensures Valid()
      ensures listening == Listeners(callData.isInitiator)
    {
      listening := Listeners(callData.isInitiator);
    }

    /** The same effects as written: the offer, answer and candidate listeners are
        installed only if a connection exists at that moment. */
    method MountEffectsAsWritten()
      requires Valid()
      modifies this`listening
      ensures Valid()
      ensures listening == ListenersAsWritten(callData.isInitiator, pc.Some?)
    {
      listening := ListenersAsWritten(callData.isInitiator, pc.Some?);
      ListenersAsWrittenWithinIntended(callData.isInitiator, pc.Some?);
    }

    /** Returns the existing connection unchanged, or creates exactly one. */
    method InitializePeerConnection() returns (p: Peer)
      requires Valid()
      modifies this`pc, this`connectionsCreated
      ensures Valid()
      ensures pc == Some(p) && p == Ensured(old(pc))
      ensures old(pc).Some? ==> pc == old(pc) && connectionsCreated == old(connectionsCreated)
      ensures old(pc).None? ==> p == FreshPeer && connectionsCreated == old(connectionsCreated) + 1
    {
      if pc.Some? {
        return pc.value;
      }
      p := FreshPeer;
      pc := Some(p);
      connectionsCreated := connectionsCreated + 1;
    }

    /** The connection's icecandidate listener for a locally gathered candidate
        (None: gathering complete). */
    method OnIceCandidate(c: Option<Candidate>)
      requires Valid() && pc.Some?
      modifies this`queue, this`sent
      ensures Valid()
      ensures c.None? ==> queue == old(queue) && sent == old(sent)
      ensures c.Some? && pc.value.remote.Some? ==>
        queue == old(queue) && sent == old(sent) + [Envelope(IceCandidateEvent, OtherUser(callData), me, IceCandidate(c.value))]
      ensures c.Some? && pc.value.remote.None? ==> queue == old(queue) + [c.value] && sent == old(sent)
    {
      if c.Some? {
        if pc.value.remote.Some? {
          sent := sent + [Envelope(IceCandidateEvent, OtherUser(callData), me, IceCandidate(c.value))];
        } else {
          queue := queue + [c.value];
        }
      }
    }

    /** Drains the queue into the connection, front to back; an apply that throws is
        caught and the loop goes on. A no-op without a connection or without a remote
        description. */
    method ProcessQueuedCandidates(failed: set<nat>)
      modifies this`pc, this`queue
      ensures old(pc).None? || old(pc).value.remote.None? ==> pc == old(pc) && queue == old(queue)
      ensures old(pc).Some? && old(pc).value.remote.Some? ==>
        queue == [] && pc == Some(old(pc).value.(applied := old(pc).value.applied + Accepted(old(queue), failed)))
    {
      if pc.None? || pc.value.remote.None? {
        return;
      }
      ghost var q0 := queue;
      ghost var p0 := pc.value;
      var i := 0;
      assert q0[..0] == [] && p0.applied + [] == p0.applied;
      while queue != []
        invariant i <= |q0|
        invariant queue == q0[i..]
        invariant pc.Some? && pc.value == p0.(applied := pc.value.applied)
        invariant pc.value.applied == p0.applied + Accepted(q0[..i], failed)
        decreases |queue|
      {
        var candidate := queue[0];
        queue := queue[1..];
        assert q0[..i + 1][..i] == q0[..i];
        if i !in failed {
          pc := Some(pc.value.(applied := pc.value.applied + [candidate]));
        } else {
          assert Accepted(q0[..i + 1], failed) == Accepted(q0[..i], failed) + [];
        }
        i := i + 1;
      }
      assert q0[..i] == q0;
    }

    /** ICE restart: refused without an open connection; otherwise a new offer
        replaces the local description and is sent to the other user. A failure in
        createOffer or setLocalDescription is caught and changes nothing. */
    method RestartIce(offer: Sdp, ok: bool)
      requires Valid()
      modifies this`pc, this`sent
      ensures Valid()
      ensures !RestartGoesAhead(old(pc), ok) ==> pc == old(pc) && sent == old(sent)
      ensures RestartGoesAhead(old(pc), ok) ==>
        pc == Some(old(pc).value.(local := Some(offer))) && sent == old(sent) + [OfferTo(offer)]
    {
      if pc.None? || pc.value.closed {
        return;
      }
      if ok {
        pc := Some(pc.value.(local := Some(offer)));
        sent := sent + [OfferTo(offer)];
      }
    }

    /** The connectionstatechange listener. */
    method ConnectionStateChanged(s: ConnectionState, offer: Sdp, ok: bool)
      requires Valid() && pc.Some?
      modifies this`status, this`pc, this`sent
      ensures Valid()
      ensures ConnectionReaction(s) == MarkConnected ==> status == Connected && pc == old(pc) && sent == old(sent)
      ensures ConnectionReaction(s) == Ignore ==> status == old(status) && pc == old(pc) && sent == old(sent)
      ensures ConnectionReaction(s) == Restart && !RestartGoesAhead(old(pc), ok) ==>
        status == old(status) && pc == old(pc) && sent == old(sent)
      ensures ConnectionReaction(s) == Restart && RestartGoesAhead(old(pc), ok) ==>
        status == old(status) && pc == Some(old(pc).value.(local := Some(offer))) && sent == old(sent) + [OfferTo(offer)]
    {
      var reaction := ConnectionReaction(s);
      if reaction == MarkConnected {
        status := Connected;
      } else if reaction == Restart {
        RestartIce(offer, ok);
      }
    }

    /** The iceconnectionstatechange listener. */
    method IceConnectionStateChanged(s: IceConnectionState, offer: Sdp, ok: bool)
      requires Valid() && pc.Some?
      modifies this`status, this`pc, this`sent
      ensures Valid()
      ensures IceReaction(s) == MarkConnected ==> status == Connected && pc == old(pc) && sent == old(sent)
      ensures IceReaction(s) == Ignore ==> status == old(status) && pc == old(pc) && sent == old(sent)
      ensures IceReaction(s) == Restart && !RestartGoesAhead(old(pc), ok) ==>
        status == old(status) && pc == old(pc) && sent == old(sent)
      ensures IceReaction(s) == Restart && RestartGoesAhead(old(pc), ok) ==>
        status == old(status) && pc == Some(old(pc).value.(local := Some(offer))) && sent == old(sent) + [OfferTo(offer)]
    {
      var reaction := IceReaction(s);
      if reaction == MarkConnected {
        status := Connected;
      } else if reaction == Restart {
        RestartIce(offer, ok);
      }
    }

    /** initializeMedia from its getUserMedia await on. `captured` is the call
        status of the render whose effect started it, which the 30 s timer reads.
        Attaches the tracks to the (possibly new) connection and, for the initiator
        only, creates, sets and sends the first offer; then arms the timer. Any
        failure sets the status to error. */
    method ResumeMedia(captured: CallStatus, mediaOk: bool, offer: Sdp, offerOk: bool)
      requires Valid() && !showAcceptReject
      modifies this`status, this`localStream, this`pc, this`connectionsCreated, this`sent, this`timeouts
      ensures Valid()
      ensures !mediaOk ==>
        && status == Error && localStream == old(localStream) && pc == old(pc)
        && connectionsCreated == old(connectionsCreated) && sent == old(sent) && timeouts == old(timeouts)
      ensures mediaOk ==>
        && localStream == Some(LiveStream)
        && connectionsCreated == old(connectionsCreated) + (if old(pc).None? then 1 else 0)
      ensures mediaOk && callData.isInitiator && offerOk ==>
        && pc == Some(Ensured(old(pc)).(tracks := Ensured(old(pc)).tracks + TracksPerStream, local := Some(offer)))
        && sent == old(sent) + [OfferTo(offer)]
        && status == old(status) && timeouts == old(timeouts) + [captured]
      ensures mediaOk && callData.isInitiator && !offerOk ==>
        && pc == Some(Ensured(old(pc)).(tracks := Ensured(old(pc)).tracks + TracksPerStream))
        && sent == old(sent) && status == Error && timeouts == old(timeouts)
      ensures mediaOk && !callData.isInitiator ==>
        && pc == Some(Ensured(old(pc)).(tracks := Ensured(old(pc)).tracks + TracksPerStream))
        && sent == old(sent) && status == old(status) && timeouts == old(timeouts) + [captured]
    {
      if !mediaOk {
        status := Error;
        return;
      }
      localStream := Some(LiveStream);
      var p := InitializePeerConnection();
      pc := Some(p.(tracks := p.tracks + TracksPerStream));
      if callData.isInitiator {
        if !offerOk {
          status := Error;
          return;
        }
        pc := Some(pc.value.(local := Some(offer)));
        sent := sent + [OfferTo(offer)];
      }
      timeouts := timeouts + [captured];
    }

    /** initializeMedia run with nothing in between: the timer captures the status
        at the start. */
    method InitializeMedia(mediaOk: bool, offer: Sdp, offerOk: bool)
      requires Valid() && !showAcceptReject
      modifies this`status, this`localStream, this`pc, this`connectionsCreated, this`sent, this`timeouts
      ensures Valid()
      ensures !mediaOk ==>
        && status == Error && localStream == old(localStream) && pc == old(pc)
        && connectionsCreated == old(connectionsCreated) && sent == old(sent) && timeouts == old(timeouts)
      ensures mediaOk ==>
        && localStream == Some(LiveStream)
        && connectionsCreated == old(connectionsCreated) + (if old(pc).None? then 1 else 0)
      ensures mediaOk && callData.isInitiator && offerOk ==>
        && pc == Some(Ensured(old(pc)).(tracks := Ensured(old(pc)).tracks + TracksPerStream, local := Some(offer)))
        && sent == old(sent) + [OfferTo(offer)]
        && status == old(status) && timeouts == old(timeouts) + [old(status)]
      ensures mediaOk && callData.isInitiator && !offerOk ==>
        && pc == Some(Ensured(old(pc)).(tracks := Ensured(old(pc)).tracks + TracksPerStream))
        && sent == old(sent) && status == Error && timeouts == old(timeouts)
      ensures mediaOk && !callData.isInitiator ==>
        && pc == Some(Ensured(old(pc)).(tracks := Ensured(old(pc)).tracks + TracksPerStream))
        && sent == old(sent) && status == old(status) && timeouts == old(timeouts) + [old(status)]
    {
      ResumeMedia(status, mediaOk, offer, offerOk);
    }

    /** The oldest pending 30 s timer fires: it restarts ICE when the status it
        captured was connecting and a connection exists. */
    method TimeoutFires(offer: Sdp, ok: bool)
      requires Valid() && timeouts != []
      modifies this`timeouts, this`pc, this`sent
      ensures Valid()
      ensures timeouts == old(timeouts)[1..]
      ensures !(old(timeouts)[0] == Connecting && RestartGoesAhead(old(pc), ok)) ==> pc == old(pc) && sent == old(sent)
      ensures old(timeouts)[0] == Connecting && RestartGoesAhead(old(pc), ok) ==>
        pc == Some(old(pc).value.(local := Some(offer))) && sent == old(sent) + [OfferTo(offer)]
    {
      var captured := timeouts[0];
      timeouts := timeouts[1..];
      if captured == Connecting && pc.Some? {
        RestartIce(offer, ok);
      }
    }

    /** The media effect's cleanup: closes and forgets the connection, and would
        stop the tracks of the stream its closure captured. That closure belongs to
        the render that installed the effect, and no such render holds a stream
        (`effectStream` is false by the invariant), so no track is stopped. The
        queue is kept. */
    method Cleanup()
      requires Valid()
      modifies this`pc
      ensures Valid()
      ensures pc.None? && localStream == old(localStream)
    {
      pc := None;
      if effectStream {
        assert false;
      }
    }

    /** Cleanup as intended: the connection is forgotten and whatever local stream
        is held now is stopped, so the camera and microphone are released on every
        exit. */
    method ReleasingCleanup()
      requires Valid()
      modifies this`pc, this`localStream
      ensures Valid()
      ensures pc.None?
      ensures localStream == (if old(localStream).Some? then Some(old(localStream).value.(live := false)) else None)
    {
      pc := None;
      if localStream.Some? {
        localStream := Some(localStream.value.(live := false));
      }
    }

    /** Sets `offer` as remote description, drains the queue, then creates and sets
        an answer and sends it to the other user; `ok` is false when a step threw.
        Shared by the offer listener and by accepting from the prompt. */
    method AnswerOffer(offer: Sdp, setOk: bool, failed: set<nat>, answer: Sdp, answerOk: bool) returns (ok: bool)
      requires Valid() && pc.Some? && !callData.isInitiator
      modifies this`pc, this`queue, this`sent
      ensures Valid()
      ensures ok == (setOk && answerOk)
      ensures !setOk ==> pc == old(pc) && queue == old(queue) && sent == old(sent)
      ensures setOk ==>
        && queue == []
        && pc == Some(old(pc).value.(
             remote := Some(offer),
             applied := old(pc).value.applied + Accepted(old(queue), failed),
             local := if answerOk then Some(answer) else old(pc).value.local))
        && sent == old(sent) + (if answerOk then [Envelope(MakeAnswer, OtherUser(callData), me, Answer(answer))] else [])
    {
      if !setOk {
        return false;
      }
      pc := Some(pc.value.(remote := Some(offer)));
      ProcessQueuedCandidates(failed);
      if !answerOk {
        return false;
      }
      pc := Some(pc.value.(local := Some(answer)));
      sent := sent + [Envelope(MakeAnswer, OtherUser(callData), me, Answer(answer))];
      ok := true;
    }

    /** An offer from the other user reaches the responder: it becomes the remote
        description, the queue is drained and an answer is created, set and sent.
        Offers from anyone else are ignored; errors are caught and logged. */
    method HandleCallOffer(from: UserId, offer: Sdp, setOk: bool, failed: set<nat>, answer: Sdp, answerOk: bool)
      requires Valid() && CallMade in listening
      modifies this`pc, this`queue, this`sent
      ensures Valid()
      ensures Some(from) != OtherUser(callData) || old(pc).None? || !setOk ==>
        pc == old(pc) && queue == old(queue) && sent == old(sent)
      ensures Some(from) == OtherUser(callData) && old(pc).Some? && setOk ==>
        && queue == []
        && pc == Some(old(pc).value.(
             remote := Some(offer),
             applied := old(pc).value.applied + Accepted(old(queue), failed),
             local := if answerOk then Some(answer) else old(pc).value.local))
        && sent == old(sent) + (if answerOk then [Envelope(MakeAnswer, OtherUser(callData), me, Answer(answer))] else [])
    {
      if Some(from) != OtherUser(callData) || pc.None? {
        return;
      }
      var _ := AnswerOffer(offer, setOk, failed, answer, answerOk);
    }

    /** The callee's answer reaches the initiator: it becomes the remote description
        and the queue is drained. */
    method HandleAnswer(from: UserId, answer: Sdp, setOk: bool, failed: set<nat>)
      requires Valid() && AnswerMade in listening
      modifies this`pc, this`queue
      ensures Valid()
      ensures Some(from) != OtherUser(callData) || old(pc).None? || !setOk ==>
        pc == old(pc) && queue == old(queue)
      ensures Some(from) == OtherUser(callData) && old(pc).Some? && setOk ==>
        && queue == []
        && pc == Some(old(pc).value.(
             remote := Some(answer),
             applied := old(pc).value.applied + Accepted(old(queue), failed)))
    {
      if Some(from) != OtherUser(callData) || pc.None? || !setOk {
        return;
      }
      pc := Some(pc.value.(remote := Some(answer)));
      ProcessQueuedCandidates(failed);
    }

    /** A candidate from the other user: applied at once when a remote description
        exists, queued otherwise; dropped when it is from someone else, empty, or
        arrives while there is no connection (the null dereference is caught). */
    method HandleIceCandidate(from: UserId, candidate: Option<Candidate>, addOk: bool)
      requires Valid() && IceCandidateIn in listening
      modifies this`pc, this`queue
      ensures Valid()
      ensures Some(from) != OtherUser(callData) || candidate.None? || old(pc).None? ==>
        pc == old(pc) && queue == old(queue)
      ensures Some(from) == OtherUser(callData) && candidate.Some? && old(pc).Some? && old(pc).value.remote.Some? ==>
        && queue == old(queue)
        && pc == Some(old(pc).value.(applied := old(pc).value.applied + (if addOk then [candidate.value] else [])))
      ensures Some(from) == OtherUser(callData) && candidate.Some? && old(pc).Some? && old(pc).value.remote.None? ==>
        queue == old(queue) + [candidate.value] && pc == old(pc)
    {
      if Some(from) != OtherUser(callData) || candidate.None? || pc.None? {
        return;
      }
      if pc.value.remote.Some? {
        if addOk {
          pc := Some(pc.value.(applied := pc.value.applied + [candidate.value]));
        } else {
          assert pc.value.applied + [] == pc.value.applied;
        }
      } else {
        queue := queue + [candidate.value];
      }
    }

    /** The other user rejected the call. */
    method HandleCallRejected(from: UserId)
      requires Valid() && CallRejected in listening
      modifies this`status, this`endCallRequests
      ensures Valid()
      ensures Some(from) == OtherUser(callData) ==> status == Rejected && endCallRequests == old(endCallRequests) + 1
      ensures Some(from) != OtherUser(callData) ==> status == old(status) && endCallRequests == old(endCallRequests)
    {
      if Some(from) == OtherUser(callData) {
        status := Rejected;
        endCallRequests := endCallRequests + 1;
      }
    }

    /** The other user ended the call. */
    method HandleCallEnded(from: UserId)
      requires Valid() && CallEnded in listening
      modifies this`status, this`endCallRequests
      ensures Valid()
      ensures Some(from) == OtherUser(callData) ==> status == Ended && endCallRequests == old(endCallRequests) + 1
      ensures Some(from) != OtherUser(callData) ==> status == old(status) && endCallRequests == old(endCallRequests)
    {
      if Some(from) == OtherUser(callData) {
        status := Ended;
        endCallRequests := endCallRequests + 1;
      }
    }

    /** Accepting from the prompt, up to its getUserMedia await: the prompt is
        hidden, the status is connecting and a connection exists (the source's
        "failed to create" check after this cannot fire). */
    method BeginAcceptCall()
      requires Valid() && showAcceptReject
      modifies this`showAcceptReject, this`status, this`pc, this`connectionsCreated, this`effectStream
      ensures Valid() && !showAcceptReject && status == Connecting
      ensures effectStream == old(localStream).Some?
      ensures pc == Some(Ensured(old(pc)))
      ensures connectionsCreated == old(connectionsCreated) + (if old(pc).None? then 1 else 0)
    {
      showAcceptReject := false;
      status := Connecting;
      effectStream := localStream.Some?;
      var _ := InitializePeerConnection();
    }

    /** Accepting from the prompt, from its media step on. `hadStream` is whether
        the handler's closure held a local stream; without one, the camera and
        microphone are acquired. The tracks go to whatever connection the ref holds
        now: when it is null the dereference throws. With a stored offer, the offer
        is answered. Any thrown error sets the status to error. */
    method ResumeAcceptCall(hadStream: bool, mediaOk: bool, setOk: bool, failed: set<nat>, answer: Sdp, answerOk: bool)
      requires Valid() && !callData.isInitiator && !showAcceptReject
      modifies this`status, this`pc, this`localStream, this`queue, this`sent
      ensures Valid()
      ensures localStream == (if hadStream || !mediaOk then old(localStream) else Some(LiveStream))
      ensures !hadStream && !mediaOk ==>
        status == Error && pc == old(pc) && queue == old(queue) && sent == old(sent)
      ensures (hadStream || mediaOk) && old(pc).None? ==>
        status == Error && pc.None? && queue == old(queue) && sent == old(sent)
      ensures (hadStream || mediaOk) && old(pc).Some? && (callData.offer.None? || !setOk) ==>
        && status == (if callData.offer.None? then old(status) else Error)
        && queue == old(queue) && sent == old(sent)
        && pc == Some(old(pc).value.(tracks := old(pc).value.tracks + TracksPerStream))
      ensures (hadStream || mediaOk) && old(pc).Some? && callData.offer.Some? && setOk ==>
        && queue == []
        && pc == Some(old(pc).value.(
             tracks := old(pc).value.tracks + TracksPerStream,
             remote := callData.offer,
             applied := old(pc).value.applied + Accepted(old(queue), failed),
             local := if answerOk then Some(answer) else old(pc).value.local))
        && status == (if answerOk then old(status) else Error)
        && sent == old(sent) + (if answerOk then [Envelope(MakeAnswer, callData.caller, me, Answer(answer))] else [])
    {
      if !hadStream {
        if !mediaOk {
          status := Error;
          return;
        }
        localStream := Some(LiveStream);
      }
      if pc.None? {
        status := Error;
        return;
      }
      pc := Some(pc.value.(tracks := pc.value.tracks + TracksPerStream));
      if callData.offer.Some? {
        var answered := AnswerOffer(callData.offer.value, setOk, failed, answer, answerOk);
        if !answered {
          status := Error;
        }
      }
    }

    /** The responder accepts from the prompt, the handler running to completion
        with nothing in between: hide the prompt, make sure a connection exists,
        acquire media unless a stream is already held, attach its tracks and, when
        an offer is stored, set it as remote description, drain the queue and send
        one answer to the caller. Any thrown error sets the status to error. */
    method HandleAcceptCall(mediaOk: bool, setOk: bool, failed: set<nat>, answer: Sdp, answerOk: bool)
      requires Valid() && showAcceptReject
      modifies this`showAcceptReject, this`status, this`pc, this`connectionsCreated, this`localStream, this`queue, this`sent, this`effectStream
      ensures Valid()
      ensures !showAcceptReject && effectStream == old(localStream).Some?
      ensures connectionsCreated == old(connectionsCreated) + (if old(pc).None? then 1 else 0)
      ensures localStream == (if old(localStream).Some? || !mediaOk then old(localStream) else Some(LiveStream))
      ensures old(localStream).None? && !mediaOk ==>
        status == Error && pc == Some(Ensured(old(pc))) && queue == old(queue) && sent == old(sent)
      ensures (old(localStream).Some? || mediaOk) && (callData.offer.None? || !setOk) ==>
        && status == (if callData.offer.None? then Connecting else Error)
        && queue == old(queue) && sent == old(sent)
        && pc == Some(Ensured(old(pc)).(tracks := Ensured(old(pc)).tracks + TracksPerStream))
      ensures (old(localStream).Some? || mediaOk) && callData.offer.Some? && setOk ==>
        && queue == []
        && pc == Some(Ensured(old(pc)).(
             tracks := Ensured(old(pc)).tracks + TracksPerStream,
             remote := callData.offer,
             applied := Ensured(old(pc)).applied + Accepted(old(queue), failed),
             local := if answerOk then Some(answer) else Ensured(old(pc)).local))
        && status == (if answerOk then Connecting else Error)
        && sent == old(sent) + (if answerOk then [Envelope(MakeAnswer, callData.caller, me, Answer(answer))] else [])
    {
      BeginAcceptCall();
      ResumeAcceptCall(localStream.Some?, mediaOk, setOk, failed, answer, answerOk);
    }

    /** Reject from the prompt: one reject-call to the other user, then onEndCall. */
    method HandleRejectCall()
      requires Valid() && showAcceptReject
      modifies this`sent, this`endCallRequests
      ensures Valid()
      ensures sent == old(sent) + [Envelope(RejectCall, OtherUser(callData), me, NoPayload)]
      ensures endCallRequests == old(endCallRequests) + 1
    {
      sent := sent + [Envelope(RejectCall, OtherUser(callData), me, NoPayload)];
      endCallRequests := endCallRequests + 1;
    }

    /** Hang up from the call view: one end-call to the other user, then onEndCall. */
    method HandleEndCall()
      requires Valid() && !showAcceptReject
      modifies this`sent, this`endCallRequests
      ensures Valid()
      ensures sent == old(sent) + [Envelope(EndCall, OtherUser(callData), me, NoPayload)]
      ensures endCallRequests == old(endCallRequests) + 1
    {
      sent := sent + [Envelope(EndCall, OtherUser(callData), me, NoPayload)];
      endCallRequests := endCallRequests + 1;
    }

    /** Flips the audio tracks and the muted flag; nothing without a local stream. */
    method ToggleMute()
      requires Valid() && !showAcceptReject
      modifies this`localStream, this`isMuted
      ensures Valid()
      ensures old(localStream).None? ==> localStream == old(localStream) && isMuted == old(isMuted)
      ensures old(localStream).Some? ==> localStream == Some(FlipAudio(old(localStream).value)) && isMuted == !old(isMuted)
    {
      if localStream.Some? {
        localStream := Some(FlipAudio(localStream.value));
        isMuted := !isMuted;
      }
    }

    /** Flips the video tracks and the video-off flag; nothing without a local stream. */
    method ToggleVideo()
      requires Valid() && !showAcceptReject
      modifies this`localStream, this`isVideoOff
      ensures Valid()
      ensures old(localStream).None? ==> localStream == old(localStream) && isVideoOff == old(isVideoOff)
      ensures old(localStream).Some? ==> localStream == Some(FlipVideo(old(localStream).value)) && isVideoOff == !old(isVideoOff)
    {
      if localStream.Some? {
        localStream := Some(FlipVideo(localStream.value));
        isVideoOff := !isVideoOff;
      }
    }
  }

  // ----- whole-call scenarios, each run on a fresh session -----

  /** Finding, as written: an initiator's component never listens for the answer or
      for candidates, because no connection exists yet when its effects run. */
  method AsWrittenInitiatorNeverHearsAnswer(me: UserId, peer: UserId) returns (heard: set<SignalEvent>)
    ensures AnswerMade !in heard && IceCandidateIn !in heard
  {
    var s := new Session(me, Outgoing(me, peer));
    s.MountEffectsAsWritten();
    heard := s.listening;
  }

  /** Finding, corrected: the initiator listens for the answer and for candidates,
      and never for offers. */
  method InitiatorHearsAnswer(me: UserId, peer: UserId) returns (heard: set<SignalEvent>)
    ensures AnswerMade in heard && IceCandidateIn in heard && CallMade !in heard
  {
    var s := new Session(me, Outgoing(me, peer));
    s.MountEffects();
    heard := s.listening;
  }

  /** Three candidates from the callee arrive before its answer: all three wait in
      the queue and are applied in their original order once the answer is set. The
      only envelope sent is the initial offer. */
  method CandidatesBeforeAnswerAreAppliedInOrder(me: UserId, peer: UserId, offer: Sdp, answer: Sdp, c1: Candidate, c2: Candidate, c3: Candidate)
    returns (applied: seq<Candidate>, sent: seq<Envelope>)
    ensures applied == [c1, c2, c3]
    ensures sent == [Envelope(CallUser, Some(peer), me, Offer(offer))]
  {
    var s := new Session(me, Outgoing(me, peer));
    s.MountEffects();
    s.InitializeMedia(true, offer, true);
    s.HandleIceCandidate(peer, Some(c1), true);
    s.HandleIceCandidate(peer, Some(c2), true);
    s.HandleIceCandidate(peer, Some(c3), true);
    assert s.queue == [c1, c2, c3];
    s.HandleAnswer(peer, answer, true, {});
    AcceptedWithoutFailures([c1, c2, c3], {});
    applied := s.pc.value.applied;
    sent := s.sent;
  }

  /** A candidate gathered locally before the answer shares the queue with remote
      ones; the drain applies it to the local connection and it is never sent. */
  method EarlyLocalCandidateIsNeverSent(me: UserId, peer: UserId, offer: Sdp, answer: Sdp, c: Candidate)
    returns (applied: seq<Candidate>, sent: seq<Envelope>)
    ensures applied == [c]
    ensures forall e :: e in sent ==> e.event != IceCandidateEvent
  {
    var s := new Session(me, Outgoing(me, peer));
    s.MountEffects();
    s.InitializeMedia(true, offer, true);
    s.OnIceCandidate(Some(c));
    s.HandleAnswer(peer, answer, true, {});
    AcceptedWithoutFailures([c], {});
    applied := s.pc.value.applied;
    sent := s.sent;
  }

  /** When the camera or microphone cannot be acquired the initiator ends in error
      and sends nothing. */
  method MediaFailureSendsNothing(me: UserId, peer: UserId, offer: Sdp)
    returns (status: CallStatus, sent: seq<Envelope>)
    ensures status == Error && sent == []
  {
    var s := new Session(me, Outgoing(me, peer));
    s.MountEffects();
    s.InitializeMedia(false, offer, true);
    status := s.status;
    sent := s.sent;
  }

  /** The responder accepts a stored offer: one answer goes to the caller. A
      candidate that arrived before accepting found no connection and was dropped;
      one arriving afterwards is applied at once. */
  method ResponderAcceptsStoredOffer(me: UserId, caller: UserId, offer: Sdp, answer: Sdp, early: Candidate, late: Candidate)
    returns (applied: seq<Candidate>, sent: seq<Envelope>, status: CallStatus)
    ensures applied == [late]
    ensures sent == [Envelope(MakeAnswer, Some(caller), me, Answer(answer))]
    ensures status == Connecting
  {
    var s := new Session(me, Incoming(caller, me, Some(offer)));
    s.MountEffects();
    s.HandleIceCandidate(caller, Some(early), true);
    s.HandleAcceptCall(true, true, {}, answer, true);
    assert s.pc.value.applied == [];
    s.HandleIceCandidate(caller, Some(late), true);
    applied := s.pc.value.applied;
    sent := s.sent;
    status := s.status;
  }

  /** Finding, as written: hiding the prompt re-runs the media effect while the
      accept handler awaits getUserMedia. Its cleanup closes and forgets the
      connection the handler created, and the effect starts a second acquisition.
      When the handler's media arrives first, it dereferences the null ref: the call
      ends in error and no answer is ever sent. The effect's media then builds a
      second connection, and its timer, which captured the connecting status of the
      render that started it, fires 30 s later and sends an offer from the
      responder to the caller. */
  method AsWrittenAcceptLosesItsConnection(me: UserId, caller: UserId, offer: Sdp, answer: Sdp, unusedOffer: Sdp, restartOffer: Sdp)
    returns (status: CallStatus, sent: seq<Envelope>, created: nat)
    ensures status == Error && created == 2
    ensures sent == [Envelope(CallUser, Some(caller), me, Offer(restartOffer))]
  {
    var s := new Session(me, Incoming(caller, me, Some(offer)));
    s.MountEffects();
    s.BeginAcceptCall();
    var effectStatus := s.status;
    s.Cleanup();
    s.ResumeAcceptCall(false, true, true, {}, answer, true);
    s.ResumeMedia(effectStatus, true, unusedOffer, true);
    s.TimeoutFires(restartOffer, true);
    status := s.status;
    sent := s.sent;
    created := s.connectionsCreated;
  }

  /** Finding, corrected: when the media effect's cleanup runs only at unmount,
      the handler keeps its connection whichever acquisition finishes first.
      Exactly one connection is created and one answer goes to the caller. */
  method AcceptKeepsItsConnection(me: UserId, caller: UserId, offer: Sdp, answer: Sdp, unusedOffer: Sdp, handlerFirst: bool)
    returns (status: CallStatus, sent: seq<Envelope>, created: nat)
    ensures status == Connecting && created == 1
    ensures sent == [Envelope(MakeAnswer, Some(caller), me, Answer(answer))]
  {
    var s := new Session(me, Incoming(caller, me, Some(offer)));
    s.MountEffects();
    s.BeginAcceptCall();
    var effectStatus := s.status;
    if handlerFirst {
      s.ResumeAcceptCall(false, true, true, {}, answer, true);
      s.ResumeMedia(effectStatus, true, unusedOffer, true);
    } else {
      s.ResumeMedia(effectStatus, true, unusedOffer, true);
      s.ResumeAcceptCall(false, true, true, {}, answer, true);
    }
    status := s.status;
    sent := s.sent;
    created := s.connectionsCreated;
  }

  /** A failed connection restarts ICE: the new offer replaces the local description
      and is the second offer sent. */
  method FailureRestartsWithNewOffer(me: UserId, peer: UserId, offer: Sdp, restartOffer: Sdp)
    returns (local: Option<Sdp>, sent: seq<Envelope>)
    ensures local == Some(restartOffer)
    ensures sent == [Envelope(CallUser, Some(peer), me, Offer(offer)), Envelope(CallUser, Some(peer), me, Offer(restartOffer))]
  {
    var s := new Session(me, Outgoing(me, peer));
    s.MountEffects();
    s.InitializeMedia(true, offer, true);
    s.ConnectionStateChanged(FailedState, restartOffer, true);
    local := s.pc.value.local;
    sent := s.sent;
  }

  /** After the cleanup has dropped the connection, the pending 30 s timer fires
      but the guarded restart sends nothing. */
  method TimeoutAfterCleanupIsSilent(me: UserId, peer: UserId, offer: Sdp, restartOffer: Sdp)
    returns (sent: seq<Envelope>)
    ensures sent == [Envelope(CallUser, Some(peer), me, Offer(offer))]
  {
    var s := new Session(me, Outgoing(me, peer));
    s.MountEffects();
    s.InitializeMedia(true, offer, true);
    s.Cleanup();
    s.TimeoutFires(restartOffer, true);
    sent := s.sent;
  }

  /** Finding, as written: the media effect's cleanup captured the local stream of
      the render that installed the effect, which is before any stream exists. So
      after the call is hung up and the view unmounts, the camera and microphone
      are still running. */
  method AsWrittenStreamOutlivesTheCall(me: UserId, peer: UserId, offer: Sdp)
    returns (stream: Option<Stream>)
    ensures stream == Some(LiveStream)
  {
    var s := new Session(me, Outgoing(me, peer));
    s.MountEffects();
    s.InitializeMedia(true, offer, true);
    s.HandleEndCall();
    s.Cleanup();
    stream := s.localStream;
  }

  /** Finding, corrected: a cleanup that stops the stream held at unmount releases
      the camera and microphone. */
  method ReleasingCleanupStopsStream(me: UserId, peer: UserId, offer: Sdp)
    returns (stream: Option<Stream>)
    ensures stream.Some? && !stream.value.live
  {
    var s := new Session(me, Outgoing(me, peer));
    s.MountEffects();
    s.InitializeMedia(true, offer, true);
    s.HandleEndCall();
    s.ReleasingCleanup();
    stream := s.localStream;
  }

  /** The 30 s timer holds the status of the render that started the media, which
      is connecting. So it restarts ICE on a call that has connected in the
      meantime: the status stays connected and a second offer is sent. */
  method ConnectedCallRestartsAtTimeout(me: UserId, peer: UserId, offer: Sdp, restartOffer: Sdp)
    returns (status: CallStatus, sent: seq<Envelope>)
    ensures status == Connected
    ensures sent == [Envelope(CallUser, Some(peer), me, Offer(offer)), Envelope(CallUser, Some(peer), me, Offer(restartOffer))]
  {
    var s := new Session(me, Outgoing(me, peer));
    s.MountEffects();
    s.InitializeMedia(true, offer, true);
    s.ConnectionStateChanged(ConnectedState, restartOffer, true);
    s.TimeoutFires(restartOffer, true);
    status := s.status;
    sent := s.sent;
  }
}
