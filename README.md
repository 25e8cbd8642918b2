# Call signaling of the chat client, modelled in Dafny

This project models the client-side call signaling of a React video-chat client.

`VideoCall` (`video_call.dfy`) is the session negotiator. It is a class `Session`
holding:

- the peer-connection handle, an abstract record `Peer` with `closed`, the remote and
  local descriptions, the attached track count and the accepted candidates;
- the pending-candidate queue;
- the call status and the accept/reject prompt flag;
- the local stream and the mute/video-off flags;
- the pending 30 s timers;
- the registered signaling listeners;
- the log of envelopes the component has emitted.

Each handler is a method. Every awaited browser call (getUserMedia,
setRemoteDescription, createOffer/createAnswer plus setLocalDescription,
addIceCandidate) is one atomic step. Its success or failure, and the description it
produces, are method parameters. The queue drain is a `while` loop proved against
the function `Accepted`, and the lemmas about `Accepted` state FIFO order,
at-most-once application and that a failed apply skips only its own candidate.
The class invariant `Session.Valid` says:

- no candidate is applied before a remote description exists;
- no candidate waits in the queue once one exists;
- no media is held while the accept prompt is shown, so the media effect's cleanup
  never captures a stream;
- everything emitted goes from this user to the other user;
- the initiator never emits an answer.

`Chat` (`chat.dfy`) is the chat component, a class `ChatView` with the contact list,
the message list, the open chat, the `callData` record and `isCallActive`. It also
has the pure user filter `WithoutUser` and its order lemmas. `Signaling`
(`signaling.dfy`) holds the shared values: envelopes, the `callData` record with its
three shapes (`NoCall`, `Outgoing`, `Incoming`) and the role-based `OtherUser`.

The socket is modelled as each component's own append-only log of emitted
envelopes `{event, to, from, payload}`. Incoming socket events are method calls.
The scenario methods at the end of each module run a fresh component through a
whole exchange and state the outcome.

The model follows the code where it departs from a textbook signaling protocol:

- There is no retry bound on ICE restarts, and no generation or session-id guard.
- Media failure sets the status to `error` and does not end the call.
- The responder may restart ICE too, and then sends a `call-user` offer.
- As written, neither side ever installs the candidate listener, the initiator never
  installs the answer listener and the responder never installs the offer listener
  (see "## Findings"). So as written the responder never receives a candidate, and
  the initiator never receives the answer that would drain its queue. The next two
  points describe the code with the corrected registration, which the scenarios
  `CandidatesBeforeAnswerAreAppliedInOrder`, `EarlyLocalCandidateIsNeverSent` and
  `ResponderAcceptsStoredOffer` use.
- Local and remote candidates share one queue. The drain applies all of them to the
  local connection, so a local candidate queued early is never sent
  (`EarlyLocalCandidateIsNeverSent`, corrected registration).
- The 30 s timer reads the status captured when media started, which is
  `connecting`. So every call whose view is still mounted after 30 s restarts ICE
  once, a connected call included (`ConnectedCallRestartsAtTimeout`).
- With the corrected registration, a candidate that reaches the responder before it
  accepts finds no connection. It is dropped, not queued (`ResponderAcceptsStoredOffer`).
- The chat component's hang-up handler is not idempotent: run a second time it sends
  another `end-call`, addressed to the null user (`HangUpTwice`). No screen runs it
  after the record has been reset, because the re-render that shows the reset record
  also removes the call view, its only caller.
- Declining reads "no caller" as a null or empty caller name, so a call from an
  empty name cannot be declined (`DeclineIncoming`). Joining likewise needs a
  non-empty name.
- One hang-up from the call view sends `end-call` to the peer twice: once from the
  call view and once from the chat component's handler, which the call view invokes
  as its end-of-call callback (`HangUpFromCallView`).

## Model

| member | source | states |
|---|---|---|
| `Signaling.OtherUserIsPeer` | src/Components/Chat/VideoCall.jsx:16 | for both roles the other user is the peer, and it is null for the reset record |
| `VideoCall.ConnectionReaction` | src/Components/Chat/VideoCall.jsx:49-56 | connected marks the call connected iff the state is connected; a restart happens iff the state is failed or disconnected |
| `VideoCall.IceReaction` | src/Components/Chat/VideoCall.jsx:58-65 | connected/completed mark the call connected; only failed restarts, disconnected is ignored |
| `VideoCall.Accepted` | src/Components/Chat/VideoCall.jsx:172-180 | the drain never applies more candidates than were queued |
| `VideoCall.AcceptedWithoutFailures` | src/Components/Chat/VideoCall.jsx:172-180 | with no failing apply, the drain applies exactly the queue, once each, in FIFO order |
| `VideoCall.AcceptedSkipsOne` | src/Components/Chat/VideoCall.jsx:174-179 | a failed apply is caught and drops only its own candidate; the rest are still applied in order |
| `VideoCall.AcceptedAtMostOnce` | src/Components/Chat/VideoCall.jsx:172-175 | no candidate is applied more often than it was queued |
| `VideoCall.AcceptedAppend` | src/Components/Chat/VideoCall.jsx:172-173 | FIFO: what survives of earlier-queued candidates is applied before what survives of later ones |
| `VideoCall.ListenersAsWritten` | src/Components/Chat/VideoCall.jsx:226-319 | the offer, answer and candidate listeners are installed iff a connection exists when the effect runs (role-filtered); reject/end always |
| `VideoCall.Listeners` | src/Components/Chat/VideoCall.jsx:226-346 | intended listeners: offers iff responder, answers iff initiator, candidates, rejection and ending always |
| `VideoCall.ListenersAsWrittenWithinIntended` | src/Components/Chat/VideoCall.jsx:226-319 | the as-written set is within the intended one and equals it iff a connection exists |
| `VideoCall.Session.constructor` | src/Components/Chat/VideoCall.jsx:4-16 | mount state: no connection, empty queue, status connecting, prompt shown iff responder, nothing sent |
| `VideoCall.Session.MountEffects` | src/Components/Chat/VideoCall.jsx:226-346 | the mount effects install the intended listeners for the session's role |
| `VideoCall.Session.MountEffectsAsWritten` | src/Components/Chat/VideoCall.jsx:226-319 | the mount effects install listeners gated on the connection existing at that moment |
| `VideoCall.Session.InitializePeerConnection` | src/Components/Chat/VideoCall.jsx:19-47 | idempotent: an existing connection is returned unchanged and none is created; otherwise exactly one new connection |
| `VideoCall.Session.OnIceCandidate` | src/Components/Chat/VideoCall.jsx:72-90 | a local candidate is sent once as `ice-candidate` to the other user iff a remote description exists, else queued; end-of-gathering changes nothing |
| `VideoCall.Session.ProcessQueuedCandidates` | src/Components/Chat/VideoCall.jsx:167-181 | no-op without a connection or remote description; otherwise the queue is emptied and `Accepted(queue)` is appended to the applied candidates |
| `VideoCall.Session.RestartIce` | src/Components/Chat/VideoCall.jsx:203-223 | refused when the connection is null or closed; otherwise the new offer replaces the local description and one `call-user` is sent |
| `VideoCall.Session.ConnectionStateChanged` | src/Components/Chat/VideoCall.jsx:49-56 | connected sets status connected; failed/disconnected run the guarded restart; other states change nothing |
| `VideoCall.Session.IceConnectionStateChanged` | src/Components/Chat/VideoCall.jsx:58-65 | connected/completed set status connected; failed runs the guarded restart; others change nothing |
| `VideoCall.Session.InitializeMedia` | src/Components/Chat/VideoCall.jsx:117-164 | only once the prompt is hidden; run with nothing in between: media failure gives status error with nothing sent; otherwise tracks are attached to the (possibly new) connection, only the initiator sets and sends the first offer, and a timer is armed holding the status at the start |
| `VideoCall.Session.ResumeMedia` | src/Components/Chat/VideoCall.jsx:120-163 | only once the prompt is hidden; from the media await on: as `InitializeMedia`, but the timer holds the status of the render that started the effect, not the status when media arrives |
| `VideoCall.Session.TimeoutFires` | src/Components/Chat/VideoCall.jsx:153-158 | the oldest timer restarts ICE only if its captured status was connecting and a connection exists |
| `VideoCall.Session.Cleanup` | src/Components/Chat/VideoCall.jsx:189-199 | the connection is dropped and the queue kept; no track is stopped, because the render that installed the effect never holds a stream (`Session.Valid`) |
| `VideoCall.Session.ReleasingCleanup` | src/Components/Chat/VideoCall.jsx:189-199 | corrected cleanup: the connection is dropped and the stream held now, if any, is stopped |
| `VideoCall.Session.AnswerOffer` | src/Components/Chat/VideoCall.jsx:233-247 | set remote, drain, then one `make-answer` to the other user; failures leave the state as it was after the last successful step |
| `VideoCall.Session.HandleCallOffer` | src/Components/Chat/VideoCall.jsx:229-254 | an offer from the other user becomes the remote description, the queue is drained and one answer sent; offers from others or without a connection change nothing |
| `VideoCall.Session.HandleAnswer` | src/Components/Chat/VideoCall.jsx:267-282 | an answer from the other user becomes the remote description and the queue is drained; otherwise nothing changes |
| `VideoCall.Session.HandleIceCandidate` | src/Components/Chat/VideoCall.jsx:295-312 | from someone else or empty: nothing; with remote description: applied at once, queue unchanged; without: appended to the queue, nothing applied |
| `VideoCall.Session.HandleCallRejected` | src/Components/Chat/VideoCall.jsx:325-330 | a rejection from the other user sets status rejected and calls onEndCall once; others are ignored |
| `VideoCall.Session.HandleCallEnded` | src/Components/Chat/VideoCall.jsx:332-337 | an end from the other user sets status ended and calls onEndCall once; others are ignored |
| `VideoCall.Session.BeginAcceptCall` | src/Components/Chat/VideoCall.jsx:351-364 | accepting up to the media await: prompt hidden, status connecting, a connection exists, at most one created; the media effect re-installed in the next render captures the stream held now |
| `VideoCall.Session.ResumeAcceptCall` | src/Components/Chat/VideoCall.jsx:366-412 | from the media await on: acquisition failure gives error; a null ref at the track step gives error with nothing sent; otherwise tracks added and the stored offer answered with one `make-answer` to the caller; any failure gives error |
| `VideoCall.Session.HandleAcceptCall` | src/Components/Chat/VideoCall.jsx:350-413 | run without interleaving: prompt hidden, status connecting, one connection at most created; with a stored offer: remote set, queue drained, exactly one `make-answer` to the caller; no offer: nothing sent; any failure: status error |
| `VideoCall.Session.HandleRejectCall` | src/Components/Chat/VideoCall.jsx:416-422 | one `reject-call` to the other user, then onEndCall |
| `VideoCall.Session.HandleEndCall` | src/Components/Chat/VideoCall.jsx:425-431 | one `end-call` to the other user, then onEndCall |
| `VideoCall.Session.ToggleMute` | src/Components/Chat/VideoCall.jsx:434-441 | with a stream, audio tracks and the muted flag flip; without, nothing changes |
| `VideoCall.Session.ToggleVideo` | src/Components/Chat/VideoCall.jsx:443-450 | with a stream, video tracks and the video-off flag flip; without, nothing changes |
| `VideoCall.AsWrittenInitiatorNeverHearsAnswer` | src/Components/Chat/VideoCall.jsx:184-293 | as written, a mounted initiator listens for neither the answer nor candidates |
| `VideoCall.InitiatorHearsAnswer` | src/Components/Chat/VideoCall.jsx:264-289 | with the corrected registration the initiator listens for answers and candidates, never for offers |
| `VideoCall.CandidatesBeforeAnswerAreAppliedInOrder` | src/Components/Chat/VideoCall.jsx:267-307 | (corrected registration) three candidates arriving before the answer are queued and then applied in their original order; only the offer is sent |
| `VideoCall.EarlyLocalCandidateIsNeverSent` | src/Components/Chat/VideoCall.jsx:77-86 | (corrected registration) a local candidate gathered before the answer is applied to the local connection by the drain and never sent |
| `VideoCall.MediaFailureSendsNothing` | src/Components/Chat/VideoCall.jsx:160-163 | media failure leaves status error and nothing sent |
| `VideoCall.ResponderAcceptsStoredOffer` | src/Components/Chat/VideoCall.jsx:350-412 | (corrected registration, handler run without interleaving) accepting sends exactly one answer to the caller; a candidate before accepting is dropped, one after is applied |
| `VideoCall.FailureRestartsWithNewOffer` | src/Components/Chat/VideoCall.jsx:53-55 | a failed connection sends a second offer, which replaces the local description |
| `VideoCall.AsWrittenAcceptLosesItsConnection` | src/Components/Chat/VideoCall.jsx:184-200 | as written, when the accept handler's media arrives after the effect cleanup: status error, two connections created, no answer sent; 30 s later the second connection's timer, holding the connecting status, sends one `call-user` offer from the responder to the caller |
| `VideoCall.AcceptKeepsItsConnection` | src/Components/Chat/VideoCall.jsx:350-412 | without the cleanup on prompt hiding, in either completion order: one connection, one answer to the caller, status connecting |
| `VideoCall.AsWrittenStreamOutlivesTheCall` | src/Components/Chat/VideoCall.jsx:184-199 | as written, after hanging up and unmounting, the local stream is still live (for either role, by `Session.Valid`) |
| `VideoCall.ReleasingCleanupStopsStream` | src/Components/Chat/VideoCall.jsx:189-199 | with the corrected cleanup, the stream is stopped at unmount |
| `VideoCall.ConnectedCallRestartsAtTimeout` | src/Components/Chat/VideoCall.jsx:153-158 | a call that connected before its 30 s timer fires still restarts ICE: status connected, a second `call-user` sent |
| `VideoCall.TimeoutAfterCleanupIsSilent` | src/Components/Chat/VideoCall.jsx:153-158 | after cleanup the timer's restart is refused and nothing more is sent |
| `Chat.WithoutUser` | src/Components/Chat/Chat.jsx:52 | a user is kept iff it was fetched and is not the current user |
| `Chat.WithoutUserConcat` | src/Components/Chat/Chat.jsx:52 | the filter keeps the original order (it distributes over concatenation) |
| `Chat.WithoutUserKeepsOthers` | src/Components/Chat/Chat.jsx:52 | a list without the current user is unchanged |
| `Chat.WithoutUserIdempotent` | src/Components/Chat/Chat.jsx:52 | filtering twice is filtering once |
| `Chat.ChatView.constructor` | src/Components/Chat/Chat.jsx:13-24 | initial state: no users, no messages, no chat, idle call record |
| `Chat.ChatView.Connect` | src/Components/Chat/Chat.jsx:32-44 | the socket is set; `join` is emitted iff the username is non-empty |
| `Chat.ChatView.LoadUsers` | src/Components/Chat/Chat.jsx:47-60 | the contact list becomes the fetched users without the current user; a failed fetch changes nothing |
| `Chat.ChatView.HandleChatSelect` | src/Components/Chat/Chat.jsx:146-148 | the selected user becomes the open chat |
| `Chat.ChatView.LoadMessages` | src/Components/Chat/Chat.jsx:126-139 | with an open chat the fetched history replaces the list; otherwise nothing changes |
| `Chat.ChatView.OnReceiveMessage` | src/Components/Chat/Chat.jsx:66-70 | appended at the end iff a chat is open and the message's sender or receiver is that chat's user |
| `Chat.ChatView.HandleSendMessage` | src/Components/Chat/Chat.jsx:150-170 | without socket or chat nothing; else one `sendMessage` and exactly one unread message from self to the chat appended, earlier ones unchanged |
| `Chat.ChatView.OnCallMade` | src/Components/Chat/Chat.jsx:73-81 | the record becomes `{receiving, not initiator, caller: sender, callee: self, offer}` |
| `Chat.ChatView.OnCallRejected` | src/Components/Chat/Chat.jsx:93-102 | call inactive and record reset |
| `Chat.ChatView.OnCallEnded` | src/Components/Chat/Chat.jsx:104-113 | call inactive and record reset |
| `Chat.ChatView.HandleStartCall` | src/Components/Chat/Chat.jsx:172-183 | no chat: nothing; else call active with the initiator record, caller self, callee the chat, no offer |
| `Chat.ChatView.HandleAcceptCall` | src/Components/Chat/Chat.jsx:185-187 | the call becomes active; a ringing call becomes an answered one |
| `Chat.ChatView.HandleRejectCall` | src/Components/Chat/Chat.jsx:189-204 | without socket, or with a null or empty caller, nothing; else one `reject-call` to the caller and the record reset, `isCallActive` untouched |
| `Chat.ChatView.HandleEndCall` | src/Components/Chat/Chat.jsx:206-224 | one `end-call` to the callee if initiator else the caller, then inactive and reset |
| `Chat.HangUpTwice` | src/Components/Chat/Chat.jsx:206-224 | the handler run a second time sends another `end-call`, addressed to the null user |
| `Chat.HangUpFromCallView` | src/Components/Chat/VideoCall.jsx:425-431 | one hang-up from the call view sends two `end-call`s to the peer, one from each component |
| `Chat.DeclineIncoming` | src/Components/Chat/Chat.jsx:189-204 | an incoming call declined sends one `reject-call` to the caller and returns to idle; from an empty caller name nothing is sent and it keeps ringing |

## Left out

- RTCPeerConnection, RTCSessionDescription, RTCIceCandidate, MediaStream and getUserMedia are abstract: descriptions and candidates are opaque values, outcomes are parameters.
- The ICE server configuration (`VideoCall.jsx:26-43`) has no effect on the model.
- The remote-track listener and all `<video>` wiring (`VideoCall.jsx:93-111`) are rendering.
- Socket.io transport and the server relay are not part of this model. Each component's log holds only its own emits; the two logs are not merged.
- The onEndCall callback from the video call to the chat component is counted (`endCallRequests`), not executed. The two classes are composed only in `HangUpFromCallView`.
- Real time and async interleaving are left out. Each handler runs to completion, and a timer firing is an explicit event.
- Races between an awaiting handler and an effect cleanup are modelled only for accepting (`AsWrittenAcceptLosesItsConnection`).
- `VideoCall.Session.HandleAcceptCall`: its contract describes the handler run with nothing in between. In the source, hiding the prompt always re-runs the media effect while the handler awaits getUserMedia. The effect cleanup then closes and forgets the handler's connection, and the effect acquires media again and creates a second connection and a second timer. If the handler's media arrives first, the track step dereferences the null ref, the status becomes error and no `make-answer` is sent. If the effect's media arrives first, the answer goes out on the second connection. See "## Findings".
- The drain started with `processQueuedCandidates()` is not awaited in the source. The model completes it before the rest of the handler.
- `VideoCall.Session.Cleanup`: the stream whose tracks are stopped is the value captured when the effect was installed. The model keeps only whether that render held a stream (`effectStream`). `Session.Valid` proves it never does, so as written no track is ever stopped (see "## Findings").
- The server-supplied message timestamp and id, and the local `Date` values, are left out of `Message`.
- Logout, the login and register forms, the sidebar, the message list, the message input and the demo app have no call-signaling logic.
- The empty `answer-made` and `ice-candidate` listeners of the chat component have no behaviour.
- Errors thrown by `socket.emit` on a missing socket in the video call are not modelled. That socket is present whenever a call view exists.
- The model follows a production build, where each mount effect runs once. In development, `React.StrictMode` (`main.jsx:8`) runs the mount effects twice: the initiator then acquires media twice, sends two `call-user` offers and arms two timers.
- A change of `callData` while the video call is mounted would re-run its effects. In the model `callData` is fixed for the life of a `Session`.

## Findings

| source | as written | input that shows it | evidently intended | confidence | as-written member | corrected member |
|---|---|---|---|---|---|---|
| src/Components/Chat/VideoCall.jsx:226-293 | the effects installing the `call-made`, `answer-made` and `ice-candidate` listeners return early when `peerConnectionRef.current` is null. At mount it always is, because the first effect's `initializeMedia` is still awaiting getUserMedia. Their dependencies never change, so the listeners are never installed. | any call: mount the initiator's view with `callData = {isInitiator: true, callee: B}`; the answer from B is never handled | listeners installed for the role regardless of the connection; each handler reads the connection when it runs | high, not executed | `VideoCall.AsWrittenInitiatorNeverHearsAnswer` | `VideoCall.InitiatorHearsAnswer` |
| src/Components/Chat/VideoCall.jsx:184-200, 350-379 | accepting hides the prompt, which is the only dependency of the media effect. The effect's cleanup closes and nulls the connection that `handleAcceptCall` created while the handler is still awaiting getUserMedia, and the effect starts `initializeMedia` again. | responder with a stored offer clicks accept; the handler's getUserMedia resolves before the effect's: `addTrack` on the null ref throws, status `error`, no `make-answer`; 30 s later the effect's timer, holding the status `connecting` of the render that started it, restarts ICE on the second connection and the responder sends a `call-user` offer to the caller | the connection made by accepting survives until unmount, and exactly one answer is sent | medium (depends on which getUserMedia resolves first), not executed | `VideoCall.AsWrittenAcceptLosesItsConnection` | `VideoCall.AcceptKeepsItsConnection` |
| src/Components/Chat/VideoCall.jsx:184-199 | the media effect's cleanup stops the tracks of the `localStream` its closure captured. The effect is installed at mount and in the render right after accepting, both before any `setLocalStream`, so that value is always null. | any call: hang up, the view unmounts, and the camera and microphone keep running; `Session.Valid` makes "no captured stream" an invariant for both roles | the stream held at unmount is stopped, so the media is released on every exit | high, not executed | `VideoCall.AsWrittenStreamOutlivesTheCall` | `VideoCall.ReleasingCleanupStopsStream` |
