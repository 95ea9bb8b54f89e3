/**
 * The `/outbound-media-stream` WebSocket handler of outbound.js: one session
 * relays audio between the Twilio media stream and the ElevenLabs
 * conversational-AI socket.
 *
 * The closure state of lines 188-191 is a `Session`. Everything that happens
 * to a session is an `Event`: a decoded message or a lifecycle event on
 * either socket. JSON texts become datatypes, and a text `JSON.parse`
 * rejects becomes an `...Unparseable` event. `Step` is the specification of
 * one handler run: the new session and the messages the handler sends, in
 * order. `Run` folds it over a sequence of events, which is one
 * interleaving of the two sockets. The class `MediaStreamSession` keeps the
 * same state in fields that its handlers update in place, and each handler
 * is proved to do what `Step` says.
 */
module SessionBridge {
  import opened Wrappers
  import opened CallContext
  import opened Prompt
  import opened PromptFill
  import ContextStore

  // ---------------------------------------------------------------------
  // State, events and messages
  // ---------------------------------------------------------------------

  /**
   * `elevenLabsWs` and its `readyState`: no socket yet (the signed URL is
   * still being fetched, or fetching it failed), then CONNECTING, OPEN,
   * CLOSING and CLOSED.
   */
  datatype AiSocket = NoSocket | Connecting | Open | Closing | Closed

  /** `streamSid`, `callSid`, `call_id` (all `null` at first) and the AI socket. */
  datatype Session = Session(streamSid: Option<string>, callSid: Option<string>,
                             callId: Option<string>, ai: AiSocket)

  const INITIAL: Session := Session(None, None, None, NoSocket)

  /** `customParameters` of a Twilio `start` message. */
  datatype CustomParameters = CustomParameters(callId: Option<string>)

  /** The `start` object of a Twilio `start` message. */
  datatype StartInfo = StartInfo(streamSid: Option<string>, callSid: Option<string>,
                                 customParameters: Option<CustomParameters>)

  /** The `media` object of a Twilio `media` message. */
  datatype MediaInfo = MediaInfo(payload: Option<string>)

  /** A message on the Twilio socket, by its `event` field. */
  datatype TwilioInbound =
    | TwilioUnparseable
    | Start(start: Option<StartInfo>)
    | Media(media: Option<MediaInfo>)
    | Stop
    | OtherEvent

  /** A message on the AI socket, by its `type` field, with the fields the handler reads. */
  datatype AiInbound =
    | AiUnparseable
    | InitiationMetadata
    | Audio(chunk: Option<string>, audioBase64: Option<string>)
    | Interruption
    | Ping(eventId: Option<string>)
    | AgentResponse
    | UserTranscript
    | OtherType

  datatype Event =
    | AiSocketCreated  // the signed URL arrived and `new WebSocket(signedUrl)` ran
    | AiOpened
    | AiMessage(aiMsg: AiInbound)
    | AiError      // the library has already set `readyState` to CLOSING when it emits `error`
    | AiCloseFrame // a close frame from the peer: the library sets CLOSING at once, `close` follows later
    | AiClosed
    | TwilioMessage(twilioMsg: TwilioInbound)
    | TwilioError
    | TwilioClosed

  /** A message for Twilio: `{event: 'media', streamSid, media: {payload}}` or `{event: 'clear', streamSid}`. */
  datatype TwilioOut = MediaOut(streamSid: string, payload: string) | ClearOut(streamSid: string)

  /** A message for the AI: the initiation data, `{user_audio_chunk}` or `{type: 'pong', event_id}`. */
  datatype AiOut = Initiation(prompt: string, firstMessage: string) | UserAudio(chunk: string) | Pong(eventId: string)

  /** What a handler does to the outside: a send on either socket, or `elevenLabsWs.close()`. */
  datatype Outgoing = ToTwilio(twilio: TwilioOut) | ToAi(ai: AiOut) | CloseAi

  datatype StepResult = StepResult(next: Session, sent: seq<Outgoing>)

  // ---------------------------------------------------------------------
  // The handlers, as functions
  // ---------------------------------------------------------------------

  /** The `initialConfig` of lines 217-228 for the record read from the store. */
  function InitiationFor(vars: Vars): AiOut
  {
    Initiation(Fill(SYSTEM_PROMPT, vars), FirstMessage(vars))
  }

  /** The `message` handler of the AI socket (lines 233-308); it never changes the session. */
  function AiReply(streamSid: Option<string>, m: AiInbound): seq<Outgoing>
  {
    match m
    case Audio(chunk, audioBase64) =>
      if !Truthy(streamSid) then []
      else if Truthy(chunk) then [ToTwilio(MediaOut(streamSid.value, chunk.value))]
      else if Truthy(audioBase64) then [ToTwilio(MediaOut(streamSid.value, audioBase64.value))]
      else []
    case Interruption =>
      if Truthy(streamSid) then [ToTwilio(ClearOut(streamSid.value))] else []
    case Ping(eventId) =>
      if Truthy(eventId) then [ToAi(Pong(eventId.value))] else []
    case _ => []
  }

  /** `elevenLabsWs.close()` when the AI socket is OPEN (lines 352-354 and 368-370). */
  function CloseAiIfOpen(s: Session): StepResult
  {
    if s.ai.Open? then StepResult(s.(ai := Closing), [CloseAi]) else StepResult(s, [])
  }

  /**
   * The `message` handler of the Twilio socket (lines 326-363). A `start`
   * assigns the three ids in turn; reading `customParameters.call_id` when
   * `customParameters` is missing throws after the first two assignments,
   * and reading anything of a missing `start` throws before them.
   */
  function TwilioStep(s: Session, m: TwilioInbound): StepResult
  {
    match m
    case Start(start) =>
      (match start
       case None => StepResult(s, [])
       case Some(info) =>
         var s1 := s.(streamSid := info.streamSid, callSid := info.callSid);
         match info.customParameters
         case None => StepResult(s1, [])
         case Some(params) => StepResult(s1.(callId := params.callId), []))
    case Media(media) =>
      if s.ai.Open? && media.Some? && media.value.payload.Some?
      then StepResult(s, [ToAi(UserAudio(media.value.payload.value))])
      else StepResult(s, [])
    case Stop => CloseAiIfOpen(s)
    case _ => StepResult(s, [])
  }

  /**
   * One event handled. `store` is the call-context store's map at the time
   * of the event; the AI socket's `open` handler reads it.
   */
  function Step(s: Session, e: Event, store: map<string, Vars>): StepResult
  {
    match e
    case AiSocketCreated =>
      if s.ai.NoSocket? then StepResult(s.(ai := Connecting), []) else StepResult(s, [])
    case AiOpened =>
      if s.ai.Connecting?
      then StepResult(s.(ai := Open), [ToAi(InitiationFor(ContextStore.GetOrEmpty(store, s.callId)))])
      else StepResult(s, [])
    case AiMessage(m) =>
      if s.ai.NoSocket? then StepResult(s, []) else StepResult(s, AiReply(s.streamSid, m))
    case AiError =>
      if s.ai.Connecting? || s.ai.Open? then StepResult(s.(ai := Closing), []) else StepResult(s, [])
    case AiCloseFrame =>
      if s.ai.Open? then StepResult(s.(ai := Closing), []) else StepResult(s, [])
    case AiClosed =>
      if s.ai.NoSocket? then StepResult(s, []) else StepResult(s.(ai := Closed), [])
    case TwilioMessage(m) => TwilioStep(s, m)
    case TwilioError => StepResult(s, [])
    case TwilioClosed => CloseAiIfOpen(s)
  }

  /** The events handled in order, the messages of each handler following those of the one before. */
  function Run(s: Session, events: seq<Event>, store: map<string, Vars>): StepResult
    decreases |events|
  {
    if |events| == 0 then StepResult(s, [])
    else
      var first := Step(s, events[0], store);
      var rest := Run(first.next, events[1..], store);
      StepResult(rest.next, first.sent + rest.sent)
  }

  // ---------------------------------------------------------------------
  // One event at a time
  // ---------------------------------------------------------------------

  /**
   * An AI `audio` message sends at most one Twilio `media` message, only
   * when `streamSid` is set, carrying that `streamSid` and the chunk in
   * preference to `audio_base_64`; the session does not change.
   */
  lemma AudioForwarding(s: Session, chunk: Option<string>, audioBase64: Option<string>, store: map<string, Vars>)
    requires !s.ai.NoSocket?
    ensures var r := Step(s, AiMessage(Audio(chunk, audioBase64)), store);
      && r.next == s
      && |r.sent| <= 1
      && (|r.sent| == 1 <==> Truthy(s.streamSid) && (Truthy(chunk) || Truthy(audioBase64)))
      && (|r.sent| == 1 ==>
            r.sent[0] == ToTwilio(MediaOut(s.streamSid.value,
                                           if Truthy(chunk) then chunk.value else audioBase64.value)))
  {
  }

  /** An `interruption` sends `clear` for the current stream, only when `streamSid` is set. */
  lemma InterruptionClears(s: Session, store: map<string, Vars>)
    requires !s.ai.NoSocket?
    ensures var r := Step(s, AiMessage(Interruption), store);
      && r.next == s
      && (Truthy(s.streamSid) ==> r.sent == [ToTwilio(ClearOut(s.streamSid.value))])
      && (!Truthy(s.streamSid) ==> r.sent == [])
  {
  }

  /** A `ping` with an event id is answered by exactly one `pong` with the same id, on the AI socket. */
  lemma PingAnsweredOnce(s: Session, eventId: Option<string>, store: map<string, Vars>)
    requires !s.ai.NoSocket?
    ensures var r := Step(s, AiMessage(Ping(eventId)), store);
      && r.next == s
      && (Truthy(eventId) ==> r.sent == [ToAi(Pong(eventId.value))])
      && (!Truthy(eventId) ==> r.sent == [])
  {
  }

  /** The informational AI messages, unknown types and unparseable text change nothing and send nothing. */
  lemma AiInformationalIsQuiet(s: Session, m: AiInbound, store: map<string, Vars>)
    requires !m.Audio? && !m.Interruption? && !m.Ping?
    ensures Step(s, AiMessage(m), store) == StepResult(s, [])
  {
  }

  /** Unparseable or unknown Twilio messages, and errors on the Twilio socket, change nothing and send nothing. */
  lemma IgnoredEventsAreQuiet(s: Session, e: Event, store: map<string, Vars>)
    requires e == TwilioMessage(TwilioUnparseable) || e == TwilioMessage(OtherEvent) || e == TwilioError
    ensures Step(s, e, store) == StepResult(s, [])
  {
  }

  /**
   * An AI socket error, or a close frame from the AI peer, sends nothing and
   * leaves the ids alone, but a socket that was OPEN (or, on an error, still
   * CONNECTING) is CLOSING from then on.
   */
  lemma AiClosingStartsWithoutHandler(s: Session, e: Event, store: map<string, Vars>)
    requires e == AiError || e == AiCloseFrame
    ensures var r := Step(s, e, store);
      && r.sent == []
      && r.next.streamSid == s.streamSid && r.next.callSid == s.callSid && r.next.callId == s.callId
      && (s.ai.Open? ==> r.next.ai == Closing)
      && (e == AiError && s.ai.Connecting? ==> r.next.ai == Closing)
      && (!s.ai.Open? && !(e == AiError && s.ai.Connecting?) ==> r.next.ai == s.ai)
  {
  }

  /**
   * Between an AI error or close frame and the AI `close` event, Twilio
   * media is no longer forwarded and neither `stop` nor the Twilio socket
   * closing calls `close()` on the AI socket.
   */
  lemma NoRelayWhileAiClosing(s: Session, e: Event, media: Option<MediaInfo>, store: map<string, Vars>)
    requires s.ai.Open?
    requires e == AiError || e == AiCloseFrame
    ensures var n := Step(s, e, store).next;
      && Step(n, TwilioMessage(Media(media)), store).sent == []
      && Step(n, TwilioMessage(Stop), store).sent == []
      && Step(n, TwilioClosed, store).sent == []
  {
  }

  /**
   * A `start` overwrites `streamSid` and `callSid` and, when
   * `customParameters` is present, `call_id`; without `customParameters`
   * the update stops half-way and `call_id` keeps its old value. A message
   * without `start` changes nothing.
   */
  lemma StartOverwritesIds(s: Session, start: Option<StartInfo>, store: map<string, Vars>)
    ensures var r := Step(s, TwilioMessage(Start(start)), store);
      && r.sent == []
      && r.next.ai == s.ai
      && (start.None? ==> r.next == s)
      && (start.Some? ==>
            && r.next.streamSid == start.value.streamSid
            && r.next.callSid == start.value.callSid
            && r.next.callId == (match start.value.customParameters
                                 case Some(params) => params.callId
                                 case None => s.callId))
  {
  }

  /**
   * A Twilio `media` message is forwarded to the AI exactly when the AI
   * socket is OPEN and the message has a payload, whatever `streamSid` is.
   */
  lemma MediaGatedOnAiOpen(s: Session, media: Option<MediaInfo>, store: map<string, Vars>, otherSid: Option<string>)
    ensures var r := Step(s, TwilioMessage(Media(media)), store);
      && r.next == s
      && (s.ai.Open? && media.Some? && media.value.payload.Some? ==>
            r.sent == [ToAi(UserAudio(media.value.payload.value))])
      && (!(s.ai.Open? && media.Some? && media.value.payload.Some?) ==> r.sent == [])
      && Step(s.(streamSid := otherSid), TwilioMessage(Media(media)), store).sent == r.sent
  {
  }

  /** `stop` and the Twilio socket closing each close the AI socket only when it is OPEN. */
  lemma StopClosesOpenAiOnly(s: Session, e: Event, store: map<string, Vars>)
    requires e == TwilioMessage(Stop) || e == TwilioClosed
    ensures var r := Step(s, e, store);
      && (s.ai.Open? ==> r == StepResult(s.(ai := Closing), [CloseAi]))
      && (!s.ai.Open? ==> r == StepResult(s, []))
  {
  }

  /** The AI socket closing only marks it closed: nothing is sent, and the Twilio socket stays open. */
  lemma AiCloseSendsNothing(s: Session, store: map<string, Vars>)
    ensures var r := Step(s, AiClosed, store);
      && r.sent == []
      && r.next.streamSid == s.streamSid && r.next.callSid == s.callSid && r.next.callId == s.callId
      && (s.ai.NoSocket? <==> r.next.ai.NoSocket?)
      && (!s.ai.NoSocket? ==> r.next.ai == Closed)
  {
  }

  /**
   * When the AI socket opens, the initiation data is sent once, built from
   * the record stored under the current `call_id`, or from the empty record
   * when there is none.
   */
  lemma OpenSendsInitiation(s: Session, store: map<string, Vars>)
    requires s.ai.Connecting?
    ensures var r := Step(s, AiOpened, store);
      && r.next == s.(ai := Open)
      && r.sent == [ToAi(Initiation(Fill(SYSTEM_PROMPT, ContextStore.GetOrEmpty(store, s.callId)),
                                    FirstMessage(ContextStore.GetOrEmpty(store, s.callId))))]
  {
  }

  predicate IsStart(e: Event)
  {
    e.TwilioMessage? && e.twilioMsg.Start?
  }

  /** Only a Twilio `start` changes `streamSid`, `callSid` or `call_id`. */
  lemma OnlyStartChangesIds(s: Session, e: Event, store: map<string, Vars>)
    requires !IsStart(e)
    ensures var n := Step(s, e, store).next;
      n.streamSid == s.streamSid && n.callSid == s.callSid && n.callId == s.callId
  {
  }

  /** Every message sent to Twilio carries the current, set `streamSid`. */
  lemma TwilioMessagesCarryStreamSid(s: Session, e: Event, store: map<string, Vars>)
    ensures forall i | 0 <= i < |Step(s, e, store).sent| && Step(s, e, store).sent[i].ToTwilio? ::
      Truthy(s.streamSid) && Step(s, e, store).sent[i].twilio.streamSid == s.streamSid.value
  {
  }

  /** The position of a socket state in the order the states are gone through. */
  function Rank(a: AiSocket): nat
  {
    match a
    case NoSocket => 0
    case Connecting => 1
    case Open => 2
    case Closing => 3
    case Closed => 4
  }

  /** The AI socket never goes back to an earlier state. */
  lemma AiSocketMovesForward(s: Session, e: Event, store: map<string, Vars>)
    ensures Rank(Step(s, e, store).next.ai) >= Rank(s.ai)
  {
  }

  // ---------------------------------------------------------------------
  // Whole sessions
  // ---------------------------------------------------------------------

  /** The number of initiation messages among `msgs`. */
  function Initiations(msgs: seq<Outgoing>): nat
  {
    if |msgs| == 0 then 0
    else (if msgs[0].ToAi? && msgs[0].ai.Initiation? then 1 else 0) + Initiations(msgs[1..])
  }

  lemma {:induction false} InitiationsAppend(a: seq<Outgoing>, b: seq<Outgoing>)
    ensures Initiations(a + b) == Initiations(a) + Initiations(b)
  {
    if |a| > 0 {
      assert (a + b)[1..] == a[1..] + b;
      InitiationsAppend(a[1..], b);
    } else {
      assert a + b == b;
    }
  }

  /**
   * Over any sequence of events the initiation data is sent at most once,
   * and not at all once the AI socket has got past CONNECTING.
   */
  lemma {:induction false} AtMostOneInitiation(s: Session, events: seq<Event>, store: map<string, Vars>)
    ensures Initiations(Run(s, events, store).sent) <= (if Rank(s.ai) <= 1 then 1 else 0)
    decreases |events|
  {
    if |events| > 0 {
      var first := Step(s, events[0], store);
      AtMostOneInitiation(first.next, events[1..], store);
      AiSocketMovesForward(s, events[0], store);
      InitiationsAppend(first.sent, Run(first.next, events[1..], store).sent);
      assert first.sent == [] || |first.sent| == 1;
      if |first.sent| == 1 {
        assert first.sent[1..] == [];
      }
    }
  }

  /**
   * As long as no `start` has arrived, nothing is sent to Twilio: every
   * audio frame and interruption from the AI is dropped.
   */
  lemma {:induction false} NothingToTwilioBeforeStart(s: Session, events: seq<Event>, store: map<string, Vars>)
    requires !Truthy(s.streamSid)
    requires forall i | 0 <= i < |events| :: !IsStart(events[i])
    ensures forall i | 0 <= i < |Run(s, events, store).sent| :: !Run(s, events, store).sent[i].ToTwilio?
    decreases |events|
  {
    if |events| > 0 {
      var first := Step(s, events[0], store);
      OnlyStartChangesIds(s, events[0], store);
      TwilioMessagesCarryStreamSid(s, events[0], store);
      NothingToTwilioBeforeStart(first.next, events[1..], store);
    }
  }

  /**
   * A call whose record is in the store under its `call_id`: the stream
   * starts, the AI socket is created and opens, and the only message sent is
   * the initiation data, with every placeholder of the system prompt filled
   * from the record and the patient greeted by name.
   */
  lemma StartThenOpen(store: map<string, Vars>, callId: string, streamSid: string, callSid: string, name: string)
    requires callId in store && Fillable(store[callId])
    requires forall k | k in VARIABLE_KEYS :: Defines(store[callId], k)
    requires Lookup(store[callId], NAME) == Some(name)
    ensures var start := StartInfo(Some(streamSid), Some(callSid), Some(CustomParameters(Some(callId))));
      var r := Run(INITIAL, [TwilioMessage(Start(Some(start))), AiSocketCreated, AiOpened], store);
      var vars := store[callId];
      && r.next == Session(Some(streamSid), Some(callSid), Some(callId), Open)
      && r.sent == [ToAi(Initiation(Expand(TEMPLATE, vars), FirstMessage(vars)))]
      && '{' !in Expand(TEMPLATE, vars)
      && FirstMessage(vars) == GREETING_HEAD + name + GREETING_TAIL
  {
    var vars := store[callId];
    FillRender(TEMPLATE, vars);
    CompleteFillHasNoBrace(vars);
    var start := StartInfo(Some(streamSid), Some(callSid), Some(CustomParameters(Some(callId))));
    var events := [TwilioMessage(Start(Some(start))), AiSocketCreated, AiOpened];
    var s1 := Session(Some(streamSid), Some(callSid), Some(callId), NoSocket);
    var s2 := s1.(ai := Connecting);
    var s3 := s1.(ai := Open);
    var sent := [ToAi(InitiationFor(vars))];
    assert events[1..] == [AiSocketCreated, AiOpened];
    assert events[1..][1..] == [AiOpened];
    assert [AiOpened][1..] == [];
    assert Run(s2, [AiOpened], store) == StepResult(s3, sent + []);
    assert Run(s1, events[1..], store) == StepResult(s3, [] + sent);
    assert Run(INITIAL, events, store) == StepResult(s3, [] + sent);
  }

  /**
   * When the AI socket opens before Twilio's `start`, `call_id` is still
   * null and the store yields the empty record: the system prompt goes out
   * with its placeholders unfilled and the greeting names `undefined`.
   */
  lemma OpenBeforeStart(store: map<string, Vars>)
    ensures var r := Run(INITIAL, [AiSocketCreated, AiOpened], store);
      && r.next == Session(None, None, None, Open)
      && r.sent == [ToAi(Initiation(SYSTEM_PROMPT, GREETING_HEAD + "undefined" + GREETING_TAIL))]
  {
    var events := [AiSocketCreated, AiOpened];
    var s1 := INITIAL.(ai := Connecting);
    var s2 := INITIAL.(ai := Open);
    var sent := [ToAi(InitiationFor([]))];
    assert events[1..] == [AiOpened];
    assert [AiOpened][1..] == [];
    assert Run(s1, events[1..], store) == StepResult(s2, sent + []);
    assert Run(INITIAL, events, store) == StepResult(s2, [] + sent);
  }

  // ---------------------------------------------------------------------
  // The session, updated in place
  // ---------------------------------------------------------------------

  /**
   * The closure variables of lines 188-191 and everything the handlers have
   * sent so far, in order.
   */
  class MediaStreamSession {
    var streamSid: Option<string>
    var callSid: Option<string>
    var callId: Option<string>
    var ai: AiSocket
    var outbox: seq<Outgoing>

    function State(): Session
      reads this
    {
      Session(streamSid, callSid, callId, ai)
    }

    /** A new Twilio connection: all ids `null`, no AI socket yet, nothing sent. */
    constructor ()
      ensures State() == INITIAL && outbox == []
    {
      streamSid, callSid, callId, ai := None, None, None, NoSocket;
      outbox := [];
    }

    /** `new WebSocket(signedUrl)` once `getSignedUrl` has resolved. */
    method OnAiSocketCreated()
      modifies this
      ensures State() == Step(old(State()), AiSocketCreated, map[]).next
      ensures outbox == old(outbox)
    {
      if ai.NoSocket? {
        ai := Connecting;
      }
    }

    /** The AI socket's `open` handler: read the store, fill the prompt, send the initiation data. */
    method OnAiOpen(store: ContextStore.CallContextStore)
      modifies this
      ensures var r := Step(old(State()), AiOpened, store.entries);
        State() == r.next && outbox == old(outbox) + r.sent
    {
      if ai.Connecting? {
        ai := Open;
        var vars := store.Get(callId);
        var filled := FillPrompt(SYSTEM_PROMPT, vars);
        outbox := outbox + [ToAi(Initiation(filled, FirstMessage(vars)))];
      }
    }

    /** The AI socket's `message` handler. */
    method OnAiMessage(m: AiInbound)
      modifies this
      ensures var r := Step(old(State()), AiMessage(m), map[]);
        State() == r.next && outbox == old(outbox) + r.sent
    {
      if ai.NoSocket? {
        return;
      }
      match m {
        case Audio(chunk, audioBase64) =>
          if Truthy(streamSid) {
            if Truthy(chunk) {
              outbox := outbox + [ToTwilio(MediaOut(streamSid.value, chunk.value))];
            } else if Truthy(audioBase64) {
              outbox := outbox + [ToTwilio(MediaOut(streamSid.value, audioBase64.value))];
            }
          }
        case Interruption =>
          if Truthy(streamSid) {
            outbox := outbox + [ToTwilio(ClearOut(streamSid.value))];
          }
        case Ping(eventId) =>
          if Truthy(eventId) {
            outbox := outbox + [ToAi(Pong(eventId.value))];
          }
        case _ =>
      }
    }

    /** The library's own move to CLOSING on an AI `error` event; the handler only logs. */
    method OnAiError()
      modifies this
      ensures var r := Step(old(State()), AiError, map[]);
        State() == r.next && outbox == old(outbox) + r.sent
    {
      if ai.Connecting? || ai.Open? {
        ai := Closing;
      }
    }

    /** The library's own move to CLOSING when the AI peer's close frame arrives. */
    method OnAiCloseFrame()
      modifies this
      ensures var r := Step(old(State()), AiCloseFrame, map[]);
        State() == r.next && outbox == old(outbox) + r.sent
    {
      if ai.Open? {
        ai := Closing;
      }
    }

    /** The AI socket's `close` handler, with the socket now CLOSED. */
    method OnAiClosed()
      modifies this
      ensures State() == Step(old(State()), AiClosed, map[]).next
      ensures outbox == old(outbox)
    {
      if !ai.NoSocket? {
        ai := Closed;
      }
    }

    /** `elevenLabsWs.close()` if the AI socket is OPEN. */
    method CloseAiWhenOpen()
      modifies this
      ensures var r := CloseAiIfOpen(old(State()));
        State() == r.next && outbox == old(outbox) + r.sent
    {
      if ai.Open? {
        ai := Closing;
        outbox := outbox + [CloseAi];
      }
    }

    /** The Twilio socket's `message` handler. */
    method OnTwilioMessage(m: TwilioInbound)
      modifies this
      ensures var r := Step(old(State()), TwilioMessage(m), map[]);
        State() == r.next && outbox == old(outbox) + r.sent
    {
      match m {
        case Start(start) =>
          if start.Some? {
            streamSid := start.value.streamSid;
            callSid := start.value.callSid;
            if start.value.customParameters.Some? {
              callId := start.value.customParameters.value.callId;
            }
          }
        case Media(media) =>
          if ai.Open? && media.Some? && media.value.payload.Some? {
            outbox := outbox + [ToAi(UserAudio(media.value.payload.value))];
          }
        case Stop =>
          CloseAiWhenOpen();
        case _ =>
      }
    }

    /** The Twilio socket's `close` handler. */
    method OnTwilioClosed()
      modifies this
      ensures var r := Step(old(State()), TwilioClosed, map[]);
        State() == r.next && outbox == old(outbox) + r.sent
    {
      CloseAiWhenOpen();
    }
  }
}
