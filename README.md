# Outbound call relay: a Dafny model

This project models the core of an outbound calling service for elderly
patients, written in JavaScript. The service places a phone call through
Twilio, and when the call's media stream connects it relays audio between
Twilio and an ElevenLabs conversational-AI agent. The agent's system
prompt is personalised from a per-call context record fetched beforehand.

The model covers five parts, one module each:

- `Prompt` (prompt.dfy): the system prompt of `prompt.js`, kept as a
  sequence of literal-text pieces and `{{key}}` slots. `SYSTEM_PROMPT` is
  the exact text they spell out.
- `CallContext` (call_context.dfy): the dynamic-variable record built from
  the fetched call context (`outbound.js` lines 89-131). This covers the
  fixed prefixes, the `", "`, `"; "` and `". "` joins, and the whitespace
  trim of the news text. It also covers the defaults used when the fetch
  fails, the response is not ok, or building the record throws. JavaScript
  string conversion is written out: a missing value becomes `undefined`
  inside a template literal and nothing inside a join.
- `PromptFill` (prompt_fill.dfy): the fill of the system prompt. There is
  one global `{{key}}` replacement per record entry, applied in the
  record's key order. `Fill` specifies this and the loop method
  `FillPrompt` implements it. `Expand` is an independent reference meaning
  of filling a template, and the two are proved equal. This module also has
  the greeting `Hey <name>! ...`.
- `ContextStore` (context_store.dfy): the call-context `Map` and the
  `/outbound-call` route that fills it. A logical clock stands in for
  `setTimeout` and its five-minute expiry. Pure functions on `StoreState`
  specify the store. The class `CallContextStore` updates `entries`, `now`
  and `timers` in place, and each of its methods is proved to follow the
  matching function.
- `SessionBridge` (session.dfy): the per-call media-stream handler as a
  state machine. Its state is `streamSid`, `callSid`, `call_id` and the AI
  socket's state. `Step` gives the next state and the messages sent for each
  decoded event, and `Run` gives them over a sequence of events. The class
  `MediaStreamSession` keeps the same state in fields, and its handlers are
  proved to agree with `Step`.

`JsStrings` (js_strings.dfy) holds the JavaScript string operations the
other modules use: `join`, a global literal `replace`, and the `\s` trim.
`Wrappers` holds `Option`.

The model follows the code, including where it may surprise:

- When the fetch fails, the defaults are empty strings, except
  `recent_conversations`, which is `No previous call data` (lines 90-96).
  The `No interests` style texts appear only when a fetched record lacks
  the field.
- An empty list is truthy in JavaScript. So a present but empty list gives
  the prefix followed by nothing, not the `No ...` text
  (`CallContext.EmptyListsKeepPrefix`).
- Twilio `media` is forwarded whenever the AI socket is OPEN, whatever
  `streamSid` is (line 342).
- The AI socket closing or failing only logs. It does not close the Twilio
  socket (lines 310-316).
- The context is read when the AI socket opens, not when the stream starts.
  If the AI socket opens first, `call_id` is still null. The prompt then
  goes out unfilled and the greeting is `Hey undefined! ...`
  (`SessionBridge.OpenBeforeStart`).
- The WebSocket library moves the AI socket to CLOSING by itself, before
  it emits `error` and as soon as the peer's close frame arrives, and
  `close` follows later. In between, the `readyState` checks of lines 342,
  352 and 368 fail, so no Twilio media is forwarded and `close()` is not
  called (`SessionBridge.NoRelayWhileAiClosing`).
- Each store write schedules a new deletion timer and cancels none.

## Model

| member | source | states |
|---|---|---|
| JsStrings.JoinSnoc | outbound.js:117 | appending an element to a non-empty array adds exactly one separator and that element to its join |
| JsStrings.ReplaceAllAbsent | outbound.js:212 | a string with no occurrence of the pattern is returned unchanged |
| JsStrings.LeadingSpaces | outbound.js:125 | `^\s+` matches exactly the longest run of JavaScript whitespace at the start |
| JsStrings.TrailingSpaces | outbound.js:125 | `\s+$` matches exactly the longest run of JavaScript whitespace at the end |
| JsStrings.TrimCharacterization | outbound.js:125 | the trimmed text is a slice of the input with only whitespace cut on either side, and it neither starts nor ends with whitespace |
| JsStrings.TrimIdempotent | outbound.js:125 | trimming an already trimmed text changes nothing |
| Prompt.Placeholder | outbound.js:212 | the pattern for a key is `{{key}}`: four characters longer than the key and starting with `{{` |
| Prompt.CountInRender | prompt.js:1-16 | a placeholder occurs in the rendered template exactly as often as the template has slots with that key |
| Prompt.ReplaceInRender | outbound.js:212 | a global replacement of `{{key}}` in the rendered template replaces exactly that key's slots by the value and keeps all literal text |
| Prompt.NameSlotTwice | prompt.js:5-9 | the template has two `name` slots |
| Prompt.OtherSlotsOnce | prompt.js:8-13 | the template has one slot each for `recent_conversations`, `medication`, `interests` and `relevant_news` |
| Prompt.NamePlaceholderTwice | prompt.js:5-9 | `{{name}}` occurs exactly twice in `SYSTEM_PROMPT` |
| Prompt.PlaceholderOnce | prompt.js:8-13 | each of the other four placeholders occurs exactly once in `SYSTEM_PROMPT` |
| Prompt.TemplateSlotKeys | prompt.js:5-13 | every slot of the template names one of the five record keys |
| Prompt.NoOtherPlaceholders | prompt.js:1-16 | no placeholder for any other key occurs in `SYSTEM_PROMPT` |
| CallContext.NewsLines | outbound.js:123-125 | when no item throws, there is one line per news item, and each is that item's `For <interest>: ...` line |
| CallContext.NewsLinesFail | outbound.js:123-124 | for the item shapes modelled (no `null` items or stories), building the news lines throws exactly when some item has no `news` array |
| CallContext.DefaultValues | outbound.js:90-96 | the defaults are empty strings, except `recent_conversations`, which is `No previous call data` |
| CallContext.BuildFails | outbound.js:114-126 | for the context shapes modelled (an object body, no `null` list elements), building the record throws exactly when the patient is missing or a news item has no stories |
| CallContext.DefaultsExactlyOnFailure | outbound.js:98-131 | the stored record equals the defaults exactly when the fetch threw, was not ok, or building threw; otherwise nothing of the defaults is partly overwritten |
| CallContext.BuiltFields | outbound.js:114-125 | in a built record, `name` is the patient's name, and each list field is its prefix plus the `", "` join when present or its fixed `No ...` text when absent (both directions) |
| CallContext.BuiltNewsTrimmed | outbound.js:122-125 | `relevant_news` is the prefix followed by the `". "` join of the item lines, with whitespace removed at both ends of the join only |
| CallContext.EmptyListsKeepPrefix | outbound.js:116-121 | present but empty lists give the bare prefix, not the `No ...` text |
| CallContext.ResolvedRecordIsComplete | outbound.js:90-126 | the stored record always has five entries with distinct keys and defines exactly the five variable names |
| PromptFill.FillPrompt | outbound.js:210-213 | the `forEach` loop's result is `Fill`: every entry's replacement, in order, each on the previous result |
| PromptFill.FillSnoc | outbound.js:211-212 | the last entry is applied last, to the result of all earlier ones |
| PromptFill.FillAppend | outbound.js:211-212 | the entries of a record split in two are applied first part first |
| PromptFill.FillWithoutPlaceholders | outbound.js:210-213 | a template holding no `{{key}}` for any key of the record is left unchanged by the whole fill |
| PromptFill.ExpandEmpty | outbound.js:206-213 | with the empty record every slot stays a placeholder |
| PromptFill.FillRender | outbound.js:210-213 | filling the rendered template equals expanding it: each defined slot becomes its value, each undefined slot stays a placeholder, and literal text is kept verbatim |
| PromptFill.FillEmptyRecord | outbound.js:206-213 | the empty record `{}` leaves `SYSTEM_PROMPT` unchanged |
| PromptFill.ExpandNoBrace | outbound.js:210-213 | expanding with a record that defines every slot's key, with brace-free values, leaves no `{` |
| PromptFill.CompleteFillHasNoBrace | outbound.js:210-213 | filling `SYSTEM_PROMPT` with a record that defines the five keys, with values free of `{`, leaves no `{{` behind |
| PromptFill.ResolvedKeys | outbound.js:90-126 | the stored record has five entries, each key is one of the five variable names, and no key contains a brace |
| PromptFill.ResolvedDefinesAll | outbound.js:90-126 | the stored record defines every key that has a slot in the template |
| PromptFill.ResolvedFillHasNoBrace | outbound.js:206-213 | whatever the fetch gave, filling with the stored record leaves no placeholder, provided its values hold no `{` |
| PromptFill.FirstMessageCarriesName | outbound.js:224-225 | the first message is `Hey ` + name + `! Nice to chat with you, how are you today?`, and the name can be read back from it |
| ContextStore.FiredIdsMeans | outbound.js:142-144 | an id is deleted by time `t` exactly when one of its timers is due by `t` |
| ContextStore.PendingMeans | outbound.js:142-144 | a timer stays pending exactly while it is not yet due |
| ContextStore.PendingTwice | outbound.js:142-144 | firing timers up to `t1` and then up to `t2` fires the same timers as firing up to `t2` |
| ContextStore.AdvanceTwice | outbound.js:142-144 | moving the clock in two steps gives the same store as moving it once |
| ContextStore.MissingNumberLeavesNoEntry | outbound.js:133-135 | a falsy `number` answers 400 and leaves the store exactly as it was |
| ContextStore.PlacedCallIsStored | outbound.js:137-156 | after a successful placement the record is readable under the call id, a deletion is pending five minutes later, and other entries are untouched |
| ContextStore.FailedPlacementLeavesNoEntry | outbound.js:157-164 | a placement error answers 500 and leaves no entry for the call, and other entries are untouched |
| ContextStore.RemoveIsHarmless | outbound.js:159 | deleting twice is deleting once, and deleting an absent id changes nothing |
| ContextStore.ExpiredEntryIsGone | outbound.js:142-144 | once a timer's deadline is reached, its id reads as the empty record |
| ContextStore.StoredRecordExpires | outbound.js:139-144 | five minutes after the route stored a record, reading its id gives the empty record |
| ContextStore.StoredRecordLivesUntilExpiry | outbound.js:139-144 | before its deadline a placed call's record is still readable, unless an earlier timer for the same id exists |
| ContextStore.CallContextStore.constructor | outbound.js:46 | the store starts empty, at time zero, with no timers |
| ContextStore.CallContextStore.Get | outbound.js:206 | the stored record, or the empty record for a missing or null id |
| ContextStore.CallContextStore.Set | outbound.js:139 | inserts or replaces the entry for the id and changes nothing else |
| ContextStore.CallContextStore.Delete | outbound.js:143 | removes the entry for the id and changes nothing else |
| ContextStore.CallContextStore.ScheduleExpiry | outbound.js:142-144 | adds one timer due five minutes from now |
| ContextStore.CallContextStore.AdvanceClock | outbound.js:142-144 | fires exactly the timers due by the new time, deleting their ids, and keeps the rest pending in order |
| ContextStore.CallContextStore.OutboundCall | outbound.js:133-164 | the route's effect on the store and its reply are those of `HandleOutboundCall` |
| SessionBridge.AudioForwarding | outbound.js:242-266 | an AI `audio` message sends at most one Twilio `media` message, and sends it exactly when `streamSid` is set and a payload is present, carrying `streamSid` and the chunk in preference to `audio_base_64` |
| SessionBridge.InterruptionClears | outbound.js:268-277 | `interruption` sends `clear` for the current stream exactly when `streamSid` is set |
| SessionBridge.PingAnsweredOnce | outbound.js:279-288 | a `ping` with an event id gets exactly one `pong` with the same id on the AI socket, and without an id nothing is sent |
| SessionBridge.AiInformationalIsQuiet | outbound.js:237-307 | initiation metadata, agent responses, user transcripts, unknown types and unparseable text change nothing and send nothing |
| SessionBridge.IgnoredEventsAreQuiet | outbound.js:357-362 | unknown or unparseable Twilio messages and Twilio socket errors change nothing and send nothing |
| SessionBridge.AiClosingStartsWithoutHandler | outbound.js:310-312 | an AI error or a close frame from the AI peer sends nothing and changes no id, but leaves an OPEN socket (and, on an error, a CONNECTING one) CLOSING |
| SessionBridge.NoRelayWhileAiClosing | outbound.js:341-371 | after an AI error or close frame, and before `close`, Twilio media is not forwarded and neither `stop` nor the Twilio close calls `close()` on the AI socket |
| SessionBridge.StartOverwritesIds | outbound.js:334-339 | `start` overwrites `streamSid` and `callSid`, and also `call_id` when `customParameters` is present; without it the update stops half-way |
| SessionBridge.MediaGatedOnAiOpen | outbound.js:341-348 | Twilio media is forwarded exactly when the AI socket is OPEN and a payload is present, independent of `streamSid` |
| SessionBridge.StopClosesOpenAiOnly | outbound.js:350-371 | `stop` and the Twilio socket closing each close the AI socket only when it is OPEN |
| SessionBridge.AiCloseSendsNothing | outbound.js:314-316 | the AI socket closing sends nothing (Twilio stays open) and changes no id |
| SessionBridge.OpenSendsInitiation | outbound.js:202-231 | when the AI socket opens, one initiation message is sent, built from the record stored under the current `call_id`, or from the empty record |
| SessionBridge.OnlyStartChangesIds | outbound.js:326-371 | no event other than a Twilio `start` changes `streamSid`, `callSid` or `call_id` |
| SessionBridge.TwilioMessagesCarryStreamSid | outbound.js:243-276 | every message sent to Twilio carries the session's current, set `streamSid` |
| SessionBridge.AiSocketMovesForward | outbound.js:197-371 | the AI socket never returns to an earlier state |
| SessionBridge.AtMostOneInitiation | outbound.js:202-231 | over any sequence of events the initiation data is sent at most once |
| SessionBridge.NothingToTwilioBeforeStart | outbound.js:242-277 | until a `start` arrives, nothing is sent to Twilio |
| SessionBridge.StartThenOpen | outbound.js:202-231 | start, socket creation, open: the only message is the initiation, with every placeholder filled from the stored record and the greeting naming the patient |
| SessionBridge.OpenBeforeStart | outbound.js:206-225 | if the AI socket opens before `start`, the prompt is sent unfilled and the greeting is `Hey undefined! ...` |
| SessionBridge.MediaStreamSession.constructor | outbound.js:188-191 | a new session has all ids null, no AI socket, and nothing sent |
| SessionBridge.MediaStreamSession.OnAiSocketCreated | outbound.js:197-200 | socket creation moves the state as `Step` says and sends nothing |
| SessionBridge.MediaStreamSession.OnAiOpen | outbound.js:202-231 | reads the store, runs the fill loop and sends the initiation, as `Step` says |
| SessionBridge.MediaStreamSession.OnAiMessage | outbound.js:233-308 | the AI message switch sends what `Step` says and keeps the state |
| SessionBridge.MediaStreamSession.OnAiError | outbound.js:310-312 | the AI socket's state moves as `Step` says for an error, and nothing is sent |
| SessionBridge.MediaStreamSession.OnAiCloseFrame | outbound.js:341-371 | the AI socket's state moves as `Step` says for a peer close frame, and nothing is sent |
| SessionBridge.MediaStreamSession.OnAiClosed | outbound.js:314-316 | marks the AI socket closed and sends nothing |
| SessionBridge.MediaStreamSession.CloseAiWhenOpen | outbound.js:352-354 | calls `close()` only on an OPEN AI socket |
| SessionBridge.MediaStreamSession.OnTwilioMessage | outbound.js:326-363 | the Twilio message switch moves the state and sends as `Step` says |
| SessionBridge.MediaStreamSession.OnTwilioClosed | outbound.js:366-371 | the Twilio close handler moves the state and sends as `Step` says |

## Left out

- Fastify setup, route registration, the health route, `listen`, the
  environment-variable check and all logging (outbound.js lines 1-54 and
  375-382). They hold no logic.
- The network calls. These are `getSignedUrl`, the Supabase context fetch
  and `twilioClient.calls.create`. Their outcomes are inputs:
  `FetchOutcome`, `Placement`, and the `AiSocketCreated` event. When the
  signed URL cannot be fetched, that event never happens. The generated
  `uuidv4()` call id is a parameter.
- The TwiML route (lines 168-181). It is a fixed text with one
  interpolation.
- `JSON.parse` and `JSON.stringify`. Messages are datatypes, and a text the
  parser rejects is an `...Unparseable` event.
- The base64 round trip through `Buffer` (line 344). It is taken as the
  identity, which it is for canonical base64. A missing `payload` makes
  `Buffer.from` throw, and the model sends nothing then.
- Concurrency. `Run` is one interleaving of the two sockets' events. The
  store's map is given to `Step` as it stands at the time of the event.
- Delivery. The session records what the handlers pass to `send` and
  `close`. A send on a socket that is no longer open is dropped by the
  WebSocket library, and that is not modelled. AI messages are handled
  whenever the AI socket exists.
- Real time. `setTimeout` is a timer on a logical millisecond clock, fired
  by `AdvanceClock`. Timers that come due together delete their ids in one
  step, which is the same as any firing order, since deletions commute.
- JsStrings.ReplaceAll: the replacement is literal. The special `$`
  patterns of `String.prototype.replace` in a value are not modelled, nor
  are regular-expression characters in a key.
- PromptFill.FillRender: this is stated only for records whose keys hold no
  braces and whose values hold no `{`. A value that itself contains a later
  entry's `{{key}}` would be rewritten by that later entry. `Fill` does
  this, but `Expand` does not describe it.
- CallContext.Interpolate: JavaScript values other than strings are not
  modelled. `null` and `undefined` are the one absent value, written
  `undefined` in a template literal, so a field sent as JSON `null` is
  written `undefined` where the source writes `null`. Numbers and other
  non-string values are not modelled.
- PromptFill.CompleteFillHasNoBrace: values are required to hold no `{`
  at all. A value with a single `{`, such as `a{b`, is not covered, although
  the fill still leaves no `{{` for it: every slot of the template has
  brace-free text on both sides and no two slots touch. The proof carries
  whole values through the later replacements only when they cannot start
  a placeholder, and a lone `{` could, so the weaker condition is not proved.
- PromptFill.ResolvedFillHasNoBrace: inherits the same no-`{` condition on
  the stored values, so a news summary or name with a single `{` is not
  covered.
- CallContext.BuildFails: a JSON `null` body, which throws at
  `context.patient`, and `null` elements of the lists, which throw at
  `i.name`, `m.name`, `call.summary`, `item.interest` or `n.title`, are not
  modelled. In the source each of these also falls back to the defaults.
  The same holds for CallContext.NewsLinesFail.
- CallContext.BuildVariables: list fields are an absent value or an array.
  A truthy non-array value, on which `.map` would throw, is not modelled.
  The `name` entry holds the text the filler and the greeting produce for
  it, `undefined` when the patient has no name, rather than the value
  `undefined` itself. `String.prototype.replace` and the template literal
  turn that value into the same text.
- SessionBridge.PingAnsweredOnce: the event id is text. A numeric id,
  including `0`, which is falsy, is not modelled.
