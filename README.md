# Chat consultation model

A Dafny model of the mock healthcare-consultation app's logic: the chat
screen's four-phase consultation state machine and the small flow of guarded
screen transitions around it.

**The chat session** (`chat_screen.dfy`, class `ChatScreen.ChatSession`) is one
mounted chat screen. It holds these fields:

- the message log, `messages`;
- the phase, one of `WaitingClinicianFirst`, `AfterClinicianFirst`,
  `WaitingClinicianSecond`, `Completed`;
- the text field, `inputValue`;
- the `seeded` ref;
- the single reply timer, `pending`, as the reply it will deliver;
- the AsyncStorage slot `'chatSession'`, through a shared `SessionStore` object.

Each effect and handler of the screen is a method:

- mount and restore (the constructor);
- seeding (`Seed`);
- a timer firing (`FireReply`);
- the effects' cleanup (`Teardown`);
- typing (`EditInput`);
- `sendFollowUp` (`SendFollowUp`).

Every method that changes the messages or the phase overwrites the slot with
`{messages, phase}`. Reaching `Completed` counts one request to replace the
screen with the completion screen. The class invariant `Valid()` ties these
together. `Healthy()` says that a seeded log has the shape of a conversation:

- its length follows the phase;
- senders alternate, starting with the user;
- ids are `user-n`/`clin-n` for the message's position;
- the follow-up is trimmed and not blank.

Every method keeps `Healthy()`, and the scenario methods end in that shape.

`ChatPhase` is imported from `src/state/chatMachine`, which is not part of
this model. It is defined here as a four-constructor datatype that matches
how the chat screen uses it.

**The values** (`chat_log.dfy`, module `ChatLog`) are the messages, the
snapshot, the log-append rule with its position-derived ids, and the read
model the screen derives from the phase: input lock, helper text, counter,
placeholder, input-bar visibility and send-button state.

**The string operations** (`js_string.dfy`, module `JsString`) are JavaScript's
`trim` and the decimal rendering used in ids. `trim` removes the ECMAScript
WhiteSpace and LineTerminator code points. It is characterised as the unique
cut that leaves only white space outside.

**The flow** (`consult_flow.dfy`, class `ConsultFlow.Flow`) holds the
consultation context's `concern` and `supportType` and the route stack. It
also holds each screen's local state: the concern field, and the provider
screen's `consent`, `showPayment` and `isProcessing` flags with its payment
timer. Its methods are the screens' handlers:

- concern entry and support-type choice;
- the consent gate and mock payment, with routing by support type;
- the video waiting room's completion;
- the completion screen's three buttons, two of which clear the stored chat
  session.

Each handler requires that its screen is on top of the stack, because a
screen's buttons can only be pressed while it is shown.

Ordering and environment assumptions:

- The restore on mount is taken to complete before the seeding effect runs.
  In the code, both start in the same commit and the restore awaits storage.
  A present snapshot therefore marks the screen seeded, and `Seed` is then a
  no-op.
- Under the restore-then-seed assumption, a restored session in a waiting
  phase has no timer armed, so it stays in that phase: `FireReply` needs an
  armed timer and input is locked.
- Timers, the clock and storage I/O are not modelled as such. A timer firing
  is a method that needs the armed timer, and storage is a value slot.

Three behaviours of the code are kept as they are:

- the code has no handling of unparsable records or failed storage
  operations;
- it does not re-arm a reply after restoring a waiting phase;
- it overwrites the timer ref in `sendFollowUp` without clearing it. Under
  the restore-then-seed assumption, `Valid()` shows that no timer is armed
  at that point.

"Return home" on the completion screen leaves the completed chat in the
slot, unlike the other two buttons. A chat screen mounted later over that
slot restores the completed session: its constructor ends in `Completed`
with one completion request, so that new chat goes straight back to the
completion screen and its concern is not used. `Consultation.ChatConsultation`
proves this for the whole flow.

**The two machines together** (`consultation.dfy`, module `Consultation`)
share the storage slot. `StartChat` and `PayForChat` take a fresh flow from
the intro screen through the concern screen and payment to the chat screen.
`ChatFrom` does the same from the intro screen of a running flow.
`ChatConsultation` then runs the chat screen with the context's trimmed
concern. When the chat completes, it hands back to the flow and goes home.
It then pays for a second chat through the same flow and mounts the chat
screen over the same slot.

## Model

| member | source | states |
|---|---|---|
| JsString.IsSpace | src/screens/ChatScreen.tsx:114 | the characters `trim` removes are the ECMAScript WhiteSpace and LineTerminator code points; among ASCII these are exactly the space and TAB to CR |
| JsString.Trim | src/screens/ConcernSupportScreen.tsx:17 | `trim` never lengthens a string, and a result that is not blank neither starts nor ends with white space |
| JsString.TrimStartCut | src/screens/ChatScreen.tsx:114 | the leading part `trim` drops is all white space and the rest is a suffix that does not start with white space |
| JsString.TrimEndCut | src/screens/ChatScreen.tsx:114 | the trailing part `trim` drops is all white space and the rest is a prefix that does not end with white space |
| JsString.TrimCut | src/screens/ChatScreen.tsx:114-119 | `trim` returns a slice of the input whose outside is all white space and whose ends are not white space |
| JsString.TrimAtUnique | src/screens/ChatScreen.tsx:119 | there is only one such slice, so the characterisation fixes `trim` completely |
| JsString.TrimIdempotent | src/screens/ConcernSupportScreen.tsx:17 | trimming a trimmed string changes nothing |
| JsString.TrimEmptyIff | src/screens/ChatScreen.tsx:114 | `!s.trim()` holds exactly when every character of `s` is white space |
| JsString.NatToString | src/screens/ChatScreen.tsx:106 | the number in an id is rendered as decimal digits with no leading zero |
| JsString.ParseNatToString | src/screens/ChatScreen.tsx:117 | reading the digits back gives the number, so the rendering loses nothing |
| JsString.NatToStringInjective | src/screens/ChatScreen.tsx:106 | different positions render differently |
| ChatLog.PhaseRank | src/screens/ChatScreen.tsx:134-149 | the four phases in consultation order, first rank 0 and `Completed` rank 3 |
| ChatLog.MessageId | src/screens/ChatScreen.tsx:106-117 | an id starts with `user-` exactly for a user message and with `clin-` for a clinician one |
| ChatLog.MessageIdReadsBack | src/screens/ChatScreen.tsx:106-117 | after the prefix an id is all digits, and they read back as the message's position |
| ChatLog.MessageIdInjective | src/screens/ChatScreen.tsx:106-117 | an id `user-n`/`clin-n` determines both its sender and its position |
| ChatLog.MessageIdLiterals | src/screens/ChatScreen.tsx:65 | the ids of positions 1 to 4 are `user-1`, `clin-2`, `user-3`, `clin-4` |
| ChatLog.FirstReplyText | src/screens/ChatScreen.tsx:72 | the first reply quotes the whole concern verbatim at a fixed offset |
| ChatLog.ReplyText | src/screens/ChatScreen.tsx:126-130 | the first timer's text quotes the concern; the second timer's is the fixed 83-character `SecondReplyText` of lines 127-129 |
| ChatLog.ReplyPhase | src/screens/ChatScreen.tsx:126-130 | the first reply moves to the rank-1 phase, the only one that accepts input (line 73); the second completes the consultation (line 130) |
| ChatLog.Append | src/screens/ChatScreen.tsx:102-111 | appending adds one message with the given sender and text and leaves every earlier message as it was; position-derived ids stay well formed |
| ChatLog.Opening | src/screens/ChatScreen.tsx:64-69 | the seeded log is exactly `[{id:'user-1', from:'user', text: concern}]` |
| ChatLog.DistinctIds | src/screens/ChatScreen.tsx:102-122 | in a log with position-derived ids no two messages share an id |
| ChatLog.LogLength | src/screens/ChatScreen.tsx:60-131 | a seeded consultation holds one message more than the phase's rank |
| ChatLog.OpeningIsConversation | src/screens/ChatScreen.tsx:60-69 | the seeded log is a conversation in `WaitingClinicianFirst` |
| ChatLog.ReplyKeepsConversation | src/screens/ChatScreen.tsx:71-131 | a clinician reply in the phase that waits for it keeps the conversation shape and reaches the next phase |
| ChatLog.AcceptedFollowUp | src/screens/ChatScreen.tsx:113-124 | a follow-up the send button lets through is sent in `AfterClinicianFirst`, is trimmed, and keeps the conversation shape |
| ChatLog.FollowUpKeepsConversation | src/screens/ChatScreen.tsx:113-124 | an accepted follow-up keeps the conversation shape and reaches `WaitingClinicianSecond` |
| ChatLog.CompletedConversation | src/screens/ChatScreen.tsx:64-131 | a completed conversation is user, clinician, user, clinician with ids `user-1, clin-2, user-3, clin-4`, all distinct |
| ChatLog.InputLocked | src/screens/ChatScreen.tsx:134-137 | input is locked exactly when the phase is not `AfterClinicianFirst` |
| ChatLog.HelperText | src/screens/ChatScreen.tsx:139-150 | the follow-up invitation is shown exactly while input is accepted, "Chat complete." exactly at the end, and the waiting lines end in an ellipsis |
| ChatLog.HelperTextInjective | src/screens/ChatScreen.tsx:139-150 | each phase shows its own helper text |
| ChatLog.CounterText | src/screens/ChatScreen.tsx:183-185 | the counter reads `1 of 2` exactly in `AfterClinicianFirst`, `2 of 2` otherwise |
| ChatLog.Placeholder | src/screens/ChatScreen.tsx:207-211 | the follow-up placeholder shows exactly when input is not locked |
| ChatLog.InputBarShown | src/screens/ChatScreen.tsx:199 | the input bar is hidden exactly in `Completed`, and a hidden bar means locked input |
| ChatLog.SendDisabled | src/screens/ChatScreen.tsx:218-220 | send is disabled exactly when the input is all white space or the phase is not `AfterClinicianFirst` |
| ChatLog.ReadModelAgrees | src/screens/ChatScreen.tsx:134-220 | counter, helper text, send button and input bar agree on the one phase that accepts input |
| SessionStorage.SessionStore.constructor | src/screens/ChatScreen.tsx:46 | the slot starts with whatever was stored before |
| SessionStorage.SessionStore.Save | src/screens/ChatScreen.tsx:87-93 | saving overwrites the slot with the snapshot |
| SessionStorage.SessionStore.Load | src/screens/ChatScreen.tsx:46 | loading returns the last snapshot saved, or nothing |
| SessionStorage.SessionStore.Clear | src/screens/CompletionScreen.tsx:23 | clearing empties the slot |
| ChatScreen.ChatSession.constructor | src/screens/ChatScreen.tsx:33-58 | mount starts with an empty log; a present snapshot restores both messages and phase and marks the screen seeded; the slot then holds the current state; a restored `Completed` session requests the completion screen |
| ChatScreen.ChatSession.Seed | src/screens/ChatScreen.tsx:60-75 | runs only when not seeded and sets `seeded`; appends exactly `user-1` with the concern, arms the first reply and keeps the phase; seeded screens are left unchanged |
| ChatScreen.ChatSession.Teardown | src/screens/ChatScreen.tsx:77-79 | cleanup clears the armed timer and nothing else |
| ChatScreen.ChatSession.FireReply | src/screens/ChatScreen.tsx:71-131 | a firing timer appends exactly one clinician message `clin-(n+1)` with its reply text and advances the phase by one step; the second reply reaches `Completed` and requests the completion screen once |
| ChatScreen.ChatSession.EditInput | src/screens/ChatScreen.tsx:202-206 | the field takes typed text only while input is not locked |
| ChatScreen.ChatSession.SendFollowUp | src/screens/ChatScreen.tsx:113-132 | with blank input or locked input nothing changes; otherwise it appends the trimmed text as `user-(n+1)`, clears the input, moves to `WaitingClinicianSecond` and arms the second reply |
| ChatScreen.OpenChat | src/screens/ChatScreen.tsx:44-93 | mounting on a fresh slot, seeding and the first reply leave `user-1` with the concern and `clin-2` quoting it, in `AfterClinicianFirst` with no timer armed |
| ChatScreen.Converse | src/screens/ChatScreen.tsx:60-131 | seed, reply, follow-up and reply yield exactly the four expected messages in `Completed`, and the slot holds them |
| Consultation.StartChat | src/screens/ConcernSupportScreen.tsx:14-19 | from app start, a blank concern leaves the concern screen on top; otherwise the context holds the trimmed concern and the chat screen is on top after payment |
| Consultation.ChatFrom | src/screens/ConcernSupportScreen.tsx:14-19 | the same route from the intro screen of a running flow |
| Consultation.PayForChat | src/screens/ProviderScreen.tsx:19-34 | consent, Confirm & Pay, the pay button and the timer replace a fresh provider screen with the chat screen and keep the concern |
| Consultation.ChatConsultation | src/screens/CompletionScreen.tsx:35-40 | the chat opens with the context's trimmed concern as `user-1`; after a completed chat, "Return to Home" and a second paid chat with a non-blank concern, the context holds the new concern but the chat screen restores the completed log in `Completed` with one completion request |
| ChatScreen.HappyPath | src/screens/ChatScreen.tsx:44-131 | the same run from a fresh store, then a remount restores the same messages and phase without seeding again; a blank follow-up leaves the consultation in `AfterClinicianFirst` |
| ConsultFlow.ReplaceTop | src/screens/CompletionScreen.tsx:32 | `replace` swaps the top route and keeps the rest of the stack |
| ConsultFlow.RouteAfterPayment | src/screens/ProviderScreen.tsx:29-33 | after payment the route is `Chat` exactly for a chat consultation, otherwise `VideoWaitingRoom`, also with no support type |
| ConsultFlow.CompletionTitle | src/screens/CompletionScreen.tsx:50-52 | the title is `Chat Complete` exactly for a chat consultation, otherwise `Consultation Complete` |
| ConsultFlow.ConsultationLabel | src/screens/CompletionScreen.tsx:85-87 | the label is `Chat Consultation` exactly for a chat consultation, otherwise `Video Consultation` |
| ConsultFlow.SupportTypeTextsAgree | src/screens/CompletionScreen.tsx:51-86 | title, label and payment routing follow the same rule |
| ConsultFlow.ContinueEnabled | src/screens/ConcernSupportScreen.tsx:116-119 | Continue is enabled exactly when the concern has a non-white-space character and a support type is chosen |
| ConsultFlow.PayButtonLabel | src/screens/ProviderScreen.tsx:67-69 | the pay button reads `Processing...` exactly while processing |
| ConsultFlow.ParseFormatCents | src/screens/ProviderScreen.tsx:51-59 | a cents amount written as `$D.DD` reads back as the same amount |
| ConsultFlow.DisplayedFeesAddUp | src/screens/ProviderScreen.tsx:51-59 | the shown fees are 4900 and 300 cents and the shown total is their sum, 5200 |
| ConsultFlow.Flow.constructor | src/context/ConsultContext.tsx:29-30 | the context starts with an empty concern and no support type, and the app starts on the intro screen |
| ConsultFlow.Flow.OpenConcernSupport | src/screens/ConcernSupportScreen.tsx:14 | the concern field starts equal to the context's concern |
| ConsultFlow.Flow.EditConcern | src/screens/ConcernSupportScreen.tsx:47-48 | typing replaces the concern field |
| ConsultFlow.Flow.ChooseType | src/screens/ConcernSupportScreen.tsx:21 | `chooseType(t)` sets the support type to `t` and leaves the concern unchanged |
| ConsultFlow.Flow.HandleNext | src/screens/ConcernSupportScreen.tsx:16-19 | the context receives the trimmed concern, with no white space at either end, and the provider screen is pushed with its flags off |
| ConsultFlow.Flow.PressContinue | src/screens/ConcernSupportScreen.tsx:113-119 | a disabled Continue changes nothing; an enabled one stores a non-blank trimmed concern and moves to a fresh provider screen with consent, payment view and processing all off |
| ConsultFlow.Flow.PressConfirmPay | src/screens/ProviderScreen.tsx:123-126 | Confirm & Pay, disabled exactly without consent, opens the payment view exactly when it is enabled |
| ConsultFlow.Flow.ToggleConsent | src/screens/ProviderScreen.tsx:110 | pressing the consent box negates consent |
| ConsultFlow.Flow.HandleConfirmPay | src/screens/ProviderScreen.tsx:19-21 | the payment view opens exactly when consent is given; otherwise nothing changes |
| ConsultFlow.Flow.HandleConfirm | src/screens/ProviderScreen.tsx:23-28 | with consent, which always holds while the payment view is open, processing starts and the payment timer is armed; the no-consent guard is unreachable |
| ConsultFlow.Flow.FirePaymentTimer | src/screens/ProviderScreen.tsx:27-34 | processing ends and the provider screen is replaced by `Chat` exactly for a chat consultation, otherwise by `VideoWaitingRoom` |
| ConsultFlow.Flow.ChatCompleted | src/screens/ChatScreen.tsx:96-100 | a completed chat is replaced by the completion screen |
| ConsultFlow.Flow.CompleteVideo | src/screens/VideoWaitingRoomScreen.tsx:21-24 | the support type becomes video and the waiting room is replaced by the completion screen |
| ConsultFlow.Flow.HandleStartNewChat | src/screens/CompletionScreen.tsx:22-28 | the chat-session slot is cleared and the stack becomes exactly `[ConcernSupport]` |
| ConsultFlow.Flow.HandleBookVideo | src/screens/CompletionScreen.tsx:30-33 | the chat-session slot is cleared and the top route is replaced by `VideoWaitingRoom` |
| ConsultFlow.Flow.HandleReturnHome | src/screens/CompletionScreen.tsx:35-40 | the stack becomes exactly `[Intro]` and the stored session is untouched |

## Left out

- The race between restore and seeding is left out because it is concurrency. The restore awaits storage while the seeding effect runs at once; the model fixes restore-then-seed as an assumption.
- `ChatScreen.ChatSession.constructor` restores before seeding, which the code does not do. In the code the load effect suspends at `getItem` and the seeding effect runs in the same flush with `seeded` still false, so every mount seeds `user-1` and arms the first-reply timer. After a restore, that timer appends a first reply to the restored log and sets `AfterClinicianFirst`, so a restored `WaitingClinicianSecond` goes back a phase and allows a second follow-up; one sent while that timer is armed overwrites the timer ref. The model does not capture any of this.
- `ChatScreen.ChatSession.constructor` does not model the `parsed.messages` and `parsed.phase` checks: a stored record missing either field keeps that field's initial value and still marks the screen seeded, while a `Snapshot` always carries both.
- Timer delays (1400, 1500 and 1200 ms) are left out because the model has no clock. Firing is an explicit method that needs the armed timer.
- JSON serialisation and AsyncStorage I/O are left out because they are library calls. The slot holds a snapshot value. The code has no handling of parse or storage failures, so the model claims none.
- `ConsultFlow.Flow.HandleConfirm` requires that processing is off: its only caller, the pay button, is disabled while processing. A second press with a second timer is therefore not modelled.
- `ConsultFlow.Flow` handlers each require that their screen is on top of the stack, as their buttons exist only on that screen.
- `ChatScreen.ChatSession.Healthy` holds after a restore only when the stored snapshot already had the conversation shape, because a stored record is not checked by the code. Every method still keeps it.
- React-navigation semantics are left out because the library is not part of this model. `navigate` is modelled as a push, which holds for the forward-only routes used here.
- Back buttons (`goBack`) are left out for the same reason. So is the provider screen's payment timer outliving an unmounted screen.
- The context's concern changing while the chat screen is mounted is modelled only as `Teardown` followed by a no-op `Seed`. This leaves the chat stuck, as in the code. It cannot happen through the shown screens.
- `concern || ''` is modelled as `concern`, because the context types the concern as a string.
- The provider profile (name, credentials, avatar) is only displayed, so it is left out.
- Date and time formatting on the completion screen is left out because it reads the clock.
- Rendering, styling, `scrollToEnd` and the mock star rating are left out because they have no behaviour to verify.
- The intro screen is represented only by `OpenConcernSupport`, because it has no logic of its own.
