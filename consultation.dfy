/** The two machines together: the screen flow takes a chat consultation
    from the intro screen through payment to the chat screen, the chat
    screen runs over the shared storage slot with the context's concern, and
    its completion hands back to the flow. */
module Consultation {
  import opened Optional
  import opened JsString
  import opened ChatLog
  import opened SessionStorage
  import opened ChatScreen
  import opened ConsultFlow

  /** From app start to the chat screen: a fresh flow, then `ChatFrom`. */
  method StartChat(store: SessionStore, concern: string) returns (flow: Flow)
    ensures fresh(flow) && flow.Valid() && flow.store == store
    ensures AllSpace(concern) ==> flow.stack == [Intro, ConcernSupport]
    ensures !AllSpace(concern) ==>
      flow.stack == [Intro, ConcernSupport, Chat] && flow.concern == Trim(concern)
  {
    flow := new Flow(store);
    ChatFrom(flow, concern);
  }

  /** From the intro screen to the chat screen: open the concern screen,
      type the concern, choose chat, press Continue, give consent, confirm
      and let the payment timer fire. A blank concern leaves Continue
      disabled and the concern screen on top. The storage slot is not
      touched. */
  method ChatFrom(flow: Flow, concern: string)
    requires flow.Valid() && flow.stack == [Intro]
    modifies flow
    ensures flow.Valid()
    ensures AllSpace(concern) ==> flow.stack == [Intro, ConcernSupport]
    ensures !AllSpace(concern) ==>
      flow.stack == [Intro, ConcernSupport, Chat] && flow.concern == Trim(concern)
  {
    flow.OpenConcernSupport();
    flow.EditConcern(concern);
    flow.ChooseType(ChatSupport);
    assert ContinueEnabled(concern, Some(ChatSupport)) <==> !AllSpace(concern);
    flow.PressContinue();
    if AllSpace(concern) {
      return;
    }
    assert flow.stack == [Intro, ConcernSupport, Provider];
    PayForChat(flow);
  }

  /** The provider screen of a chat consultation, freshly pushed: ticking
      the consent box, Confirm & Pay, the pay button and the payment timer
      replace it with the chat screen. The context is untouched. */
  method PayForChat(flow: Flow)
    requires flow.Valid() && flow.stack == [Intro, ConcernSupport, Provider]
    requires flow.supportType == Some(ChatSupport)
    requires !flow.consent && !flow.showPayment && !flow.isProcessing
    modifies flow
    ensures flow.Valid() && flow.stack == [Intro, ConcernSupport, Chat]
    ensures flow.concern == old(flow.concern)
  {
    flow.ToggleConsent();
    flow.PressConfirmPay();
    flow.HandleConfirm();
    flow.FirePaymentTimer();
    assert flow.stack == [Intro, ConcernSupport, Chat];
  }

  /** A paid chat consultation on a fresh store, then "Return to Home" and
      a second paid chat with another concern. The first chat quotes the
      context's trimmed concern, and a completed chat hands over to the
      completion screen. "Return to Home" keeps the stored session, so the
      second chat screen, although the context now holds the new concern,
      restores the completed chat and asks for the completion screen at
      once. */
  method ChatConsultation(concern: string, followUp: string, nextConcern: string)
    returns (stack: seq<Route>, log: seq<Message>, phase: ChatPhase, context: string,
             restoredLog: seq<Message>, restoredPhase: ChatPhase, restoredRequests: nat)
    ensures AllSpace(concern) ==> stack == [Intro, ConcernSupport] && log == []
    ensures !AllSpace(concern) ==> |log| >= 2 && log[0] == Message("user-1", User, Trim(concern))
    ensures !AllSpace(concern) && Trim(followUp) == [] ==>
      stack == [Intro, ConcernSupport, Chat] && phase == AfterClinicianFirst
    ensures !AllSpace(concern) && Trim(followUp) != [] ==> phase == Completed
    ensures !AllSpace(concern) && Trim(followUp) != [] && AllSpace(nextConcern) ==>
      stack == [Intro, ConcernSupport]
    ensures !AllSpace(concern) && Trim(followUp) != [] && !AllSpace(nextConcern) ==>
      && stack == [Intro, ConcernSupport, Chat] && context == Trim(nextConcern)
      && restoredLog == log && restoredPhase == Completed && restoredRequests == 1
  {
    var store := new SessionStore(None);
    var flow := StartChat(store, concern);
    stack, log, phase, context := flow.stack, [], WaitingClinicianFirst, flow.concern;
    restoredLog, restoredPhase, restoredRequests := [], WaitingClinicianFirst, 0;
    if AllSpace(concern) {
      return;
    }
    var requests;
    log, phase, requests := Converse(store, flow.concern, followUp);
    stack := flow.stack;
    if phase == Completed {
      flow.ChatCompleted();
      flow.HandleReturnHome();
      ChatFrom(flow, nextConcern);
      stack, context := flow.stack, flow.concern;
      if !AllSpace(nextConcern) {
        var again := new ChatSession(flow.concern, store);
        again.Seed();
        restoredLog, restoredPhase, restoredRequests := again.messages, again.phase, again.completionRequests;
      }
    }
  }
}
