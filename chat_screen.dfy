/** The chat screen's consultation state machine. One `ChatSession` is one
    mounted chat screen: its state variables, its two refs (`seeded` and the
    single reply timer), and the effects that seed the log, restore and
    persist the session and leave for the completion screen. A timer firing
    is the method `FireReply`; the effects' cleanup is `Teardown`. */
module ChatScreen {
  import opened Optional
  import opened JsString
  import opened ChatLog
  import opened SessionStorage

  class ChatSession {
    /** The concern from the consultation context. */
    const concern: string
    /** The storage slot shared with the completion screen. */
    const store: SessionStore

    var messages: seq<Message>
    var phase: ChatPhase
    var inputValue: string
    /** Set once the log has been seeded or restored. */
    var seeded: bool
    /** The reply the one armed timer will deliver; None when no timer is armed. */
    var pending: Option<Reply>
    /** How often the completion effect has asked to replace this screen with `Completion`. */
    var completionRequests: nat

    /** What holds between any two events of a mounted chat screen: the slot
        holds the current messages and phase, an unseeded screen is still in
        its initial state, the armed reply is the one the phase waits for,
        text can only have been typed while input is accepted, and the
        completion screen has been requested exactly when the phase is
        `Completed`. */
    ghost predicate Valid()
      reads this, store
    {
      && store.slot == Some(Snapshot(messages, phase))
      && (!seeded ==> messages == [] && phase == WaitingClinicianFirst && pending == None)
      && (pending == Some(SecondReply) ==> phase == WaitingClinicianSecond)
      && (pending.Some? && pending.value.FirstReply? ==>
            pending.value == FirstReply(concern) && phase == WaitingClinicianFirst)
      && (InputLocked(phase) ==> inputValue == "")
      && completionRequests == (if phase == Completed then 1 else 0)
    }

    /** A seeded log has the shape of a conversation. It holds for every
        session this model builds, and for a restored one exactly when the
        stored snapshot had that shape. */
    ghost predicate Healthy()
      reads this
    {
      seeded ==> Conversation(messages, phase)
    }

    /** Mounting the screen. The initial state is an empty log in
        `WaitingClinicianFirst`; the stored session, when there is one, is
        restored and marks the screen seeded (the restore is taken to complete
        before the seeding effect runs); then the persistence effect writes
        the current messages and phase, and a restored `Completed` session
        asks for the completion screen at once. */
    constructor (concern: string, store: SessionStore)
      modifies store
      ensures this.concern == concern && this.store == store
      ensures Valid()
      ensures inputValue == "" && pending == None
      ensures old(store.slot) == None ==> messages == [] && phase == WaitingClinicianFirst && !seeded
      ensures old(store.slot).Some? ==>
        messages == old(store.slot).value.messages && phase == old(store.slot).value.phase && seeded
      ensures Healthy() <==> old(store.slot) == None || Conversation(messages, phase)
    {
      this.concern := concern;
      this.store := store;
      messages := [];
      phase := WaitingClinicianFirst;
      inputValue := "";
      seeded := false;
      pending := None;
      completionRequests := 0;
      new;
      var stored := store.Load();
      if stored.Some? {
        messages := stored.value.messages;
        phase := stored.value.phase;
        seeded := true;
      }
      store.Save(Snapshot(messages, phase));
      if phase == Completed {
        completionRequests := completionRequests + 1;
      }
    }

    /** The seeding effect: on an unseeded screen it puts the concern in the
        log as message `user-1` and arms the first reply; on a seeded one it
        does nothing. */
    method Seed()
      requires Valid()
      modifies this`messages, this`seeded, this`pending, store
      ensures Valid() && seeded
      ensures old(seeded) ==>
        messages == old(messages) && pending == old(pending) && store.slot == old(store.slot)
      ensures !old(seeded) ==>
        messages == old(messages) + [Message("user-1", User, concern)] && pending == Some(FirstReply(concern))
      ensures old(Healthy()) ==> Healthy()
    {
      if !seeded {
        seeded := true;
        messages := Opening(concern);
        pending := Some(FirstReply(concern));
        store.Save(Snapshot(messages, phase));
        OpeningIsConversation(concern);
      }
    }

    /** The effects' cleanup (unmount, or a change of concern): the armed
        timer, if any, is cleared and will never fire. */
    method Teardown()
      requires Valid()
      modifies this`pending
      ensures Valid() && pending == None
    {
      pending := None;
    }

    /** The armed timer fires: its clinician message is appended with id
        `clin-(n+1)` and the phase moves one step on; reaching `Completed`
        asks for the completion screen. The slot is overwritten with the new
        state. */
    method FireReply()
      requires Valid() && pending.Some?
      modifies this`messages, this`phase, this`pending, this`completionRequests, store
      ensures Valid() && pending == None
      ensures messages == Append(old(messages), Clinician, ReplyText(old(pending.value)))
      ensures phase == ReplyPhase(old(pending.value))
      ensures old(pending.value).FirstReply? ==>
        messages == old(messages) + [Message(MessageId(Clinician, |old(messages)| + 1), Clinician, FirstReplyText(concern))]
      ensures PhaseRank(phase) == PhaseRank(old(phase)) + 1
      ensures old(Healthy()) ==> Healthy()
    {
      var reply := pending.value;
      var wasCompleted := phase == Completed;
      if Conversation(messages, phase) {
        ReplyKeepsConversation(messages, reply);
      }
      messages := Append(messages, Clinician, ReplyText(reply));
      phase := ReplyPhase(reply);
      pending := None;
      store.Save(Snapshot(messages, phase));
      if phase == Completed && !wasCompleted {
        completionRequests := completionRequests + 1;
      }
    }

    /** Typing in the input: the field takes the text only while it is
        editable, that is while input is not locked. */
    method EditInput(text: string)
      requires Valid()
      modifies this`inputValue
      ensures Valid()
      ensures inputValue == if InputLocked(phase) then old(inputValue) else text
    {
      if !InputLocked(phase) {
        inputValue := text;
      }
    }

    /** `sendFollowUp`: ignored when the trimmed input is blank or input is
        locked; otherwise the trimmed text is appended as `user-(n+1)`, the
        input is cleared, the phase becomes `WaitingClinicianSecond` and the
        second reply is armed. This is the only way out of
        `AfterClinicianFirst`, so exactly one follow-up is accepted. */
    method SendFollowUp()
      requires Valid()
      modifies this`messages, this`phase, this`inputValue, this`pending, store
      ensures Valid()
      ensures SendDisabled(old(inputValue), old(phase)) ==>
        && messages == old(messages) && phase == old(phase) && inputValue == old(inputValue)
        && pending == old(pending) && store.slot == old(store.slot)
      ensures !SendDisabled(old(inputValue), old(phase)) ==>
        && old(phase) == AfterClinicianFirst && old(pending) == None
        && messages == Append(old(messages), User, Trim(old(inputValue)))
        && inputValue == "" && phase == WaitingClinicianSecond && pending == Some(SecondReply)
      ensures PhaseRank(old(phase)) <= PhaseRank(phase)
      ensures old(Healthy()) ==> Healthy()
    {
      if SendDisabled(inputValue, phase) {
        return;
      }
      var text := Trim(inputValue);
      AcceptedFollowUp(messages, phase, inputValue);
      messages := Append(messages, User, text);
      inputValue := "";
      phase := WaitingClinicianSecond;
      pending := Some(SecondReply);
      store.Save(Snapshot(messages, phase));
    }
  }

  /** The chat screen mounted on a fresh slot, seeded, and past the first
      reply: the log is the concern and the reply that quotes it, input is
      open and no timer is armed. */
  method OpenChat(store: SessionStore, concern: string) returns (session: ChatSession)
    requires store.slot == None
    modifies store
    ensures fresh(session) && session.store == store && session.Valid() && session.Healthy()
    ensures session.messages == [Message("user-1", User, concern), Message("clin-2", Clinician, FirstReplyText(concern))]
    ensures session.phase == AfterClinicianFirst && session.pending == None && session.seeded
  {
    MessageIdLiterals();
    session := new ChatSession(concern, store);
    session.Seed();
    assert session.messages == [Message("user-1", User, concern)];
    session.FireReply();
  }

  /** One consultation on a fresh slot: mount, seed, the first reply,
      typing a follow-up, sending it and, when it was accepted, the second
      reply; then the screen is left. */
  method Converse(store: SessionStore, concern: string, followUp: string)
    returns (log: seq<Message>, phase: ChatPhase, requests: nat)
    requires store.slot == None
    modifies store
    ensures store.slot == Some(Snapshot(log, phase))
    ensures Trim(followUp) != [] ==>
      && log == [Message("user-1", User, concern),
                 Message("clin-2", Clinician, FirstReplyText(concern)),
                 Message("user-3", User, Trim(followUp)),
                 Message("clin-4", Clinician, SecondReplyText)]
      && phase == Completed && requests == 1
    ensures Trim(followUp) == [] ==>
      && log == [Message("user-1", User, concern), Message("clin-2", Clinician, FirstReplyText(concern))]
      && phase == AfterClinicianFirst && requests == 0
    ensures Conversation(log, phase)
  {
    var session := OpenChat(store, concern);
    var opening := session.messages;
    session.EditInput(followUp);
    var t := Trim(followUp);
    session.SendFollowUp();
    if t != [] {
      MessageIdLiterals();
      assert session.messages == opening + [Message("user-3", User, t)];
      session.FireReply();
    } else {
      assert session.messages == opening && session.pending == None;
    }
    log, phase, requests := session.messages, session.phase, session.completionRequests;
    session.Teardown();
  }

  /** The consultation as the user sees it on a fresh store, followed by a
      second mount of the chat screen over the same slot: the remounted
      screen restores exactly the messages and phase that were saved and does
      not seed again. A blank follow-up is not accepted and the consultation
      stays in `AfterClinicianFirst`. */
  method HappyPath(concern: string, followUp: string)
    returns (log: seq<Message>, phase: ChatPhase, requests: nat,
             restoredLog: seq<Message>, restoredPhase: ChatPhase)
    ensures Trim(followUp) != [] ==>
      && log == [Message("user-1", User, concern),
                 Message("clin-2", Clinician, FirstReplyText(concern)),
                 Message("user-3", User, Trim(followUp)),
                 Message("clin-4", Clinician, SecondReplyText)]
      && phase == Completed && requests == 1
    ensures Trim(followUp) == [] ==>
      && log == [Message("user-1", User, concern), Message("clin-2", Clinician, FirstReplyText(concern))]
      && phase == AfterClinicianFirst && requests == 0
    ensures Conversation(log, phase)
    ensures restoredLog == log && restoredPhase == phase
  {
    var store := new SessionStore(None);
    log, phase, requests := Converse(store, concern, followUp);
    var again := new ChatSession(concern, store);
    again.Seed();
    restoredLog, restoredPhase := again.messages, again.phase;
  }
}
