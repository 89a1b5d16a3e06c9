/** The values of the chat consultation: messages, the four-phase
    `ChatPhase`, the persisted snapshot, the reply the single timer will
    deliver, the rules by which the log grows, and the read model the chat
    screen derives from the phase. */
module ChatLog {
  import opened JsString

  datatype Sender = User | Clinician

  /** `{ id, from, text }`; never mutated once in the log. */
  datatype Message = Message(id: string, from: Sender, text: string)

  /** The phases of the consultation, in the order it goes through them. */
  datatype ChatPhase = WaitingClinicianFirst | AfterClinicianFirst | WaitingClinicianSecond | Completed

  /** What the storage slot holds: `{ messages, phase }`. */
  datatype Snapshot = Snapshot(messages: seq<Message>, phase: ChatPhase)

  /** What the armed timer will deliver when it fires: the first reply
      quotes the concern captured when it was armed. */
  datatype Reply = FirstReply(concern: string) | SecondReply

  /** Position of a phase in the consultation; it never goes down. */
  function PhaseRank(p: ChatPhase): (k: nat)
    ensures k < 4
    ensures p == WaitingClinicianFirst <==> k == 0
    ensures p == Completed <==> k == 3
  {
    match p
    case WaitingClinicianFirst => 0
    case AfterClinicianFirst => 1
    case WaitingClinicianSecond => 2
    case Completed => 3
  }

  /** `user-${n}` or `clin-${n}`, where n is the message's 1-based position:
      five characters naming the sender, then the position in decimal. */
  function MessageId(from: Sender, n: nat): (id: string)
    ensures |id| > 5
    ensures id[..5] == "user-" <==> from == User
    ensures from == Clinician ==> id[..5] == "clin-"
  {
    var prefix := if from == User then "user-" else "clin-";
    assert ("user-")[0] == 'u' && ("clin-")[0] == 'c';
    assert (prefix + NatToString(n))[..5] == prefix;
    prefix + NatToString(n)
  }

  /** What follows the five-character prefix of an id is all digits, and
      they read back as the position. */
  lemma MessageIdReadsBack(from: Sender, n: nat)
    ensures AllDigits(MessageId(from, n)[5..]) && ParseDigits(MessageId(from, n)[5..]) == n
  {
    var prefix := if from == User then "user-" else "clin-";
    assert MessageId(from, n) == prefix + NatToString(n);
    assert MessageId(from, n)[5..] == NatToString(n);
    ParseNatToString(n);
  }

  /** An id names its sender and its position, so no two positions share one. */
  lemma MessageIdInjective(a: Sender, m: nat, b: Sender, n: nat)
    ensures MessageId(a, m) == MessageId(b, n) ==> a == b && m == n
  {
    MessageIdReadsBack(a, m);
    MessageIdReadsBack(b, n);
  }

  /** The four ids of a completed consultation, spelled out. */
  lemma MessageIdLiterals()
    ensures MessageId(User, 1) == "user-1" && MessageId(Clinician, 2) == "clin-2"
    ensures MessageId(User, 3) == "user-3" && MessageId(Clinician, 4) == "clin-4"
  {
  }

  const SecondReplyText: string :=
    "Thank you for the information. Here are next steps and when to seek in-person care."

  /** The first clinician reply, which quotes the concern. */
  function FirstReplyText(concern: string): (t: string)
    ensures |t| == |concern| + 64
    ensures t[39..39 + |concern|] == concern
  {
    "Thanks for sharing your concern about \"" + concern + "\". I have a few thoughts."
  }

  /** The clinician text a reply delivers: the first reply quotes the
      concern, the second is the fixed 83-character closing text. */
  function ReplyText(r: Reply): (t: string)
    ensures r.FirstReply? ==> |t| == |r.concern| + 64 && t[39..39 + |r.concern|] == r.concern
    ensures r == SecondReply ==> t == SecondReplyText && |t| == 83
  {
    match r
    case FirstReply(c) => FirstReplyText(c)
    case SecondReply => SecondReplyText
  }

  /** The phase a reply moves the consultation to: the first reply opens
      the one input phase, the second ends the consultation. */
  function ReplyPhase(r: Reply): (q: ChatPhase)
    ensures PhaseRank(q) == if r.FirstReply? then 1 else 3
    ensures !InputLocked(q) <==> r.FirstReply?
  {
    match r
    case FirstReply(_) => AfterClinicianFirst
    case SecondReply => Completed
  }

  /** Appends one message from `from` whose id is derived from the new
      length of the log. Nothing earlier in the log changes. */
  function Append(log: seq<Message>, from: Sender, text: string): (r: seq<Message>)
    ensures |r| == |log| + 1 && r[..|log|] == log
    ensures r[|log|].from == from && r[|log|].text == text
    ensures WellFormedIds(log) ==> WellFormedIds(r)
  {
    log + [Message(MessageId(from, |log| + 1), from, text)]
  }

  /** The log a fresh consultation is seeded with: the concern as the first
      user message. */
  function Opening(concern: string): (r: seq<Message>)
    ensures r == [Message("user-1", User, concern)]
  {
    MessageIdLiterals();
    Append([], User, concern)
  }

  /** Every id is `user-n` or `clin-n` for the message's own sender and
      1-based position. */
  predicate WellFormedIds(log: seq<Message>) {
    forall i :: 0 <= i < |log| ==> log[i].id == MessageId(log[i].from, i + 1)
  }

  /** Ids derived from positions are pairwise distinct (they are list keys). */
  lemma DistinctIds(log: seq<Message>)
    requires WellFormedIds(log)
    ensures forall i, j :: 0 <= i < j < |log| ==> log[i].id != log[j].id
  {
    forall i, j | 0 <= i < j < |log|
      ensures log[i].id != log[j].id
    {
      MessageIdInjective(log[i].from, i + 1, log[j].from, j + 1);
    }
  }

  /** Rounds alternate: user at even positions, clinician at odd ones. */
  predicate Alternates(log: seq<Message>) {
    forall i :: 0 <= i < |log| ==> log[i].from == (if i % 2 == 0 then User else Clinician)
  }

  /** How many messages the log holds in each phase of a seeded consultation. */
  function LogLength(p: ChatPhase): (n: nat)
    ensures n == PhaseRank(p) + 1
  {
    match p
    case WaitingClinicianFirst => 1
    case AfterClinicianFirst => 2
    case WaitingClinicianSecond => 3
    case Completed => 4
  }

  /** The shape of every seeded consultation: the log length matches the
      phase, senders alternate starting with the user, ids follow positions,
      and the follow-up is trimmed and not blank. */
  predicate Conversation(log: seq<Message>, p: ChatPhase) {
    && |log| == LogLength(p)
    && WellFormedIds(log)
    && Alternates(log)
    && (|log| > 2 ==> IsTrimmed(log[2].text))
  }

  /** Seeding starts a conversation in `WaitingClinicianFirst`. */
  lemma OpeningIsConversation(concern: string)
    ensures Conversation(Opening(concern), WaitingClinicianFirst)
  {
    MessageIdLiterals();
  }

  /** A clinician reply in a waiting phase keeps the conversation shape and
      moves to the next phase. */
  lemma ReplyKeepsConversation(log: seq<Message>, r: Reply)
    requires Conversation(log, if r.FirstReply? then WaitingClinicianFirst else WaitingClinicianSecond)
    ensures Conversation(Append(log, Clinician, ReplyText(r)), ReplyPhase(r))
  {
    var log' := Append(log, Clinician, ReplyText(r));
    if |log| > 2 {
      assert log'[2] == log[2] by { assert log'[..|log|] == log; }
    }
  }

  /** The accepted follow-up keeps the conversation shape. */
  lemma FollowUpKeepsConversation(log: seq<Message>, t: string)
    requires Conversation(log, AfterClinicianFirst)
    requires IsTrimmed(t)
    ensures Conversation(Append(log, User, t), WaitingClinicianSecond)
  {
    var log' := Append(log, User, t);
    assert log'[2].text == t;
    assert |log'| == 3;
    assert log'[0] == log[0] && log'[1] == log[1];
    assert log'[2].from == User;
  }

  /** A follow-up the send button lets through is sent in
      `AfterClinicianFirst`, its trimmed text is trimmed, and it keeps the
      conversation shape. */
  lemma AcceptedFollowUp(log: seq<Message>, p: ChatPhase, input: string)
    requires !SendDisabled(input, p)
    ensures p == AfterClinicianFirst && IsTrimmed(Trim(input))
    ensures Conversation(log, p) ==> Conversation(Append(log, User, Trim(input)), WaitingClinicianSecond)
  {
    if Conversation(log, p) {
      FollowUpKeepsConversation(log, Trim(input));
    }
  }

  /** A completed conversation is user, clinician, user, clinician with ids
      `user-1`, `clin-2`, `user-3`, `clin-4`, all distinct. */
  lemma CompletedConversation(log: seq<Message>)
    requires Conversation(log, Completed)
    ensures |log| == 4
    ensures log[0].from == User && log[1].from == Clinician && log[2].from == User && log[3].from == Clinician
    ensures log[0].id == "user-1" && log[1].id == "clin-2" && log[2].id == "user-3" && log[3].id == "clin-4"
    ensures forall i, j :: 0 <= i < j < |log| ==> log[i].id != log[j].id
  {
    MessageIdLiterals();
    DistinctIds(log);
  }

  // ---- read model ----

  /** The text input is locked in every phase but `AfterClinicianFirst`. */
  function InputLocked(p: ChatPhase): (locked: bool)
    ensures locked <==> p != AfterClinicianFirst
  {
    p == WaitingClinicianFirst || p == WaitingClinicianSecond || p == Completed
  }

  /** The line shown under the message list: the follow-up invitation
      exactly while input is accepted, "Chat complete." exactly at the end. */
  function HelperText(p: ChatPhase): (t: string)
    ensures t == "You can send one follow-up message." <==> !InputLocked(p)
    ensures t == "Chat complete." <==> p == Completed
    ensures |t| > 0 && t[|t| - 1] == (if p == Completed || p == AfterClinicianFirst then '.' else '…')
  {
    assert |"Waiting for clinician reply…"| == 28;
    assert |"You can send one follow-up message."| == 35;
    assert |"Follow-up sent. Waiting for clinician reply…"| == 44;
    assert |"Chat complete."| == 14;
    match p
    case WaitingClinicianFirst => "Waiting for clinician reply…"
    case AfterClinicianFirst => "You can send one follow-up message."
    case WaitingClinicianSecond => "Follow-up sent. Waiting for clinician reply…"
    case Completed => "Chat complete."
  }

  /** Each phase has its own helper text, so the text tells the phase. */
  lemma HelperTextInjective(p: ChatPhase, q: ChatPhase)
    ensures HelperText(p) == HelperText(q) ==> p == q
  {
    if p != q {
      assert |HelperText(WaitingClinicianFirst)| == 28;
      assert |HelperText(AfterClinicianFirst)| == 35;
      assert |HelperText(WaitingClinicianSecond)| == 44;
      assert |HelperText(Completed)| == 14;
    }
  }

  /** The message counter in the header. */
  function CounterText(p: ChatPhase): (t: string)
    ensures t == "1 of 2" <==> p == AfterClinicianFirst
    ensures t == "1 of 2" || t == "2 of 2"
  {
    if p == AfterClinicianFirst then "1 of 2" else "2 of 2"
  }

  /** The placeholder of the text input. */
  function Placeholder(p: ChatPhase): (t: string)
    ensures t == "Type your follow-up…" <==> !InputLocked(p)
  {
    if p == AfterClinicianFirst then "Type your follow-up…" else "Waiting for clinician…"
  }

  /** The input bar is rendered until the consultation is completed. */
  function InputBarShown(p: ChatPhase): (shown: bool)
    ensures !shown ==> InputLocked(p)
    ensures shown <==> PhaseRank(p) < 3
  {
    p != Completed
  }

  /** The send button is disabled, and `sendFollowUp` ignores the press,
      when the input is blank after trimming or the input is locked. */
  function SendDisabled(input: string, p: ChatPhase): (disabled: bool)
    ensures disabled <==> AllSpace(input) || p != AfterClinicianFirst
  {
    TrimEmptyIff(input);
    Trim(input) == [] || InputLocked(p)
  }

  /** The counter, the placeholder and the send button agree on the one
      phase that accepts input. */
  lemma ReadModelAgrees(p: ChatPhase, input: string)
    ensures CounterText(p) == "1 of 2" <==> !InputLocked(p)
    ensures !SendDisabled(input, p) ==> CounterText(p) == "1 of 2" && InputBarShown(p)
    ensures HelperText(p) == "You can send one follow-up message." <==> !InputLocked(p)
  {
    HelperTextInjective(p, AfterClinicianFirst);
  }
}
