/** The consultation flow around the chat: the concern and support type the
    consultation context holds, the concern/support screen, the provider
    screen's consent gate and mock payment, the video waiting room's one
    step, and the completion screen's three ways out. Navigation is kept as
    the route stack: `navigate` pushes, `replace` swaps the top route,
    `reset` installs the given stack. */
module ConsultFlow {
  import opened Optional
  import opened JsString
  import opened SessionStorage

  /** `'chat' | 'video'` */
  datatype SupportType = ChatSupport | VideoSupport

  datatype Route = Intro | ConcernSupport | Provider | Chat | VideoWaitingRoom | Completion

  /** `navigation.replace(r)` on a stack. */
  function ReplaceTop(stack: seq<Route>, r: Route): (s: seq<Route>)
    requires stack != []
    ensures |s| == |stack| && s[..|s| - 1] == stack[..|stack| - 1] && s[|s| - 1] == r
  {
    stack[..|stack| - 1] + [r]
  }

  /** Where the provider screen goes once payment completes: the chat for a
      chat consultation, the video waiting room otherwise, including when no
      support type was chosen. */
  function RouteAfterPayment(t: Option<SupportType>): (r: Route)
    ensures r == Chat <==> t == Some(ChatSupport)
    ensures r == Chat || r == VideoWaitingRoom
  {
    if t == Some(ChatSupport) then Chat else VideoWaitingRoom
  }

  /** The completion screen's title. */
  function CompletionTitle(t: Option<SupportType>): (title: string)
    ensures title == "Chat Complete" <==> t == Some(ChatSupport)
    ensures title == "Chat Complete" || title == "Consultation Complete"
  {
    if t == Some(ChatSupport) then "Chat Complete" else "Consultation Complete"
  }

  /** The consultation-type line of the completion screen's info card. */
  function ConsultationLabel(t: Option<SupportType>): (text: string)
    ensures text == "Chat Consultation" <==> t == Some(ChatSupport)
    ensures text == "Chat Consultation" || text == "Video Consultation"
  {
    if t == Some(ChatSupport) then "Chat Consultation" else "Video Consultation"
  }

  /** Title, label and payment routing all split on the same condition. */
  lemma SupportTypeTextsAgree(t: Option<SupportType>)
    ensures CompletionTitle(t) == "Chat Complete" <==> ConsultationLabel(t) == "Chat Consultation"
    ensures ConsultationLabel(t) == "Chat Consultation" <==> RouteAfterPayment(t) == Chat
  {
  }

  /** Confirm & Pay is disabled exactly while consent is not given. */
  function ConfirmPayDisabled(consent: bool): bool {
    !consent
  }

  /** Continue is enabled when the concern typed so far is not blank and a
      support type has been chosen. */
  function ContinueEnabled(localConcern: string, supportType: Option<SupportType>): (enabled: bool)
    ensures enabled <==> !AllSpace(localConcern) && supportType.Some?
  {
    TrimEmptyIff(localConcern);
    Trim(localConcern) != [] && supportType.Some?
  }

  /** The pay button's label. */
  function PayButtonLabel(isProcessing: bool): (text: string)
    ensures text == "Processing..." <==> isProcessing
  {
    if isProcessing then "Processing..." else "Complete Payment (Mock)"
  }

  // ---- the mock payment's price list ----

  const ConsultationFeeText: string := "$49.00"
  const ServiceFeeText: string := "$3.00"
  const TotalText: string := "$52.00"

  /** An amount of cents written as dollars: `$`, the whole dollars, a dot
      and two digits of cents. */
  function FormatCents(c: nat): string {
    "$" + NatToString(c / 100) + "." + [DigitChar(c % 100 / 10), DigitChar(c % 10)]
  }

  /** Reads `$D.DD` back as cents; None for anything else. */
  function ParseCents(s: string): Option<nat> {
    if |s| >= 5 && s[0] == '$' && s[|s| - 3] == '.'
       && AllDigits(s[1..|s| - 3]) && AllDigits(s[|s| - 2..])
    then Some(ParseDigits(s[1..|s| - 3]) * 100 + ParseDigits(s[|s| - 2..]))
    else None
  }

  /** Reading an amount back gives the amount. */
  lemma ParseFormatCents(c: nat)
    ensures ParseCents(FormatCents(c)) == Some(c)
  {
    var s := FormatCents(c);
    var d := NatToString(c / 100);
    var tail := [DigitChar(c % 100 / 10), DigitChar(c % 10)];
    assert s == "$" + d + "." + tail;
    assert s[1..|s| - 3] == d;
    assert s[|s| - 2..] == tail;
    var hi, lo := c % 100 / 10, c % 10;
    assert tail[..1] == [DigitChar(hi)] && [DigitChar(hi)][..0] == [];
    assert ParseDigits([DigitChar(hi)]) == hi;
    assert ParseDigits(tail) == hi * 10 + lo;
    assert c % 100 == hi * 10 + lo;
    ParseNatToString(c / 100);
  }

  /** The three amounts shown are 49.00, 3.00 and 52.00 dollars, and the
      total is the sum of the two fees. */
  lemma DisplayedFeesAddUp()
    ensures ConsultationFeeText == FormatCents(4900)
    ensures ServiceFeeText == FormatCents(300)
    ensures TotalText == FormatCents(4900 + 300)
    ensures ParseCents(TotalText).Some?
    ensures ParseCents(TotalText).value == ParseCents(ConsultationFeeText).value + ParseCents(ServiceFeeText).value
  {
    FeeTextsFormatted();
    ParseFormatCents(4900);
    ParseFormatCents(300);
    ParseFormatCents(5200);
  }

  /** The three shown amounts are `FormatCents` of 4900, 300 and 5200. */
  lemma FeeTextsFormatted()
    ensures ConsultationFeeText == FormatCents(4900)
    ensures ServiceFeeText == FormatCents(300)
    ensures TotalText == FormatCents(5200)
  {
    assert NatToString(49) == "49";
    assert NatToString(3) == "3";
    assert NatToString(52) == "52";
  }

  /** The state the flow's screens share (the consultation context's concern
      and support type, the route stack, the storage slot) and the local state
      of the concern/support screen and the provider screen. */
  class Flow {
    const store: SessionStore
    var concern: string
    var supportType: Option<SupportType>
    /** The concern/support screen's text field, initialised from `concern`. */
    var localConcern: string
    var consent: bool
    var showPayment: bool
    var isProcessing: bool
    /** The provider screen's 1200 ms payment timer is armed. */
    var paymentPending: bool
    var stack: seq<Route>

    function Top(): Route
      reads this
      requires stack != []
    {
      stack[|stack| - 1]
    }

    /** The stack is never empty, the processing flag is set exactly while
        the payment timer is armed, the payment view is only reached with
        consent, and the timer only runs under the provider screen's payment
        view. */
    ghost predicate Valid()
      reads this
    {
      && stack != []
      && (isProcessing <==> paymentPending)
      && (showPayment ==> consent)
      && (paymentPending ==> showPayment && Top() == Provider)
    }

    /** App start: the context holds an empty concern and no support type,
        and the stack holds the intro screen. */
    constructor (store: SessionStore)
      ensures Valid() && this.store == store
      ensures concern == "" && supportType == None && stack == [Intro]
      ensures !consent && !showPayment && !isProcessing && !paymentPending
    {
      this.store := store;
      concern := "";
      supportType := None;
      localConcern := "";
      consent := false;
      showPayment := false;
      isProcessing := false;
      paymentPending := false;
      stack := [Intro];
    }

    /** Either card of the intro screen: the concern/support screen is
        pushed and its field starts out holding the context's concern. */
    method OpenConcernSupport()
      requires Valid() && Top() == Intro
      modifies this`stack, this`localConcern
      ensures Valid()
      ensures stack == old(stack) + [ConcernSupport] && localConcern == concern
    {
      stack := stack + [ConcernSupport];
      localConcern := concern;
    }

    /** Typing in the concern field. */
    method EditConcern(text: string)
      requires Valid() && Top() == ConcernSupport
      modifies this`localConcern
      ensures Valid() && localConcern == text
    {
      localConcern := text;
    }

    /** `chooseType(t)`: records the support type; the concern is untouched. */
    method ChooseType(t: SupportType)
      requires Valid() && Top() == ConcernSupport
      modifies this`supportType
      ensures Valid() && supportType == Some(t)
    {
      supportType := Some(t);
    }

    /** `handleNext`: the trimmed concern goes into the context and the
        provider screen is pushed, with consent, payment view and processing
        all off. The stored concern is blank or has no white space at either
        end. */
    method HandleNext()
      requires Valid() && Top() == ConcernSupport
      modifies this`concern, this`stack, this`consent, this`showPayment, this`isProcessing
      ensures Valid()
      ensures concern == Trim(old(localConcern))
      ensures concern == [] || IsTrimmed(concern)
      ensures stack == old(stack) + [Provider]
      ensures !consent && !showPayment && !isProcessing
    {
      concern := Trim(localConcern);
      stack := stack + [Provider];
      consent, showPayment, isProcessing := false, false, false;
    }

    /** Pressing Continue, which is disabled unless `ContinueEnabled`; when
        it goes through, the stored concern is not blank. */
    method PressContinue()
      requires Valid() && Top() == ConcernSupport
      modifies this`concern, this`stack, this`consent, this`showPayment, this`isProcessing
      ensures Valid()
      ensures !ContinueEnabled(old(localConcern), old(supportType)) ==>
        concern == old(concern) && stack == old(stack) && consent == old(consent)
        && showPayment == old(showPayment) && isProcessing == old(isProcessing)
      ensures ContinueEnabled(old(localConcern), old(supportType)) ==>
        IsTrimmed(concern) && concern == Trim(old(localConcern)) && supportType.Some?
        && stack == old(stack) + [Provider]
        && !consent && !showPayment && !isProcessing
    {
      if ContinueEnabled(localConcern, supportType) {
        TrimEmptyIff(localConcern);
        HandleNext();
      }
    }

    /** Pressing the consent box negates consent. */
    method ToggleConsent()
      requires Valid() && Top() == Provider && !showPayment
      modifies this`consent
      ensures Valid() && consent == !old(consent)
    {
      consent := !consent;
    }

    /** `handleConfirmPay` (Confirm & Pay, disabled without consent): the
        payment view is shown only with consent; otherwise nothing changes. */
    method HandleConfirmPay()
      requires Valid() && Top() == Provider && !showPayment
      modifies this`showPayment
      ensures Valid()
      ensures showPayment <==> consent
    {
      if consent {
        showPayment := true;
      }
    }

    /** Pressing Confirm & Pay, which is disabled unless consent is given:
        a disabled press changes nothing, an enabled one opens the payment
        view. */
    method PressConfirmPay()
      requires Valid() && Top() == Provider && !showPayment
      modifies this`showPayment
      ensures Valid()
      ensures showPayment <==> !ConfirmPayDisabled(old(consent))
    {
      if !ConfirmPayDisabled(consent) {
        HandleConfirmPay();
      }
    }

    /** `handleConfirm`, from the pay button, which is disabled while
        processing: with consent the processing flag is set and the payment
        timer is armed. The code's no-consent guard is kept, but it cannot
        fire here: the payment view is open, and `Valid()` gives consent
        whenever it is. */
    method HandleConfirm()
      requires Valid() && Top() == Provider && showPayment && !isProcessing
      modifies this`isProcessing, this`paymentPending
      ensures Valid()
      ensures !old(consent) ==> !isProcessing && !paymentPending
      ensures old(consent) ==> isProcessing && paymentPending
    {
      if !consent {
        return;
      }
      isProcessing := true;
      paymentPending := true;
    }

    /** The payment timer fires: processing ends and the provider screen is
        replaced by the chat for a chat consultation and by the video waiting
        room otherwise. */
    method FirePaymentTimer()
      requires Valid() && paymentPending
      modifies this`isProcessing, this`paymentPending, this`stack
      ensures Valid()
      ensures !isProcessing && !paymentPending
      ensures stack == ReplaceTop(old(stack), RouteAfterPayment(supportType))
      ensures Top() == Chat <==> supportType == Some(ChatSupport)
    {
      isProcessing := false;
      paymentPending := false;
      stack := ReplaceTop(stack, RouteAfterPayment(supportType));
    }

    /** The chat screen's completion effect, on reaching `Completed`: the
        chat is replaced by the completion screen. */
    method ChatCompleted()
      requires Valid() && Top() == Chat
      modifies this`stack
      ensures Valid() && stack == ReplaceTop(old(stack), Completion)
    {
      stack := ReplaceTop(stack, Completion);
    }

    /** Ending (or skipping) the video call: the support type becomes video
        and the waiting room is replaced by the completion screen. */
    method CompleteVideo()
      requires Valid() && Top() == VideoWaitingRoom
      modifies this`supportType, this`stack
      ensures Valid() && supportType == Some(VideoSupport)
      ensures stack == ReplaceTop(old(stack), Completion)
    {
      supportType := Some(VideoSupport);
      stack := ReplaceTop(stack, Completion);
    }

    /** "Start Another Chat": the stored chat session is removed and the
        stack becomes exactly the concern/support screen, whose field starts
        out holding the context's concern again. */
    method HandleStartNewChat()
      requires Valid() && Top() == Completion
      modifies this`stack, this`localConcern, store
      ensures Valid()
      ensures store.slot == None && stack == [ConcernSupport] && localConcern == concern
    {
      store.Clear();
      stack := [ConcernSupport];
      localConcern := concern;
    }

    /** "Book Video Consult": the stored chat session is removed and the
        completion screen is replaced by the video waiting room. */
    method HandleBookVideo()
      requires Valid() && Top() == Completion
      modifies this`stack, store
      ensures Valid()
      ensures store.slot == None && stack == ReplaceTop(old(stack), VideoWaitingRoom)
    {
      store.Clear();
      stack := ReplaceTop(stack, VideoWaitingRoom);
    }

    /** "Return to Home": the stack becomes exactly the intro screen; the
        stored chat session stays where it is. */
    method HandleReturnHome()
      requires Valid() && Top() == Completion
      modifies this`stack
      ensures Valid() && stack == [Intro]
    {
      stack := [Intro];
    }
  }
}
