/**
 * The chat session state machine (App.tsx). `ChatSession` holds the state
 * the app component keeps, and each handler is a method. A handler that
 * awaits or sets a timer is split at the suspension point: the send handler
 * into `SendMessage` (up to the await) and `CompleteWithReply` /
 * `CompleteWithError` (after it), and each timer callback is its own method
 * (`OpeningMessageFires`, `BlockTimerFires`). Clock readings (message ids
 * and timestamps) are parameters.
 */
module App {
  import opened Types
  import opened Gateway

  const PartnerName := "Partnerim"
  const MaleAvatar := "https://picsum.photos/seed/male_partner/200"
  const FemaleAvatar := "https://picsum.photos/seed/female_partner/200"
  const InitialId := "initial"
  const InitialText := "Neredesin sen? Yarım saattir mesaj atmanı bekliyorum."
  /** The notice shown for a key error. */
  const KeyNotice := "Bağlantı kısıtlı. LinkedIn/Mobil tarayıcı uyumluluğu için anahtarı yenileyin."
  /** The increment used when the reply's increment is 0 or missing. */
  const DefaultIncrement := 5
  const MaxIrritation := 100

  /** A `setTimeout` callback that has been registered and has not fired yet. */
  datatype Timer = OpeningMessage | BlockTransition

  /**
   * A gateway call that has been issued and not yet settled, with the values
   * its closure captured when the message was sent.
   */
  datatype Request = Request(message: string, irritationAtSend: int, gender: string, partnerName: string)

  /** The whole state of a session, as one value. */
  datatype SessionState = SessionState(
    status: GameStatus,
    partner: Option<Partner>,
    messages: seq<Message>,
    irritationLevel: int,
    inputValue: string,
    isTyping: bool,
    showEmojiPicker: bool,
    errorState: Option<string>,
    inFlight: Option<Request>,
    timers: multiset<Timer>)

  /** The avatar picture is chosen by gender alone. */
  function AvatarFor(g: Gender): string {
    if g == Male then MaleAvatar else FemaleAvatar
  }

  /** `partner?.gender || 'Bilinmiyor'`, the gender passed to the gateway. */
  function GenderLabel(p: Option<Partner>): string {
    if p.Some? && p.value.gender.Value() != "" then p.value.gender.Value() else "Bilinmiyor"
  }

  /** `partner?.name || 'Partner'`, the name passed to the gateway. */
  function NameLabel(p: Option<Partner>): string {
    if p.Some? && p.value.name != "" then p.value.name else "Partner"
  }

  /** The send guard: a non-blank input, a game in progress and no reply pending. */
  predicate SendAllowed(input: string, status: GameStatus, isTyping: bool) {
    Trim(input) != "" && status == Playing && !isTyping
  }

  /**
   * `result.irritationIncrement || 5`: a missing or zero increment counts as
   * 5, any other increment (a negative one too) is taken as it is.
   */
  function EffectiveIncrement(inc: Option<int>): (d: int)
    ensures d != 0
    ensures inc.Some? && inc.value != 0 ==> d == inc.value
    ensures inc.None? || inc.value == 0 ==> d == DefaultIncrement
  {
    match inc
    case Some(n) => if n != 0 then n else DefaultIncrement
    case None => DefaultIncrement
  }

  /**
   * `Math.max(0, Math.min(100, level + (inc || 5)))`: the sum clamped into
   * [0, 100]; it is the sum itself whenever the sum already lies in range.
   */
  function NewIrritation(level: int, inc: Option<int>): (r: int)
    ensures 0 <= r <= MaxIrritation
    ensures 0 <= level + EffectiveIncrement(inc) <= MaxIrritation ==> r == level + EffectiveIncrement(inc)
    ensures level + EffectiveIncrement(inc) > MaxIrritation ==> r == MaxIrritation
    ensures level + EffectiveIncrement(inc) < 0 ==> r == 0
  {
    var sum := level + EffectiveIncrement(inc);
    if sum > MaxIrritation then MaxIrritation else if sum < 0 then 0 else sum
  }

  /** The error messages for which the key notice is shown. */
  predicate IsKeyError(message: string) {
    message == ApiKeyNotFound || message == ApiKeyMissing
  }

  class ChatSession {
    var status: GameStatus
    var partner: Option<Partner>
    var messages: seq<Message>
    var irritationLevel: int
    var inputValue: string
    var isTyping: bool
    var showEmojiPicker: bool
    var errorState: Option<string>
    /** The gateway call being awaited, if any. */
    var inFlight: Option<Request>
    /** The timer callbacks registered and not yet fired; none is ever cancelled. */
    var timers: multiset<Timer>

    function State(): SessionState
      reads this
    {
      SessionState(status, partner, messages, irritationLevel, inputValue, isTyping,
                   showEmojiPicker, errorState, inFlight, timers)
    }

    /**
     * The irritation level stays in [0, 100]; the typing flag is set exactly
     * while a gateway call is awaited, so at most one is ever in flight.
     */
    ghost predicate Valid()
      reads this
    {
      && 0 <= irritationLevel <= MaxIrritation
      && isTyping == inFlight.Some?
      && (inFlight.Some? ==> 0 <= inFlight.value.irritationAtSend <= MaxIrritation)
    }

    /** The state at app start. */
    constructor ()
      ensures Valid()
      ensures State() == SessionState(Selection, None, [], 0, "", false, false, None, None, multiset{})
    {
      status := Selection;
      partner := None;
      messages := [];
      irritationLevel := 0;
      inputValue := "";
      isTyping := false;
      showEmojiPicker := false;
      errorState := None;
      inFlight := None;
      timers := multiset{};
    }

    /**
     * `handlePartnerSelect`: a partner named 'Partnerim' with the avatar of
     * the chosen gender; the game starts, the notice is cleared and the
     * opening-message timer is registered. The handler has no status guard.
     */
    method SelectPartner(g: Gender)
      requires Valid()
      modifies this
      ensures Valid()
      ensures State() == old(State()).(partner := Some(Partner(PartnerName, g, AvatarFor(g))),
                                       status := Playing, errorState := None,
                                       timers := old(timers) + multiset{OpeningMessage})
    {
      partner := Some(Partner(PartnerName, g, AvatarFor(g)));
      status := Playing;
      errorState := None;
      timers := timers + multiset{OpeningMessage};
    }

    /**
     * The opening-message timer fires: the message list becomes exactly the
     * partner's fixed opening line, discarding whatever it held.
     */
    method OpeningMessageFires(now: int)
      requires Valid() && OpeningMessage in timers
      modifies this
      ensures Valid()
      ensures State() == old(State()).(messages := [Message(InitialId, InitialText, FromPartner, now)],
                                       timers := old(timers) - multiset{OpeningMessage})
    {
      messages := [Message(InitialId, InitialText, FromPartner, now)];
      timers := timers - multiset{OpeningMessage};
    }

    /**
     * `handleSendMessage` up to the await. A blank input, a status other
     * than PLAYING or a pending reply leaves everything unchanged. Otherwise
     * one user message with the trimmed input is appended, the input is
     * cleared, the emoji picker closed, the notice cleared, the typing flag
     * set, and the gateway call issued with the current irritation.
     */
    method SendMessage(id: string, now: int) returns (accepted: bool)
      requires Valid()
      modifies this
      ensures Valid()
      ensures accepted == SendAllowed(old(inputValue), old(status), old(isTyping))
      ensures !accepted ==> State() == old(State())
      ensures accepted ==> State() == old(State()).(
                messages := old(messages) + [Message(id, Trim(old(inputValue)), FromUser, now)],
                inputValue := "", showEmojiPicker := false, isTyping := true, errorState := None,
                inFlight := Some(Request(Trim(old(inputValue)), old(irritationLevel),
                                         GenderLabel(old(partner)), NameLabel(old(partner)))))
    {
      var messageText := Trim(inputValue);
      if messageText == "" || status != Playing || isTyping {
        return false;
      }
      messages := messages + [Message(id, messageText, FromUser, now)];
      inputValue := "";
      showEmojiPicker := false;
      isTyping := true;
      errorState := None;
      inFlight := Some(Request(messageText, irritationLevel, GenderLabel(partner), NameLabel(partner)));
      accepted := true;
    }

    /**
     * The gateway call resolves: typing stops, one partner message with the
     * reply is appended, the irritation becomes the clamped sum of the level
     * captured at send time and the effective increment, and the block timer
     * is registered exactly when that reaches 100.
     */
    method CompleteWithReply(result: PartnerReply, id: string, now: int)
      requires Valid() && inFlight.Some?
      modifies this
      ensures Valid()
      ensures State() == old(State()).(
                isTyping := false, inFlight := None,
                messages := old(messages) + [Message(id, result.reply, FromPartner, now)],
                irritationLevel := NewIrritation(old(inFlight).value.irritationAtSend, result.irritationIncrement),
                timers := if NewIrritation(old(inFlight).value.irritationAtSend, result.irritationIncrement) >= MaxIrritation
                          then old(timers) + multiset{BlockTransition} else old(timers))
    {
      isTyping := false;
      messages := messages + [Message(id, result.reply, FromPartner, now)];
      var newIrritation := NewIrritation(inFlight.value.irritationAtSend, result.irritationIncrement);
      irritationLevel := newIrritation;
      if newIrritation >= MaxIrritation {
        timers := timers + multiset{BlockTransition};
      }
      inFlight := None;
    }

    /**
     * The gateway call rejects: typing stops; messages, irritation and status
     * stay as they are; the key notice is set for a key error and the notice
     * is left alone for any other.
     */
    method CompleteWithError(message: string)
      requires Valid() && inFlight.Some?
      modifies this
      ensures Valid()
      ensures State() == old(State()).(
                isTyping := false, inFlight := None,
                errorState := if IsKeyError(message) then Some(KeyNotice) else old(errorState))
    {
      isTyping := false;
      inFlight := None;
      if IsKeyError(message) {
        errorState := Some(KeyNotice);
      }
    }

    /** The block timer fires: the status becomes BLOCKED and nothing else changes. */
    method BlockTimerFires()
      requires Valid() && BlockTransition in timers
      modifies this
      ensures Valid()
      ensures State() == old(State()).(status := Blocked, timers := old(timers) - multiset{BlockTransition})
    {
      status := Blocked;
      timers := timers - multiset{BlockTransition};
    }

    /** `handleEmojiSelect`: the emoji is appended to the input. */
    method SelectEmoji(emoji: string)
      requires Valid()
      modifies this
      ensures Valid()
      ensures State() == old(State()).(inputValue := old(inputValue) + emoji)
    {
      inputValue := inputValue + emoji;
    }

    /** The input field's change handler: the input becomes what was typed. */
    method EditInput(value: string)
      requires Valid()
      modifies this
      ensures Valid()
      ensures State() == old(State()).(inputValue := value)
    {
      inputValue := value;
    }

    /** The emoji button flips the picker. */
    method ToggleEmojiPicker()
      requires Valid()
      modifies this
      ensures Valid()
      ensures State() == old(State()).(showEmojiPicker := !old(showEmojiPicker))
    {
      showEmojiPicker := !showEmojiPicker;
    }

    /** A click on the chat area, the picker's close button or focus on the input closes the picker. */
    method CloseEmojiPicker()
      requires Valid()
      modifies this
      ensures Valid()
      ensures State() == old(State()).(showEmojiPicker := false)
    {
      showEmojiPicker := false;
    }

    /**
     * `restartGame`: back to selection with no partner, no messages,
     * irritation 0, an empty input, the picker closed and no notice. The
     * typing flag, a call in flight and registered timers are kept.
     */
    method Restart()
      requires Valid()
      modifies this
      ensures Valid()
      ensures State() == old(State()).(status := Selection, partner := None, messages := [],
                                       irritationLevel := 0, inputValue := "",
                                       showEmojiPicker := false, errorState := None)
    {
      status := Selection;
      partner := None;
      messages := [];
      irritationLevel := 0;
      inputValue := "";
      showEmojiPicker := false;
      errorState := None;
    }
  }

  // ---------------------------------------------------------------------------
  // Properties of the irritation update

  /** A zero or missing increment counts as 5. */
  lemma FalsyIncrementCountsAsDefault()
    ensures NewIrritation(0, None) == DefaultIncrement
    ensures forall level :: 0 <= level <= MaxIrritation - DefaultIncrement ==>
              NewIrritation(level, Some(0)) == NewIrritation(level, None) == level + DefaultIncrement
  {
  }

  /** A non-negative (or defaulted) increment never lowers an in-range level. */
  lemma NonNegativeIncrementNeverLowers(level: int, inc: Option<int>)
    requires 0 <= level <= MaxIrritation
    requires inc.None? || inc.value >= 0
    ensures level <= NewIrritation(level, inc)
  {
  }

  /** The update is not floored at the old level: a negative increment lowers it. */
  lemma NegativeIncrementLowers(level: int, n: int)
    requires 0 < level <= MaxIrritation && n < 0
    ensures NewIrritation(level, Some(n)) < level
    ensures NewIrritation(level, Some(n)) == if level + n < 0 then 0 else level + n
  {
  }

  /** The block is scheduled exactly when the unclamped sum reaches 100. */
  lemma BlockIffSumReachesLimit(level: int, inc: Option<int>)
    ensures NewIrritation(level, inc) >= MaxIrritation <==> level + EffectiveIncrement(inc) >= MaxIrritation
  {
  }

  /**
   * The gateway's own fallbacks raise an in-range level by exactly their
   * fixed increments, 3 for a pool reply and 5 for raw text, up to 100.
   */
  lemma FallbackRepliesRaiseIrritation(level: int, pick: nat, text: string)
    requires 0 <= level <= MaxIrritation && pick < |TripPool|
    ensures NewIrritation(level, PoolReply(pick).irritationIncrement)
            == if level + PoolIncrement > MaxIrritation then MaxIrritation else level + PoolIncrement
    ensures NewIrritation(level, RawTextReply(text).irritationIncrement)
            == if level + RawTextIncrement > MaxIrritation then MaxIrritation else level + RawTextIncrement
  {
  }

  /**
   * The turn of the end-to-end scenario: a male partner is chosen, the
   * opening line arrives, "Selam" is sent and the reply "Peki" with
   * increment 7 comes back.
   */
  method EndToEnd() returns (s: ChatSession)
    ensures fresh(s) && s.Valid()
    ensures s.status == Playing && !s.isTyping && s.irritationLevel == 7
    ensures |s.messages| == 3 && s.messages[0].id == InitialId
    ensures s.messages[1].sender == FromUser && s.messages[1].text == "Selam"
    ensures s.messages[2].sender == FromPartner && s.messages[2].text == "Peki"
    ensures s.timers == multiset{}
  {
    s := new ChatSession();
    s.SelectPartner(Male);
    s.OpeningMessageFires(1000);
    s.EditInput("Selam");
    assert Trim("Selam") == "Selam" by {
      assert TrimStart("Selam") == "Selam";
      assert TrimEnd("Selam") == "Selam";
    }
    var accepted := s.SendMessage("2000", 2000);
    assert accepted && s.isTyping;
    s.CompleteWithReply(PartnerReply("Peki", Some(7)), "3001", 3000);
  }
}
