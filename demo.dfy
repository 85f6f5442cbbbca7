/**
 * The question limit of the demo chat pages: a counter of submitted
 * questions kept in local storage under a per-page key, limited to 10, with
 * warning styles at 7 and 9 and a three-tick countdown that resets the
 * counter and returns to the main chat once the limit is hit.
 */
module DemoChatbot {
  import opened Wrappers
  import opened Text

  const MaxQuestions: int := 10
  const WarningThreshold: int := 7
  const CriticalThreshold: int := 9
  const CountdownStart: int := 3
  const MainChatPage: string := "/chatbot.html"

  /** Which demo page this is: `office-chatbot` on the body selects Office, anything else Fireside. */
  datatype ChatbotType = Office | Fireside

  function ChatbotTypeOf(bodyHasOfficeClass: bool): (t: ChatbotType)
    ensures t == Office <==> bodyHasOfficeClass
  {
    if bodyHasOfficeClass then Office else Fireside
  }

  function ChatbotName(t: ChatbotType): string
  {
    match t
    case Office => "office"
    case Fireside => "fireside"
  }

  const KeySuffix: string := "_question_count"

  /** The local-storage key of a page's counter. */
  function StorageKey(t: ChatbotType): (key: string)
    ensures key == "office_question_count" <==> t == Office
    ensures key == "fireside_question_count" <==> t == Fireside
  {
    ChatbotName(t) + KeySuffix
  }

  /** Each page has its own key, and each key ends in the common suffix. */
  lemma StorageKeysDistinct()
    ensures StorageKey(Office) == "office_question_count"
    ensures StorageKey(Fireside) == "fireside_question_count"
    ensures StorageKey(Office) != StorageKey(Fireside)
    ensures forall t :: StorageKey(t)[|StorageKey(t)| - |KeySuffix|..] == KeySuffix
  {
    assert StorageKey(Office)[0] != StorageKey(Fireside)[0];
  }

  /** The main chat page removes both demo counters and keeps every other entry. */
  function ClearDemoCounts(store: map<string, string>): (r: map<string, string>)
    ensures StorageKey(Office) !in r && StorageKey(Fireside) !in r
    ensures forall k :: k in store && k != StorageKey(Office) && k != StorageKey(Fireside) ==> k in r && r[k] == store[k]
    ensures forall k :: k in r ==> k in store
  {
    StorageKeysDistinct();
    store - {"office_question_count", "fireside_question_count"}
  }

  // ------------------------------------------------------------ the counter value

  /** The counter is a JS number: parseInt of a non-numeric stored value gives NaN. */
  datatype Counter = Count(n: int) | NotANumber

  /** `parseInt(localStorage.getItem(key) || '0')`: an absent or empty entry reads as 0. */
  function LoadCounter(store: map<string, string>, key: string): (c: Counter)
    ensures key !in store ==> c == Count(0)
  {
    var raw := if key in store && store[key] != "" then store[key] else "0";
    assert key !in store ==> raw == "0";
    match ParseInt(raw)
    case Some(n) => Count(n)
    case None => NotANumber
  }

  /** `questionCount.toString()`. */
  function CounterText(c: Counter): string
  {
    match c
    case Count(n) => IntToString(n)
    case NotANumber => "NaN"
  }

  /** A stored counter reads back as the counter that was stored, NaN included. */
  lemma {:induction false} LoadStoredCounter(store: map<string, string>, key: string, c: Counter)
    requires key in store && store[key] == CounterText(c)
    ensures LoadCounter(store, key) == c
  {
    if c.Count? {
      ParseIntToString(c.n);
      assert IntToString(c.n) != "" by {
        if c.n < 0 { assert IntToString(c.n)[0] == '-'; } else { assert |NatToString(c.n)| > 0; }
      }
    } else {
      var s := "NaN";
      assert !IsJsSpace(s[0]) && !IsDigit(s[0]);
      TrimStartKeeps(s);
      assert DigitRun(s) == 0;
    }
  }

  /** `count >= k` on a JS number: false for NaN. */
  predicate AtLeast(c: Counter, k: int)
  {
    c.Count? && c.n >= k
  }

  /** `questionCount++`: NaN stays NaN. */
  function Increment(c: Counter): (r: Counter)
    ensures c.Count? <==> r.Count?
    ensures c.Count? ==> r.n == c.n + 1
  {
    match c
    case Count(n) => Count(n + 1)
    case NotANumber => NotANumber
  }

  // ------------------------------------------------------------ display rules

  datatype CounterStyle = Plain | Warning | Critical

  /** The class the counter element carries after an update: exactly one of the three states. */
  function StyleFor(c: Counter): (s: CounterStyle)
    ensures s == Critical <==> AtLeast(c, CriticalThreshold)
    ensures s == Warning <==> AtLeast(c, WarningThreshold) && !AtLeast(c, CriticalThreshold)
    ensures s == Plain <==> !AtLeast(c, WarningThreshold)
  {
    if AtLeast(c, CriticalThreshold) then Critical
    else if AtLeast(c, WarningThreshold) then Warning
    else Plain
  }

  const LastQuestionWarning: string := "\U{26A0}\U{FE0F} You have only 1 question remaining in this demo!"

  /** The chat warning an update emits: one at exactly 7 reporting what remains, one at exactly 9. */
  function WarningFor(c: Counter): (w: Option<string>)
    ensures w.Some? <==> c == Count(WarningThreshold) || c == Count(CriticalThreshold)
    ensures c == Count(CriticalThreshold) ==> w == Some(LastQuestionWarning)
  {
    if c == Count(WarningThreshold) then
      Some("You have " + IntToString(MaxQuestions - c.n) + " questions remaining in this demo.")
    else if c == Count(CriticalThreshold) then Some(LastQuestionWarning)
    else None
  }

  /** The warning at 7 reports the three questions left. */
  lemma WarningAtSevenText()
    ensures WarningFor(Count(WarningThreshold)) == Some("You have " + "3" + " questions remaining in this demo.")
  {
    assert DigitChar(3) == '3';
    assert IntToString(MaxQuestions - WarningThreshold) == "3";
  }

  const OfficeWelcome: string :=
    "Welcome to the Office Assistant Demo! \U{1F3E2}<br><br>I'm here to help you with workplace queries. You have 10 questions to explore my capabilities. What would you like to know?"
  const FiresideWelcome: string :=
    "Welcome to the Fireside Chat Demo! \U{1F525}<br><br>Let's have a cozy conversation. You have 10 questions to explore this demo. What's on your mind?"

  /** The welcome paragraph's markup for each demo. */
  function WelcomeHtml(t: ChatbotType): string
  {
    match t
    case Office => OfficeWelcome
    case Fireside => FiresideWelcome
  }

  // ------------------------------------------------------------ the click handler as a step

  datatype SubmitResult = Ignored | Blocked | Counted

  /** The counter after one click of the submit handler: blank questions and clicks at the limit leave it. */
  function NextCount(c: Counter, question: string): (r: Counter)
  {
    if Trim(question) == "" || AtLeast(c, MaxQuestions) then c else Increment(c)
  }

  /** The number of questions that are not blank after trimming. */
  function NonBlank(questions: seq<string>): (n: nat)
    ensures n <= |questions|
  {
    if questions == [] then 0
    else NonBlank(questions[..|questions| - 1]) + (if Trim(questions[|questions| - 1]) == "" then 0 else 1)
  }

  /** The counter after a run of clicks. */
  function CountAfter(c: Counter, questions: seq<string>): Counter
  {
    if questions == [] then c
    else NextCount(CountAfter(c, questions[..|questions| - 1]), questions[|questions| - 1])
  }

  /**
   * From any count up to the limit, clicks count the non-blank questions
   * until the limit and never push the counter above it.
   */
  lemma {:induction false} CountNeverExceedsLimit(n: int, questions: seq<string>)
    requires n <= MaxQuestions
    ensures CountAfter(Count(n), questions) == Count(if n + NonBlank(questions) <= MaxQuestions then n + NonBlank(questions) else MaxQuestions)
  {
    if questions != [] {
      CountNeverExceedsLimit(n, questions[..|questions| - 1]);
    }
  }

  /** A NaN counter stays NaN, so the limit never applies to it. */
  lemma {:induction false} NotANumberNeverLimits(questions: seq<string>)
    ensures CountAfter(NotANumber, questions) == NotANumber
    ensures !AtLeast(CountAfter(NotANumber, questions), MaxQuestions)
  {
    if questions != [] {
      NotANumberNeverLimits(questions[..|questions| - 1]);
    }
  }

  // ------------------------------------------------------------ the page

  /** An element of the chat window: one already there, a warning, or the welcome message. */
  datatype ChatEntry = Existing | WarningEntry(text: string) | WelcomeEntry(html: string)

  class DemoCounter {
    const chatbot: ChatbotType
    // which optional page elements exist
    const hasCountDisplay: bool
    const hasCounterElement: bool
    const hasRedirectNotice: bool
    const hasChatWindow: bool

    var store: map<string, string>   // localStorage
    var count: Counter               // questionCount
    var shownCount: string           // the count display's text
    var style: CounterStyle          // the counter element's class
    var chatLog: seq<ChatEntry>      // the chat window's children
    var inputDisabled: bool          // the input and submit button
    var noticeShown: bool
    var countdown: int
    var intervalActive: bool
    var fallbackPending: bool        // the 2 s fallback timer
    var transitioningOut: bool
    var redirectScheduled: bool      // the 300 ms timer that navigates
    var location: Option<string>     // where the page navigated

    /** The key this page's counter lives under. */
    function Key(): string
      reads this
    {
      StorageKey(chatbot)
    }

    /** While the input is enabled no limit handling has started; a running countdown has 1 to 3 ticks left. */
    ghost predicate Valid()
      reads this
    {
      (!inputDisabled ==> !intervalActive && !fallbackPending && !noticeShown)
      && (intervalActive ==> 1 <= countdown <= CountdownStart && noticeShown && hasRedirectNotice)
      && (fallbackPending ==> !hasRedirectNotice)
    }

    /** The counter never shows more than the limit. */
    predicate Bounded()
      reads this
    {
      count.Count? ==> count.n <= MaxQuestions
    }

    /**
     * Page set-up: the counter is read from storage, the display updated, and
     * on a fresh counter an empty chat window gets the welcome message.
     */
    constructor (chatbot: ChatbotType, store: map<string, string>, hasCountDisplay: bool, hasCounterElement: bool,
                 hasRedirectNotice: bool, hasChatWindow: bool, existingChildren: nat)
      ensures Valid() && !inputDisabled && location.None? && !redirectScheduled && !transitioningOut
      ensures this.hasCountDisplay == hasCountDisplay && this.hasCounterElement == hasCounterElement
      ensures this.hasRedirectNotice == hasRedirectNotice && this.hasChatWindow == hasChatWindow
      ensures this.chatbot == chatbot && this.store == store && count == LoadCounter(store, StorageKey(chatbot))
      ensures hasCountDisplay ==> shownCount == CounterText(count)
      ensures hasCountDisplay && hasCounterElement ==> style == StyleFor(count)
      ensures var shown := if hasChatWindow then seq(existingChildren, _ => Existing) else [];
              var warned := if hasChatWindow && WarningFor(count).Some? then shown + [WarningEntry(WarningFor(count).value)] else shown;
              chatLog == if count == Count(0) && hasChatWindow && warned == [] then [WelcomeEntry(WelcomeHtml(chatbot))] else warned
    {
      this.chatbot := chatbot;
      this.hasCountDisplay := hasCountDisplay;
      this.hasCounterElement := hasCounterElement;
      this.hasRedirectNotice := hasRedirectNotice;
      this.hasChatWindow := hasChatWindow;
      this.store := store;
      count := LoadCounter(store, StorageKey(chatbot));
      shownCount, style := "", Plain;
      chatLog := if hasChatWindow then seq(existingChildren, _ => Existing) else [];
      inputDisabled, noticeShown, countdown, intervalActive := false, false, 0, false;
      fallbackPending, transitioningOut, redirectScheduled, location := false, false, false, None;
      new;
      UpdateQuestionCounter();
      if count == Count(0) && hasChatWindow && chatLog == [] {
        chatLog := chatLog + [WelcomeEntry(WelcomeHtml(chatbot))];
      }
    }

    /** updateQuestionCounter: the display shows the count, the style follows it, and 7 or 9 posts a warning. */
    method UpdateQuestionCounter()
      modifies this`shownCount, this`style, this`chatLog
      ensures shownCount == if hasCountDisplay then CounterText(count) else old(shownCount)
      ensures style == if hasCountDisplay && hasCounterElement then StyleFor(count) else old(style)
      ensures chatLog == if hasChatWindow && WarningFor(count).Some? then old(chatLog) + [WarningEntry(WarningFor(count).value)] else old(chatLog)
    {
      if hasCountDisplay {
        shownCount := CounterText(count);
        if hasCounterElement {
          style := StyleFor(count);
        }
      }
      var warning := WarningFor(count);
      if warning.Some? && hasChatWindow {
        chatLog := chatLog + [WarningEntry(warning.value)];
      }
    }

    /**
     * The capturing click handler on the submit button (a disabled button
     * delivers no click): blank questions are ignored, a click at the limit
     * starts limit handling, any other increments and stores the counter.
     */
    method Submit(question: string) returns (result: SubmitResult)
      requires Valid()
      modifies this`store, this`count, this`shownCount, this`style, this`chatLog
      modifies this`inputDisabled, this`noticeShown, this`countdown, this`intervalActive, this`fallbackPending
      ensures Valid()
      ensures result == if old(inputDisabled) || Trim(question) == "" then Ignored
                        else if AtLeast(old(count), MaxQuestions) then Blocked
                        else Counted
      ensures result != Counted ==> count == old(count) && store == old(store)
                                    && shownCount == old(shownCount) && style == old(style) && chatLog == old(chatLog)
      ensures result == Counted ==>
                shownCount == (if hasCountDisplay then CounterText(count) else old(shownCount))
                && style == (if hasCountDisplay && hasCounterElement then StyleFor(count) else old(style))
                && chatLog == if hasChatWindow && WarningFor(count).Some? then old(chatLog) + [WarningEntry(WarningFor(count).value)]
                              else old(chatLog)
      ensures result != Blocked ==> inputDisabled == old(inputDisabled) && noticeShown == old(noticeShown)
                                    && countdown == old(countdown) && intervalActive == old(intervalActive)
                                    && fallbackPending == old(fallbackPending)
      ensures !old(inputDisabled) ==> count == NextCount(old(count), question)
      ensures result == Counted ==> store == old(store)[Key() := CounterText(count)] && LoadCounter(store, Key()) == count
      ensures result == Blocked ==> inputDisabled && (fallbackPending <==> !hasRedirectNotice)
                                    && (intervalActive <==> hasRedirectNotice)
                                    && (hasRedirectNotice ==> noticeShown && countdown == CountdownStart)
      ensures old(Bounded()) ==> Bounded()
    {
      if inputDisabled || Trim(question) == "" {
        return Ignored;
      }
      if AtLeast(count, MaxQuestions) {
        HandleLimitReached();
        return Blocked;
      }
      count := Increment(count);
      store := store[Key() := CounterText(count)];
      LoadStoredCounter(store, Key(), count);
      UpdateQuestionCounter();
      return Counted;
    }

    /**
     * handleLimitReached: the input and button are disabled; with the redirect
     * notice present it is shown and a countdown from 3 starts, without it a
     * fallback timer is set.
     */
    method HandleLimitReached()
      requires Valid() && !inputDisabled
      modifies this`inputDisabled, this`noticeShown, this`countdown, this`intervalActive, this`fallbackPending
      ensures Valid() && inputDisabled
      ensures hasRedirectNotice ==> noticeShown && countdown == CountdownStart && intervalActive && !fallbackPending
      ensures !hasRedirectNotice ==> fallbackPending && !intervalActive && !noticeShown && countdown == old(countdown)
    {
      inputDisabled := true;
      if hasRedirectNotice {
        noticeShown := true;
        countdown := CountdownStart;
        intervalActive := true;
      } else {
        fallbackPending := true;
      }
    }

    /**
     * One countdown tick: the countdown drops by one; when it reaches zero the
     * interval stops, the counter is removed and the redirect scheduled.
     */
    method Tick()
      requires Valid() && intervalActive
      modifies this`countdown, this`intervalActive, this`store, this`transitioningOut, this`redirectScheduled
      ensures Valid()
      ensures countdown == old(countdown) - 1
      ensures intervalActive <==> countdown > 0
      ensures !intervalActive ==> store == old(store) - {Key()} && transitioningOut && redirectScheduled
      ensures intervalActive ==> store == old(store) && redirectScheduled == old(redirectScheduled)
                                 && transitioningOut == old(transitioningOut)
    {
      countdown := countdown - 1;
      if countdown <= 0 {
        intervalActive := false;
        store := store - {Key()};
        transitioningOut := true;
        redirectScheduled := true;
      }
    }

    /** The fallback timer: the counter is removed and the page navigates to the main chat. */
    method FallbackFires()
      requires Valid() && fallbackPending
      modifies this`fallbackPending, this`store, this`location
      ensures Valid() && !fallbackPending
      ensures store == old(store) - {Key()} && location == Some(MainChatPage)
    {
      fallbackPending := false;
      store := store - {Key()};
      location := Some(MainChatPage);
    }

    /** The scheduled navigation after the transition. */
    method RedirectFires()
      requires redirectScheduled
      modifies this`redirectScheduled, this`location
      ensures !redirectScheduled && location == Some(MainChatPage)
    {
      redirectScheduled := false;
      location := Some(MainChatPage);
    }

    /** The return button: the page transitions out, the counter is removed and navigation scheduled. */
    method ReturnClicked()
      modifies this`transitioningOut, this`store, this`redirectScheduled
      ensures transitioningOut && redirectScheduled && store == old(store) - {Key()}
      ensures LoadCounter(store, Key()) == Count(0)
    {
      transitioningOut := true;
      store := store - {Key()};
      redirectScheduled := true;
    }
  }

  /**
   * From a fresh counter with every page element present, ten questions get
   * through, the eleventh is blocked, and three ticks later the counter is
   * gone from storage and the redirect is scheduled.
   */
  method TenQuestionsThenRedirect(t: ChatbotType, question: string) returns (accepted: nat, blocked: bool, cleared: bool)
    requires question != [] && !IsJsSpace(question[0])
    ensures accepted == 10 && blocked && cleared
  {
    assert Trim(question) != "" by { TrimEmptyIff(question); }
    var d := new DemoCounter(t, map[], true, true, true, true, 0);
    accepted := 0;
    while accepted < 10
      invariant 0 <= accepted <= 10 && d.Valid() && !d.inputDisabled && d.count == Count(accepted)
      invariant d.hasRedirectNotice
    {
      var r := d.Submit(question);
      accepted := accepted + 1;
    }
    var r := d.Submit(question);
    blocked := r == Blocked;
    d.Tick();
    d.Tick();
    d.Tick();
    cleared := d.Key() !in d.store && d.redirectScheduled && !d.intervalActive;
  }
}
