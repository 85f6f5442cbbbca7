/**
 * The main chat page: the markup a message is rendered to, and the state of
 * the screening flow, the switch to question-and-answer mode, and the
 * streamed answer.
 */
module MainChat {
  import opened Wrappers
  import opened Text

  // ------------------------------------------------------------ rendering

  /** appendMessage's rewrite chain: `<` and `>` first, then newlines. */
  function Render(text: string): (html: string)
    ensures '\n' !in html
    ensures |html| == |text| + 3 * (Count(text, '<') + Count(text, '>') + Count(text, '\n'))
  {
    var lt := ReplaceChar(text, '<', "&lt;");
    var gt := ReplaceChar(lt, '>', "&gt;");
    ReplaceRemoves(gt, '\n', "<br>");
    ReplaceLength(text, '<', "&lt;");
    ReplaceLength(lt, '>', "&gt;");
    ReplaceLength(gt, '\n', "<br>");
    ReplaceKeepsCount(text, '<', "&lt;", '>');
    ReplaceKeepsCount(text, '<', "&lt;", '\n');
    ReplaceKeepsCount(lt, '>', "&gt;", '\n');
    ReplaceChar(gt, '\n', "<br>")
  }

  /** What one input character becomes. */
  function RenderChar(c: char): string
  {
    if c == '<' then "&lt;" else if c == '>' then "&gt;" else if c == '\n' then "<br>" else [c]
  }

  /** Rendering defined character by character, as a reference. */
  function RenderEach(text: string): string
  {
    if text == [] then [] else RenderChar(text[0]) + RenderEach(text[1..])
  }

  /** Rendering distributes over concatenation. */
  lemma RenderAppend(a: string, b: string)
    ensures Render(a + b) == Render(a) + Render(b)
  {
    ReplaceAppend(a, b, '<', "&lt;");
    ReplaceAppend(ReplaceChar(a, '<', "&lt;"), ReplaceChar(b, '<', "&lt;"), '>', "&gt;");
    ReplaceAppend(ReplaceChar(ReplaceChar(a, '<', "&lt;"), '>', "&gt;"),
                  ReplaceChar(ReplaceChar(b, '<', "&lt;"), '>', "&gt;"), '\n', "<br>");
  }

  lemma RenderOne(c: char)
    ensures Render([c]) == RenderChar(c)
  {
    assert [c][1..] == [];
    if c == '<' {
      assert ReplaceChar([c], '<', "&lt;") == "&lt;";
      ReplaceAbsent("&lt;", '>', "&gt;");
      ReplaceAbsent("&lt;", '\n', "<br>");
    } else if c == '>' {
      assert ReplaceChar([c], '<', "&lt;") == [c];
      assert ReplaceChar([c], '>', "&gt;") == "&gt;";
      ReplaceAbsent("&gt;", '\n', "<br>");
    } else if c == '\n' {
      assert ReplaceChar([c], '<', "&lt;") == [c];
      assert ReplaceChar([c], '>', "&gt;") == [c];
      assert ReplaceChar([c], '\n', "<br>") == "<br>";
    } else {
      assert ReplaceChar([c], '<', "&lt;") == [c];
      assert ReplaceChar([c], '>', "&gt;") == [c];
      assert ReplaceChar([c], '\n', "<br>") == [c];
    }
  }

  /** The chain of three global replaces is the same as rewriting each character on its own. */
  lemma {:induction false} RenderIsCharwise(text: string)
    ensures Render(text) == RenderEach(text)
  {
    if text != [] {
      assert text == [text[0]] + text[1..];
      RenderAppend([text[0]], text[1..]);
      RenderOne(text[0]);
      RenderIsCharwise(text[1..]);
    }
  }

  lemma {:induction false} BracketsOnlyInBreaksEach(text: string)
    ensures BracketsInBreaks(RenderEach(text))
  {
    if text != [] {
      BracketsOnlyInBreaksEach(text[1..]);
      var head := RenderChar(text[0]);
      assert BracketsInBreaks(head) by {
        if text[0] == '\n' {
          assert head == "<br>";
          assert head[..4] == head;
        }
      }
      BracketsConcat(head, RenderEach(text[1..]));
    }
  }

  /**
   * Every `<` and `>` in a rendered message belongs to an inserted `<br>`:
   * the message cannot open or close any other tag.
   */
  lemma BracketsOnlyInBreaks(text: string)
    ensures var html := Render(text);
            forall i :: 0 <= i < |html| && html[i] == '<' ==> i + 4 <= |html| && html[i..i + 4] == "<br>"
    ensures var html := Render(text);
            forall i :: 0 <= i < |html| && html[i] == '>' ==> 3 <= i && html[i - 3..i + 1] == "<br>"
  {
    RenderIsCharwise(text);
    BracketsOnlyInBreaksEach(text);
    assert BracketsInBreaks(Render(text));
  }

  lemma RenderCharCounts(x: char)
    ensures Count(RenderChar(x), '<') == (if x == '\n' then 1 else 0)
    ensures Count(RenderChar(x), '>') == (if x == '\n' then 1 else 0)
    ensures Count(RenderChar(x), '&') == (if x == '&' || x == '<' || x == '>' then 1 else 0)
  {
    if x == '<' {
      assert RenderChar(x) == "&lt;";
    } else if x == '>' {
      assert RenderChar(x) == "&gt;";
      assert Count("&gt;", '<') == 0 && Count("&gt;", '>') == 0 && Count("&gt;", '&') == 1;
    } else if x == '\n' {
      assert RenderChar(x) == "<br>";
      assert Count("<br>", '<') == 1 && Count("<br>", '>') == 1 && Count("<br>", '&') == 0;
    } else {
      assert RenderChar(x) == [x] && [x][1..] == [];
    }
  }

  lemma {:induction false} RenderEachCounts(text: string)
    ensures Count(RenderEach(text), '<') == Count(text, '\n')
    ensures Count(RenderEach(text), '>') == Count(text, '\n')
    ensures Count(RenderEach(text), '&') == Count(text, '&') + Count(text, '<') + Count(text, '>')
  {
    if text != [] {
      RenderEachCounts(text[1..]);
      RenderCharCounts(text[0]);
      CountAppend(RenderChar(text[0]), RenderEach(text[1..]), '<');
      CountAppend(RenderChar(text[0]), RenderEach(text[1..]), '>');
      CountAppend(RenderChar(text[0]), RenderEach(text[1..]), '&');
    }
  }

  /**
   * The rendered message has one `<` (so one `<br>`) per newline of the
   * text, and `&` is not escaped: the only new ones come from `&lt;` and `&gt;`.
   */
  lemma RenderCounts(text: string)
    ensures Count(Render(text), '<') == Count(text, '\n')
    ensures Count(Render(text), '>') == Count(text, '\n')
    ensures Count(Render(text), '&') == Count(text, '&') + Count(text, '<') + Count(text, '>')
  {
    RenderIsCharwise(text);
    RenderEachCounts(text);
  }

  /** Text without `<`, `>` or newlines is rendered as it is. */
  lemma RenderPlain(text: string)
    requires '<' !in text && '>' !in text && '\n' !in text
    ensures Render(text) == text
  {
    ReplaceAbsent(text, '<', "&lt;");
    ReplaceAbsent(text, '>', "&gt;");
    ReplaceAbsent(text, '\n', "<br>");
  }

  /** A streamed fragment's markup: only newlines are rewritten. */
  function FragmentHtml(content: string): string
  {
    ReplaceChar(content, '\n', "<br>")
  }

  /** The markup an element's content reads back as through innerHTML. */
  function HtmlOf(c: Content): string
  {
    match c
    case Markup(html) => html
    case PlainText(text) => EscapeText(text)
  }

  /** The paragraph's textContent is exactly "..." (recognised for these two forms). */
  predicate IsEllipsis(c: Content)
  {
    c == PlainText("...") || c == Markup("...")
  }

  // ------------------------------------------------------------ chat state

  datatype Sender = User | Bot

  /** An option button: the key it answers with, its caption, and its state. */
  datatype OptionButton = OptionButton(key: string, caption: string, disabled: bool, selected: bool)

  /** A chat bubble: its sender, the text appendMessage was given, and any option buttons under it. */
  datatype Bubble = Bubble(sender: Sender, text: string, options: seq<OptionButton>)

  /** The markup of a bubble's paragraph. */
  function BubbleHtml(b: Bubble): string
  {
    Render(b.text)
  }

  /**
   * A screening step; `options` is None when the step has none (any object,
   * even empty, counts as options). The pairs are `Object.entries(options)`
   * in its order: integer-like keys first in ascending order, then the other
   * keys in insertion order.
   */
  datatype Step = Step(stepId: string, message: string, options: Option<seq<(string, string)>>)

  /** The reply to `/api/init`. */
  datatype InitReply = InitOk(sessionId: string, nextStep: Option<Step>) | InitFailed

  /** The reply to `/api/screening/continue`. */
  datatype ScreeningReply = ScreeningOk(transitionTo: Option<string>, message: string, nextStep: Option<Step>) | ScreeningFailed

  /** One event of the answer stream. */
  datatype StreamEvent = Token(content: string) | Answer(content: string) | Sources | End | Error(content: string) | OtherType

  /** Where a submitted question went. */
  datatype Route = NotSent | ToQnA(question: string) | ToScreening(response: string)

  const InitFailure: string := "Sorry, I couldn't start our conversation. Please refresh the page."
  const ScreeningFailure: string := "I'm sorry, I encountered an error. Please try refreshing."
  const ConnectionFailure: string := "Sorry, I encountered an error. Please check the server connection and try again."

  /** The buttons of a step's options, in order, all enabled. */
  function Buttons(options: seq<(string, string)>): seq<OptionButton>
  {
    seq(|options|, k requires 0 <= k < |options| => OptionButton(options[k].0, options[k].1, false, false))
  }

  /** After a click on button `k` every button of the group is disabled and `k` is selected. */
  function AfterClick(bs: seq<OptionButton>, k: nat): (r: seq<OptionButton>)
    requires k < |bs|
    ensures |r| == |bs| && r[k].selected
    ensures forall j :: 0 <= j < |r| ==> r[j].disabled && r[j].key == bs[j].key && r[j].caption == bs[j].caption
    ensures forall j :: 0 <= j < |r| && j != k ==> r[j].selected == bs[j].selected
  {
    seq(|bs|, j requires 0 <= j < |bs| => bs[j].(disabled := true, selected := bs[j].selected || j == k))
  }

  /** A fresh group clicked on button `k`: all disabled, only `k` selected, keys and captions in option order. */
  lemma ClickFreshGroup(options: seq<(string, string)>, k: nat)
    requires k < |options|
    ensures var r := AfterClick(Buttons(options), k);
            |r| == |options|
            && forall j :: 0 <= j < |r| ==>
                 r[j].disabled && r[j].key == options[j].0 && r[j].caption == options[j].1 && (r[j].selected <==> j == k)
  {
  }

  /** The bubble renderStep adds for a step: its message and, when it has options, their buttons. */
  function StepBubble(step: Step): (b: Bubble)
    ensures b.sender == Bot && b.text == step.message
    ensures step.options.None? ==> b.options == []
    ensures step.options.Some? ==> |b.options| == |step.options.value|
  {
    Bubble(Bot, step.message, if step.options.Some? then Buttons(step.options.value) else [])
  }

  class ScreeningChat {
    var sessionId: Option<string>
    var currentStepId: Option<string>
    var isQnAMode: bool
    var inputShown: bool       // the input and the button are displayed
    var loading: bool          // setUiLoading: input and button disabled
    var input: string
    var messages: seq<Bubble>
    var reply: Content         // the paragraph of the answer being streamed
    var replyError: bool
    var streamOpen: bool

    /** A stream is only ever opened in question-and-answer mode. */
    predicate Valid()
      reads this
    {
      streamOpen ==> isQnAMode
    }

    /** Page start: screening mode, no step yet, input disabled while the session is fetched. */
    constructor ()
      ensures Valid() && !isQnAMode && currentStepId.None? && sessionId.None?
      ensures loading && inputShown && input == "" && messages == [] && !streamOpen
    {
      sessionId, currentStepId, isQnAMode := None, None, false;
      inputShown, loading, input, messages := true, true, "", [];
      reply, replyError, streamOpen := PlainText(""), false, false;
    }

    /**
     * renderStep: the step id is recorded and its message shown; a step with
     * options shows its buttons and hides the input, one without shows and
     * enables the input.
     */
    method RenderStep(step: Step)
      modifies this`currentStepId, this`messages, this`inputShown, this`loading
      ensures currentStepId == Some(step.stepId)
      ensures messages == old(messages) + [StepBubble(step)]
      ensures step.options.Some? ==> !inputShown && loading == old(loading)
      ensures step.options.None? ==> inputShown && !loading
    {
      currentStepId := Some(step.stepId);
      messages := messages + [StepBubble(step)];
      if step.options.Some? {
        inputShown := false;
      } else {
        inputShown := true;
        loading := false;
      }
    }

    /** The reply to the initial fetch: the session is recorded and its first step rendered. */
    method OnInitReply(r: InitReply)
      requires Valid()
      modifies this`sessionId, this`currentStepId, this`messages, this`inputShown, this`loading
      ensures Valid()
      ensures r.InitOk? ==> sessionId == Some(r.sessionId)
      ensures r.InitOk? && r.nextStep.Some? ==>
                currentStepId == Some(r.nextStep.value.stepId) && messages == old(messages) + [StepBubble(r.nextStep.value)]
                && (r.nextStep.value.options.Some? ==> !inputShown && loading == old(loading))
                && (r.nextStep.value.options.None? ==> inputShown && !loading)
      ensures r.InitOk? && r.nextStep.None? ==>
                messages == old(messages) && currentStepId == old(currentStepId)
                && inputShown == old(inputShown) && loading == old(loading)
      ensures r.InitFailed? ==>
                messages == old(messages) + [Bubble(Bot, InitFailure, [])] && sessionId == old(sessionId)
                && currentStepId == old(currentStepId) && inputShown == old(inputShown) && loading == old(loading)
    {
      if r.InitFailed? {
        messages := messages + [Bubble(Bot, InitFailure, [])];
        return;
      }
      sessionId := Some(r.sessionId);
      if r.nextStep.Some? {
        RenderStep(r.nextStep.value);
      }
    }

    /**
     * handleScreeningResponse, up to the request: the response (always a
     * string: typed text or an option key) is shown and the input disabled.
     */
    method HandleScreeningResponse(response: string)
      modifies this`messages, this`loading
      ensures messages == old(messages) + [Bubble(User, response, [])] && loading
    {
      messages := messages + [Bubble(User, response, [])];
      loading := true;
    }

    /**
     * The screening reply: a transition to `qna` wins over a next step; a
     * reply with neither changes nothing; a failure shows an apology.
     */
    method OnScreeningReply(r: ScreeningReply)
      requires Valid()
      modifies this`isQnAMode, this`currentStepId, this`messages, this`inputShown, this`loading
      ensures Valid()
      ensures isQnAMode <==> old(isQnAMode) || (r.ScreeningOk? && r.transitionTo == Some("qna"))
      ensures r.ScreeningOk? && r.transitionTo == Some("qna") ==>
                messages == old(messages) + [Bubble(Bot, r.message, [])] && inputShown && !loading
                && currentStepId == old(currentStepId)
      ensures r.ScreeningOk? && r.transitionTo != Some("qna") && r.nextStep.Some? ==>
                currentStepId == Some(r.nextStep.value.stepId) && messages == old(messages) + [StepBubble(r.nextStep.value)]
                && (r.nextStep.value.options.Some? ==> !inputShown && loading == old(loading))
                && (r.nextStep.value.options.None? ==> inputShown && !loading)
      ensures r.ScreeningOk? && r.transitionTo != Some("qna") && r.nextStep.None? ==>
                messages == old(messages) && loading == old(loading) && currentStepId == old(currentStepId)
                && inputShown == old(inputShown)
      ensures r.ScreeningFailed? ==>
                messages == old(messages) + [Bubble(Bot, ScreeningFailure, [])]
                && currentStepId == old(currentStepId) && inputShown == old(inputShown) && loading == old(loading)
    {
      if r.ScreeningFailed? {
        messages := messages + [Bubble(Bot, ScreeningFailure, [])];
      } else if r.transitionTo == Some("qna") {
        EnterQnAMode(r.message);
      } else if r.nextStep.Some? {
        RenderStep(r.nextStep.value);
      }
    }

    /** enterQnAMode: the mode switches for good, the confirmation is shown and the input enabled. */
    method EnterQnAMode(confirmation: string)
      modifies this`isQnAMode, this`messages, this`inputShown, this`loading
      ensures isQnAMode && inputShown && !loading
      ensures messages == old(messages) + [Bubble(Bot, confirmation, [])]
    {
      isQnAMode := true;
      messages := messages + [Bubble(Bot, confirmation, [])];
      inputShown := true;
      loading := false;
    }

    /** A click on an enabled option button: its key is sent as the response, and its group is disabled. */
    method OptionClicked(m: nat, k: nat)
      requires m < |messages| && k < |messages[m].options| && !messages[m].options[k].disabled
      modifies this`messages, this`loading
      ensures loading
      ensures |messages| == |old(messages)| + 1
      ensures messages[|old(messages)|] == Bubble(User, old(messages)[m].options[k].key, [])
      ensures messages[m] == old(messages)[m].(options := AfterClick(old(messages)[m].options, k))
      ensures forall j :: 0 <= j < |old(messages)| && j != m ==> messages[j] == old(messages)[j]
    {
      var bubble := messages[m];
      HandleScreeningResponse(bubble.options[k].key);
      messages := messages[m := bubble.(options := AfterClick(bubble.options, k))];
    }

    /**
     * handleQnAResponse, up to the stream opening: the question is shown,
     * the input disabled, and an empty bot paragraph added for the answer.
     */
    method HandleQnAResponse(question: string)
      requires isQnAMode
      modifies this`messages, this`loading, this`reply, this`replyError, this`streamOpen
      ensures messages == old(messages) + [Bubble(User, question, []), Bubble(Bot, "...", [])]
      ensures loading && streamOpen && reply == PlainText("") && !replyError
    {
      messages := messages + [Bubble(User, question, [])];
      loading := true;
      messages := messages + [Bubble(Bot, "...", [])];
      reply := PlainText("");  // the "..." is cleared at once
      replyError := false;
      streamOpen := true;
    }

    /**
     * The submit click (a hidden or disabled button delivers none): a blank
     * question is ignored; otherwise it goes to the answer stream exactly in
     * question-and-answer mode, else to the screening flow, and the input is cleared.
     */
    method Submit() returns (route: Route)
      requires Valid()
      modifies this`input, this`messages, this`loading, this`reply, this`replyError, this`streamOpen
      ensures Valid()
      ensures isQnAMode == old(isQnAMode)
      ensures route == if !old(inputShown) || old(loading) || Trim(old(input)) == "" then NotSent
                       else if old(isQnAMode) then ToQnA(Trim(old(input)))
                       else ToScreening(Trim(old(input)))
      ensures route.NotSent? ==> input == old(input) && messages == old(messages) && loading == old(loading)
                                 && reply == old(reply) && replyError == old(replyError) && streamOpen == old(streamOpen)
      ensures !route.NotSent? ==> input == "" && loading
      ensures route.ToQnA? ==> streamOpen && reply == PlainText("") && !replyError
                               && messages == old(messages) + [Bubble(User, route.question, []), Bubble(Bot, "...", [])]
      ensures route.ToScreening? ==> messages == old(messages) + [Bubble(User, route.response, [])]
                                     && streamOpen == old(streamOpen) && reply == old(reply) && replyError == old(replyError)
    {
      if !inputShown || loading {
        return NotSent;
      }
      var question := Trim(input);
      if question == "" {
        return NotSent;
      }
      if isQnAMode {
        HandleQnAResponse(question);
        route := ToQnA(question);
      } else {
        HandleScreeningResponse(question);
        route := ToScreening(question);
      }
      input := "";
    }

    /**
     * One stream event: a token is appended (clearing a lone "..."), an
     * answer replaces the paragraph, an error replaces it with its text and
     * closes the stream, `end` closes it leaving the text, and `sources` or
     * any other type changes nothing.
     */
    method OnStreamEvent(event: StreamEvent)
      requires Valid() && streamOpen
      modifies this`reply, this`replyError, this`streamOpen, this`loading
      ensures Valid()
      ensures event.Token? ==> reply == Markup((if IsEllipsis(old(reply)) then "" else HtmlOf(old(reply))) + FragmentHtml(event.content))
      ensures event.Answer? ==> reply == Markup(FragmentHtml(event.content))
      ensures event.Error? ==> reply == PlainText(event.content) && replyError
      ensures event.End? || event.Sources? || event.OtherType? ==> reply == old(reply) && replyError == old(replyError)
      ensures event.Token? || event.Answer? ==> replyError == old(replyError)
      ensures streamOpen <==> !(event.End? || event.Error?)
      ensures loading == if event.End? || event.Error? then false else old(loading)
    {
      match event
      case Token(content) =>
        if IsEllipsis(reply) {
          reply := PlainText("");
        }
        reply := Markup(HtmlOf(reply) + FragmentHtml(content));
      case Answer(content) =>
        reply := Markup(FragmentHtml(content));
      case Sources =>
      case End =>
        streamOpen := false;
        loading := false;
      case Error(content) =>
        reply := PlainText(content);
        replyError := true;
        streamOpen := false;
        loading := false;
      case OtherType =>
    }

    /** The stream's error event: the paragraph shows the connection apology and the stream closes. */
    method OnStreamFailure()
      requires Valid() && streamOpen
      modifies this`reply, this`streamOpen, this`loading
      ensures Valid()
      ensures reply == PlainText(ConnectionFailure) && !streamOpen && !loading
    {
      reply := PlainText(ConnectionFailure);
      streamOpen := false;
      loading := false;
    }
  }

  /**
   * The reply text after a run of stream events (the reference for a whole
   * stream): tokens append, an answer replaces, an error replaces with text.
   */
  function ReplyAfter(start: Content, events: seq<StreamEvent>): Content
  {
    if events == [] then start
    else
      var before := ReplyAfter(start, events[..|events| - 1]);
      match events[|events| - 1]
      case Token(content) => Markup((if IsEllipsis(before) then "" else HtmlOf(before)) + FragmentHtml(content))
      case Answer(content) => Markup(FragmentHtml(content))
      case Error(content) => PlainText(content)
      case _ => before
  }

  /** Tokens alone, from an empty paragraph, build the concatenation of their fragments. */
  function Fragments(events: seq<StreamEvent>): string
  {
    if events == [] then ""
    else Fragments(events[..|events| - 1]) + (if events[|events| - 1].Token? then FragmentHtml(events[|events| - 1].content) else "")
  }

  /** No prefix of the stream's fragments reads exactly "...". */
  predicate NoTextEllipsis(events: seq<StreamEvent>)
  {
    Fragments(events) != "..." && (events != [] ==> NoTextEllipsis(events[..|events| - 1]))
  }

  /**
   * A stream of tokens and non-text events into an empty paragraph shows the
   * concatenation of the token fragments (as long as no prefix of it reads
   * exactly "...").
   */
  lemma {:induction false} TokensConcatenate(events: seq<StreamEvent>)
    requires forall k :: 0 <= k < |events| ==> events[k].Token? || events[k].Sources? || events[k].End? || events[k].OtherType?
    requires NoTextEllipsis(events)
    ensures HtmlOf(ReplyAfter(PlainText(""), events)) == Fragments(events)
  {
    if events != [] {
      var init := events[..|events| - 1];
      TokensConcatenate(init);
    }
  }
}
