/** script.js: the module-level state of one page (`slides`, `currentSlideIndex`,
    `responses` and the disabled flags of the previous/next buttons) and the
    handlers that change it, each proved against the transition it implements. */
module Session {
  import opened Js
  import opened Utils
  import opened Accumulator
  import opened SlideDeck

  /** How a data-channel message ends. */
  datatype Status =
    | Handled                   // the table was updated
    | Unhandled                 // a message type the handler does not know
    | Threw                     // a TypeError escapes the handler
    | Delivered(outcome: Outcome) // text.done: handleAIResponse ran
    | ErrorAlert(body: string)  // an `error` event: a danger alert with this body

  /** `msg.error?.message || "Unknown error"`: never empty, and the message itself
      whenever there is a non-empty one. */
  function ErrorBody(message: Option<string>): (body: string)
    ensures body != ""
    ensures message.Some? && message.value != "" ==> body == message.value
    ensures message.None? || message.value == "" ==> body == "Unknown error"
  {
    if message.Some? && message.value != "" then message.value else "Unknown error"
  }

  class Session {
    var slides: seq<Slide>
    var currentSlideIndex: int
    var responses: Table
    var prevDisabled: bool
    var nextDisabled: bool

    /** The deck part of the state. */
    function View(): Deck
      reads this
    {
      Deck(slides, currentSlideIndex, prevDisabled, nextDisabled)
    }

    ghost predicate Valid()
      reads this
    {
      WellFormed(View()) && FiledById(responses)
    }

    /** The page as loaded: no slides, index -1, an empty table; the buttons keep
        whatever disabled state the markup gives them. */
    constructor (prevDisabled: bool, nextDisabled: bool)
      ensures Valid()
      ensures slides == [] && currentSlideIndex == -1 && responses == map[]
      ensures this.prevDisabled == prevDisabled && this.nextDisabled == nextDisabled
    {
      slides := [];
      currentSlideIndex := -1;
      responses := map[];
      this.prevDisabled := prevDisabled;
      this.nextDisabled := nextDisabled;
    }

    /** The state change of startRecording: the response table is emptied and
        nothing else changes (the rest of it is connection setup). */
    method StartRecording()
      requires Valid()
      modifies this
      ensures Valid()
      ensures responses == map[]
      ensures View() == old(View())
    {
      responses := map[];
    }

    /** navigateSlide(direction). */
    method NavigateSlide(direction: int)
      requires Valid()
      modifies this
      ensures Valid()
      ensures View() == Navigate(old(View()), direction)
      ensures responses == old(responses)
    {
      var newIndex := currentSlideIndex + direction;
      if newIndex >= 0 && newIndex < |slides| {
        currentSlideIndex := newIndex;
        if Renderable(slides[currentSlideIndex]) {
          prevDisabled := currentSlideIndex == 0;
          nextDisabled := currentSlideIndex == |slides| - 1;
        }
      }
    }

    /** handleAIResponse(responseText); `timestamp` stands for the clock read. */
    method HandleAIResponse(responseText: Option<string>, parse: Parser, timestamp: string)
      returns (outcome: Outcome)
      requires Valid()
      modifies this
      ensures Valid()
      ensures View() == Intake(old(View()), responseText, parse, timestamp)
      ensures outcome == OutcomeOf(Decide(responseText, parse))
      ensures responses == old(responses)
    {
      if responseText.None? || Trim(responseText.value) == "" {
        return Ignored;
      }
      var jsonMatch := BraceSpan(responseText.value);
      if jsonMatch.None? {
        return NoJsonAlert;
      }
      var slideData := parse(jsonMatch.value);
      if slideData.None? {
        return MalformedAlert;
      }
      var title, content := Get(slideData.value, "title"), Get(slideData.value, "content");
      if !Truthy(title) || !Truthy(content) {
        return MalformedAlert;
      }
      slides := slides + [Slide(title, content, timestamp)];
      currentSlideIndex := |slides| - 1;
      if !Renderable(slides[currentSlideIndex]) {
        // markdownToHtml throws in the preview; the catch block reports malformed JSON
        return MalformedAlert;
      }
      prevDisabled := |slides| <= 1;
      nextDisabled := true;
      outcome := SlideCreated;
    }

    /** dataChannel.onmessage for one parsed message. */
    method OnMessage(msg: Msg, parse: Parser, timestamp: string) returns (status: Status)
      requires Valid()
      modifies this
      ensures Valid()
      ensures Apply(old(responses), msg).None? ==>
        responses == old(responses) && View() == old(View()) && status == Threw
      ensures Apply(old(responses), msg).Some? ==> responses == Apply(old(responses), msg).value
      ensures KindOf(msg.eventType) != TextDone ==> View() == old(View())
      ensures KindOf(msg.eventType) == TextDone && Apply(old(responses), msg).Some? ==>
        var text := ReadText(old(responses), msg.responseId, msg.outputIndex, msg.contentIndex).text;
        View() == Intake(old(View()), text, parse, timestamp)
        && status == Delivered(OutcomeOf(Decide(text, parse)))
      ensures KindOf(msg.eventType) == ApiError ==> status == ErrorAlert(ErrorBody(msg.errorMessage))
    {
      match KindOf(msg.eventType)
      case ResponseRecord =>
        responses := responses[msg.response.id := msg.response];
        status := Handled;
      case OutputItem =>
        var r := SetOutputItem(responses, msg.responseId, msg.outputIndex, msg.item);
        if r.None? {
          return Threw;
        }
        responses := r.value;
        status := Handled;
      case ContentPart =>
        var r := SetContentPart(responses, msg.responseId, msg.outputIndex, msg.contentIndex, msg.part);
        if r.None? {
          return Threw;
        }
        responses := r.value;
        status := Handled;
      case TextDelta =>
        var r := AppendDelta(responses, msg.responseId, msg.outputIndex, msg.contentIndex, msg.fields);
        if r.None? {
          return Threw;
        }
        responses := r.value;
        status := Handled;
      case TextDone =>
        var fullText := ReadText(responses, msg.responseId, msg.outputIndex, msg.contentIndex);
        if fullText.Throws? {
          return Threw;
        }
        var outcome := HandleAIResponse(fullText.text, parse, timestamp);
        status := Delivered(outcome);
      case ApiError =>
        status := ErrorAlert(ErrorBody(msg.errorMessage));
      case Other =>
        status := Unhandled;
    }
  }
}
