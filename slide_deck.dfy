/** script.js, `handleAIResponse` and `navigateSlide`, as transitions of the slide
    deck: the slide list, `currentSlideIndex` and the disabled flags of the
    previous/next buttons. JSON.parse is a parameter: a partial function from the
    extracted text to the parsed object (`None` is a SyntaxError). */
module SlideDeck {
  import opened Js
  import opened Utils

  // ---------------------------------------------------------------------------
  // responseText.match(/\{[\s\S]*\}/)
  // ---------------------------------------------------------------------------

  /** Index of the first `c` in `s`, or -1. */
  function FirstIndexOf(s: string, c: char): (i: int)
    ensures -1 <= i < |s|
  {
    if s == [] then -1
    else if s[0] == c then 0
    else
      var j := FirstIndexOf(s[1..], c);
      if j < 0 then -1 else j + 1
  }

  /** FirstIndexOf names an occurrence of `c` with none before it, or -1 when
      `c` does not occur. */
  lemma {:induction false} FirstIndexOfFinds(s: string, c: char)
    ensures var i := FirstIndexOf(s, c);
      && -1 <= i < |s|
      && (i >= 0 ==> s[i] == c)
      && (forall k | 0 <= k < |s| && (i < 0 || k < i) :: s[k] != c)
  {
    if s != [] && s[0] != c {
      FirstIndexOfFinds(s[1..], c);
    }
  }

  /** Index of the last `c` in `s`, or -1. */
  function LastIndexOf(s: string, c: char): (i: int)
    ensures -1 <= i < |s|
  {
    if s == [] then -1
    else if s[|s| - 1] == c then |s| - 1
    else LastIndexOf(s[..|s| - 1], c)
  }

  /** LastIndexOf names an occurrence of `c` with none after it, or -1 when `c`
      does not occur. */
  lemma {:induction false} LastIndexOfFinds(s: string, c: char)
    ensures var i := LastIndexOf(s, c);
      && -1 <= i < |s|
      && (i >= 0 ==> s[i] == c)
      && (forall k | 0 <= k < |s| && i < k :: s[k] != c)
  {
    if s != [] && s[|s| - 1] != c {
      LastIndexOfFinds(s[..|s| - 1], c);
    }
  }

  /** Some `{` has a `}` somewhere after it. */
  ghost predicate HasBracePair(s: string) {
    exists i, j | 0 <= i < j < |s| :: s[i] == '{' && s[j] == '}'
  }

  /** The match of `/\{[\s\S]*\}/`. */
  function BraceSpan(s: string): (r: Option<string>)
    ensures r.None? <==> !HasBracePair(s)
  {
    FirstIndexOfFinds(s, '{');
    LastIndexOfFinds(s, '}');
    var i := FirstIndexOf(s, '{');
    var j := LastIndexOf(s, '}');
    if 0 <= i < j then Some(s[i..j + 1]) else None
  }

  /** The match runs from the leftmost `{` that some `}` follows through the
      last `}` (the star is greedy and `[\s\S]` takes any character); there is a
      match exactly when some `{` precedes some `}`. */
  lemma BraceSpanMatches(s: string)
    ensures BraceSpan(s).Some? ==> exists i, j | 0 <= i < j < |s| && s[i] == '{' && s[j] == '}' ::
      && BraceSpan(s).value == s[i..j + 1]
      && (forall k | 0 <= k < i :: s[k] != '{')
      && (forall k | j < k < |s| :: s[k] != '}')
  {
    FirstIndexOfFinds(s, '{');
    LastIndexOfFinds(s, '}');
  }

  // ---------------------------------------------------------------------------
  // What handleAIResponse decides
  // ---------------------------------------------------------------------------

  /** JSON.parse applied to the extracted text: the parsed object, or `None` when it throws. */
  type Parser = string -> Option<map<string, JsValue>>

  /** The four ways handleAIResponse can end, before any state changes. */
  datatype Decision =
    | Skip                                     // empty or whitespace-only text: return at once
    | NoJson                                   // no `{...}` span: "AI did not return valid JSON."
    | Malformed                                // parse error, or falsy title or content
    | Accept(title: JsValue, content: JsValue) // push a slide

  /** The decision for `responseText` (`None` is undefined). Blank text is skipped;
      text without a `{` followed by a `}` never yields a slide; a slide is accepted
      only with a truthy title and content read from the parse of the span. */
  function Decide(text: Option<string>, parse: Parser): (d: Decision)
    ensures d.Skip? <==> text.None? || Blank(text.value)
    ensures d.NoJson? <==> text.Some? && !Blank(text.value) && !HasBracePair(text.value)
    ensures d.Accept? ==> text.Some? && HasBracePair(text.value)
    ensures d.Accept? ==> Truthy(d.title) && Truthy(d.content)
    ensures d.Accept? ==> exists o | parse(BraceSpan(text.value).value) == Some(o) ::
      d.title == Get(o, "title") && d.content == Get(o, "content")
    ensures d.Malformed? <==>
      && text.Some? && !Blank(text.value) && HasBracePair(text.value)
      && (match parse(BraceSpan(text.value).value)
          case None => true
          case Some(o) => !Truthy(Get(o, "title")) || !Truthy(Get(o, "content")))
  {
    if text.None? then Skip
    else
      TrimCutsWhitespace(text.value);
      if Trim(text.value) == "" then Skip
      else
        match BraceSpan(text.value)
        case None => NoJson
        case Some(span) =>
          match parse(span)
          case None => Malformed
          case Some(o) =>
            if !Truthy(Get(o, "title")) || !Truthy(Get(o, "content")) then Malformed
            else Accept(Get(o, "title"), Get(o, "content"))
  }

  /** The alert the user sees. */
  datatype Outcome = Ignored | NoJsonAlert | MalformedAlert | SlideCreated

  /** The alert for a decision. An accepted slide that does not render is pushed,
      but its preview throws inside the try block, so the user is told the JSON
      was malformed. */
  function OutcomeOf(d: Decision): (o: Outcome)
    ensures o == Ignored <==> d.Skip?
    ensures o == NoJsonAlert <==> d.NoJson?
    ensures o == SlideCreated <==> d.Accept? && Renders(d.title, d.content)
    ensures o == MalformedAlert <==> d.Malformed? || (d.Accept? && !Renders(d.title, d.content))
  {
    match d
    case Skip => Ignored
    case NoJson => NoJsonAlert
    case Malformed => MalformedAlert
    case Accept(title, content) => if Renders(title, content) then SlideCreated else MalformedAlert
  }

  // ---------------------------------------------------------------------------
  // The deck
  // ---------------------------------------------------------------------------

  /** `slides`, `currentSlideIndex` and the disabled flags of the two buttons. */
  datatype Deck = Deck(slides: seq<Slide>, index: int, prevDisabled: bool, nextDisabled: bool)

  /** The index is -1 exactly when there are no slides, and otherwise names one. */
  ghost predicate WellFormed(d: Deck) {
    -1 <= d.index < |d.slides| && (d.index == -1 <==> d.slides == [])
  }

  /** The buttons reflect the position: previous is disabled on the first slide,
      next on the last. */
  ghost predicate FlagsInSync(d: Deck) {
    d.slides != [] ==> d.prevDisabled == (d.index == 0) && d.nextDisabled == (d.index == |d.slides| - 1)
  }

  /** navigateSlide(direction): the index moves by `direction` exactly when the
      result stays inside the list, and the flags are recomputed for the new
      position, unless the new slide does not render, in which case the preview
      throws first and the flags stay. Otherwise nothing changes. */
  function Navigate(d: Deck, direction: int): (r: Deck)
    ensures r.slides == d.slides
    ensures 0 <= d.index + direction < |d.slides| ==> r.index == d.index + direction
    ensures !(0 <= d.index + direction < |d.slides|) ==> r == d
    ensures 0 <= d.index + direction < |d.slides| && Renderable(d.slides[r.index]) ==>
      r.prevDisabled == (r.index == 0) && r.nextDisabled == (r.index == |r.slides| - 1)
    ensures 0 <= d.index + direction < |d.slides| && !Renderable(d.slides[r.index]) ==>
      r.prevDisabled == d.prevDisabled && r.nextDisabled == d.nextDisabled
    ensures WellFormed(d) ==> WellFormed(r)
    ensures FlagsInSync(d) && AllRenderable(d.slides) ==> FlagsInSync(r)
  {
    var i := d.index + direction;
    if 0 <= i < |d.slides| then
      if Renderable(d.slides[i]) then Deck(d.slides, i, i == 0, i == |d.slides| - 1)
      else d.(index := i)
    else d
  }

  /** Stepping forward and then back returns to the same deck, buttons included,
      when the buttons reflect the position and the slide returned to renders. */
  lemma ForwardThenBack(d: Deck)
    requires WellFormed(d) && FlagsInSync(d)
    requires d.index + 1 < |d.slides| && Renderable(d.slides[d.index])
    ensures Navigate(Navigate(d, 1), -1) == d
  {
  }

  /** handleAIResponse(text) on the deck, with `timestamp` for the clock read.
      Unless the decision is to accept, nothing changes. On accepting, exactly one
      slide carrying the parsed title and content is appended, the earlier slides
      are kept, the index points at the new slide, and (when the preview can
      render it) previous is disabled iff it is the only slide and next is disabled;
      when it does not render, the preview throws first and the flags stay. */
  function Intake(d: Deck, text: Option<string>, parse: Parser, timestamp: string): (r: Deck)
    ensures !Decide(text, parse).Accept? ==> r == d
    ensures Decide(text, parse).Accept? ==>
      var a := Decide(text, parse);
      && |r.slides| == |d.slides| + 1
      && r.slides[..|d.slides|] == d.slides
      && r.slides[|d.slides|] == Slide(a.title, a.content, timestamp)
      && r.index == |r.slides| - 1
    ensures Decide(text, parse).Accept? && Renders(Decide(text, parse).title, Decide(text, parse).content) ==>
      r.prevDisabled == (|r.slides| <= 1) && r.nextDisabled
    ensures Decide(text, parse).Accept? && !Renders(Decide(text, parse).title, Decide(text, parse).content) ==>
      r.prevDisabled == d.prevDisabled && r.nextDisabled == d.nextDisabled
    ensures WellFormed(d) ==> WellFormed(r)
    ensures FlagsInSync(d) && AllRenderable(r.slides) ==> FlagsInSync(r)
  {
    match Decide(text, parse)
    case Accept(title, content) =>
      var slides := d.slides + [Slide(title, content, timestamp)];
      if Renders(title, content) then Deck(slides, |slides| - 1, |slides| <= 1, true)
      else d.(slides := slides, index := |slides| - 1)
    case _ => d
  }
}
