# Live slides: a verified model of the slide deck and the response accumulator

Live slides is a browser page that listens to a speaker, streams the speech to a
realtime AI service and turns each reply into a Reveal.js slide. This project
models the part of it that keeps state and assembles documents. It proves what
each step does to that state.

- **The response accumulator** (`Accumulator`, `Session.Session.OnMessage`). It is
  the `dataChannel.onmessage` handler. It rebuilds every streamed response as a
  tree: response id, then output index, then content index, then content part.
  JavaScript arrays written at arbitrary indices can have holes, so the output
  and content arrays are maps from index to element.
  - An event that names a missing response, item or content array makes the
    handler throw a TypeError. The model returns `None` / `Threw` and leaves
    the table as it was.
  - `response.text.done` hands the accumulated text to `handleAIResponse`.
- **`update`** (`Utils.Updated`, `Utils.Node.Update`). This is the in-place merge
  of a streamed fragment into a content part. A non-empty `delta` is appended. A
  truthy value under the key replaces the old one. Anything else is a no-op.
- **Slide intake and navigation** (`SlideDeck`, `Session.Session.HandleAIResponse`,
  `Session.Session.NavigateSlide`).
  - Intake trims the reply and extracts the span matched by `/\{[\s\S]*\}/`.
    It parses that span and requires a truthy `title` and `content`. It then
    appends a slide, points `currentSlideIndex` at it and recomputes the
    previous/next button flags.
  - Navigation moves the index only while it stays inside the list.
- **Presentation document** (`Utils.CreatePresentationHTML`). This is the
  standalone Reveal.js page. It has one `<section>` per slide, in order, or a
  single fallback section built from the initial title and content. The theme
  stylesheet's URL ends in the given theme file name. The page's fixed text is
  a `Utils.Page` value (`Utils.RevealPage`), and the layout lemmas hold for
  every page, so they never depend on the contents of that text.
- **`REVEAL_THEMES`** (`Utils.ThemeFile`): the seven theme names and their
  stylesheet files.

## How the pieces fit

- `Js` gives the JavaScript semantics the code relies on:
  - parsed JSON values;
  - ToBoolean (truthiness);
  - `String.prototype.trim` with the ECMA-262 whitespace set.
- The page's module-level state is the class `Session.Session`. Its fields are
  `slides`, `currentSlideIndex`, `responses` and the two disabled flags. Each
  handler is a method proved against a pure transition: `Navigate`, `Intake` or
  `Apply`. The lemmas are proved about those transitions.
- `JSON.parse`, `escapeHtml` and `markdownToHtml` are function parameters:
  - `JSON.parse` is a `Parser` that returns `None` for a SyntaxError;
  - `escapeHtml` is `JsValue -> string`;
  - `markdownToHtml` is `string -> string`.
- The clock read `new Date().toISOString()` is a `timestamp` parameter.

## Behaviour worth knowing

- **A slide that does not render is still kept.** `handleAIResponse` pushes the
  slide and moves `currentSlideIndex` to it (script.js:128-129) before it
  renders the preview. The preview can then throw:
  - `markdownToHtml` calls `.replace` on the content, so any content that is not
    a string throws;
  - `escapeHtml` assigns the title to `textContent`, which converts it to a
    string. That conversion throws for a parsed object with its own `toString`
    key, and for an array holding such an object (`Js.ToStringThrows`).
  - The throw is caught by the `try` around the push. The button flags are
    not updated and the user sees the "malformed JSON" alert, even though the
    slide stays in the list.
  - `navigateSlide` onto such a slide moves the index and throws before it
    updates the flags, and `createPresentationHTML` throws on a list holding
    one.
  - The model does exactly this (`Utils.Renders`, `SlideDeck.OutcomeOf`,
    `SlideDeck.Intake`, `SlideDeck.Navigate`, `Utils.CreatePresentationHTML`).
- **Accumulator errors propagate.** `onmessage` has no `try`. An event naming a
  missing response, item or content array throws, and the next event is
  processed normally. No write happens before the throw, so the table is left
  as it was. The model reports `Threw` and keeps the table.
- **Intake reads only `title` and `content`.** There is no summarization cursor,
  minimum length, throttle or periodic timer in the code, and none in the model.

## Verifying

All files are verified together:

```
dafny verify --resource-limit 2000000 --verification-time-limit 0 *.dfy
```

## Model

| member | source | states |
|---|---|---|
| Js.TrimCutsWhitespace | script.js:114 | `trim` yields an infix of the text with only whitespace cut from either end; the infix neither starts nor ends with whitespace, and it is empty exactly when the text is all whitespace |
| Utils.Updated | utils.js:51-54 | a non-empty delta is appended to the old value (absent read as ""); otherwise a truthy `msg[key]` replaces it; otherwise the node is unchanged; only `key` can change, and it exists afterwards iff something was written or it existed |
| Utils.Node.Update | utils.js:51-54 | the in-place update leaves the node's properties equal to `Updated` of the old ones |
| Utils.DeltasConcatenate | utils.js:52 | a run of delta-only updates leaves the initial value followed by every delta in arrival order; the key exists afterwards unless it was absent and every delta was empty; no other property changes |
| Utils.ThemeFile | utils.js:14-22 | `REVEAL_THEMES` is defined exactly for league, black, white, moon, sky, serif and beige, and maps each name `n` to `n + ".css"` |
| Utils.SlidesHtml | utils.js:58-62 | the map-and-join of the slides succeeds exactly when every slide renders: its content is a string (else `markdownToHtml` throws) and its title converts to a string (else `escapeHtml` throws) |
| Utils.Sections | utils.js:58-63 | the sections are one per slide in list order, or the fallback section alone when the list is empty |
| Utils.SlidesHtmlJoinsSections | utils.js:58-62 | for a non-empty list, the joined HTML is the concatenation of the slides' sections in order |
| Utils.Body | utils.js:58-63 | the slides container's body (the joined sections, or the fallback section for an empty list) is produced exactly when every slide renders |
| Utils.Presentation | utils.js:57-86 | on any page, the document is produced exactly when every slide renders |
| Utils.CreatePresentationHTML | utils.js:57-86 | on the Reveal.js page, the document is produced exactly when every slide renders |
| Utils.ContainerHoldsSections | utils.js:58-78 | on any page, `RevealPage` included, the document is the fixed prefix, then exactly the sections (one per slide in order, or the fallback section), then the fixed suffix |
| Utils.ThemeHrefVerbatim | utils.js:69 | on any page, `RevealPage` included, the theme file name appears verbatim in the theme stylesheet's href, right after the href's opening (on `RevealPage`, the Reveal.js theme directory) and right before the rest of the link tag (the closing quote) |
| Accumulator.KindOf | script.js:158-176 | the anchored type patterns select the record branch for response.created/done, the item branch for output_item.added/done, the part branch for content_part.added/done, and one branch each for text.delta, text.done and error; every other type selects none |
| Accumulator.SetOutputItem | script.js:159-162 | an output-item event fails iff the response is not registered; otherwise the slot holds the event's item (created if absent), and every other slot and response is unchanged |
| Accumulator.SetContentPart | script.js:163-166 | a content-part event fails iff the output item is missing; otherwise the slot holds the event's part (created if absent), and every other slot, item and response is unchanged |
| Accumulator.AppendDelta | script.js:167-170 | a text-delta event fails iff the content array is missing, or the part is missing and `update` would write to it; an existing part gets `update`'s result and everything else is unchanged; a missing part that is not written leaves the table alone |
| Accumulator.ReadText | script.js:171-173 | reading the part's text fails iff the part is missing, and yields its `text` or undefined |
| Accumulator.Apply | script.js:154-180 | response events file `msg.response` under its id, replacing any earlier record; text.done, error and unknown events leave the table unchanged; only the slot-writing kinds and text.done can throw; filing by id is preserved |
| Accumulator.DeltaEventsMerge | script.js:167-170 | delta events for a registered part never throw, merge into that part exactly as successive `update`s do, and leave every other part, item and response alone |
| Accumulator.StreamedTextIsConcatenation | script.js:163-173 | after a part is registered and its deltas stream in, the text handed on at text.done is the part's initial text followed by every delta in arrival order (undefined only if there was no text and every delta was empty) |
| SlideDeck.BraceSpan | script.js:117 | there is a match iff some `{` precedes some `}` |
| SlideDeck.BraceSpanMatches | script.js:117 | the match runs from the first `{` that some `}` follows through the last `}` |
| SlideDeck.Decide | script.js:113-127 | blank or undefined text is skipped; text with no `{` before a `}` gives the no-JSON alert; a slide is accepted only with a truthy title and content read from the parse of the span; a parse failure or a falsy field is malformed |
| SlideDeck.OutcomeOf | script.js:118-140 | blank text shows nothing, a missing span the no-JSON alert, and a slide is reported created exactly when it was accepted and renders; a parse failure, a falsy field or a preview that throws shows the malformed-JSON alert |
| SlideDeck.Navigate | script.js:101-111 | the index moves by `direction` iff the target is inside the list, and otherwise nothing changes; after a move, previous is disabled iff the index is 0 and next iff it is the last, unless the target slide does not render, in which case the flags stay; the index invariant is preserved, and so is the button sync when every slide renders |
| SlideDeck.ForwardThenBack | script.js:101-111 | from a well-formed deck whose buttons reflect the position and whose current slide renders, stepping forward and then back restores the deck, flags included |
| SlideDeck.Intake | script.js:113-141 | nothing changes unless the reply is accepted; on acceptance, exactly one slide with the parsed title, content and timestamp is appended, earlier slides are kept, the index points at it, previous is disabled iff it is the only slide and next is disabled (the flags stay when the slide does not render); the index invariant is preserved |
| Session.ErrorBody | script.js:178 | the error alert shows the error's message when it has a non-empty one, and "Unknown error" otherwise |
| Session.Session.constructor | script.js:31-33 | the page starts with no slides, index -1 and an empty response table |
| Session.Session.StartRecording | script.js:189 | starting a recording empties the response table and leaves the deck alone |
| Session.Session.NavigateSlide | script.js:101-111 | the handler's new deck is `Navigate` of the old one; the response table is unchanged |
| Session.Session.HandleAIResponse | script.js:113-141 | the handler's new deck is `Intake` of the old one, and the alert shown is the one `Decide` calls for |
| Session.Session.OnMessage | script.js:154-180 | the new table is `Apply` of the old one, and the state is unchanged when the handler throws; only text.done changes the deck, by `Intake` of the accumulated text; an error event yields the alert of `ErrorBody` |

## Left out

- WebRTC session setup, teardown and transport wiring (`startRecording` apart from its table reset, `stopRecording`, `cleanup`, and the data-channel open/close/error handlers): microphone, peer connection and HTTP exchange are I/O.
- DOM and UI updates are not modelled: the preview and slide-count text, status colours, modal, the popup window and its sync calls, and the record/open/download button states. Only the previous/next disabled flags are kept, as two booleans. The flags' initial values come from the markup, so they are constructor parameters.
- Alerts are modelled only as which alert is shown (`Outcome`, `Status`), not as their text. The exception is the error alert body.
- Configuration persistence in `localStorage` is I/O.
- `escapeHtml` relies on the browser's serializer, so it is an uninterpreted parameter.
- `markdownToHtml` is a chain of regular-expression replacements, so it is an uninterpreted parameter. The one thing about it the model keeps is that it throws on non-string content. Likewise, `escapeHtml` is modelled only through the one way it can throw, a title whose conversion to a string throws.
- `JSON.parse` is an uninterpreted partial function. The data-channel message is taken as already parsed, so a non-JSON message is not modelled.
- `downloadPresentationHTML` (Blob, object URL, anchor click) is I/O. It only reuses `createPresentationHTML`.
- The timestamp is a clock read, so it is a parameter.
- The embedded Reveal.js script is kept as fixed text. Its behaviour in the presentation window is not modelled.
- Content-part properties are strings. A non-string `text` or `delta`, or a message lacking `type`, is not modelled.
- Accumulator.Apply: each message is assumed to carry the fields its type reads (`response`, `response_id`, `output_index`, `content_index`, `item`, `part`). A record event without `response` throws in the source, but the model says that kind never fails. An item event without `item` writes undefined into the slot, so a later part event for that slot throws; in the model that later event succeeds.
- Response ids that collide with `Object.prototype` property names are not modelled.
- Utils.ThemeFile: a theme name inherited from `Object.prototype`, such as `toString` or `constructor`, maps to `None`. In the source, `REVEAL_THEMES[name]` reads the inherited function.
- `Accumulator.Apply` treats the response tree as values. The source writes nested objects in place, but every tree comes from a fresh `JSON.parse`, so there is no aliasing to lose.
- `Utils.Updated` describes the node's string properties only.
- `openPresentationWindow` is not part of this model. In particular, it may pass an unknown theme name to `REVEAL_THEMES`; this model does not cover that.
