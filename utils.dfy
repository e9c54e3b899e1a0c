/** utils.js: the delta merge used by the response accumulator, the theme table and
    the assembly of the standalone Reveal.js presentation document. */
module Utils {
  import opened Js

  // ---------------------------------------------------------------------------
  // update(node, key, msg)
  // ---------------------------------------------------------------------------

  /** The string-valued properties of a JavaScript object (a content part, or the
      fields of a streamed message). An absent key is an undefined property. */
  type Obj = map<string, string>

  /** `o[k]` is truthy: present and not the empty string. */
  predicate Has(o: Obj, k: string) {
    k in o && o[k] != ""
  }

  /** `o[k] ?? ""`. */
  function Lookup(o: Obj, k: string): string {
    if k in o then o[k] else ""
  }

  /** Whether `update(node, key, msg)` writes `node[key]` at all: when it does not,
      it never touches `node`, so it does not fail even when `node` is undefined. */
  predicate Writes(msg: Obj, key: string) {
    Has(msg, "delta") || Has(msg, key)
  }

  /** The new properties of `node` after `update(node, key, msg)`: a non-empty
      `delta` is appended to the current value (absent read as ""), otherwise a
      truthy `msg[key]` replaces it, otherwise nothing changes. Only `key` can change. */
  function Updated(node: Obj, key: string, msg: Obj): (r: Obj)
    ensures r.Keys == if Writes(msg, key) then node.Keys + {key} else node.Keys
    ensures forall k | k in node && k != key :: r[k] == node[k]
    ensures Has(msg, "delta") ==> r[key] == Lookup(node, key) + msg["delta"]
    ensures !Has(msg, "delta") && Has(msg, key) ==> r[key] == msg[key]
    ensures !Writes(msg, key) ==> r == node
  {
    if Has(msg, "delta") then node[key := Lookup(node, key) + msg["delta"]]
    else if Has(msg, key) then node[key := msg[key]]
    else node
  }

  /** A JavaScript object whose properties `update` rewrites in place. */
  class Node {
    var props: Obj

    constructor (props: Obj)
      ensures this.props == props
    {
      this.props := props;
    }

    /** update(node, key, msg), writing `node[key]` in place. */
    method Update(key: string, msg: Obj)
      modifies this
      ensures props == Updated(old(props), key, msg)
    {
      if Has(msg, "delta") {
        props := props[key := Lookup(props, key) + msg["delta"]];
      } else if Has(msg, key) {
        props := props[key := msg[key]];
      }
    }
  }

  /** The message fields of a `response.text.delta` event carrying `delta`. */
  function DeltaFields(delta: string): Obj {
    map["delta" := delta]
  }

  /** `node` after one `update(node, key, msg)` per delta, in arrival order. */
  function ApplyDeltas(node: Obj, key: string, deltas: seq<string>): Obj
    decreases |deltas|
  {
    if deltas == [] then node
    else ApplyDeltas(Updated(node, key, DeltaFields(deltas[0])), key, deltas[1..])
  }

  /** `parts.join("")`. */
  function Join(parts: seq<string>): string {
    if parts == [] then "" else parts[0] + Join(parts[1..])
  }

  /** Delta-only updates accumulate: the final value is the initial one (absent read
      as "") followed by every delta in arrival order; the key exists afterwards
      unless it was absent and every delta was empty; no other property changes. */
  lemma {:induction false} DeltasConcatenate(node: Obj, key: string, deltas: seq<string>)
    ensures Lookup(ApplyDeltas(node, key, deltas), key) == Lookup(node, key) + Join(deltas)
    ensures key in ApplyDeltas(node, key, deltas) <==> key in node || Join(deltas) != ""
    ensures forall k | k != key :: (k in ApplyDeltas(node, key, deltas) <==> k in node)
    ensures forall k | k in node && k != key :: ApplyDeltas(node, key, deltas)[k] == node[k]
    decreases |deltas|
  {
    if deltas != [] {
      var next := Updated(node, key, DeltaFields(deltas[0]));
      DeltasConcatenate(next, key, deltas[1..]);
      assert Lookup(next, key) == Lookup(node, key) + deltas[0];
      assert Join(deltas) == deltas[0] + Join(deltas[1..]);
    }
  }

  // ---------------------------------------------------------------------------
  // REVEAL_THEMES
  // ---------------------------------------------------------------------------

  /** REVEAL_THEMES: theme name to stylesheet file. */
  const RevealThemes: map<string, string> := map[
    "league" := "league.css",
    "black" := "black.css",
    "white" := "white.css",
    "moon" := "moon.css",
    "sky" := "sky.css",
    "serif" := "serif.css",
    "beige" := "beige.css"
  ]

  /** `REVEAL_THEMES[name]`: defined for the seven theme names, each mapped to its
      own name with ".css" appended. `None` stands for undefined; a name that the
      object inherits from Object.prototype, such as "toString" or "constructor",
      reads a function there, and that case is not modelled. */
  function ThemeFile(name: string): (r: Option<string>)
    ensures r.Some? <==> name in {"league", "black", "white", "moon", "sky", "serif", "beige"}
    ensures r.Some? ==> r.value == name + ".css"
  {
    if name in RevealThemes then Some(RevealThemes[name]) else None
  }

  // ---------------------------------------------------------------------------
  // createPresentationHTML
  // ---------------------------------------------------------------------------

  /** A slide record as handleAIResponse stores it: the parsed `title` and `content`
      values (whatever JSON type they have) and a timestamp. */
  datatype Slide = Slide(title: JsValue, content: JsValue, timestamp: string)

  /** Whether a slide with this title and content renders. escapeHtml assigns the
      title to `textContent`, which converts it to a string and throws when that
      conversion throws; markdownToHtml calls String.prototype.replace on the
      content, which exists only on strings. */
  predicate Renders(title: JsValue, content: JsValue) {
    content.Str? && !ToStringThrows(title)
  }

  predicate Renderable(s: Slide) {
    Renders(s.title, s.content)
  }

  predicate AllRenderable(slides: seq<Slide>) {
    forall i | 0 <= i < |slides| :: Renderable(slides[i])
  }

  /** The section emitted for one slide; `escape` is escapeHtml and `markdown` is
      markdownToHtml, both uninterpreted. */
  function SlideSection(s: Slide, escape: JsValue -> string, markdown: string -> string): string
    requires Renderable(s)
  {
    "<section><h2>" + escape(s.title) + "</h2><div class=\"slide-content\">"
      + markdown(s.content.s) + "</div></section>"
  }

  /** The single section emitted when there are no slides. */
  function FallbackSection(initialTitle: string, initialContent: string, escape: JsValue -> string): string {
    "<section><h2>" + escape(Str(initialTitle)) + "</h2><p>" + escape(Str(initialContent)) + "</p></section>"
  }

  /** `slides.map(...).join('')`, which throws at the first slide that does not render. */
  function SlidesHtml(slides: seq<Slide>, escape: JsValue -> string, markdown: string -> string): (r: Option<string>)
    ensures r.Some? <==> AllRenderable(slides)
  {
    if slides == [] then Some("")
    else if !Renderable(slides[0]) then None
    else
      match SlidesHtml(slides[1..], escape, markdown)
      case None => None
      case Some(rest) => Some(SlideSection(slides[0], escape, markdown) + rest)
  }

  /** The sections the document holds, one per slide in list order, or the
      fallback section alone for an empty list. */
  function Sections(slides: seq<Slide>, initialTitle: string, initialContent: string,
                    escape: JsValue -> string, markdown: string -> string): (r: seq<string>)
    requires AllRenderable(slides)
    ensures |slides| > 0 ==> |r| == |slides|
    ensures |slides| > 0 ==> forall i | 0 <= i < |slides| :: r[i] == SlideSection(slides[i], escape, markdown)
    ensures |slides| == 0 ==> r == [FallbackSection(initialTitle, initialContent, escape)]
  {
    if slides == [] then [FallbackSection(initialTitle, initialContent, escape)]
    else if |slides| == 1 then [SlideSection(slides[0], escape, markdown)]
    else [SlideSection(slides[0], escape, markdown)] + Sections(slides[1..], initialTitle, initialContent, escape, markdown)
  }

  const ThemeBase := "https://cdn.jsdelivr.net/npm/reveal.js@4.5.0/dist/theme/"

  /** Everything before the theme stylesheet's href attribute. */
  const HeadOpen :=
    "<!DOCTYPE html>\n<html><head><title>Live Presentation</title>\n"
    + "<link rel=\"stylesheet\" href=\"https://cdn.jsdelivr.net/npm/reveal.js@4.5.0/dist/reset.css\">\n"
    + "<link rel=\"stylesheet\" href=\"https://cdn.jsdelivr.net/npm/reveal.js@4.5.0/dist/reveal.css\">\n"
    + "<link rel=\"stylesheet\" "

  /** The theme stylesheet's href attribute up to the theme file name. */
  const HrefOpen := "href=\"" + ThemeBase

  /** The rest of the theme stylesheet's link tag. */
  const HrefClose := "\" id=\"theme-link\">"

  /** The theme stylesheet's href attribute and the end of its link tag. */
  function ThemeLink(themeFile: string): string {
    HrefOpen + themeFile + HrefClose
  }

  const StyleBlock :=
    "\n<style>\n"
    + ".reveal{font-size:33px}\n"
    + ".reveal h2{font-size:2em;margin-bottom:.6em;font-weight:bold;line-height:1.2}\n"
    + ".reveal .slide-content{font-size:1.3em;line-height:1.6;text-align:left;padding:0 40px;max-width:100%;word-wrap:break-word}\n"
    + ".reveal section{text-align:center;padding:40px 20px;height:100%;display:flex;flex-direction:column;justify-content:center;align-items:center}\n"
    + ".reveal ul,.reveal ol{margin:0;padding:0;list-style-position:inside;text-align:left;width:100%}\n"
    + ".reveal li{margin-bottom:.4em;line-height:1.5}\n"
    + "</style></head><body>\n"

  /** The opening of the slides container. */
  const SlidesOpen := "<div class=\"reveal\"><div class=\"slides\" id=\"slides-container\">"

  /** The closing of the slides container. */
  const SlidesClose := "</div></div>"

  /** The Reveal.js script and the live-update hooks (addSlide, goToSlide, updateTheme). */
  const Scripts :=
    "\n<script src=\"https://cdn.jsdelivr.net/npm/reveal.js@4.5.0/dist/reveal.js\"></script>\n"
    + "<script>\n"
    + "Reveal.initialize({width:800,height:600,margin:.05,minScale:.2,maxScale:1.5,hash:false,transition:'slide',controls:true,progress:true,center:true});\n"
    + "window.addSlide=(t,c)=>{const s=document.createElement('section');s.innerHTML='<h2>'+t+'</h2><div class=\"slide-content\">'+c+'</div>';document.getElementById('slides-container').appendChild(s);Reveal.sync();Reveal.slide(Reveal.getTotalSlides()-1)};\n"
    + "window.goToSlide=i=>Reveal.slide(i);\n"
    + "window.updateTheme=n=>document.getElementById('theme-link').href='https://cdn.jsdelivr.net/npm/reveal.js@4.5.0/dist/theme/'+n;\n"
    + "</script></body></html>"

  /** The fixed text of a presentation page, in the order it is laid out: the
      head up to the theme stylesheet's href attribute, the href up to the theme
      file name, the rest of that link tag, the text between the link and the
      slide sections, and the text after the sections. */
  datatype Page = Page(head: string, hrefOpen: string, hrefClose: string, middle: string, tail: string)

  /** The page createPresentationHTML writes: the Reveal.js head, the theme link,
      the style block and the opening of the slides container before the
      sections; the closing of the container and the scripts after them. */
  const RevealPage := Page(HeadOpen, HrefOpen, HrefClose, StyleBlock + SlidesOpen, SlidesClose + Scripts)

  /** Everything before the slide sections. */
  function Prefix(page: Page, themeFile: string): string {
    page.head + (page.hrefOpen + themeFile + page.hrefClose) + page.middle
  }

  /** The document around a given slides-container body. */
  function Document(page: Page, themeFile: string, body: string): string {
    Prefix(page, themeFile) + body + page.tail
  }

  /** The slides container's body: the joined slide sections, or the fallback
      section when there are no slides. It fails exactly when some slide does not
      render. */
  function Body(slides: seq<Slide>, initialTitle: string, initialContent: string,
                escape: JsValue -> string, markdown: string -> string): (r: Option<string>)
    ensures r.Some? <==> AllRenderable(slides)
  {
    if |slides| > 0 then SlidesHtml(slides, escape, markdown)
    else Some(FallbackSection(initialTitle, initialContent, escape))
  }

  /** createPresentationHTML's assembly on a given page: it fails (throws)
      exactly when some slide does not render. */
  function Presentation(page: Page, slides: seq<Slide>, initialTitle: string, initialContent: string,
                        themeFile: string, escape: JsValue -> string,
                        markdown: string -> string): (r: Option<string>)
    ensures r.Some? <==> AllRenderable(slides)
  {
    match Body(slides, initialTitle, initialContent, escape, markdown)
    case None => None
    case Some(b) => Some(Document(page, themeFile, b))
  }

  /** createPresentationHTML(slides, initialTitle, initialContent, themeFile). */
  function CreatePresentationHTML(slides: seq<Slide>, initialTitle: string, initialContent: string,
                                  themeFile: string, escape: JsValue -> string,
                                  markdown: string -> string): (r: Option<string>)
    ensures r.Some? <==> AllRenderable(slides)
  {
    Presentation(RevealPage, slides, initialTitle, initialContent, themeFile, escape, markdown)
  }

  /** The map-and-join of the slides is the concatenation of their sections in order. */
  lemma {:induction false} SlidesHtmlJoinsSections(slides: seq<Slide>, initialTitle: string, initialContent: string,
                                                  escape: JsValue -> string, markdown: string -> string)
    requires |slides| > 0 && AllRenderable(slides)
    ensures SlidesHtml(slides, escape, markdown) == Some(Join(Sections(slides, initialTitle, initialContent, escape, markdown)))
  {
    var head := SlideSection(slides[0], escape, markdown);
    if |slides| == 1 {
      assert SlidesHtml(slides[1..], escape, markdown) == Some("");
      assert Join([head]) == head + Join([]);
    } else {
      SlidesHtmlJoinsSections(slides[1..], initialTitle, initialContent, escape, markdown);
      var rest := Sections(slides[1..], initialTitle, initialContent, escape, markdown);
      assert ([head] + rest)[1..] == rest;
    }
  }

  /** On any page, `RevealPage` included, the slides container of the document
      holds exactly the sections of the slides, one per slide and in list order
      (or the fallback section alone), between the fixed prefix and the fixed
      tail. */
  lemma ContainerHoldsSections(page: Page, slides: seq<Slide>, initialTitle: string, initialContent: string,
                               themeFile: string, escape: JsValue -> string, markdown: string -> string)
    requires AllRenderable(slides)
    ensures var doc := Presentation(page, slides, initialTitle, initialContent, themeFile, escape, markdown).value;
      var prefix := Prefix(page, themeFile);
      && |prefix| + |page.tail| <= |doc|
      && doc[..|prefix|] == prefix
      && doc[|doc| - |page.tail|..] == page.tail
      && doc[|prefix|..|doc| - |page.tail|] == Join(Sections(slides, initialTitle, initialContent, escape, markdown))
  {
    var sections := Sections(slides, initialTitle, initialContent, escape, markdown);
    if |slides| > 0 {
      SlidesHtmlJoinsSections(slides, initialTitle, initialContent, escape, markdown);
    } else {
      var fallback := FallbackSection(initialTitle, initialContent, escape);
      assert sections == [fallback];
      assert Join([fallback]) == fallback + Join([]);
    }
    DocumentContainer(page, themeFile, Join(sections));
  }

  /** On any page, `RevealPage` included, the theme file name appears verbatim
      in the theme stylesheet's href, right after the theme directory and right
      before the rest of the link tag. */
  lemma ThemeHrefVerbatim(page: Page, slides: seq<Slide>, initialTitle: string, initialContent: string,
                          themeFile: string, escape: JsValue -> string, markdown: string -> string)
    requires AllRenderable(slides)
    ensures var doc := Presentation(page, slides, initialTitle, initialContent, themeFile, escape, markdown).value;
      var at := |page.head| + |page.hrefOpen|;
      && at + |themeFile| + |page.hrefClose| <= |doc|
      && doc[|page.head|..at] == page.hrefOpen
      && doc[at..at + |themeFile|] == themeFile
      && doc[at + |themeFile|..at + |themeFile| + |page.hrefClose|] == page.hrefClose
  {
  }

  /** Where the body sits in a document. */
  lemma DocumentContainer(page: Page, themeFile: string, body: string)
    ensures var doc := Document(page, themeFile, body);
      var prefix := Prefix(page, themeFile);
      && |prefix| + |page.tail| <= |doc|
      && doc[..|prefix|] == prefix
      && doc[|doc| - |page.tail|..] == page.tail
      && doc[|prefix|..|doc| - |page.tail|] == body
  {
  }
}
