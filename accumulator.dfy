/** script.js, `dataChannel.onmessage`: the table of streamed responses, rebuilt from
    typed events as response id -> output index -> content index -> part. The table
    is a value here; each handler's in-place writes become the table it leaves
    behind, and `None` stands for the TypeError the handler throws when an event
    names a response, output item or content array that is not there. */
module Accumulator {
  import opened Js
  import opened Utils

  /** A content part: its string-valued properties (`type`, `text`, ...). */
  type Part = Obj

  /** An output item. `content` is its content-part array; a JS array written at
      arbitrary indices has holes, so it is a map from index to part. */
  datatype Item = Item(content: Option<map<int, Part>>)

  /** A response record and its output-item array. */
  datatype Response = Response(id: string, output: Option<map<int, Item>>)

  /** `responses`: response id to record. */
  type Table = map<string, Response>

  /** One parsed data-channel message, with the fields the handler reads. */
  datatype Msg = Msg(
    eventType: string,            // msg.type
    response: Response,           // msg.response
    responseId: string,           // msg.response_id
    outputIndex: int,             // msg.output_index
    contentIndex: int,            // msg.content_index
    item: Item,                   // msg.item
    part: Part,                   // msg.part
    fields: Obj,                  // msg's own string properties, read by update (delta, text)
    errorMessage: Option<string>) // msg.error?.message

  /** The branch of the handler a message type selects. The regular expressions
      of the source are anchored at both ends, so each matches exactly two names. */
  datatype Kind = ResponseRecord | OutputItem | ContentPart | TextDelta | TextDone | ApiError | Other

  function KindOf(eventType: string): (k: Kind)
    ensures k == ResponseRecord <==> eventType == "response.created" || eventType == "response.done"
    ensures k == OutputItem <==>
      eventType == "response.output_item.added" || eventType == "response.output_item.done"
    ensures k == ContentPart <==>
      eventType == "response.content_part.added" || eventType == "response.content_part.done"
    ensures k == TextDelta <==> eventType == "response.text.delta"
    ensures k == TextDone <==> eventType == "response.text.done"
    ensures k == ApiError <==> eventType == "error"
    ensures k == Other <==> (eventType !in
      {"response.created", "response.done", "response.output_item.added", "response.output_item.done",
       "response.content_part.added", "response.content_part.done", "response.text.delta",
       "response.text.done", "error"})
  {
    if eventType == "response.created" || eventType == "response.done" then ResponseRecord
    else if eventType == "response.output_item.added" || eventType == "response.output_item.done" then OutputItem
    else if eventType == "response.content_part.added" || eventType == "response.content_part.done" then ContentPart
    else if eventType == "response.text.delta" then TextDelta
    else if eventType == "response.text.done" then TextDone
    else if eventType == "error" then ApiError
    else Other
  }

  // ---------------------------------------------------------------------------
  // Reading the table
  // ---------------------------------------------------------------------------

  /** `r[rid].output`, undefined when the response is not registered. */
  function OutputOf(t: Table, rid: string): Option<map<int, Item>> {
    if rid in t then t[rid].output else None
  }

  /** `r[rid].output[oi]`, when it exists. */
  function ItemAt(t: Table, rid: string, oi: int): Option<Item> {
    match OutputOf(t, rid)
    case None => None
    case Some(output) => if oi in output then Some(output[oi]) else None
  }

  /** `r[rid].output[oi].content`, when it exists. */
  function ContentOf(t: Table, rid: string, oi: int): Option<map<int, Part>> {
    match ItemAt(t, rid, oi)
    case None => None
    case Some(item) => item.content
  }

  /** `r[rid].output[oi].content[ci]`, when it exists. */
  function PartAt(t: Table, rid: string, oi: int, ci: int): Option<Part> {
    match ContentOf(t, rid, oi)
    case None => None
    case Some(content) => if ci in content then Some(content[ci]) else None
  }

  /** Every record is filed under its own id. */
  ghost predicate FiledById(t: Table) {
    forall k | k in t :: t[k].id == k
  }

  // ---------------------------------------------------------------------------
  // Writing the table
  // ---------------------------------------------------------------------------

  /** `r[rid].output = r[rid].output || []; r[rid].output[oi] = item`: fails when the
      response is not registered; otherwise the slot holds `item` (created or
      replaced) and every other slot and record is as before. */
  function SetOutputItem(t: Table, rid: string, oi: int, item: Item): (r: Option<Table>)
    ensures r.Some? <==> rid in t
    ensures r.Some? ==> r.value.Keys == t.Keys
    ensures r.Some? ==> forall k | k in t :: r.value[k].id == t[k].id
    ensures r.Some? ==> forall k | k in t && k != rid :: r.value[k] == t[k]
    ensures r.Some? ==> ItemAt(r.value, rid, oi) == Some(item)
    ensures r.Some? ==> forall oi' | oi' != oi :: ItemAt(r.value, rid, oi') == ItemAt(t, rid, oi')
  {
    if rid !in t then None
    else
      var resp := t[rid];
      var output := if resp.output.Some? then resp.output.value else map[];
      Some(t[rid := resp.(output := Some(output[oi := item]))])
  }

  /** Writes part `p` at `ci` in an existing item; everything else is kept. */
  function PutPart(t: Table, rid: string, oi: int, ci: int, p: Part): (r: Table)
    requires ItemAt(t, rid, oi).Some?
    ensures r.Keys == t.Keys
    ensures forall k | k in t :: r[k].id == t[k].id
    ensures forall k | k in t && k != rid :: r[k] == t[k]
    ensures forall oi' | oi' != oi :: ItemAt(r, rid, oi') == ItemAt(t, rid, oi')
    ensures ItemAt(r, rid, oi).Some?
    ensures PartAt(r, rid, oi, ci) == Some(p)
    ensures forall ci' | ci' != ci :: PartAt(r, rid, oi, ci') == PartAt(t, rid, oi, ci')
  {
    var resp := t[rid];
    var output := resp.output.value;
    var item := output[oi];
    var content := if item.content.Some? then item.content.value else map[];
    t[rid := resp.(output := Some(output[oi := item.(content := Some(content[ci := p]))]))]
  }

  /** `...content = ...content || []; ...content[ci] = part`: fails unless the
      output item exists; otherwise the slot holds `part` (created or replaced)
      and every other slot is as before. */
  function SetContentPart(t: Table, rid: string, oi: int, ci: int, part: Part): (r: Option<Table>)
    ensures r.Some? <==> ItemAt(t, rid, oi).Some?
    ensures r.Some? ==> r.value.Keys == t.Keys
    ensures r.Some? ==> forall k | k in t :: r.value[k].id == t[k].id
    ensures r.Some? ==> forall k | k in t && k != rid :: r.value[k] == t[k]
    ensures r.Some? ==> forall oi' | oi' != oi :: ItemAt(r.value, rid, oi') == ItemAt(t, rid, oi')
    ensures r.Some? ==> PartAt(r.value, rid, oi, ci) == Some(part)
    ensures r.Some? ==> forall ci' | ci' != ci :: PartAt(r.value, rid, oi, ci') == PartAt(t, rid, oi, ci')
  {
    if ItemAt(t, rid, oi).Some? then Some(PutPart(t, rid, oi, ci, part)) else None
  }

  /** `update(r[rid].output[oi].content[ci], "text", msg)`. Reaching the content
      array fails when any level above it is missing. A missing part fails only if
      update writes to it; otherwise update never touches the part and nothing
      happens. An existing part gets update's new properties; all else is kept. */
  function AppendDelta(t: Table, rid: string, oi: int, ci: int, fields: Obj): (r: Option<Table>)
    ensures r.Some? <==> ContentOf(t, rid, oi).Some? && (PartAt(t, rid, oi, ci).Some? || !Writes(fields, "text"))
    ensures r.Some? && PartAt(t, rid, oi, ci).None? ==> r.value == t
    ensures r.Some? && PartAt(t, rid, oi, ci).Some? ==>
      && r.value.Keys == t.Keys
      && (forall k | k in t && k != rid :: r.value[k] == t[k])
      && (forall oi' | oi' != oi :: ItemAt(r.value, rid, oi') == ItemAt(t, rid, oi'))
      && PartAt(r.value, rid, oi, ci) == Some(Updated(PartAt(t, rid, oi, ci).value, "text", fields))
      && (forall ci' | ci' != ci :: PartAt(r.value, rid, oi, ci') == PartAt(t, rid, oi, ci'))
    ensures r.Some? ==> r.value.Keys == t.Keys && forall k | k in t :: r.value[k].id == t[k].id
  {
    match PartAt(t, rid, oi, ci)
    case Some(p) => Some(PutPart(t, rid, oi, ci, Updated(p, "text", fields)))
    case None => if ContentOf(t, rid, oi).Some? && !Writes(fields, "text") then Some(t) else None
  }

  /** What reading `r[rid].output[oi].content[ci].text` yields. */
  datatype TextRead = Throws | Text(text: Option<string>)

  /** The read fails exactly when the part is missing; an absent `text` reads as undefined. */
  function ReadText(t: Table, rid: string, oi: int, ci: int): (r: TextRead)
    ensures r.Throws? <==> PartAt(t, rid, oi, ci).None?
    ensures r.Text? ==> (r.text.Some? <==> "text" in PartAt(t, rid, oi, ci).value)
    ensures r.Text? && r.text.Some? ==> r.text.value == PartAt(t, rid, oi, ci).value["text"]
  {
    match PartAt(t, rid, oi, ci)
    case None => Throws
    case Some(p) => Text(if "text" in p then Some(p["text"]) else None)
  }

  /** The table after the handler has run on `msg`; `None` when it throws. Records
      are filed by id, text.done, error and unknown events leave the table alone,
      and only the three slot-writing kinds can throw besides text.done. */
  function Apply(t: Table, msg: Msg): (r: Option<Table>)
    ensures KindOf(msg.eventType) in {ResponseRecord, ApiError, Other} ==> r.Some?
    ensures KindOf(msg.eventType) == ResponseRecord ==>
      r.value.Keys == t.Keys + {msg.response.id} && r.value[msg.response.id] == msg.response
      && forall k | k in t && k != msg.response.id :: r.value[k] == t[k]
    ensures KindOf(msg.eventType) in {TextDone, ApiError, Other} && r.Some? ==> r.value == t
    ensures r.Some? && KindOf(msg.eventType) != ResponseRecord ==> r.value.Keys == t.Keys
    ensures FiledById(t) && r.Some? ==> FiledById(r.value)
  {
    match KindOf(msg.eventType)
    case ResponseRecord => Some(t[msg.response.id := msg.response])
    case OutputItem => SetOutputItem(t, msg.responseId, msg.outputIndex, msg.item)
    case ContentPart => SetContentPart(t, msg.responseId, msg.outputIndex, msg.contentIndex, msg.part)
    case TextDelta => AppendDelta(t, msg.responseId, msg.outputIndex, msg.contentIndex, msg.fields)
    case TextDone => if ReadText(t, msg.responseId, msg.outputIndex, msg.contentIndex).Throws? then None else Some(t)
    case ApiError => Some(t)
    case Other => Some(t)
  }

  // ---------------------------------------------------------------------------
  // Streams of events
  // ---------------------------------------------------------------------------

  /** A `response.text.delta` event for one content part. */
  function DeltaEvent(rid: string, oi: int, ci: int, delta: string): Msg {
    Msg("response.text.delta", Response("", None), rid, oi, ci, Item(None), map[], DeltaFields(delta), None)
  }

  /** A `response.content_part.added` event for one content part. */
  function PartAddedEvent(rid: string, oi: int, ci: int, part: Part): Msg {
    Msg("response.content_part.added", Response("", None), rid, oi, ci, Item(None), part, map[], None)
  }

  /** The table after the handler has run on each delta event in turn; `None` once one throws. */
  function ApplyDeltaEvents(t: Table, rid: string, oi: int, ci: int, deltas: seq<string>): Option<Table>
    decreases |deltas|
  {
    if deltas == [] then Some(t)
    else
      match Apply(t, DeltaEvent(rid, oi, ci, deltas[0]))
      case None => None
      case Some(t') => ApplyDeltaEvents(t', rid, oi, ci, deltas[1..])
  }

  /** Delta events for an existing part never throw, merge into that part exactly as
      successive updates do, and leave every other part and item alone. */
  lemma {:induction false} DeltaEventsMerge(t: Table, rid: string, oi: int, ci: int, deltas: seq<string>)
    requires PartAt(t, rid, oi, ci).Some?
    ensures ApplyDeltaEvents(t, rid, oi, ci, deltas).Some?
    ensures var r := ApplyDeltaEvents(t, rid, oi, ci, deltas).value;
      && r.Keys == t.Keys
      && (forall k | k in t && k != rid :: r[k] == t[k])
      && (forall oi' | oi' != oi :: ItemAt(r, rid, oi') == ItemAt(t, rid, oi'))
      && (forall ci' | ci' != ci :: PartAt(r, rid, oi, ci') == PartAt(t, rid, oi, ci'))
      && PartAt(r, rid, oi, ci) == Some(ApplyDeltas(PartAt(t, rid, oi, ci).value, "text", deltas))
    decreases |deltas|
  {
    if deltas != [] {
      var t' := Apply(t, DeltaEvent(rid, oi, ci, deltas[0])).value;
      DeltaEventsMerge(t', rid, oi, ci, deltas[1..]);
    }
  }

  /** Once a part is registered, the text that `response.text.done` hands on is the
      part's initial text (absent read as "") followed by every delta in arrival
      order; it is undefined only if the part had no text and every delta was empty. */
  lemma StreamedTextIsConcatenation(t: Table, rid: string, oi: int, ci: int, part: Part, deltas: seq<string>)
    requires ItemAt(t, rid, oi).Some?
    ensures Apply(t, PartAddedEvent(rid, oi, ci, part)).Some?
    ensures var t1 := Apply(t, PartAddedEvent(rid, oi, ci, part)).value;
      && ApplyDeltaEvents(t1, rid, oi, ci, deltas).Some?
      && ReadText(ApplyDeltaEvents(t1, rid, oi, ci, deltas).value, rid, oi, ci)
         == Text(if "text" in part || Join(deltas) != "" then Some(Lookup(part, "text") + Join(deltas)) else None)
  {
    var t1 := Apply(t, PartAddedEvent(rid, oi, ci, part)).value;
    DeltaEventsMerge(t1, rid, oi, ci, deltas);
    DeltasConcatenate(part, "text", deltas);
  }
}
