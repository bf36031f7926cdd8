/**
 * The flow-graph editor store of the studio modeler: a catalog of flows, the
 * selected flow and subflow, the edit of one element's `value`, and the
 * render pass that walks every slot of the selected subflow's lines.
 */
module Modeler {
  import opened Wrappers
  import opened JsValues

  type FlowId = string
  type SubflowId = string
  type ElementId = string

  datatype Position = Position(x: int, y: int)

  /** Circular elements carry a radius, rectangular ones a width and a height. */
  datatype Dimensions = Circle(radius: int) | Rect(width: int, height: int)

  /** The `type` of an element. */
  datatype ElementKind = Return | Input | Table | Function

  /** One node of the diagram; `value` is the untyped payload an edit replaces. */
  datatype Element = Element(
    kind: ElementKind,
    position: Position,
    dimensions: Dimensions,
    value: JsValue,
    args: Option<seq<ElementId>>)

  /** Lines of element ids (a list of lists, like the lines of a file) and the elements by id. */
  datatype Subflow = Subflow(lines: seq<seq<ElementId>>, elements: map<ElementId, Element>)

  /** A flow: its main subflow and all its subflows; `id` is present only in the store's initial value. */
  datatype Flow = Flow(id: Option<string>, main: SubflowId, subflows: map<SubflowId, Subflow>)

  /** The in-memory catalog; an entry may be `null` (`None`). */
  type Catalog = map<FlowId, Option<Flow>>

  /** A (line index, position index) address into a subflow's lines. */
  datatype Location = Location(line: int, position: int)

  /** What the render pass hands the element before a slot: `null` at position 0, otherwise the lookup of the previous id. */
  datatype Prior = First | After(element: Option<Element>)

  /** One rendered slot: its location, the element found for its id, and the prior element of the line. */
  datatype Slot = Slot(location: Location, element: Option<Element>, prior: Prior)

  // ---------------------------------------------------------------------------
  // Lookups through optional chains

  /** `flows?.[id]`: a missing key and a `null` entry both give no flow. */
  function LookupFlow(catalog: Catalog, id: FlowId): (r: Option<Flow>)
    ensures r.Some? <==> id in catalog && catalog[id].Some?
    ensures r.Some? ==> r == catalog[id]
  {
    if id in catalog then catalog[id] else None
  }

  /** `flows?.[id]?.main`. */
  function MainOf(flow: Option<Flow>): (r: Option<SubflowId>)
    ensures r.Some? <==> flow.Some?
    ensures flow.Some? ==> r.value == flow.value.main
  {
    match flow
    case Some(f) => Some(f.main)
    case None => None
  }

  /** `flow?.subflows?.[subflow]`. */
  function CurrentSubflow(flow: Option<Flow>, subflow: Option<SubflowId>): (r: Option<Subflow>)
    ensures r.Some? <==> flow.Some? && subflow.Some? && subflow.value in flow.value.subflows
    ensures r.Some? ==> r.value == flow.value.subflows[subflow.value]
  {
    if flow.Some? && subflow.Some? && subflow.value in flow.value.subflows
    then Some(flow.value.subflows[subflow.value])
    else None
  }

  /** `elements?.[id]`. */
  function LookupElement(elements: map<ElementId, Element>, id: ElementId): (r: Option<Element>)
    ensures r.Some? <==> id in elements
    ensures r.Some? ==> r.value == elements[id]
  {
    if id in elements then Some(elements[id]) else None
  }

  /** The id at `location` when both indices are in range; the handler's `lines?.[line]?.[position]`. */
  function ResolveElementId(flow: Option<Flow>, subflow: Option<SubflowId>, location: Location): (r: Option<ElementId>)
    ensures r.Some? <==>
      && CurrentSubflow(flow, subflow).Some?
      && 0 <= location.line < |CurrentSubflow(flow, subflow).value.lines|
      && 0 <= location.position < |CurrentSubflow(flow, subflow).value.lines[location.line]|
    ensures r.Some? ==> r.value == CurrentSubflow(flow, subflow).value.lines[location.line][location.position]
  {
    match CurrentSubflow(flow, subflow)
    case None => None
    case Some(sf) =>
      if 0 <= location.line < |sf.lines| && 0 <= location.position < |sf.lines[location.line]|
      then Some(sf.lines[location.line][location.position])
      else None
  }

  /** The element a location addresses, if its id resolves and is a key of the subflow's elements. */
  function AddressedElement(flow: Option<Flow>, subflow: Option<SubflowId>, location: Location): Option<Element>
  {
    match ResolveElementId(flow, subflow, location)
    case None => None
    case Some(id) => LookupElement(CurrentSubflow(flow, subflow).value.elements, id)
  }

  /** The guard of the edit: the addressed element exists and its current `value` is truthy. */
  predicate Updatable(flow: Option<Flow>, subflow: Option<SubflowId>, location: Location)
    ensures Updatable(flow, subflow, location) <==>
      && ResolveElementId(flow, subflow, location).Some?
      && ResolveElementId(flow, subflow, location).value in CurrentSubflow(flow, subflow).value.elements
      && Truthy(CurrentSubflow(flow, subflow).value.elements[ResolveElementId(flow, subflow, location).value].value)
  {
    AddressedElement(flow, subflow, location).Some? && Truthy(AddressedElement(flow, subflow, location).value.value)
  }

  // ---------------------------------------------------------------------------
  // The deep copy and the edit

  function CopyElement(e: Element): Element
  {
    e.(value := Copy(e.value))
  }

  function CopySubflow(sf: Subflow): Subflow
  {
    sf.(elements := map id | id in sf.elements :: CopyElement(sf.elements[id]))
  }

  /** `JSON.parse(JSON.stringify(flow))`: only element values can lose anything in the round trip. */
  function CopyFlow(f: Flow): (r: Flow)
    ensures r.id == f.id && r.main == f.main && r.subflows.Keys == f.subflows.Keys
    ensures forall s :: s in f.subflows ==>
      && r.subflows[s].lines == f.subflows[s].lines
      && r.subflows[s].elements.Keys == f.subflows[s].elements.Keys
  {
    f.(subflows := map s | s in f.subflows :: CopySubflow(f.subflows[s]))
  }

  /** The copy with `subflows[s].elements[id].value` set to `v`. */
  function UpdatedFlow(f: Flow, s: SubflowId, id: ElementId, v: JsValue): (r: Flow)
    requires s in f.subflows && id in f.subflows[s].elements
    ensures r.subflows.Keys == f.subflows.Keys && r.subflows[s].elements.Keys == f.subflows[s].elements.Keys
    ensures r.subflows[s].elements[id] == f.subflows[s].elements[id].(value := v)
  {
    var c := CopyFlow(f);
    var sf := c.subflows[s];
    c.(subflows := c.subflows[s := sf.(elements := sf.elements[id := sf.elements[id].(value := v)])])
  }

  /**
   * The flow after `handleElement(location, v)` with the intended guard: the updated copy
   * when an in-range location addresses an element with a truthy value, the same flow otherwise.
   */
  function EditedFlow(flow: Option<Flow>, subflow: Option<SubflowId>, location: Location, v: JsValue): (r: Option<Flow>)
    ensures r.Some? <==> flow.Some?
    ensures r != flow ==> Updatable(flow, subflow, location)
    ensures Updatable(flow, subflow, location) ==> r.value.subflows.Keys == flow.value.subflows.Keys
  {
    if Updatable(flow, subflow, location)
    then Some(UpdatedFlow(flow.value, subflow.value, ResolveElementId(flow, subflow, location).value, v))
    else flow
  }

  // ---------------------------------------------------------------------------
  // The render pass

  /** The slot at (li, p): the element for its id and, after position 0, the element of the previous id. */
  function SlotAt(lines: seq<seq<ElementId>>, elements: map<ElementId, Element>, li: nat, p: nat): Slot
    requires li < |lines| && p < |lines[li]|
  {
    Slot(Location(li, p),
         LookupElement(elements, lines[li][p]),
         if p == 0 then First else After(LookupElement(elements, lines[li][p - 1])))
  }

  /** The nested `lines.map(line => line.map(...))`: one row of slots per line. */
  function Rows(lines: seq<seq<ElementId>>, elements: map<ElementId, Element>): seq<seq<Slot>>
  {
    seq(|lines|, li requires 0 <= li < |lines| =>
      seq(|lines[li]|, p requires 0 <= p < |lines[li]| => SlotAt(lines, elements, li, p)))
  }

  /** React renders the nested arrays in order, row after row. */
  function Flatten<T>(rows: seq<seq<T>>): seq<T>
  {
    if rows == [] then [] else rows[0] + Flatten(rows[1..])
  }

  /** The number of items before row `i`. */
  function Offset<T>(rows: seq<seq<T>>, i: nat): nat
    requires i <= |rows|
  {
    if i == 0 then 0 else |rows[0]| + Offset(rows[1..], i - 1)
  }

  /** The slots the modeler renders for its current flow and subflow. */
  function Layout(flow: Option<Flow>, subflow: Option<SubflowId>): (r: seq<Slot>)
    ensures CurrentSubflow(flow, subflow).None? ==> r == []
  {
    match CurrentSubflow(flow, subflow)
    case None => []
    case Some(sf) => Flatten(Rows(sf.lines, sf.elements))
  }

  /** A location that addresses a slot of `lines`. */
  predicate InRange(lines: seq<seq<ElementId>>, loc: Location)
  {
    0 <= loc.line < |lines| && 0 <= loc.position < |lines[loc.line]|
  }

  /** Line-major order on locations. */
  predicate Before(a: Location, b: Location)
  {
    a.line < b.line || (a.line == b.line && a.position < b.position)
  }

  // ---------------------------------------------------------------------------
  // The store

  /** The store's initial flow value, before the mount effect loads the requested flow. */
  const INITIAL_FLOW: Flow := Flow(Some(""), "", map[])

  /** The modeler component's state: the current flow and the selected subflow id. */
  class ModelerStore {
    const catalog: Catalog
    var flow: Option<Flow>
    var subflow: Option<SubflowId>

    /**
     * The subflow id is undefined only when the flow is: both come from the same catalog entry.
     * With a flow present and the id undefined, `flow?.subflows?.[subflow]` would read the key
     * "undefined"; this invariant keeps the store out of that state, so reading an absent id
     * as "no subflow" (as `CurrentSubflow` does) is faithful in every reachable state.
     */
    ghost predicate Valid()
      reads this
    {
      subflow.None? ==> flow.None?
    }

    /** Mounting: the initial state, then the effect that selects subflow "" and loads the flow `id`. */
    constructor (catalog: Catalog, id: FlowId)
      ensures Valid()
      ensures this.catalog == catalog
      ensures flow == LookupFlow(catalog, id) && subflow == MainOf(flow)
    {
      this.catalog := catalog;
      var initial := INITIAL_FLOW;
      flow := Some(initial);
      subflow := Some("");
      new;
      if initial.id == Some("") || initial.id != Some(id) {
        HandleSubflow("");
        HandleFlow(id);
      }
    }

    /** `handleFlow`: load the flow and select its main subflow; a missing or null entry leaves both undefined. */
    method HandleFlow(id: FlowId)
      modifies this`flow, this`subflow
      ensures Valid()
      ensures flow == LookupFlow(catalog, id) && subflow == MainOf(flow)
    {
      flow := LookupFlow(catalog, id);
      subflow := MainOf(flow);
    }

    /** `handleSubflow`: store the id, whether or not it names a subflow. */
    method HandleSubflow(id: SubflowId)
      modifies this`subflow
      ensures subflow == Some(id) && flow == old(flow)
      ensures old(Valid()) ==> Valid()
    {
      subflow := Some(id);
    }

    /**
     * `handleElement`: replace the addressed element's value in a deep copy, or do nothing.
     * The guard is the intended one (`Updatable`): a location outside the lines changes
     * nothing. `EditedFlowAsWritten` below is the handler as written.
     */
    method HandleElement(location: Location, v: JsValue)
      requires Valid()
      modifies this`flow
      ensures Valid() && subflow == old(subflow)
      ensures !Updatable(old(flow), subflow, location) ==> flow == old(flow)
      ensures Updatable(old(flow), subflow, location) ==>
        flow == Some(UpdatedFlow(old(flow).value, subflow.value, ResolveElementId(old(flow), subflow, location).value, v))
    {
      var sf := CurrentSubflow(flow, subflow);
      if sf.Some? {
        var lines := sf.value.lines;
        if 0 <= location.line < |lines| && 0 <= location.position < |lines[location.line]| {
          var id := lines[location.line][location.position];
          if id in sf.value.elements && Truthy(sf.value.elements[id].value) {
            var copy := CopyFlow(flow.value);
            var target := copy.subflows[subflow.value];
            var updated := target.elements[id].(value := v);
            flow := Some(copy.(subflows := copy.subflows[subflow.value := target.(elements := target.elements[id := updated])]));
          }
        }
      }
    }

    /** The render pass over the current state: one slot per in-range location of the selected subflow. */
    function Render(): (r: seq<Slot>)
      reads this
      ensures CurrentSubflow(flow, subflow).None? ==> r == []
      ensures CurrentSubflow(flow, subflow).Some? ==>
        forall k :: 0 <= k < |r| ==> InRange(CurrentSubflow(flow, subflow).value.lines, r[k].location)
    {
      if CurrentSubflow(flow, subflow).Some? then
        LayoutEnumeratesSlots(flow, subflow, CurrentSubflow(flow, subflow).value);
        Layout(flow, subflow)
      else
        Layout(flow, subflow)
    }
  }

  // ---------------------------------------------------------------------------
  // The render pass enumerates every slot once, in line-major order

  lemma {:induction false} FlattenAt<T>(rows: seq<seq<T>>, i: nat, j: nat)
    requires i < |rows| && j < |rows[i]|
    ensures Offset(rows, i) + j < |Flatten(rows)|
    ensures Flatten(rows)[Offset(rows, i) + j] == rows[i][j]
  {
    if i > 0 {
      FlattenAt(rows[1..], i - 1, j);
    }
  }

  lemma {:induction false} FlattenIndex<T>(rows: seq<seq<T>>, k: nat) returns (i: nat, j: nat)
    requires k < |Flatten(rows)|
    ensures i < |rows| && j < |rows[i]| && k == Offset(rows, i) + j
    ensures Flatten(rows)[k] == rows[i][j]
  {
    if k < |rows[0]| {
      i, j := 0, k;
    } else {
      var i', j' := FlattenIndex(rows[1..], k - |rows[0]|);
      i, j := i' + 1, j';
    }
  }

  /** A whole row lies before the start of any later row. */
  lemma {:induction false} OffsetGrows<T>(rows: seq<seq<T>>, i: nat, i': nat)
    requires i < i' <= |rows|
    ensures Offset(rows, i) + |rows[i]| <= Offset(rows, i')
  {
    if i > 0 {
      OffsetGrows(rows[1..], i - 1, i' - 1);
    }
  }

  /**
   * Rendering the selected subflow yields exactly one item per slot of its lines:
   * every item is the slot of its own in-range location, every in-range location
   * occurs, and the locations strictly increase in line-major order (so none repeats).
   */
  lemma LayoutEnumeratesSlots(flow: Option<Flow>, subflow: Option<SubflowId>, sf: Subflow)
    requires CurrentSubflow(flow, subflow) == Some(sf)
    ensures forall k :: 0 <= k < |Layout(flow, subflow)| ==>
      var loc := Layout(flow, subflow)[k].location;
      InRange(sf.lines, loc) && Layout(flow, subflow)[k] == SlotAt(sf.lines, sf.elements, loc.line, loc.position)
    ensures forall li, p :: InRange(sf.lines, Location(li, p)) ==>
      exists k :: 0 <= k < |Layout(flow, subflow)| && Layout(flow, subflow)[k].location == Location(li, p)
    ensures forall k1, k2 :: 0 <= k1 < k2 < |Layout(flow, subflow)| ==>
      Before(Layout(flow, subflow)[k1].location, Layout(flow, subflow)[k2].location)
  {
    var rows := Rows(sf.lines, sf.elements);
    var items := Layout(flow, subflow);
    assert items == Flatten(rows);
    forall k | 0 <= k < |items|
      ensures InRange(sf.lines, items[k].location)
      ensures items[k] == SlotAt(sf.lines, sf.elements, items[k].location.line, items[k].location.position)
    {
      var i, j := FlattenIndex(rows, k);
    }
    forall li, p | InRange(sf.lines, Location(li, p))
      ensures exists k :: 0 <= k < |items| && items[k].location == Location(li, p)
    {
      FlattenAt(rows, li, p);
      var k := Offset(rows, li) + p;
      assert items[k].location == Location(li, p);
    }
    forall k1, k2 | 0 <= k1 < k2 < |items|
      ensures Before(items[k1].location, items[k2].location)
    {
      var i1, j1 := FlattenIndex(rows, k1);
      var i2, j2 := FlattenIndex(rows, k2);
      if i2 < i1 {
        OffsetGrows(rows, i2, i1);
      }
    }
  }

  /** With no selected subflow (no flow, no id, or an id that is not a key) nothing is rendered. */
  lemma LayoutEmptyWithoutSubflow(flow: Option<Flow>, subflow: Option<SubflowId>)
    requires CurrentSubflow(flow, subflow).None?
    ensures Layout(flow, subflow) == []
  {
  }

  /** After position 0, the prior an item receives is the element of the item rendered just before it. */
  lemma PriorIsPreviousItem(flow: Option<Flow>, subflow: Option<SubflowId>, k: nat)
    requires k < |Layout(flow, subflow)|
    ensures Layout(flow, subflow)[k].location.position == 0 <==> Layout(flow, subflow)[k].prior == First
    ensures Layout(flow, subflow)[k].location.position > 0 ==>
      && 0 < k
      && Layout(flow, subflow)[k - 1].location.line == Layout(flow, subflow)[k].location.line
      && Layout(flow, subflow)[k].prior == After(Layout(flow, subflow)[k - 1].element)
  {
    var sf := CurrentSubflow(flow, subflow).value;
    var rows := Rows(sf.lines, sf.elements);
    var items := Layout(flow, subflow);
    assert items == Flatten(rows);
    var i, j := FlattenIndex(rows, k);
    assert items[k] == SlotAt(sf.lines, sf.elements, i, j);
    if j > 0 {
      FlattenAt(rows, i, j - 1);
      assert items[k - 1] == SlotAt(sf.lines, sf.elements, i, j - 1);
    }
  }

  // ---------------------------------------------------------------------------
  // The edit

  /** No element value has an `undefined` inside it, so the deep copy changes nothing. */
  ghost predicate NormalFlow(f: Flow)
  {
    forall s, id :: s in f.subflows && id in f.subflows[s].elements ==> Normal(f.subflows[s].elements[id].value)
  }

  lemma CopyFlowFixesNormal(f: Flow)
    requires NormalFlow(f)
    ensures CopyFlow(f) == f
  {
    forall s | s in f.subflows
      ensures CopySubflow(f.subflows[s]) == f.subflows[s]
    {
      var sf := f.subflows[s];
      forall id | id in sf.elements
        ensures CopyElement(sf.elements[id]) == sf.elements[id]
      {
        CopyFixesNormal(sf.elements[id].value);
      }
    }
  }

  /**
   * What an edit leaves alone: the flow's id and main subflow, every subflow's lines and
   * element ids, and every field of every element except the addressed element's value;
   * other element values go through the deep copy.
   */
  lemma UpdatedFlowFrame(f: Flow, s: SubflowId, id: ElementId, v: JsValue)
    requires s in f.subflows && id in f.subflows[s].elements
    ensures var r := UpdatedFlow(f, s, id, v);
      && r.id == f.id && r.main == f.main && r.subflows.Keys == f.subflows.Keys
      && (forall s' :: s' in f.subflows ==>
            && r.subflows[s'].lines == f.subflows[s'].lines
            && r.subflows[s'].elements.Keys == f.subflows[s'].elements.Keys
            && (forall id' :: id' in f.subflows[s'].elements && (s', id') != (s, id) ==>
                  r.subflows[s'].elements[id'] == CopyElement(f.subflows[s'].elements[id'])))
      && r.subflows[s].elements[id] == f.subflows[s].elements[id].(value := v)
  {
  }

  /** On a flow that JSON carries unchanged (every catalog flow), an edit changes exactly one element's value. */
  lemma UpdateChangesOnlyTheValue(f: Flow, s: SubflowId, id: ElementId, v: JsValue)
    requires s in f.subflows && id in f.subflows[s].elements
    requires NormalFlow(f)
    ensures var sf := f.subflows[s];
      UpdatedFlow(f, s, id, v) == f.(subflows := f.subflows[s := sf.(elements := sf.elements[id := sf.elements[id].(value := v)])])
  {
    CopyFlowFixesNormal(f);
  }

  /** After a successful edit, the same location addresses the same element, now holding the new value. */
  lemma EditThenRead(flow: Option<Flow>, subflow: Option<SubflowId>, location: Location, v: JsValue)
    requires Updatable(flow, subflow, location)
    ensures ResolveElementId(EditedFlow(flow, subflow, location, v), subflow, location) == ResolveElementId(flow, subflow, location)
    ensures AddressedElement(EditedFlow(flow, subflow, location, v), subflow, location)
         == Some(AddressedElement(flow, subflow, location).value.(value := v))
  {
    var id := ResolveElementId(flow, subflow, location).value;
    UpdatedFlowFrame(flow.value, subflow.value, id, v);
  }

  /** The three resolution failures and a falsy current value each leave the flow as it was. */
  lemma EditNoOps(flow: Option<Flow>, subflow: Option<SubflowId>, location: Location, v: JsValue)
    ensures CurrentSubflow(flow, subflow).None? ==> EditedFlow(flow, subflow, location, v) == flow
    ensures CurrentSubflow(flow, subflow).Some? && !(0 <= location.line < |CurrentSubflow(flow, subflow).value.lines|)
      ==> EditedFlow(flow, subflow, location, v) == flow
    ensures CurrentSubflow(flow, subflow).Some? && 0 <= location.line < |CurrentSubflow(flow, subflow).value.lines|
      && !(0 <= location.position < |CurrentSubflow(flow, subflow).value.lines[location.line]|)
      ==> EditedFlow(flow, subflow, location, v) == flow
    ensures ResolveElementId(flow, subflow, location).Some?
      && ResolveElementId(flow, subflow, location).value !in CurrentSubflow(flow, subflow).value.elements
      ==> EditedFlow(flow, subflow, location, v) == flow
    ensures AddressedElement(flow, subflow, location).Some? && !Truthy(AddressedElement(flow, subflow, location).value.value)
      ==> EditedFlow(flow, subflow, location, v) == flow
  {
  }

  // ---------------------------------------------------------------------------
  // The lookup as written: an unresolved location reads the key "undefined"

  /**
   * The key the handler's `elements?.[elementId]` reads. When the location is out of
   * range, `elementId` is `undefined`, and a JavaScript property lookup turns that
   * into the string "undefined".
   */
  function ElementKeyAsWritten(flow: Option<Flow>, subflow: Option<SubflowId>, location: Location): (r: Option<string>)
    ensures r.Some? <==> CurrentSubflow(flow, subflow).Some?
    ensures r.Some? && InRange(CurrentSubflow(flow, subflow).value.lines, location) ==> r == ResolveElementId(flow, subflow, location)
    ensures r.Some? && !InRange(CurrentSubflow(flow, subflow).value.lines, location) ==> r == Some("undefined")
  {
    match CurrentSubflow(flow, subflow)
    case None => None
    case Some(sf) =>
      if InRange(sf.lines, location) then Some(sf.lines[location.line][location.position]) else Some("undefined")
  }

  /** The handler's guard as written. */
  predicate UpdatableAsWritten(flow: Option<Flow>, subflow: Option<SubflowId>, location: Location)
    ensures (CurrentSubflow(flow, subflow).Some? ==> InRange(CurrentSubflow(flow, subflow).value.lines, location)) ==>
      (UpdatableAsWritten(flow, subflow, location) <==> Updatable(flow, subflow, location))
    ensures UpdatableAsWritten(flow, subflow, location) ==> CurrentSubflow(flow, subflow).Some?
  {
    && ElementKeyAsWritten(flow, subflow, location).Some?
    && ElementKeyAsWritten(flow, subflow, location).value in CurrentSubflow(flow, subflow).value.elements
    && Truthy(CurrentSubflow(flow, subflow).value.elements[ElementKeyAsWritten(flow, subflow, location).value].value)
  }

  /**
   * The guard as written differs from the intended one exactly when the location is out of
   * range and the subflow holds an element keyed "undefined" whose value is truthy.
   */
  lemma AsWrittenGuardDiffers(flow: Option<Flow>, subflow: Option<SubflowId>, location: Location)
    ensures UpdatableAsWritten(flow, subflow, location) != Updatable(flow, subflow, location) <==>
      && CurrentSubflow(flow, subflow).Some?
      && !InRange(CurrentSubflow(flow, subflow).value.lines, location)
      && "undefined" in CurrentSubflow(flow, subflow).value.elements
      && Truthy(CurrentSubflow(flow, subflow).value.elements["undefined"].value)
  {
  }

  /** A subflow with an element keyed "undefined": an edit at line 3 of a one-line subflow overwrites that element. */
  lemma OutOfRangeEditHitsUndefinedKey()
    ensures var el := Element(Input, Position(0, 0), Circle(50), Obj([]), None);
      var f := Flow(None, "s", map["s" := Subflow([["x"]], map["x" := el, "undefined" := el])]);
      && UpdatableAsWritten(Some(f), Some("s"), Location(3, 0))
      && !Updatable(Some(f), Some("s"), Location(3, 0))
      && EditedFlow(Some(f), Some("s"), Location(3, 0), Num(7)) == Some(f)
      && EditedFlowAsWritten(Some(f), Some("s"), Location(3, 0), Num(7)).value.subflows["s"].elements["undefined"].value == Num(7)
  {
    var el := Element(Input, Position(0, 0), Circle(50), Obj([]), None);
    var f := Flow(None, "s", map["s" := Subflow([["x"]], map["x" := el, "undefined" := el])]);
    AsWrittenEditOutOfRange(Some(f), Some("s"), Location(3, 0), Num(7));
  }

  /** The handler as written: it writes to whatever key its lookup read, "undefined" included. */
  function EditedFlowAsWritten(flow: Option<Flow>, subflow: Option<SubflowId>, location: Location, v: JsValue): (r: Option<Flow>)
    ensures r.Some? <==> flow.Some?
    ensures r != flow ==> UpdatableAsWritten(flow, subflow, location)
  {
    if UpdatableAsWritten(flow, subflow, location)
    then Some(UpdatedFlow(flow.value, subflow.value, ElementKeyAsWritten(flow, subflow, location).value, v))
    else flow
  }

  /** Inside the lines the handler as written and the intended one make the same edit. */
  lemma AsWrittenEditInRange(flow: Option<Flow>, subflow: Option<SubflowId>, location: Location, v: JsValue)
    requires CurrentSubflow(flow, subflow).Some? ==> InRange(CurrentSubflow(flow, subflow).value.lines, location)
    ensures EditedFlowAsWritten(flow, subflow, location, v) == EditedFlow(flow, subflow, location, v)
  {
  }

  /**
   * Outside the lines the intended edit does nothing, while the handler as written sets the
   * value of the element keyed "undefined" whenever that element's value is truthy.
   */
  lemma AsWrittenEditOutOfRange(flow: Option<Flow>, subflow: Option<SubflowId>, location: Location, v: JsValue)
    requires CurrentSubflow(flow, subflow).Some? && !InRange(CurrentSubflow(flow, subflow).value.lines, location)
    requires "undefined" in CurrentSubflow(flow, subflow).value.elements
    requires Truthy(CurrentSubflow(flow, subflow).value.elements["undefined"].value)
    ensures EditedFlow(flow, subflow, location, v) == flow
    ensures var r := EditedFlowAsWritten(flow, subflow, location, v);
      r.Some? && subflow.value in r.value.subflows && "undefined" in r.value.subflows[subflow.value].elements
      && r.value.subflows[subflow.value].elements["undefined"] == CurrentSubflow(flow, subflow).value.elements["undefined"].(value := v)
  {
  }

  /** The intended guard: an edit never reaches past the ends of the lines. */
  lemma UpdatableOnlyInRange(flow: Option<Flow>, subflow: Option<SubflowId>, location: Location)
    requires Updatable(flow, subflow, location)
    ensures CurrentSubflow(flow, subflow).Some? && InRange(CurrentSubflow(flow, subflow).value.lines, location)
  {
  }

  // ---------------------------------------------------------------------------
  // The example catalog

  const E0: Element := Element(Return, Position(75, 600), Circle(50), Obj([]), Some([]))
  const E1: Element := Element(Input, Position(75, 125), Circle(50), Obj([]), None)
  const E2: Element := Element(Table, Position(250, 10), Rect(200, 250), Obj([
    Member("name", Str("Input Table")),
    Member("var", Str("input_table")),
    Member("columns", Arr([Obj([Member("name", Str("Value")), Member("var", Str("value")), Member("type", Str("Number"))])])),
    Member("rows", Arr([Arr([Num(5)])]))]), None)
  const E3: Element := Element(Function, Position(600, 50), Rect(200, 250), Obj([
    Member("name", Str("Square")),
    Member("var", Str("square(Number)")),
    Member("input", Arr([Obj([Member("name", Str("n")), Member("type", Str("Number"))])])),
    Member("args", Arr([Str("e2")])),
    Member("outputs", Arr([Obj([Member("type", Str("Number"))])])),
    Member("returns", Arr([Str("e4")]))]), None)
  const E4: Element := Element(Table, Position(950, 10), Rect(200, 250), Obj([
    Member("name", Str("Output Table")),
    Member("var", Str("output_table")),
    Member("columns", Arr([Obj([Member("name", Str("Squared Value")), Member("var", Str("squared_value")), Member("type", Str("Number"))])])),
    Member("rows", Arr([Arr([Num(25)])]))]), None)

  const SUBFLOW_A1: Subflow := Subflow([["e1", "e2", "e3", "e4"], ["e0"]],
    map["e0" := E0, "e1" := E1, "e2" := E2, "e3" := E3, "e4" := E4])
  const FLOW_A: Flow := Flow(None, "a1", map["a1" := SUBFLOW_A1])
  const FLOWS: Catalog := map["a" := Some(FLOW_A), "b" := None, "c" := None]

  /** Every id on a line names an element, and there is a `return` element even if no line uses it. */
  predicate WellFormedSubflow(sf: Subflow)
  {
    && (forall li, p :: 0 <= li < |sf.lines| && 0 <= p < |sf.lines[li]| ==> sf.lines[li][p] in sf.elements)
    && (exists id :: id in sf.elements && sf.elements[id].kind == Return)
  }

  lemma ExampleIsWellFormed()
    ensures WellFormedSubflow(SUBFLOW_A1)
    ensures !WellFormedSubflow(SUBFLOW_A1.(elements := SUBFLOW_A1.elements - {"e0"}))
  {
    var sf := SUBFLOW_A1;
    assert sf.elements["e0"].kind == Return;
    forall li, p | 0 <= li < |sf.lines| && 0 <= p < |sf.lines[li]|
      ensures sf.lines[li][p] in sf.elements
    {
      assert li == 0 || li == 1;
      if li == 0 {
        assert sf.lines[0] == ["e1", "e2", "e3", "e4"];
      }
    }
    var broken := sf.(elements := sf.elements - {"e0"});
    assert broken.lines[1][0] !in broken.elements;
  }

  lemma ExampleInputTableIsNormal()
    ensures Normal(E2.value)
  {
    var column := Obj([Member("name", Str("Value")), Member("var", Str("value")), Member("type", Str("Number"))]);
    assert Normal(column) && Normal(Arr([column]));
    assert Normal(Arr([Num(5)])) && Normal(Arr([Arr([Num(5)])]));
  }

  lemma ExampleOutputTableIsNormal()
    ensures Normal(E4.value)
  {
    var column := Obj([Member("name", Str("Squared Value")), Member("var", Str("squared_value")), Member("type", Str("Number"))]);
    assert Normal(column) && Normal(Arr([column]));
    assert Normal(Arr([Num(25)])) && Normal(Arr([Arr([Num(25)])]));
  }

  lemma ExampleFunctionIsNormal()
    ensures Normal(E3.value)
  {
    var input := Obj([Member("name", Str("n")), Member("type", Str("Number"))]);
    var output := Obj([Member("type", Str("Number"))]);
    assert Normal(input) && Normal(Arr([input]));
    assert Normal(output) && Normal(Arr([output]));
    assert Normal(Arr([Str("e2")])) && Normal(Arr([Str("e4")]));
  }

  /** The example's values hold no `undefined`, so the deep copy leaves the example flow as it is. */
  lemma ExampleIsNormal()
    ensures NormalFlow(FLOW_A)
  {
    ExampleInputTableIsNormal();
    ExampleOutputTableIsNormal();
    ExampleFunctionIsNormal();
    var elements := SUBFLOW_A1.elements;
    assert elements.Keys == {"e0", "e1", "e2", "e3", "e4"};
    forall id | id in elements
      ensures Normal(elements[id].value)
    {
      if id == "e2" { assert elements[id] == E2; }
      else if id == "e3" { assert elements[id] == E3; }
      else if id == "e4" { assert elements[id] == E4; }
    }
  }

  /** Selecting "a" loads its main subflow "a1"; the null entries "b" and "c" and unknown ids load nothing. */
  lemma ExampleSelection(id: FlowId)
    ensures LookupFlow(FLOWS, "a") == Some(FLOW_A) && MainOf(LookupFlow(FLOWS, "a")) == Some("a1")
    ensures id != "a" ==> LookupFlow(FLOWS, id).None? && MainOf(LookupFlow(FLOWS, id)).None?
  {
  }

  /** Rendering "a1" walks e1, e2, e3, e4 on the first line and e0 on the second; e3's prior is e2. */
  lemma ExampleLayout()
    ensures Layout(Some(FLOW_A), Some("a1")) == [
      Slot(Location(0, 0), Some(E1), First),
      Slot(Location(0, 1), Some(E2), After(Some(E1))),
      Slot(Location(0, 2), Some(E3), After(Some(E2))),
      Slot(Location(0, 3), Some(E4), After(Some(E3))),
      Slot(Location(1, 0), Some(E0), First)]
  {
    var rows := Rows(SUBFLOW_A1.lines, SUBFLOW_A1.elements);
    assert |rows| == 2 && rows[1..][0] == rows[1] && rows[1..][1..] == [];
    assert Flatten(rows[1..]) == rows[1] + Flatten(rows[1..][1..]);
    assert Flatten(rows) == rows[0] + rows[1];
    assert rows[0] == [
      Slot(Location(0, 0), Some(E1), First),
      Slot(Location(0, 1), Some(E2), After(Some(E1))),
      Slot(Location(0, 2), Some(E3), After(Some(E2))),
      Slot(Location(0, 3), Some(E4), After(Some(E3)))];
    assert rows[1] == [Slot(Location(1, 0), Some(E0), First)];
  }

  /** The empty objects of e0 and e1 are truthy, so those elements can be edited. */
  lemma ExampleEmptyObjectsAreEditable()
    ensures Updatable(Some(FLOW_A), Some("a1"), Location(1, 0))
    ensures Updatable(Some(FLOW_A), Some("a1"), Location(0, 0))
  {
  }
}
