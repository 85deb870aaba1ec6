/**
 * The indexer: reads `batch.workflow.form` and builds the ordered list of
 * exposed-field descriptors, one per "node-field" child of the root
 * container, in the container's `data.children` order.
 */
module Indexer {
  import opened Outcomes
  import opened Json
  import opened FieldTypes
  import opened SeqFacts

  /** One exposed field. */
  datatype Descriptor = Descriptor(
    nodeId: string,
    fieldName: string,
    settingsType: SettingsType,
    formElementId: string,
    fieldLabel: Option<Json>)

  /** node id -> field name -> label, collected from `batch.workflow.nodes`. */
  type LabelMap = map<string, map<string, Json>>

  // ---------------------------------------------------------------------------
  // Labels from batch.workflow.nodes

  /** An input definition that declares a label. */
  predicate LabelledInput(def: Json) {
    def.JObj? && "label" in def.fields
  }

  /** The labels a node's `data.inputs` declares: the entries that are dicts carrying "label". */
  function InputLabels(inputs: Json): (r: map<string, Json>)
    ensures forall f :: f in r <==> inputs.JObj? && f in inputs.fields && LabelledInput(inputs.fields[f])
    ensures forall f :: f in r ==> inputs.JObj? && f in inputs.fields && LabelledInput(inputs.fields[f])
                                   && r[f] == inputs.fields[f].fields["label"]
  {
    if inputs.JObj? then
      map f | f in inputs.fields && LabelledInput(inputs.fields[f]) :: inputs.fields[f].fields["label"]
    else map[]
  }

  /** A workflow node that records its labels under the string id `id`. */
  predicate LabelledNode(node: Json, id: string) {
    node.JObj? && "id" in node.fields && node.fields["id"] == JStr(id)
    && "data" in node.fields && node.fields["data"].JObj?
  }

  function NodeInputLabels(node: Json): map<string, Json>
    requires node.JObj? && "data" in node.fields && node.fields["data"].JObj?
  {
    InputLabels(At(node.fields["data"], "inputs"))
  }

  /** One turn of the loop over the workflow nodes: a later node with the same id replaces an earlier one. */
  function RecordNodeLabels(labels: LabelMap, node: Json): Result<LabelMap> {
    if node.JObj? && "id" in node.fields && "data" in node.fields && node.fields["data"].JObj? then
      match node.fields["id"]
      case JStr(id) => Ok(labels[id := NodeInputLabels(node)])
      case JList(_) => Err(Unguarded)   // unhashable dict key
      case JObj(_) => Err(Unguarded)
      case _ => Ok(labels)              // never equal to a string node id
    else Ok(labels)
  }

  /** A node the label loop files, but whose id cannot be a dict key (a list or a dict). */
  predicate UnhashableLabelledId(node: Json) {
    node.JObj? && "id" in node.fields && "data" in node.fields && node.fields["data"].JObj?
    && (node.fields["id"].JList? || node.fields["id"].JObj?)
  }

  function LabelsFrom(labels: LabelMap, nodes: seq<Json>): (r: Result<LabelMap>)
    ensures r.Err? <==> exists k :: 0 <= k < |nodes| && UnhashableLabelledId(nodes[k])
    ensures r.Err? ==> r.error == Unguarded
    decreases |nodes|
  {
    if nodes == [] then Ok(labels)
    else
      var next :- RecordNodeLabels(labels, nodes[0]);
      LabelsFrom(next, nodes[1..])
  }

  function LabelIndex(workflowNodes: Json): (r: Result<LabelMap>)
    ensures workflowNodes.JList? ==> (r.Err? <==> exists k :: 0 <= k < |workflowNodes.items| && UnhashableLabelledId(workflowNodes.items[k]))
    ensures r.Err? ==> r.error == Unguarded
  {
    var items :- LoopItems(workflowNodes);
    LabelsFrom(map[], items)
  }

  /**
   * The labels recorded under a node id are those of the LAST workflow node
   * carrying that id, and an id is recorded exactly when some node carries it.
   */
  lemma {:induction false} LabelsFromLastWins(acc: LabelMap, nodes: seq<Json>, labels: LabelMap, id: string)
    requires LabelsFrom(acc, nodes) == Ok(labels)
    ensures id in labels <==> id in acc || exists k :: 0 <= k < |nodes| && LabelledNode(nodes[k], id)
    ensures (forall k :: 0 <= k < |nodes| ==> !LabelledNode(nodes[k], id)) && id in acc ==> labels[id] == acc[id]
    ensures forall k :: 0 <= k < |nodes| && LabelledNode(nodes[k], id)
              && (forall k' :: k < k' < |nodes| ==> !LabelledNode(nodes[k'], id))
              ==> labels[id] == NodeInputLabels(nodes[k])
    decreases |nodes|
  {
    if nodes != [] {
      var next := RecordNodeLabels(acc, nodes[0]).value;
      LabelsFromLastWins(next, nodes[1..], labels, id);
      forall k | 0 <= k < |nodes| - 1
        ensures nodes[1..][k] == nodes[k + 1]
      {
      }
      if exists k :: 0 <= k < |nodes| && LabelledNode(nodes[k], id) {
        var k :| 0 <= k < |nodes| && LabelledNode(nodes[k], id);
        if k > 0 {
          assert LabelledNode(nodes[1..][k - 1], id);
        }
      }
    }
  }

  // ---------------------------------------------------------------------------
  // One node-field element

  /** A present, non-empty identifier. */
  predicate Named(id: Option<string>) {
    id.Some? && id.value != ""
  }

  /** nodeId and fieldName are read as strings; a missing key or null is None. */
  function Identifier(raw: Json): Result<Option<string>> {
    match raw
    case JNull => Ok(None)
    case JStr(s) => Ok(Some(s))
    case _ => Err(OutOfModel)
  }

  /** The value the graph holds for the field, when `nodeId in graph_nodes` and `fieldName in graph_node` both hold. */
  function GraphValue(graphNodes: Json, nodeId: string, fieldName: string): (r: Result<Option<Json>>)
    ensures graphNodes.JObj? && nodeId !in graphNodes.fields ==> r == Ok(None)
    ensures graphNodes.JObj? && nodeId in graphNodes.fields && graphNodes.fields[nodeId].JObj? ==>
              r == Ok(if fieldName in graphNodes.fields[nodeId].fields
                      then Some(graphNodes.fields[nodeId].fields[fieldName]) else None)
  {
    var hasNode :- Member(graphNodes, nodeId);
    if !hasNode then Ok(None)
    else
      var node :- Subscript(graphNodes, nodeId);
      var hasField :- Member(node, fieldName);
      if !hasField then Ok(None)
      else
        var v :- Subscript(node, fieldName);
        Ok(Some(v))
  }

  /** Inference from the graph, attempted only when both identifiers are present and non-empty. */
  function InferredFromGraph(graphNodes: Json, nodeId: Option<string>, fieldName: Option<string>): Result<Option<FieldKind>> {
    if Named(nodeId) && Named(fieldName) then
      var v :- GraphValue(graphNodes, nodeId.value, fieldName.value);
      if v.None? then Ok(None)
      else
        var k :- InferFromValue(v.value, fieldName.value);
        Ok(Some(k))
    else Ok(None)
  }

  /**
   * The settings type of a node-field, in the fixed order of precedence:
   * an explicit truthy `settings.type`, then the shape of the graph value,
   * then the field name; `fieldName.lower()` on a missing name raises.
   */
  function ResolveSettingsType(rawType: Json, nodeId: Option<string>, fieldName: Option<string>, graphNodes: Json): (r: Result<SettingsType>)
    ensures Truthy(rawType) ==> r == Ok(SettingsTypeOf(rawType))
    ensures !Truthy(rawType) ==> match InferredFromGraph(graphNodes, nodeId, fieldName)
              case Err(e) => r == Err(e)
              case Ok(Some(k)) => r == Ok(Known(k))
              case Ok(None) => r == if fieldName.None? then Err(Unguarded) else Ok(Known(NameHeuristic(fieldName.value)))
  {
    if Truthy(rawType) then Ok(SettingsTypeOf(rawType))
    else
      var inferred :- InferredFromGraph(graphNodes, nodeId, fieldName);
      if inferred.Some? then Ok(Known(inferred.value))
      else if fieldName.None? then Err(Unguarded)
      else Ok(Known(NameHeuristic(fieldName.value)))
  }

  /** An explicit type makes the graph and the field name irrelevant. */
  lemma ExplicitTypeIgnoresGraphAndName(rawType: Json, n1: Option<string>, f1: Option<string>, g1: Json,
                                        n2: Option<string>, f2: Option<string>, g2: Json)
    requires Truthy(rawType)
    ensures ResolveSettingsType(rawType, n1, f1, g1) == ResolveSettingsType(rawType, n2, f2, g2)
  {
  }

  /**
   * The graph value beats the name: with no explicit type, a field whose
   * graph node holds a value that is not a dict gets the type that value
   * infers, whatever the field is called.
   */
  lemma GraphValueBeatsName(rawType: Json, nodeId: string, fieldName: string, node: map<string, Json>, graphNodes: map<string, Json>)
    requires !Truthy(rawType) && nodeId != "" && fieldName != ""
    requires nodeId in graphNodes && graphNodes[nodeId] == JObj(node)
    requires fieldName in node && !node[fieldName].JObj?
    ensures InferFromValue(node[fieldName], fieldName).Ok?
    ensures ResolveSettingsType(rawType, Some(nodeId), Some(fieldName), JObj(graphNodes))
            == Ok(Known(InferFromValue(node[fieldName], fieldName).value))
  {
  }

  /**
   * With no explicit type and no graph value, the name decides, ignoring
   * case: any spelling of "board" is a board field.
   */
  lemma BoardNameFallback(rawType: Json, nodeId: string, fieldName: string, graphNodes: map<string, Json>)
    requires !Truthy(rawType) && Lower(fieldName) == "board"
    requires nodeId !in graphNodes || (graphNodes[nodeId].JObj? && fieldName !in graphNodes[nodeId].fields)
    ensures ResolveSettingsType(rawType, Some(nodeId), Some(fieldName), JObj(graphNodes)) == Ok(Known(BoardField))
  {
  }

  /**
   * The field's label from the workflow nodes. A missing label, a recorded
   * `null` and an empty string are all Python's `None`.
   */
  function FieldLabel(labels: LabelMap, nodeId: Option<string>, fieldName: Option<string>): (lbl: Option<Json>)
    ensures lbl != Some(JStr("")) && lbl != Some(JNull)
    ensures lbl.Some? <==> nodeId.Some? && nodeId.value in labels && fieldName.Some?
                              && fieldName.value in labels[nodeId.value]
                              && labels[nodeId.value][fieldName.value] != JStr("")
                              && labels[nodeId.value][fieldName.value] != JNull
    ensures lbl.Some? ==> lbl.value == labels[nodeId.value][fieldName.value]
  {
    if nodeId.Some? && nodeId.value in labels && fieldName.Some? && fieldName.value in labels[nodeId.value] then
      var found := labels[nodeId.value][fieldName.value];
      if found == JStr("") || found == JNull then None else Some(found)
    else None
  }

  /** The raw entry `data.fieldIdentifier.<key>` of a form element. */
  function IdentifierEntry(element: Json, key: string): Json {
    At(At(At(element, "data"), "fieldIdentifier"), key)
  }

  /** The raw `data.settings.type` of a form element. */
  function SettingsEntry(element: Json): Json {
    At(At(At(element, "data"), "settings"), "type")
  }

  /**
   * The `.get` chain over a node-field element does not raise: the element,
   * and its `data`, `data.fieldIdentifier` and `data.settings` where present,
   * are dicts.
   */
  predicate NodeFieldShape(element: Json) {
    element.JObj? && DictOrAbsent(element, "data")
    && DictOrAbsent(At(element, "data"), "fieldIdentifier") && DictOrAbsent(At(element, "data"), "settings")
  }

  /** A named identifier entry: a non-empty string. */
  predicate NamedEntry(raw: Json) {
    raw.JStr? && raw.s != ""
  }

  /** Parses one "node-field" element into a descriptor. */
  function ParseNodeField(elementId: string, element: Json, graphNodes: Json, labels: LabelMap): (r: Result<Descriptor>)
    // a readable element with both identifiers named parses exactly when its type resolves
    ensures r.Ok? <==> NodeFieldShape(element)
                       && NamedEntry(IdentifierEntry(element, "nodeId")) && NamedEntry(IdentifierEntry(element, "fieldName"))
                       && ResolveSettingsType(SettingsEntry(element), Some(IdentifierEntry(element, "nodeId").s),
                                              Some(IdentifierEntry(element, "fieldName").s), graphNodes).Ok?
    // the final validation: a type is found, but an identifier is missing or empty
    ensures NodeFieldShape(element)
            && Identifier(IdentifierEntry(element, "nodeId")).Ok? && Identifier(IdentifierEntry(element, "fieldName")).Ok?
            && ResolveSettingsType(SettingsEntry(element), Identifier(IdentifierEntry(element, "nodeId")).value,
                                   Identifier(IdentifierEntry(element, "fieldName")).value, graphNodes).Ok?
            && !(NamedEntry(IdentifierEntry(element, "nodeId")) && NamedEntry(IdentifierEntry(element, "fieldName")))
            ==> r == Err(Structure(FieldIncomplete(elementId)))
    ensures r.Ok? ==> r.value.formElementId == elementId
    ensures r.Ok? ==> r.value.nodeId != "" && IdentifierEntry(element, "nodeId") == JStr(r.value.nodeId)
    ensures r.Ok? ==> r.value.fieldName != "" && IdentifierEntry(element, "fieldName") == JStr(r.value.fieldName)
    ensures r.Ok? ==> ResolveSettingsType(SettingsEntry(element), Some(r.value.nodeId), Some(r.value.fieldName), graphNodes)
                      == Ok(r.value.settingsType)
    ensures r.Ok? ==> r.value.fieldLabel == FieldLabel(labels, Some(r.value.nodeId), Some(r.value.fieldName))
  {
    var data :- GetOr(element, "data", JObj(map[]));
    var ident :- GetOr(data, "fieldIdentifier", JObj(map[]));
    var rawNodeId :- GetOr(ident, "nodeId", JNull);
    var rawType :- GetOr(AtOr(data, "settings", JObj(map[])), "type", JNull);
    var nodeId :- Identifier(rawNodeId);
    var fieldName :- Identifier(AtOr(ident, "fieldName", JNull));
    var settingsType :- ResolveSettingsType(rawType, nodeId, fieldName, graphNodes);
    var fieldLabel := FieldLabel(labels, nodeId, fieldName);
    if !Named(nodeId) || !Named(fieldName) then Err(Structure(FieldIncomplete(elementId)))
    else Ok(Descriptor(nodeId.value, fieldName.value, settingsType, elementId, fieldLabel))
  }

  /** A form element of type "node-field". */
  predicate IsNodeField(element: Json) {
    element.JObj? && "type" in element.fields && element.fields["type"] == JStr("node-field")
  }

  /** A children entry that names a "node-field" element of the form. */
  predicate IsNodeFieldChild(child: Json, elements: map<string, Json>) {
    child.JStr? && child.s in elements && IsNodeField(elements[child.s])
  }

  /** One turn of the loop over the children: missing, malformed and other elements are skipped. */
  function ParseChild(child: Json, elements: map<string, Json>, graphNodes: Json, labels: LabelMap): (r: Result<Option<Descriptor>>)
    ensures r.Ok? ==> (r.value.Some? <==> IsNodeFieldChild(child, elements))
    ensures r.Ok? && r.value.Some? ==> ParseNodeField(child.s, elements[child.s], graphNodes, labels) == Ok(r.value.value)
    ensures IsNodeFieldChild(child, elements) && ParseNodeField(child.s, elements[child.s], graphNodes, labels).Ok? ==> r.Ok?
    ensures !child.JList? && !child.JObj? && !IsNodeFieldChild(child, elements) ==> r == Ok(None)
  {
    var element :- Lookup(elements, child);
    if element.Some? && IsNodeField(element.value) then
      var d :- ParseNodeField(child.s, element.value, graphNodes, labels);
      Ok(Some(d))
    else Ok(None)
  }

  /** The walk only appends to `acc`, at most one descriptor per child. */
  function ExposedFieldsFrom(acc: seq<Descriptor>, children: seq<Json>, elements: map<string, Json>,
                             graphNodes: Json, labels: LabelMap): (r: Result<seq<Descriptor>>)
    ensures r.Ok? ==> acc <= r.value && |r.value| <= |acc| + |children|
    decreases |children|
  {
    if children == [] then Ok(acc)
    else
      var d :- ParseChild(children[0], elements, graphNodes, labels);
      ExposedFieldsFrom(acc + (if d.Some? then [d.value] else []), children[1..], elements, graphNodes, labels)
  }

  /**
   * The walk over the children tolerates everything but an unhashable id
   * and a node-field element that fails to parse: ids naming no element,
   * elements that are not dicts and elements of another type are skipped.
   */
  lemma {:induction false} ExposedFieldsFromSkipsOthers(acc: seq<Descriptor>, children: seq<Json>, elements: map<string, Json>,
                                                       graphNodes: Json, labels: LabelMap)
    requires forall i :: 0 <= i < |children| ==> !children[i].JList? && !children[i].JObj?
    requires forall i :: 0 <= i < |children| && IsNodeFieldChild(children[i], elements) ==>
               ParseNodeField(children[i].s, elements[children[i].s], graphNodes, labels).Ok?
    ensures ExposedFieldsFrom(acc, children, elements, graphNodes, labels).Ok?
    decreases |children|
  {
    if children != [] {
      var pc := ParseChild(children[0], elements, graphNodes, labels);
      assert pc.Ok?;
      ExposedFieldsFromSkipsOthers(acc + (if pc.value.Some? then [pc.value.value] else []), children[1..],
                                   elements, graphNodes, labels);
    }
  }

  /** The ids of the children that name "node-field" elements, in children order. */
  function NodeFieldIds(children: seq<Json>, elements: map<string, Json>): (ids: seq<string>)
    ensures forall i :: 0 <= i < |ids| ==> ids[i] in elements && IsNodeField(elements[ids[i]])
  {
    if children == [] then []
    else (if IsNodeFieldChild(children[0], elements) then [children[0].s] else []) + NodeFieldIds(children[1..], elements)
  }

  /** `out` holds, in order, the descriptor parsed from each element `ids` names. */
  predicate ParsedInOrder(ids: seq<string>, out: seq<Descriptor>, elements: map<string, Json>, graphNodes: Json, labels: LabelMap) {
    |out| == |ids|
    && forall i :: 0 <= i < |ids| ==> ids[i] in elements && ParseNodeField(ids[i], elements[ids[i]], graphNodes, labels) == Ok(out[i])
  }

  /** One step of `ExposedFieldsFrom` on a non-empty children list that parses. */
  lemma ExposedFieldsFromStep(acc: seq<Descriptor>, children: seq<Json>, elements: map<string, Json>,
                              graphNodes: Json, labels: LabelMap)
    requires children != [] && ExposedFieldsFrom(acc, children, elements, graphNodes, labels).Ok?
    ensures var pc := ParseChild(children[0], elements, graphNodes, labels);
            pc.Ok? && ExposedFieldsFrom(acc, children, elements, graphNodes, labels)
                      == ExposedFieldsFrom(acc + (if pc.value.Some? then [pc.value.value] else []), children[1..],
                                           elements, graphNodes, labels)
  {
  }

  /** One step of `NodeFieldIds`. */
  lemma NodeFieldIdsStep(children: seq<Json>, elements: map<string, Json>)
    requires children != []
    ensures IsNodeFieldChild(children[0], elements) ==>
              NodeFieldIds(children, elements) == [children[0].s] + NodeFieldIds(children[1..], elements)
    ensures !IsNodeFieldChild(children[0], elements) ==>
              NodeFieldIds(children, elements) == NodeFieldIds(children[1..], elements)
  {
    assert [] + NodeFieldIds(children[1..], elements) == NodeFieldIds(children[1..], elements);
  }

  /** Extending both sides of `ParsedInOrder` by one parsed element. */
  lemma ParsedInOrderCons(id: string, rest: seq<string>, out: seq<Descriptor>, elements: map<string, Json>,
                          graphNodes: Json, labels: LabelMap)
    requires out != [] && id in elements && ParseNodeField(id, elements[id], graphNodes, labels) == Ok(out[0])
    requires ParsedInOrder(rest, out[1..], elements, graphNodes, labels)
    ensures ParsedInOrder([id] + rest, out, elements, graphNodes, labels)
  {
    forall i | 1 <= i < |out|
      ensures ([id] + rest)[i] in elements
              && ParseNodeField(([id] + rest)[i], elements[([id] + rest)[i]], graphNodes, labels) == Ok(out[i])
    {
      ConsIndex(id, rest, i);
      TailIndex(out, i);
    }
  }

  /**
   * The descriptors are exactly one per "node-field" child, in children
   * order, each parsed from the element that child names.
   */
  lemma {:induction false} ExposedFieldsFollowChildren(acc: seq<Descriptor>, children: seq<Json>, elements: map<string, Json>,
                                                      graphNodes: Json, labels: LabelMap, ds: seq<Descriptor>)
    requires ExposedFieldsFrom(acc, children, elements, graphNodes, labels) == Ok(ds)
    ensures |acc| <= |ds| && ds[..|acc|] == acc
    ensures ParsedInOrder(NodeFieldIds(children, elements), ds[|acc|..], elements, graphNodes, labels)
    decreases |children|
  {
    if children != [] {
      var c := children[0];
      var pc := ParseChild(c, elements, graphNodes, labels).value;
      var rest := NodeFieldIds(children[1..], elements);
      NodeFieldIdsStep(children, elements);
      ExposedFieldsFromStep(acc, children, elements, graphNodes, labels);
      if pc.Some? {
        ExposedFieldsFollowChildren(acc + [pc.value], children[1..], elements, graphNodes, labels, ds);
        PrefixStep(ds, acc, pc.value);
        DropOne(ds, |acc|);
        ParsedInOrderCons(c.s, rest, ds[|acc|..], elements, graphNodes, labels);
      } else {
        assert acc + [] == acc;
        ExposedFieldsFollowChildren(acc, children[1..], elements, graphNodes, labels, ds);
      }
    } else {
      assert ds == acc;
      assert ds[|acc|..] == [];
    }
  }

  /** The loop over the children list. */
  method CollectExposedFields(children: seq<Json>, elements: map<string, Json>, graphNodes: Json, labels: LabelMap)
    returns (r: Result<seq<Descriptor>>)
    ensures r == ExposedFieldsFrom([], children, elements, graphNodes, labels)
  {
    var ordered: seq<Descriptor> := [];
    var i := 0;
    while i < |children|
      invariant 0 <= i <= |children|
      invariant ExposedFieldsFrom([], children, elements, graphNodes, labels)
                == ExposedFieldsFrom(ordered, children[i..], elements, graphNodes, labels)
    {
      assert children[i..][0] == children[i] && children[i..][1..] == children[i + 1..];
      var d :- ParseChild(children[i], elements, graphNodes, labels);
      if d.Some? {
        ordered := ordered + [d.value];
      } else {
        assert ordered + [] == ordered;
      }
      i := i + 1;
    }
    return Ok(ordered);
  }

  /** The inner loop over `inputs.items()` that records one node's labels. */
  method CollectInputLabels(inputs: Json) returns (r: map<string, Json>)
    ensures r == InputLabels(inputs)
  {
    r := map[];
    if !inputs.JObj? {
      return;
    }
    var rest := inputs.fields.Keys;
    while rest != {}
      invariant rest <= inputs.fields.Keys
      invariant forall f :: f in r <==> f in inputs.fields && f !in rest && LabelledInput(inputs.fields[f])
      invariant forall f :: f in r ==> f in inputs.fields && LabelledInput(inputs.fields[f])
                                       && r[f] == inputs.fields[f].fields["label"]
      decreases rest
    {
      var f :| f in rest;
      var def := inputs.fields[f];
      if def.JObj? && "label" in def.fields {
        r := r[f := def.fields["label"]];
      }
      rest := rest - {f};
    }
  }

  /** The loop over the workflow nodes that fills the label map. */
  method CollectLabels(workflowNodes: Json) returns (r: Result<LabelMap>)
    ensures r == LabelIndex(workflowNodes)
  {
    var items :- LoopItems(workflowNodes);
    var labels: LabelMap := map[];
    var i := 0;
    while i < |items|
      invariant 0 <= i <= |items|
      invariant LabelIndex(workflowNodes) == LabelsFrom(labels, items[i..])
    {
      assert items[i..][0] == items[i] && items[i..][1..] == items[i + 1..];
      var node := items[i];
      if node.JObj? && "id" in node.fields && "data" in node.fields && node.fields["data"].JObj? {
        match node.fields["id"]
        case JStr(id) =>
          var nodeLabels := CollectInputLabels(At(node.fields["data"], "inputs"));
          labels := labels[id := nodeLabels];
        case JList(_) =>
          return Err(Unguarded);
        case JObj(_) =>
          return Err(Unguarded);
        case _ =>
      }
      i := i + 1;
    }
    return Ok(labels);
  }

  // ---------------------------------------------------------------------------
  // The whole form

  /** The stored payload and its exposed fields, as the constructor leaves them. */
  datatype Indexed = Indexed(payload: Json, fields: seq<Descriptor>)

  /** `batch.graph.id := graphId`, when `batch.graph` exists (otherwise the write goes to a throw-away default). */
  function StampGraphId(payload: Json, graphId: string): (r: Json)
    ensures GetPath(payload, ["batch", "graph"]).Some? && GetPath(payload, ["batch", "graph"]).value.JObj?
            && GetPath(payload, ["batch"]).Some? && GetPath(payload, ["batch"]).value.JObj?
            ==> GetPath(r, ["batch", "graph", "id"]) == Some(JStr(graphId))
    ensures !(GetPath(payload, ["batch", "graph"]).Some? && GetPath(payload, ["batch", "graph"]).value.JObj?) ==> r == payload
  {
    var batch := At(payload, "batch");
    var graph := At(batch, "graph");
    if graph.JObj? then Put(payload, "batch", Put(batch, "graph", Put(graph, "id", JStr(graphId))))
    else payload
  }

  /** Stamping the graph id changes nothing outside `batch.graph.id`. */
  lemma StampGraphIdChangesOnlyId(payload: Json, graphId: string, q: seq<string>, i: nat)
    requires DivergesAt(q, ["batch", "graph", "id"], i)
    ensures GetPath(StampGraphId(payload, graphId), q) == GetPath(payload, q)
  {
    var r := StampGraphId(payload, graphId);
    var graph := At(At(payload, "batch"), "graph");
    if graph.JObj? {
      var batch := At(payload, "batch");
      if i == 0 {
        if q[0] in payload.fields {
          assert GetPath(r, q) == GetPath(payload.fields[q[0]], q[1..]);
        }
      } else {
        assert q[0] == q[..i][0] == "batch";
        var q1 := q[1..];
        assert GetPath(r, q) == GetPath(r.fields["batch"], q1);
        assert GetPath(payload, q) == GetPath(batch, q1);
        if i == 2 {
          assert q[1] == q[..i][1] == "graph";
          assert GetPath(r.fields["batch"], q1) == GetPath(r.fields["batch"].fields["graph"], q1[1..]);
          assert GetPath(batch, q1) == GetPath(graph, q1[1..]);
        }
      }
    }
  }

  /** `d.get(key, {})` would not raise: the key is absent or holds a dict. */
  predicate DictOrAbsent(j: Json, key: string) {
    j.JObj? && (key in j.fields ==> j.fields[key].JObj?)
  }

  /** The path batch.workflow can be followed with `.get` without raising. */
  predicate WorkflowReachable(payload: Json) {
    DictOrAbsent(payload, "batch") && DictOrAbsent(At(payload, "batch"), "workflow")
  }

  function Form(payload: Json): Json {
    At(At(At(payload, "batch"), "workflow"), "form")
  }

  predicate IsContainer(element: Json) {
    element.JObj? && At(element, "type") == JStr("container")
  }

  /** The root element of a well-formed form, if rootElementId names a container. */
  predicate RootIsContainer(form: Json) {
    var rootId := At(form, "rootElementId");
    At(form, "elements").JObj? && rootId.JStr? && rootId.s != ""
    && rootId.s in At(form, "elements").fields && IsContainer(At(form, "elements").fields[rootId.s])
  }

  function Root(form: Json): Json
    requires RootIsContainer(form)
  {
    At(form, "elements").fields[At(form, "rootElementId").s]
  }

  /**
   * `_build_ordered_exposed_fields_list`: the form checks in order, then the
   * labels, then one descriptor per node-field child; the stored payload
   * gets its new graph id.
   */
  function IndexDocument(payload: Json, graphId: string): (r: Result<Indexed>)
    ensures !payload.JObj? ==> r == Err(Unguarded)
    ensures WorkflowReachable(payload) && !Form(payload).JObj? ==> r == Err(Structure(FormNotObject))
    ensures WorkflowReachable(payload) && Form(payload).JObj?
            && (!At(Form(payload), "elements").JObj? || !Truthy(At(Form(payload), "rootElementId")))
            ==> r == Err(Structure(FormMalformed))
    ensures WorkflowReachable(payload) && Form(payload).JObj? && At(Form(payload), "elements").JObj?
            && Truthy(At(Form(payload), "rootElementId")) && !At(Form(payload), "rootElementId").JList?
            && !At(Form(payload), "rootElementId").JObj? && !RootIsContainer(Form(payload))
            ==> r == Err(Structure(RootNotContainer))
    ensures WorkflowReachable(payload) && Form(payload).JObj? && At(Form(payload), "elements").JObj?
            && RootIsContainer(Form(payload)) && DictOrAbsent(Root(Form(payload)), "data")
            && !At(At(Root(Form(payload)), "data"), "children").JList?
            ==> r == Err(Structure(ChildrenNotList))
    ensures r.Ok? ==> WorkflowReachable(payload) && RootIsContainer(Form(payload))
    ensures r.Ok? ==> r.value.payload == StampGraphId(payload, graphId)
    ensures r.Ok? ==> forall d :: d in r.value.fields ==> WellFormedDescriptor(d, At(Form(payload), "elements").fields)
    // the fields are the children walk, and the walk's errors are the document's
    ensures r.Ok? ==> FormChecksPass(payload) && LabelIndex(WorkflowNodesEntry(payload)).Ok?
                      && ChildrenWalk(payload) == Ok(r.value.fields)
    ensures FormChecksPass(payload) && LabelIndex(WorkflowNodesEntry(payload)).Ok?
            && DictOrAbsent(At(payload, "batch"), "graph") && ChildrenWalk(payload).Err?
            ==> r == Err(ChildrenWalk(payload).error)
  {
    var batch :- GetOr(payload, "batch", JObj(map[]));
    var workflow :- GetOr(batch, "workflow", JObj(map[]));
    var form :- GetOr(workflow, "form", JNull);
    if !form.JObj? then Err(Structure(FormNotObject))
    else
      var elements := At(form, "elements");
      var rootId := At(form, "rootElementId");
      if !elements.JObj? || !Truthy(rootId) then Err(Structure(FormMalformed))
      else
        var root :- Lookup(elements.fields, rootId);
        if root.None? || !IsContainer(root.value) then Err(Structure(RootNotContainer))
        else
          var children :- GetOr(AtOr(root.value, "data", JObj(map[])), "children", JNull);
          if !children.JList? then Err(Structure(ChildrenNotList))
          else
            var labels :- LabelIndex(AtOr(workflow, "nodes", JList([])));
            var graphNodes :- GetOr(AtOr(batch, "graph", JObj(map[])), "nodes", JObj(map[]));
            var fields :- ExposedFieldsFrom([], children.items, elements.fields, graphNodes, labels);
            ExposedFieldsWellFormed([], children.items, elements.fields, graphNodes, labels, fields);
            Ok(Indexed(StampGraphId(payload, graphId), fields))
  }

  /** The form passes the four structural checks: a dict, its elements and root id, a root container, a children list. */
  predicate FormChecksPass(payload: Json) {
    WorkflowReachable(payload) && Form(payload).JObj? && RootIsContainer(Form(payload))
    && DictOrAbsent(Root(Form(payload)), "data") && At(At(Root(Form(payload)), "data"), "children").JList?
  }

  /** The root container's `data.children`. */
  function Children(payload: Json): seq<Json>
    requires FormChecksPass(payload)
  {
    At(At(Root(Form(payload)), "data"), "children").items
  }

  /** `form.elements`. */
  function Elements(payload: Json): map<string, Json>
    requires FormChecksPass(payload)
  {
    At(Form(payload), "elements").fields
  }

  /** `batch.workflow.nodes`, or an empty list when absent. */
  function WorkflowNodesEntry(payload: Json): Json {
    AtOr(At(At(payload, "batch"), "workflow"), "nodes", JList([]))
  }

  /** `batch.graph.nodes` as the indexer reads it, an empty dict when absent. */
  function IndexGraphNodes(payload: Json): Json {
    AtOr(AtOr(At(payload, "batch"), "graph", JObj(map[])), "nodes", JObj(map[]))
  }

  /** The walk over the root's children with the document's elements, graph nodes and label map. */
  function ChildrenWalk(payload: Json): Result<seq<Descriptor>>
    requires FormChecksPass(payload) && LabelIndex(WorkflowNodesEntry(payload)).Ok?
  {
    ExposedFieldsFrom([], Children(payload), Elements(payload), IndexGraphNodes(payload),
                      LabelIndex(WorkflowNodesEntry(payload)).value)
  }

  /**
   * A form that passes its checks is indexed when the label map can be
   * built, `batch.graph` is a dict if present, no child id is a list or dict,
   * and every node-field child parses: every other child is skipped.
   */
  lemma IndexDocumentSucceeds(payload: Json, graphId: string)
    requires FormChecksPass(payload)
    requires DictOrAbsent(At(payload, "batch"), "graph")
    requires LabelIndex(WorkflowNodesEntry(payload)).Ok?
    requires forall i :: 0 <= i < |Children(payload)| ==> !Children(payload)[i].JList? && !Children(payload)[i].JObj?
    requires forall i :: 0 <= i < |Children(payload)| && IsNodeFieldChild(Children(payload)[i], Elements(payload)) ==>
               ParseNodeField(Children(payload)[i].s, Elements(payload)[Children(payload)[i].s],
                              IndexGraphNodes(payload), LabelIndex(WorkflowNodesEntry(payload)).value).Ok?
    ensures IndexDocument(payload, graphId).Ok?
    ensures IndexDocument(payload, graphId).value.fields == ChildrenWalk(payload).value
  {
    ExposedFieldsFromSkipsOthers([], Children(payload), Elements(payload), IndexGraphNodes(payload),
                                 LabelIndex(WorkflowNodesEntry(payload)).value);
  }

  /** What every descriptor the indexer produces satisfies. */
  predicate WellFormedDescriptor(d: Descriptor, elements: map<string, Json>) {
    d.nodeId != "" && d.fieldName != "" && d.fieldLabel != Some(JStr("")) && d.fieldLabel != Some(JNull)
    && d.formElementId in elements && IsNodeField(elements[d.formElementId])
  }

  lemma {:induction false} ExposedFieldsWellFormed(acc: seq<Descriptor>, children: seq<Json>, elements: map<string, Json>,
                                                  graphNodes: Json, labels: LabelMap, ds: seq<Descriptor>)
    requires ExposedFieldsFrom(acc, children, elements, graphNodes, labels) == Ok(ds)
    requires forall d :: d in acc ==> WellFormedDescriptor(d, elements)
    ensures forall d :: d in ds ==> WellFormedDescriptor(d, elements)
    decreases |children|
  {
    if children != [] {
      var d := ParseChild(children[0], elements, graphNodes, labels).value;
      var acc' := acc + (if d.Some? then [d.value] else []);
      ExposedFieldsWellFormed(acc', children[1..], elements, graphNodes, labels, ds);
    }
  }

  /** The imperative form of `IndexDocument`, with its two loops. */
  method BuildOrderedExposedFields(payload: Json, graphId: string) returns (r: Result<Indexed>)
    ensures r == IndexDocument(payload, graphId)
  {
    var batch :- GetOr(payload, "batch", JObj(map[]));
    var workflow :- GetOr(batch, "workflow", JObj(map[]));
    var form :- GetOr(workflow, "form", JNull);
    if !form.JObj? {
      return Err(Structure(FormNotObject));
    }
    var elements := At(form, "elements");
    var rootId := At(form, "rootElementId");
    if !elements.JObj? || !Truthy(rootId) {
      return Err(Structure(FormMalformed));
    }
    var root :- Lookup(elements.fields, rootId);
    if root.None? || !IsContainer(root.value) {
      return Err(Structure(RootNotContainer));
    }
    var children :- GetOr(AtOr(root.value, "data", JObj(map[])), "children", JNull);
    if !children.JList? {
      return Err(Structure(ChildrenNotList));
    }
    var labels :- CollectLabels(AtOr(workflow, "nodes", JList([])));
    var graphNodes :- GetOr(AtOr(batch, "graph", JObj(map[])), "nodes", JObj(map[]));
    var stamped := StampGraphId(payload, graphId);
    var fields :- CollectExposedFields(children.items, elements.fields, graphNodes, labels);
    return Ok(Indexed(stamped, fields));
  }
}
