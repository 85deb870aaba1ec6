/**
 * `apply_inputs`: resolves each single-key update to an exposed field,
 * coerces and reshapes its value, and writes it into a copy of the stored
 * payload twice, in `batch.graph.nodes` and in `batch.workflow.nodes`.
 */
module Patcher {
  import opened Outcomes
  import opened Json
  import opened FieldTypes
  import opened Indexer
  import opened FieldLookup
  import opened Processor

  // ---------------------------------------------------------------------------
  // Coercion and shaping

  /** Python's constructors `int(v)`, `float(v)`, ...: a conversion that may fail. */
  type Converter = (PyType, Json) -> Option<Json>

  /** A conversion that succeeds yields a value of the requested type, as Python's constructors do. */
  ghost predicate ValidConverter(conv: Converter) {
    forall t, v :: conv(t, v).Some? ==> IsInstance(conv(t, v).value, t)
  }

  /** The `_type_map` lookup: a settings type outside the map raises TypeError (an unhashable one while hashing). */
  function TargetType(st: SettingsType, fieldName: string): (r: Result<PyType>)
    ensures r.Ok? <==> st.Known?
    ensures r.Ok? ==> r.value == PythonType(st.kind)
    ensures st.Unmapped? && !st.raw.JList? && !st.raw.JObj? ==> r == Err(UnsupportedType(fieldName))
  {
    match st
    case Known(k) => Ok(PythonType(k))
    case Unmapped(raw) => if raw.JList? || raw.JObj? then Err(Unguarded) else Err(UnsupportedType(fieldName))
  }

  /** None and values already of the target type are kept; anything else goes through the conversion. */
  function Coerce(v: Json, t: PyType, conv: Converter, key: string): (r: Result<Json>)
    ensures v.JNull? || IsInstance(v, t) ==> r == Ok(v)
    ensures ValidConverter(conv) && r.Ok? ==> r.value.JNull? || IsInstance(r.value, t)
    ensures r.Err? <==> !v.JNull? && !IsInstance(v, t) && conv(t, v).None?
    ensures r.Err? ==> r.error == CoercionFailed(key)
  {
    if v.JNull? || IsInstance(v, t) then Ok(v)
    else match conv(t, v)
      case Some(w) => Ok(w)
      case None => Err(CoercionFailed(key))
  }

  function ImageRef(name: Json): Json {
    JObj(map["image_name" := name])
  }

  /**
   * The graph-side shape of a coerced value: an image becomes an
   * `{"image_name": v}` dict, an image collection a list of them, a board a
   * dict holding only its `board_id`; iterating None or subscripting a dict
   * without `board_id` raises.
   */
  function Shape(kind: FieldKind, v: Json): (r: Result<Json>)
    requires v.JNull? || IsInstance(v, PythonType(kind))
    ensures kind !in {ImageField, ImageCollectionField, BoardField} ==> r == Ok(v)
    ensures kind == ImageField ==> r == Ok(ImageRef(v))
    ensures kind == ImageCollectionField ==>
              (r.Ok? <==> v.JList?)
              && (r.Ok? ==> r.value.JList? && |r.value.items| == |v.items|
                            && forall i :: 0 <= i < |v.items| ==> r.value.items[i] == ImageRef(v.items[i]))
    ensures kind == BoardField ==>
              (r.Ok? <==> v.JObj? && "board_id" in v.fields)
              && (r.Ok? ==> r.value == JObj(map["board_id" := v.fields["board_id"]]))
  {
    match kind
    case ImageField => Ok(ImageRef(v))
    case ImageCollectionField =>
      if v.JNull? then Err(Unguarded)
      else Ok(JList(seq(|v.items|, i requires 0 <= i < |v.items| => ImageRef(v.items[i]))))
    case BoardField =>
      if v.JObj? && "board_id" in v.fields then Ok(JObj(map["board_id" := v.fields["board_id"]]))
      else Err(Unguarded)
    case _ => Ok(v)
  }

  /**
   * Written values read back as the type they were written under: the
   * inference the indexer applies to a graph value maps a shaped value to
   * its own settings type (a bool is its own type even in an integer field;
   * an empty image collection reads as a plain collection).
   */
  lemma ShapedValueInfersItsKind(kind: FieldKind, v: Json, fieldName: string)
    requires !v.JNull? && IsInstance(v, PythonType(kind)) && Shape(kind, v).Ok?
    requires kind in {ImageField, BoardField, FloatField, StringField, BooleanField}
             || (kind == IntegerField && v.JInt?)
             || (kind == ImageCollectionField && v.items != [])
    ensures InferFromValue(Shape(kind, v).value, fieldName) == Ok(kind)
  {
    if kind == ImageCollectionField {
      assert Shape(kind, v).value.items[0] == ImageRef(v.items[0]);
    }
  }

  /** Type map, coercion and shaping for one resolved update. */
  function PatchValue(d: Descriptor, key: string, value: Json, conv: Converter): (r: Result<Json>)
    requires ValidConverter(conv)
    ensures d.settingsType.Unmapped? ==> r.Err?
    ensures d.settingsType.Known? && (value.JNull? || IsInstance(value, PythonType(d.settingsType.kind))) ==>
              r == Shape(d.settingsType.kind, value)
    // a value of another type goes through the conversion; a failed conversion is a TypeError
    ensures d.settingsType.Known? && !value.JNull? && !IsInstance(value, PythonType(d.settingsType.kind)) ==>
              var converted := conv(PythonType(d.settingsType.kind), value);
              (converted.None? ==> r == Err(CoercionFailed(key)))
              && (converted.Some? ==> r == Shape(d.settingsType.kind, converted.value))
  {
    var t :- TargetType(d.settingsType, d.fieldName);
    var v :- Coerce(value, t, conv, key);
    Shape(d.settingsType.kind, v)
  }

  // ---------------------------------------------------------------------------
  // The graph side

  /** `graph_nodes[n][f]`, when both levels are dicts holding the keys. */
  function Slot(graphNodes: Json, n: string, f: string): Option<Json> {
    if graphNodes.JObj? && n in graphNodes.fields && graphNodes.fields[n].JObj? && f in graphNodes.fields[n].fields
    then Some(graphNodes.fields[n].fields[f])
    else None
  }

  /** The node `n` of the graph exists and is a dict. */
  predicate DictNode(graphNodes: Json, n: string) {
    graphNodes.JObj? && n in graphNodes.fields && graphNodes.fields[n].JObj?
  }

  /**
   * One graph write: overwrite an existing field, insert a missing "board",
   * skip anything else; writing into a node that is not a dict raises.
   */
  function GraphSet(graphNodes: Json, nodeId: string, fieldName: string, w: Json): (r: Result<Json>)
    ensures r.Ok? ==> forall n, f :: (n != nodeId || f != fieldName) ==> Slot(r.value, n, f) == Slot(graphNodes, n, f)
    ensures r.Ok? ==> Slot(r.value, nodeId, fieldName) ==
                        (if Slot(graphNodes, nodeId, fieldName).Some? || (fieldName == "board" && DictNode(graphNodes, nodeId))
                         then Some(w) else Slot(graphNodes, nodeId, fieldName))
    ensures r.Ok? ==> (graphNodes.JObj? <==> r.value.JObj?)
    ensures r.Ok? && graphNodes.JObj? ==> r.value.fields.Keys == graphNodes.fields.Keys
    ensures r.Ok? ==> forall n :: DictNode(r.value, n) <==> DictNode(graphNodes, n)
    ensures r.Ok? && graphNodes.JObj? ==> forall n :: n in graphNodes.fields && n != nodeId ==> r.value.fields[n] == graphNodes.fields[n]
    ensures r.Ok? && !DictNode(graphNodes, nodeId) ==> r.value == graphNodes
    ensures graphNodes.JObj? && (nodeId in graphNodes.fields ==> graphNodes.fields[nodeId].JObj?) ==> r.Ok?
    ensures graphNodes.JObj? && nodeId in graphNodes.fields && !graphNodes.fields[nodeId].JObj?
            && (fieldName == "board" || Member(graphNodes.fields[nodeId], fieldName) != Ok(false))
            ==> r == Err(Unguarded)
    ensures r.Err? ==> r.error == Unguarded
  {
    var hasNode :- Member(graphNodes, nodeId);
    if !hasNode then Ok(graphNodes)
    else
      var node :- Subscript(graphNodes, nodeId);
      var hasField :- Member(node, fieldName);
      if hasField || fieldName == "board" then
        if node.JObj? then Ok(Put(graphNodes, nodeId, Put(node, fieldName, w))) else Err(Unguarded)
      else Ok(graphNodes)
  }

  // ---------------------------------------------------------------------------
  // The workflow side

  /** `node["data"]["inputs"][f]["value"]`, when every level is a dict holding the key. */
  function InputValue(node: map<string, Json>, f: string): Option<Json> {
    if "data" in node && node["data"].JObj? && "inputs" in node["data"].fields
       && node["data"].fields["inputs"].JObj? && f in node["data"].fields["inputs"].fields
       && node["data"].fields["inputs"].fields[f].JObj? && "value" in node["data"].fields["inputs"].fields[f].fields
    then Some(node["data"].fields["inputs"].fields[f].fields["value"])
    else None
  }

  /** The path of an input's value inside a workflow node. */
  function ValuePath(fieldName: string): seq<string> {
    ["data", "inputs", fieldName, "value"]
  }

  /** `InputValue` is the read along `ValuePath`. */
  lemma ValuePathReadsInput(node: map<string, Json>, f: string)
    ensures GetPath(JObj(node), ValuePath(f)) == InputValue(node, f)
  {
    var p1, p2, p3 := ["inputs", f, "value"], [f, "value"], ["value"];
    assert ValuePath(f)[1..] == p1 && p1[1..] == p2 && p2[1..] == p3 && p3[1..] == [];
    if "data" in node {
      var d := node["data"];
      if d.JObj? && "inputs" in d.fields {
        var ins := d.fields["inputs"];
        if ins.JObj? && f in ins.fields {
          var e := ins.fields[f];
          assert GetPath(ins, p2) == GetPath(e, p3);
        }
        assert GetPath(d, p1) == GetPath(ins, p2);
      }
      assert GetPath(JObj(node), ValuePath(f)) == GetPath(d, p1);
    }
  }

  /** Writing along `ValuePath` rebuilds each level around the new value. */
  lemma ValuePathWrite(node: map<string, Json>, f: string, w: Json)
    requires InputValue(node, f).Some?
    ensures var data := node["data"];
            var inputs := data.fields["inputs"];
            var entry := inputs.fields[f];
            PutPath(JObj(node), ValuePath(f), w) == JObj(node["data" := Put(data, "inputs", Put(inputs, f, Put(entry, "value", w)))])
  {
    var p1, p2, p3 := ["inputs", f, "value"], [f, "value"], ["value"];
    assert ValuePath(f)[1..] == p1 && p1[1..] == p2 && p2[1..] == p3 && p3[1..] == [];
    var data := node["data"];
    var inputs := data.fields["inputs"];
    var entry := inputs.fields[f];
    assert PutPath(entry, p3, w) == Put(entry, "value", w);
    assert PutPath(inputs, p2, w) == Put(inputs, f, Put(entry, "value", w));
    assert PutPath(data, p1, w) == Put(data, "inputs", Put(inputs, f, Put(entry, "value", w)));
  }

  /** `node["data"]["inputs"][f]`, the whole entry of input `f`. */
  function InputEntry(node: map<string, Json>, f: string): Option<Json> {
    GetPath(JObj(node), ["data", "inputs", f])
  }

  /**
   * The levels on the way to `data.inputs[f]` are dicts wherever present,
   * so the membership tests and subscripts of the workflow write cannot raise.
   */
  predicate InputPathSettable(node: map<string, Json>, f: string) {
    "data" in node ==>
      node["data"].JObj?
      && ("inputs" in node["data"].fields ==>
            node["data"].fields["inputs"].JObj?
            && (f in node["data"].fields["inputs"].fields ==> node["data"].fields["inputs"].fields[f].JObj?))
  }

  /**
   * One workflow write: overwrite `data.inputs[f].value` when the whole path
   * exists, skip otherwise; a level that answers `in` but cannot be
   * subscripted or assigned (a list or a string) raises.
   */
  function WorkflowSet(node: map<string, Json>, fieldName: string, w: Json): (r: Result<map<string, Json>>)
    ensures r.Ok? ==> r.value.Keys == node.Keys
    ensures r.Ok? ==> forall k :: k in node && k != "data" ==> r.value[k] == node[k]
    ensures r.Ok? ==> forall f :: f != fieldName ==> InputValue(r.value, f) == InputValue(node, f)
    ensures r.Ok? ==> InputValue(r.value, fieldName) == if InputValue(node, fieldName).Some? then Some(w) else None
    ensures InputValue(node, fieldName).Some? ==> r.Ok?
    // a missing target is skipped, not an error
    ensures InputPathSettable(node, fieldName) ==> r.Ok?
    ensures "data" !in node ==> r == Ok(node)
    ensures r.Ok? && InputValue(node, fieldName).None? ==> r.value == node
    ensures r.Err? ==> r.error == Unguarded
    ensures r.Ok? ==> JObj(r.value) == PutPath(JObj(node), ValuePath(fieldName), w)
  {
    ValuePathReadsInput(node, fieldName);
    if "data" !in node then Ok(node)
    else
      var data := node["data"];
      var hasInputs :- Member(data, "inputs");
      if !hasInputs then Ok(node)
      else
        var inputs :- Subscript(data, "inputs");
        var hasField :- Member(inputs, fieldName);
        if !hasField then Ok(node)
        else
          var entry :- Subscript(inputs, fieldName);
          var hasValue :- Member(entry, "value");
          if !hasValue then Ok(node)
          else if !entry.JObj? then Err(Unguarded)
          else
            ValuePathWrite(node, fieldName, w);
            Ok(node["data" := Put(data, "inputs", Put(inputs, fieldName, Put(entry, "value", w)))])
  }

  /** A workflow write keeps every input path it found writable writable. */
  lemma WorkflowSetKeepsSettable(node: map<string, Json>, fieldName: string, w: Json, f: string)
    requires WorkflowSet(node, fieldName, w).Ok? && InputPathSettable(node, f)
    ensures InputPathSettable(WorkflowSet(node, fieldName, w).value, f)
  {
  }

  /** A workflow write leaves the whole entry of every other input as it was. */
  lemma WorkflowSetKeepsOtherEntries(node: map<string, Json>, fieldName: string, w: Json, f: string)
    requires WorkflowSet(node, fieldName, w).Ok? && f != fieldName
    ensures InputEntry(WorkflowSet(node, fieldName, w).value, f) == InputEntry(node, f)
  {
    var q := ["data", "inputs", f];
    assert q[..2] == ValuePath(fieldName)[..2];
    PutPathElsewhere(JObj(node), ValuePath(fieldName), w, q, 2);
  }

  /** The workflow node map's positions: each string id names a dict in the node list. */
  predicate IndexValid(index: map<string, nat>, nodes: seq<Json>) {
    forall id :: id in index ==> index[id] < |nodes| && nodes[index[id]].JObj?
  }

  /** A workflow node that the node map files under the string id `id`. */
  predicate CarriesId(node: Json, id: string) {
    node.JObj? && "id" in node.fields && node.fields["id"] == JStr(id)
  }

  /** A dict node the map comprehension files, but whose id cannot be a dict key (a list or a dict). */
  predicate UnhashableId(node: Json) {
    node.JObj? && "id" in node.fields && (node.fields["id"].JList? || node.fields["id"].JObj?)
  }

  function NodeIndexFrom(index: map<string, nat>, nodes: seq<Json>, i: nat): (r: Result<map<string, nat>>)
    requires i <= |nodes|
    ensures r.Err? <==> exists k :: i <= k < |nodes| && UnhashableId(nodes[k])
    ensures r.Err? ==> r.error == Unguarded
    ensures r.Ok? ==> index.Keys <= r.value.Keys
    ensures r.Ok? && IndexValid(index, nodes) ==> IndexValid(r.value, nodes)
    decreases |nodes| - i
  {
    if i == |nodes| then Ok(index)
    else
      var node := nodes[i];
      if node.JObj? && "id" in node.fields then
        match node.fields["id"]
        case JStr(id) => NodeIndexFrom(index[id := i], nodes, i + 1)
        case JList(_) => Err(Unguarded)   // unhashable dict key
        case JObj(_) => Err(Unguarded)
        case _ => NodeIndexFrom(index, nodes, i + 1)   // never equal to a string node id
      else NodeIndexFrom(index, nodes, i + 1)
  }

  /** `{node["id"]: node for node in workflow_nodes_list if ...}`, as positions into the list. */
  function NodeIndex(nodes: seq<Json>): (r: Result<map<string, nat>>)
    ensures r.Err? <==> exists k :: 0 <= k < |nodes| && UnhashableId(nodes[k])
    ensures r.Ok? ==> IndexValid(r.value, nodes)
  {
    NodeIndexFrom(map[], nodes, 0)
  }

  /**
   * The node map files each string id under the LAST node carrying it, and
   * files exactly the ids some dict node carries.
   */
  lemma {:induction false} NodeIndexLastWins(acc: map<string, nat>, nodes: seq<Json>, i: nat, index: map<string, nat>, id: string)
    requires i <= |nodes| && NodeIndexFrom(acc, nodes, i) == Ok(index)
    requires IndexValid(acc, nodes)
    requires id in acc ==> acc[id] < i && CarriesId(nodes[acc[id]], id)
                           && forall k :: acc[id] < k < i ==> !CarriesId(nodes[k], id)
    ensures IndexValid(index, nodes)
    ensures id in index <==> id in acc || exists k :: i <= k < |nodes| && CarriesId(nodes[k], id)
    ensures id in acc ==> index[id] >= acc[id]
    ensures id in index ==> CarriesId(nodes[index[id]], id)
                            && forall k :: index[id] < k < |nodes| ==> !CarriesId(nodes[k], id)
    decreases |nodes| - i
  {
    if i < |nodes| {
      var node := nodes[i];
      var next := if node.JObj? && "id" in node.fields && node.fields["id"].JStr? then acc[node.fields["id"].s := i] else acc;
      NodeIndexLastWins(next, nodes, i + 1, index, id);
    }
  }

  /** The loop that builds the node map. */
  method BuildNodeIndex(nodes: seq<Json>) returns (r: Result<map<string, nat>>)
    ensures r == NodeIndex(nodes)
  {
    var index: map<string, nat> := map[];
    var i := 0;
    while i < |nodes|
      invariant 0 <= i <= |nodes|
      invariant NodeIndex(nodes) == NodeIndexFrom(index, nodes, i)
    {
      var node := nodes[i];
      if node.JObj? && "id" in node.fields {
        match node.fields["id"]
        case JStr(id) =>
          index := index[id := i];
        case JList(_) =>
          return Err(Unguarded);
        case JObj(_) =>
          return Err(Unguarded);
        case _ =>
      }
      i := i + 1;
    }
    return Ok(index);
  }

  /** The workflow write through the node map: nodes without an entry are skipped. */
  function WorkflowWrite(nodes: seq<Json>, index: map<string, nat>, nodeId: string, fieldName: string, w: Json): (r: Result<seq<Json>>)
    requires IndexValid(index, nodes)
    ensures r.Ok? ==> |r.value| == |nodes| && IndexValid(index, r.value)
    ensures r.Ok? ==> forall k :: 0 <= k < |nodes| && (nodeId !in index || k != index[nodeId]) ==> r.value[k] == nodes[k]
    ensures r.Ok? && nodeId in index ==>
              var k := index[nodeId];
              r.value[k].JObj? && WorkflowSet(nodes[k].fields, fieldName, w) == Ok(r.value[k].fields)
    // a node the map does not file is skipped; a filed node fails only as its write does
    ensures nodeId !in index ==> r == Ok(nodes)
    ensures nodeId in index ==> (r.Ok? <==> WorkflowSet(nodes[index[nodeId]].fields, fieldName, w).Ok?)
  {
    if nodeId !in index then Ok(nodes)
    else
      var k := index[nodeId];
      var updated :- WorkflowSet(nodes[k].fields, fieldName, w);
      Ok(nodes[k := JObj(updated)])
  }

  /** After a workflow write, input `f` of node `pos` reads the written value exactly when the write targeted it and found it. */
  lemma WorkflowWriteReadsBack(nodes: seq<Json>, index: map<string, nat>, nodeId: string, fieldName: string, w: Json,
                               r: seq<Json>, pos: nat, f: string)
    requires IndexValid(index, nodes) && WorkflowWrite(nodes, index, nodeId, fieldName, w) == Ok(r)
    requires pos < |nodes| && nodes[pos].JObj?
    ensures |r| == |nodes| && r[pos].JObj?
    ensures InputValue(r[pos].fields, f)
            == if nodeId in index && index[nodeId] == pos && fieldName == f && InputValue(nodes[pos].fields, f).Some?
               then Some(w) else InputValue(nodes[pos].fields, f)
  {
  }

  // ---------------------------------------------------------------------------
  // The loop over the updates

  /** The state `apply_inputs` threads through its loop. */
  datatype PatchState = PatchState(graphNodes: Json, workflowNodes: seq<Json>, used: set<nat>)

  /** An update item as the loop accepts it: a dict with exactly one key. */
  predicate SingleKey(item: Json) {
    item.JObj? && |item.fields| == 1
  }

  lemma SoleKey(m: map<string, Json>, k: string)
    requires |m| == 1 && k in m
    ensures m.Keys == {k}
  {
    assert |m.Keys - {k}| == 0;
  }

  /** The one key of a single-key update. */
  function KeyOf(item: Json): (key: string)
    requires SingleKey(item)
    ensures item.fields.Keys == {key}
  {
    var k :| k in item.fields;
    SoleKey(item.fields, k);
    var key :| key in item.fields.Keys;
    assert key == k;
    key
  }

  /** One turn of the loop: resolve, mark used, coerce and shape, write to both sides. */
  function Step(p: WorkflowProcessor, conv: Converter, index: map<string, nat>, st: PatchState, item: Json, position: nat)
    : (r: Result<PatchState>)
    requires p.Valid() && ValidConverter(conv) && IndexValid(index, st.workflowNodes)
    ensures r.Ok? ==> IndexValid(index, r.value.workflowNodes)
  {
    if !SingleKey(item) then Err(MalformedUpdate(position))
    else
      var key := KeyOf(item);
      var j :- Resolve(p.lookup, st.used, key);
      CandidatesInRange(p, key);
      var d := p.fields[j];
      var w :- PatchValue(d, key, item.fields[key], conv);
      var graphNodes :- GraphSet(st.graphNodes, d.nodeId, d.fieldName, w);
      var workflowNodes :- WorkflowWrite(st.workflowNodes, index, d.nodeId, d.fieldName, w);
      Ok(PatchState(graphNodes, workflowNodes, st.used + {j}))
  }

  /** A malformed item or a failed resolution is the error of the step; a step that succeeds resolved its key. */
  lemma StepErrors(p: WorkflowProcessor, conv: Converter, index: map<string, nat>, st: PatchState, item: Json, position: nat)
    requires p.Valid() && ValidConverter(conv) && IndexValid(index, st.workflowNodes)
    ensures var r := Step(p, conv, index, st, item, position);
            && (!SingleKey(item) ==> r == Err(MalformedUpdate(position)))
            && (SingleKey(item) && Resolve(p.lookup, st.used, KeyOf(item)).Err? ==>
                  r == Err(Resolve(p.lookup, st.used, KeyOf(item)).error))
            && (r.Ok? ==> SingleKey(item) && Resolve(p.lookup, st.used, KeyOf(item)).Ok?)
  {
  }

  /**
   * What one successful update does: exactly one new position is bound,
   * and both sides receive the value shaped for that field.
   */
  lemma StepEffect(p: WorkflowProcessor, conv: Converter, index: map<string, nat>, st: PatchState, item: Json, position: nat)
    requires p.Valid() && ValidConverter(conv) && IndexValid(index, st.workflowNodes)
    requires Step(p, conv, index, st, item, position).Ok?
    ensures SingleKey(item) && Resolve(p.lookup, st.used, KeyOf(item)).Ok?
    ensures var r := Step(p, conv, index, st, item, position).value;
            var key := KeyOf(item);
            var j := Resolve(p.lookup, st.used, key).value;
            j < |p.fields| && j !in st.used && r.used == st.used + {j}
            && PatchValue(p.fields[j], key, item.fields[key], conv).Ok?
            && var w := PatchValue(p.fields[j], key, item.fields[key], conv).value;
               GraphSet(st.graphNodes, p.fields[j].nodeId, p.fields[j].fieldName, w) == Ok(r.graphNodes)
               && WorkflowWrite(st.workflowNodes, index, p.fields[j].nodeId, p.fields[j].fieldName, w) == Ok(r.workflowNodes)
  {
    CandidatesInRange(p, KeyOf(item));
  }

  /**
   * The positions the updates bind, resolved left to right starting from
   * `used`, before any value is coerced or written: which field an update
   * targets depends only on the keys and the lookup map, never on the values
   * or the document.
   */
  function Bindings(lookup: LookupMap, used: set<nat>, updates: seq<Json>, i: nat): (r: Result<seq<nat>>)
    requires i <= |updates|
    ensures r.Ok? ==> |r.value| == |updates| - i && forall k :: i <= k < |updates| ==> SingleKey(updates[k])
    decreases |updates| - i
  {
    if i == |updates| then Ok([])
    else if !SingleKey(updates[i]) then Err(MalformedUpdate(i))
    else
      var j :- Resolve(lookup, used, KeyOf(updates[i]));
      var rest :- Bindings(lookup, used + {j}, updates, i + 1);
      Ok([j] + rest)
  }

  /** One step of the resolution pass, for an update that is a single-key dict whose key resolves. */
  lemma BindingsStep(lookup: LookupMap, used: set<nat>, updates: seq<Json>, i: nat)
    requires i < |updates|
    ensures Bindings(lookup, used, updates, i).Ok? ==> SingleKey(updates[i]) && Resolve(lookup, used, KeyOf(updates[i])).Ok?
    ensures SingleKey(updates[i]) && Resolve(lookup, used, KeyOf(updates[i])).Ok? ==>
              var j := Resolve(lookup, used, KeyOf(updates[i])).value;
              var rest := Bindings(lookup, used + {j}, updates, i + 1);
              Bindings(lookup, used, updates, i) == if rest.Ok? then Ok([j] + rest.value) else Err(rest.error)
  {
  }

  /** A resolution pass that succeeds bound its first update first and the rest from there. */
  lemma BindingsCons(lookup: LookupMap, used: set<nat>, updates: seq<Json>, i: nat, js: seq<nat>)
    requires i < |updates| && Bindings(lookup, used, updates, i) == Ok(js)
    ensures SingleKey(updates[i]) && Resolve(lookup, used, KeyOf(updates[i])) == Ok(js[0])
    ensures Bindings(lookup, used + {js[0]}, updates, i + 1) == Ok(js[1..])
  {
    BindingsStep(lookup, used, updates, i);
    assert ([Resolve(lookup, used, KeyOf(updates[i])).value] + js[1..])[1..] == js[1..];
  }

  /**
   * Both writes for every exposed field can be made without raising: the
   * graph nodes are a dict whose field nodes are dicts where present, and
   * the workflow input paths are dicts where present.
   */
  predicate Writable(p: WorkflowProcessor, index: map<string, nat>, st: PatchState) {
    st.graphNodes.JObj? && IndexValid(index, st.workflowNodes)
    && forall j :: 0 <= j < |p.fields| ==>
         DictOrAbsent(st.graphNodes, p.fields[j].nodeId)
         && (p.fields[j].nodeId in index ==>
               InputPathSettable(st.workflowNodes[index[p.fields[j].nodeId]].fields, p.fields[j].fieldName))
  }

  /** The two writes for one field keep every exposed field writable. */
  lemma WritesKeepWritable(p: WorkflowProcessor, index: map<string, nat>, st: PatchState, nodeId: string, fieldName: string,
                           w: Json, graphNodes: Json, workflowNodes: seq<Json>, used: set<nat>)
    requires Writable(p, index, st)
    requires GraphSet(st.graphNodes, nodeId, fieldName, w) == Ok(graphNodes)
    requires WorkflowWrite(st.workflowNodes, index, nodeId, fieldName, w) == Ok(workflowNodes)
    ensures Writable(p, index, PatchState(graphNodes, workflowNodes, used))
  {
    forall i | 0 <= i < |p.fields|
      ensures DictOrAbsent(graphNodes, p.fields[i].nodeId)
      ensures p.fields[i].nodeId in index ==>
                InputPathSettable(workflowNodes[index[p.fields[i].nodeId]].fields, p.fields[i].fieldName)
    {
      var n := p.fields[i].nodeId;
      if n in index && nodeId in index && index[nodeId] == index[n] {
        WorkflowSetKeepsSettable(st.workflowNodes[index[n]].fields, fieldName, w, p.fields[i].fieldName);
      }
    }
  }

  /**
   * An update succeeds when it is a single-key dict whose key resolves, its
   * value coerces and shapes for the bound field, and the document is
   * writable; the step binds that position and leaves the document writable.
   */
  lemma StepSucceeds(p: WorkflowProcessor, conv: Converter, index: map<string, nat>, st: PatchState, item: Json, position: nat)
    requires p.Valid() && ValidConverter(conv) && Writable(p, index, st)
    requires SingleKey(item) && Resolve(p.lookup, st.used, KeyOf(item)).Ok?
    requires Resolve(p.lookup, st.used, KeyOf(item)).value < |p.fields|
    requires PatchValue(p.fields[Resolve(p.lookup, st.used, KeyOf(item)).value], KeyOf(item), item.fields[KeyOf(item)], conv).Ok?
    ensures Step(p, conv, index, st, item, position).Ok?
    ensures Step(p, conv, index, st, item, position).value.used == st.used + {Resolve(p.lookup, st.used, KeyOf(item)).value}
    ensures Writable(p, index, Step(p, conv, index, st, item, position).value)
  {
    var key := KeyOf(item);
    var j := Resolve(p.lookup, st.used, key).value;
    var d := p.fields[j];
    var w := PatchValue(d, key, item.fields[key], conv).value;
    assert DictOrAbsent(st.graphNodes, d.nodeId);
    var g := GraphSet(st.graphNodes, d.nodeId, d.fieldName, w);
    assert g.Ok?;
    if d.nodeId in index {
      assert InputPathSettable(st.workflowNodes[index[d.nodeId]].fields, d.fieldName);
    }
    var wn := WorkflowWrite(st.workflowNodes, index, d.nodeId, d.fieldName, w);
    assert wn.Ok?;
    assert Step(p, conv, index, st, item, position) == Ok(PatchState(g.value, wn.value, st.used + {j}));
    WritesKeepWritable(p, index, st, d.nodeId, d.fieldName, w, g.value, wn.value, st.used + {j});
  }

  /** A step that succeeds resolved its key and bound exactly that position. */
  lemma StepBinds(p: WorkflowProcessor, conv: Converter, index: map<string, nat>, st: PatchState, item: Json, position: nat)
    requires p.Valid() && ValidConverter(conv) && IndexValid(index, st.workflowNodes)
    requires Step(p, conv, index, st, item, position).Ok?
    ensures SingleKey(item) && Resolve(p.lookup, st.used, KeyOf(item)).Ok?
    ensures Step(p, conv, index, st, item, position).value.used == st.used + {Resolve(p.lookup, st.used, KeyOf(item)).value}
  {
  }

  function ApplyFrom(p: WorkflowProcessor, conv: Converter, index: map<string, nat>, st: PatchState,
                     updates: seq<Json>, i: nat): (r: Result<PatchState>)
    requires p.Valid() && ValidConverter(conv) && IndexValid(index, st.workflowNodes) && i <= |updates|
    ensures r.Ok? ==> IndexValid(index, r.value.workflowNodes)
    decreases |updates| - i
  {
    if i == |updates| then Ok(st)
    else
      var next :- Step(p, conv, index, st, updates[i], i);
      ApplyFrom(p, conv, index, next, updates, i + 1)
  }

  /** One turn of the loop over the updates, when that update succeeds. */
  lemma ApplyFromStep(p: WorkflowProcessor, conv: Converter, index: map<string, nat>, st: PatchState,
                      updates: seq<Json>, i: nat)
    requires p.Valid() && ValidConverter(conv) && IndexValid(index, st.workflowNodes) && i < |updates|
    requires Step(p, conv, index, st, updates[i], i).Ok?
    ensures ApplyFrom(p, conv, index, st, updates, i)
            == ApplyFrom(p, conv, index, Step(p, conv, index, st, updates[i], i).value, updates, i + 1)
  {
  }

  // ---------------------------------------------------------------------------
  // The whole call

  const GraphNodesPath: seq<string> := ["batch", "graph", "nodes"]
  const WorkflowNodesPath: seq<string> := ["batch", "workflow", "nodes"]

  /** What the loop writes, put back into the copied payload. */
  function Reassemble(payload: Json, graphNodes: Json, workflowNodes: Json): Json {
    PutPath(PutPath(payload, GraphNodesPath, graphNodes), WorkflowNodesPath, workflowNodes)
  }

  /** What the loop starts from: the graph nodes, the workflow nodes and the node map. */
  datatype Targets = Targets(graphNodes: Json, workflowNodes: Json, items: seq<Json>, index: map<string, nat>)

  /**
   * The part of `apply_inputs` before its loop: reach both node collections,
   * insist on non-empty graph nodes, and build the workflow node map.
   */
  function PrepareTargets(payload: Json): (r: Result<Targets>)
    ensures r.Ok? ==> IndexValid(r.value.index, r.value.items) && Truthy(r.value.graphNodes)
    ensures r.Ok? ==> GetPath(payload, GraphNodesPath) == Some(r.value.graphNodes)
    ensures r.Ok? && r.value.workflowNodes.JList? ==> r.value.items == r.value.workflowNodes.items
    ensures r.Ok? && !r.value.workflowNodes.JList? ==> r.value.items == []
    ensures r.Ok? && GetPath(payload, WorkflowNodesPath).Some? ==> GetPath(payload, WorkflowNodesPath) == Some(r.value.workflowNodes)
    ensures GetPath(payload, GraphNodesPath).None? || !Truthy(GetPath(payload, GraphNodesPath).value) ==> r.Err?
  {
    var batch :- GetOr(payload, "batch", JObj(map[]));
    var graph :- GetOr(batch, "graph", JObj(map[]));
    var graphNodes :- GetOr(graph, "nodes", JObj(map[]));
    var workflowNodes :- GetOr(AtOr(batch, "workflow", JObj(map[])), "nodes", JList([]));
    if !Truthy(graphNodes) then Err(Structure(GraphNodesMissing))
    else
      var items :- LoopItems(workflowNodes);
      var index :- NodeIndex(items);
      NodeIndexLastWins(map[], items, 0, index, "");
      Ok(Targets(graphNodes, workflowNodes, items, index))
  }

  /** The imperative form of `PrepareTargets`. */
  method PrepareTargetsLoop(payload: Json) returns (r: Result<Targets>)
    ensures r == PrepareTargets(payload)
  {
    var batch :- GetOr(payload, "batch", JObj(map[]));
    var graph :- GetOr(batch, "graph", JObj(map[]));
    var graphNodes :- GetOr(graph, "nodes", JObj(map[]));
    var workflowNodes :- GetOr(AtOr(batch, "workflow", JObj(map[])), "nodes", JList([]));
    if !Truthy(graphNodes) {
      return Err(Structure(GraphNodesMissing));
    }
    var items :- LoopItems(workflowNodes);
    var index :- BuildNodeIndex(items);
    return Ok(Targets(graphNodes, workflowNodes, items, index));
  }

  /** The payload after the loop: the patched graph nodes and, when they were a list, the patched workflow nodes. */
  function Patched(payload: Json, t: Targets, st: PatchState): Json {
    Reassemble(payload, st.graphNodes, if t.workflowNodes.JList? then JList(st.workflowNodes) else t.workflowNodes)
  }

  /**
   * `apply_inputs` on the processor's payload: the graph nodes must be
   * present and non-empty; then every update is applied in list order, and
   * the first failure aborts the whole call.
   */
  function Applied(p: WorkflowProcessor, updates: seq<Json>, conv: Converter): (r: Result<Json>)
    requires p.Valid() && ValidConverter(conv)
    ensures PrepareTargets(p.payload).Err? ==> r == Err(PrepareTargets(p.payload).error)
    ensures r.Ok? ==> p.payload.JObj? && r.value.JObj? && r.value.fields.Keys == p.payload.fields.Keys
  {
    var t :- PrepareTargets(p.payload);
    var st :- ApplyFrom(p, conv, t.index, PatchState(t.graphNodes, t.items, {}), updates, 0);
    Ok(Patched(p.payload, t, st))
  }

  /** One turn of the loop over the updates, as the source writes it. */
  method ApplyOne(p: WorkflowProcessor, conv: Converter, index: map<string, nat>, st: PatchState, item: Json, position: nat)
    returns (r: Result<PatchState>)
    requires p.Valid() && ValidConverter(conv) && IndexValid(index, st.workflowNodes)
    ensures r == Step(p, conv, index, st, item, position)
  {
    if !SingleKey(item) {
      return Err(MalformedUpdate(position));
    }
    var key := KeyOf(item);
    var candidates := Candidates(p.lookup, key);
    if candidates == [] {
      return Err(UnknownField(key));
    }
    var found := FindFirstUnused(candidates, st.used);
    if found.None? {
      return Err(ExhaustedField(key));
    }
    var j := found.value;
    var used := st.used + {j};
    CandidatesInRange(p, key);
    var d := p.fields[j];
    var w :- PatchValue(d, key, item.fields[key], conv);
    var graphNodes :- GraphSet(st.graphNodes, d.nodeId, d.fieldName, w);
    var items :- WorkflowWrite(st.workflowNodes, index, d.nodeId, d.fieldName, w);
    return Ok(PatchState(graphNodes, items, used));
  }

  /** The imperative form of `apply_inputs`, with its loop over the updates. */
  method ApplyInputs(p: WorkflowProcessor, updates: seq<Json>, conv: Converter) returns (r: Result<Json>)
    requires p.Valid() && ValidConverter(conv)
    ensures r == Applied(p, updates, conv)
  {
    var t :- PrepareTargetsLoop(p.payload);
    var st := PatchState(t.graphNodes, t.items, {});
    var i := 0;
    while i < |updates|
      invariant 0 <= i <= |updates|
      invariant IndexValid(t.index, st.workflowNodes)
      invariant ApplyFrom(p, conv, t.index, PatchState(t.graphNodes, t.items, {}), updates, 0)
                == ApplyFrom(p, conv, t.index, st, updates, i)
    {
      st :- ApplyOne(p, conv, t.index, st, updates[i], i);
      i := i + 1;
    }
    return Ok(Patched(p.payload, t, st));
  }
}
