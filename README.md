# WorkflowProcessor, modelled in Dafny

This project models the `WorkflowProcessor` of an InvokeAI node pack that
enqueues workflow batches. The processor takes an enqueue-batch JSON document
and does three things.

- **Indexer.** It reads `batch.workflow.form` and builds the ordered list of
  exposed-field descriptors. There is one descriptor per `node-field` child
  of the root container, in `data.children` order. Each descriptor holds the
  node id, the field name, the settings type, the form element id and the
  label. When no explicit `settings.type` is given, the type is inferred from
  the graph value, and failing that from the field name. The constructor also
  stamps a fresh graph id into `batch.graph.id`.
- **Lookup map.** It maps every field's raw name, and every field's
  normalized label, to the list of descriptor positions that answer to it.
  Normalizing means lower-casing and turning spaces into underscores.
- **Patcher.** `apply_inputs` copies the payload. It then walks a list of
  single-key updates, and for each one it:
  - binds the key to the first unused matching position;
  - coerces the value to the field's Python type;
  - reshapes it for images, image collections and boards;
  - writes it into `batch.graph.nodes[node][field]` and into
    `batch.workflow.nodes[*].data.inputs[field].value`.

  A missing write target is skipped. A structural problem is an error.

## How the model is built

JSON is the `Json` datatype. Python operations that raise on the wrong kind
of value return `Err(Unguarded)` in the model:

- `.get` on a non-dict;
- `in` on a non-container;
- `container[key]` on a list or a string;
- iterating a number;
- hashing a list or a dict.

The errors the source raises on purpose have their own constructors
(`Structure`, `MalformedUpdate`, `UnknownField`, `ExhaustedField`,
`UnsupportedType`, `CoercionFailed`).

The processor's state never changes after construction, so
`WorkflowProcessor` is a value. Its three parts are:

- the stored payload, with the graph id stamped;
- the descriptors;
- the lookup map.

`apply_inputs` works on a deep copy and returns a new document, so the stored
payload cannot change.

Each `for` loop of the source, and the dict comprehension that builds the
workflow node map, is a method proved equal to a function that folds over
the same sequence:

- the loop over the workflow nodes, its inner loop over a node's inputs, and
  the children walk (`Indexer`);
- the lookup map and the candidate scan (`FieldLookup`);
- the workflow node map and the update loop (`Patcher`).

The properties are stated about those functions. The list comprehension
that shapes an image collection (processor.py:516) is an expression, and
stays one inside `Patcher.Shape`.

Module order: `Outcomes`, `SeqFacts` (general sequence and set lemmas), `Json`, `FieldTypes`, `Indexer`, `FieldLookup`,
`Processor`, `Patcher`, `PatcherProperties`.

## Model

| member | source | states |
|---|---|---|
| Json.GetOr | processor.py:178 | `d.get(k, default)` answers exactly when the value is a dict, with the key's entry when present and the default otherwise; anything else raises |
| Json.Lookup | processor.py:234 | a dict lookup with a JSON key: a string key finds its entry; a list or dict key is unhashable and raises; other keys are absent |
| Json.Member | processor.py:523-524 | `key in d` on a dict is key membership; on a list it is element membership and on a string substring search; any other value raises |
| Json.Subscript | processor.py:525 | `container[key]` succeeds exactly on a dict holding the key, and yields its entry |
| Json.LoopItems | processor.py:215 | iterating a list yields its items; a dict or a string yields no dicts (its keys or characters are strings); any other value raises |
| Json.PutPath | processor.py:410-412 | writing through an existing path makes the path read the new value; a missing path leaves the document alone; the other keys at the top are kept |
| Json.PutPathExisting | processor.py:405-407 | writing back the value a path already holds yields the same document (the copy equals the original) |
| Json.PutPathElsewhere | processor.py:522-546 | a write at one path leaves every path that branches off it unchanged |
| FieldTypes.KindOfName | processor.py:94-106 | a recognised settings-type string is the name of the kind it maps to |
| FieldTypes.KindOfNameRoundTrip | processor.py:94-106 | each of the ten settings types is recognised by its own name |
| FieldTypes.PythonType | processor.py:95-107 | the type map: int, float and bool each belong to one settings type; str to string and image; list to the two collections; dict to board, model and object |
| FieldTypes.IsInstance | processor.py:497 | `isinstance`: None is an instance of none of the mapped types; a bool is an instance of bool and of int; an int only of int |
| FieldTypes.SettingsTypeOf | processor.py:249-250 | a truthy explicit `settings.type` is known exactly when it is one of the ten names; otherwise it is kept as given |
| FieldTypes.InferFromValue | processor.py:256-285 | the isinstance checks in source order: bool before int, then float and str; None is a string; a list is an image collection exactly when its first item is an image dict, else a collection (the empty list too); a dict goes by image_name, then board_id, then hash, and fails with none of them |
| FieldTypes.ListKindDependsOnFirstItemOnly | processor.py:264-272 | two lists with the same first item, or both empty, infer the same type |
| FieldTypes.LaterImageItemsIgnored | processor.py:265-272 | a list whose first item is not an image dict is a plain collection, whatever follows |
| FieldTypes.Lower | processor.py:289 | lower-casing keeps the length and maps each character on its own |
| FieldTypes.NameHeuristic | processor.py:288-296 | the name fallback gives board exactly for "board" and model exactly for "refiner_model", ignoring case, and object otherwise |
| Indexer.InputLabels | processor.py:219-223 | a node's labels are exactly its inputs that are dicts carrying `label`, each with that label; an `inputs` that is not a dict gives none |
| Indexer.CollectInputLabels | processor.py:220-223 | the inner loop over `inputs.items()` computes `InputLabels` |
| Indexer.LabelsFrom | processor.py:215-223 | the label loop fails exactly when it meets a labelled node whose id is a list or a dict (unhashable) |
| Indexer.LabelIndex | processor.py:210-223 | over a node list, the label map fails exactly on a labelled node with an unhashable id |
| Indexer.LabelsFromLastWins | processor.py:215-223 | a node id has labels exactly when some workflow node with dict data carries it; the labels are those of the last such node |
| Indexer.CollectLabels | processor.py:210-223 | the label loop computes the label map |
| Indexer.GraphValue | processor.py:252-255 | the graph value is the field's entry when the node is a dict holding it, and absent when the node is missing |
| Indexer.ResolveSettingsType | processor.py:249-296 | precedence: an explicit truthy type wins; otherwise the graph value's inference; otherwise the field-name fallback; a missing field name raises at `.lower()` |
| Indexer.ExplicitTypeIgnoresGraphAndName | processor.py:249-250 | with an explicit type, graph and field name do not matter |
| Indexer.GraphValueBeatsName | processor.py:252-259 | with no explicit type, any non-dict graph value decides the type by inference, whatever the field is named |
| Indexer.BoardNameFallback | processor.py:288-290 | with no explicit type and no graph value (node missing, or a dict node without the field), any name that lower-cases to "board" is a board field |
| Indexer.FieldLabel | processor.py:304-310 | a label exists exactly when one is recorded for node and field and is neither the empty string nor `null` (both become `None`), and it is that recorded label |
| Indexer.ParseNodeField | processor.py:240-326 | an element parses exactly when its `data`, `fieldIdentifier` and `settings` levels are dicts or absent, node id and field name are non-empty strings and the settings type resolves; an unnamed node id or field name is an incomplete-field error; a parsed descriptor carries the element id, node id, field name, resolved type and recorded label |
| Indexer.ParseChild | processor.py:233-240 | a child yields a descriptor exactly when it names a `node-field` element, and that descriptor is the element's parse; a hashable child naming no element, a non-dict element or another element type is skipped without error |
| Indexer.ExposedFieldsFrom | processor.py:232-326 | the walk only appends to what it has, at most one descriptor per child |
| Indexer.ExposedFieldsFromSkipsOthers | processor.py:233-240 | the walk succeeds when no child id is a list or dict and every `node-field` child parses: all other children are skipped |
| Indexer.NodeFieldIds | processor.py:233-240 | the selected ids all name `node-field` elements of the form |
| Indexer.ExposedFieldsFollowChildren | processor.py:232-326 | the descriptors are one per `node-field` child, in children order: descriptor i is the parse of the element the i-th `node-field` child names |
| Indexer.CollectExposedFields | processor.py:232-326 | the children loop computes the descriptor list |
| Indexer.StampGraphId | processor.py:228-230 | when `batch.graph` is a dict, `batch.graph.id` becomes the new id; otherwise the payload is unchanged |
| Indexer.StampGraphIdChangesOnlyId | processor.py:228-230 | stamping changes nothing outside `batch.graph.id` |
| Indexer.IndexDocument | processor.py:178-326 | the form checks in source order: a non-dict form, bad elements or root id, a root that is not a container and non-list children each give their error; on success the fields are well formed and are exactly those of the walk over the root's children (`ChildrenWalk`); when that walk fails (an unhashable child id, a node field that does not parse) on a document that passes the checks, its error is the document's |
| Indexer.ExposedFieldsWellFormed | processor.py:307-326 | every descriptor has a non-empty node id and field name, no empty label, and names a `node-field` element |
| Indexer.IndexDocumentSucceeds | processor.py:178-326 | a document that passes the form checks, whose labels index, whose graph is a dict or absent, with no list or dict child id and every `node-field` child parsable, is indexed, and its fields are the walk over its children |
| Indexer.BuildOrderedExposedFields | processor.py:145-327 | the imperative indexer computes `IndexDocument` |
| FieldLookup.ReplaceSpaces | processor.py:119 | every space becomes an underscore; nothing else changes |
| FieldLookup.Normalize | processor.py:117-119 | normalization keeps the length |
| FieldLookup.NormalizeCanonical | processor.py:117-119 | normalized strings have no spaces or upper-case letters, and a string is fixed by normalization exactly when it has neither |
| FieldLookup.NormalizeIdempotent | processor.py:117-119 | normalizing twice is normalizing once |
| FieldLookup.Push | processor.py:130-132 | appending a position extends that key's list and no other |
| FieldLookup.LabelKey | processor.py:135-138 | a non-empty string label adds its normalized form; a falsy label adds nothing; any other truthy label raises |
| FieldLookup.LookupOf | processor.py:122-142 | every key of the map has a non-empty list, and every field's raw name is a key |
| FieldLookup.RecordFieldExtends | processor.py:127-141 | one turn only appends to the lists and files the field under its raw name |
| FieldLookup.LookupFromExtends | processor.py:122-142 | the fold only appends: earlier lists are prefixes of the final ones, added keys have non-empty lists, and each remaining field's name becomes a key |
| FieldLookup.LookupFromNormalizable | processor.py:127-141 | a lookup fold that succeeds has met only normalizable labels |
| FieldLookup.LookupFromEntry | processor.py:127-141 | the fold appends, under each key, the occurrences of that key in the remaining fields |
| FieldLookup.LookupFromSucceeds | processor.py:127-141 | the fold succeeds whenever every remaining label is normalizable |
| FieldLookup.BuildFieldLookupMap | processor.py:122-142 | the lookup loop computes `LookupOf` |
| FieldLookup.RecordFieldEntry | processor.py:127-141 | one field appends its position once per way it answers to the key (name, label) |
| FieldLookup.LookupContents | processor.py:122-142 | the map is built exactly when every label is normalizable, and each key's list is the reference list of occurrences |
| FieldLookup.OccurrencesOrdered | processor.py:127-141 | each key's list lies within the field range and is in ascending (document) order |
| FieldLookup.OccurrencesCount | processor.py:127-141 | position j occurs in a key's list as often as field j answers to the key |
| FieldLookup.LookupMembership | processor.py:122-142 | j is listed under a key exactly when field j's name is the key or its normalized label is; the lists are in range and ascending |
| FieldLookup.NameEqualToLabelListedTwice | processor.py:131-141 | a field whose name equals its normalized label is listed twice under that name |
| FieldLookup.Candidates | processor.py:446-451 | the raw key's list when it is non-empty, else the normalized key's |
| FieldLookup.FirstUnused | processor.py:461-465 | none exactly when every candidate is used; otherwise an unused candidate preceded only by used ones |
| FieldLookup.FindFirstUnused | processor.py:461-465 | the scan loop computes `FirstUnused` |
| FieldLookup.Resolve | processor.py:446-473 | no candidates is an unknown field; all candidates used is an exhausted field; otherwise an unused candidate |
| FieldLookup.ResolvePicksEarliestUnused | processor.py:461-465 | the chosen position is a field and the smallest unused candidate |
| FieldLookup.CandidatesByName | processor.py:446-451 | j is a candidate exactly when field j answers to the raw key, if any field does, and otherwise to the normalized key |
| FieldLookup.NormalizedKeysResolveAlike | processor.py:449-451 | two keys no field answers to, with the same normal form, resolve alike |
| FieldLookup.SelfLabelledFieldTakesOneUpdate | processor.py:461-473 | a key listing one position twice binds it once and then is exhausted |
| FieldLookup.RepeatedKeyBindsInOrder | processor.py:461-476 | with distinct candidates, the k-th use of a key binds the k-th candidate, and one more is exhausted |
| Processor.Construct | processor.py:62-113 | a constructed processor stores the stamped payload, its fields are exactly the descriptors `IndexDocument` produced, and its lookup map is the one built from them; indexing errors pass through; otherwise construction succeeds exactly when the labels are normalizable |
| Processor.NewWorkflowProcessor | processor.py:62-113 | the imperative constructor computes `Construct` |
| Processor.CandidatesInRange | processor.py:479 | every candidate position is an index into the field list |
| Patcher.TargetType | processor.py:483-491 | the type map answers exactly for the ten known types; another hashable type is an unsupported-type error |
| Patcher.Coerce | processor.py:496-508 | None and values already of the type pass unchanged; otherwise the conversion decides, and its failure is a coercion error; a successful result has the type |
| Patcher.Shape | processor.py:510-520 | image becomes `{"image_name": v}`; an image collection becomes one such dict per item (None raises); a board keeps only `board_id` (a missing key raises); everything else passes unchanged |
| Patcher.ShapedValueInfersItsKind | processor.py:510-520 | a shaped non-null value is inferred again as the type it was written under |
| Patcher.PatchValue | processor.py:483-520 | an unmapped type fails; a value already of the type is only shaped; any other non-null value goes through the conversion: its failure is a coercion error, its result is shaped |
| Patcher.GraphSet | processor.py:522-534 | only the targeted slot can change: every other node is kept whole, every other field of the target is kept, and a missing or non-dict target leaves the graph as it was; the slot takes the value when it existed, or when it is a missing "board" in a dict node; writing into a non-dict node raises |
| Patcher.WorkflowSet | processor.py:539-546 | the result is the node written at `data.inputs[field].value` and nowhere else (a `PutPath` along that path); the value is set exactly when the whole path exists; a node whose path levels are dicts where present is written without error; a node without `data`, or without the path, is skipped unchanged |
| Patcher.ValuePathReadsInput | processor.py:539-543 | reading along `data.inputs[field].value` is `InputValue` |
| Patcher.WorkflowSetKeepsOtherEntries | processor.py:539-546 | a workflow write keeps the whole entry of every other input |
| Patcher.WorkflowWriteReadsBack | processor.py:536-546 | after one workflow write, input `f` of the node at a position reads the written value exactly when the id is filed at that position, the field is `f` and the input had a `value`; otherwise it reads as before |
| Patcher.NodeIndexFrom | processor.py:425 | the comprehension fails exactly on a dict node whose id is a list or a dict; it only adds ids, and positions it files name dict nodes |
| Patcher.NodeIndex | processor.py:425 | the node map fails exactly on an unhashable id, and otherwise files only positions of dict nodes |
| Patcher.NodeIndexLastWins | processor.py:425 | the workflow node map files each string id under the last dict node carrying it, and files only such ids |
| Patcher.BuildNodeIndex | processor.py:425 | the map comprehension's loop computes `NodeIndex` |
| Patcher.WorkflowWrite | processor.py:538-546 | a node id the map does not file is skipped with the nodes unchanged; otherwise the write succeeds exactly when `WorkflowSet` does; only the node filed under the id can change; the list keeps its length |
| Patcher.WorkflowSetKeepsSettable | processor.py:539-546 | a workflow write keeps every input path writable |
| Patcher.KeyOf | processor.py:442 | the one key of a single-key update |
| Patcher.Step | processor.py:432-546 | one update keeps the workflow node map valid |
| Patcher.StepErrors | processor.py:432-476 | an update that is not a single-key dict is a malformed-update error at its position; a failed resolution is that resolution's error; a success had a single key that resolved |
| Patcher.StepEffect | processor.py:443-546 | a successful update binds exactly one new in-range position, and both sides get the shaped value through `GraphSet` and `WorkflowWrite` |
| Patcher.StepSucceeds | processor.py:432-546 | a single-key update whose key resolves and whose value coerces and shapes succeeds on a writable document, binds that position and leaves the document writable |
| Patcher.StepBinds | processor.py:443-476 | a successful update was a single-key dict whose key resolved, and bound that position |
| Patcher.WritesKeepWritable | processor.py:522-546 | the two writes of one update keep every exposed field writable |
| Patcher.Bindings | processor.py:432-476 | the resolution pass binds one position per update, and succeeds only when every update is a single-key dict |
| Patcher.BindingsCons | processor.py:432-476 | a successful resolution pass bound the first update's key first and the rest from there |
| Patcher.ApplyFrom | processor.py:432-546 | the loop keeps the workflow node map valid |
| Patcher.ApplyFromStep | processor.py:432-546 | after a successful update the loop goes on from the next update with the new state |
| Patcher.PrepareTargets | processor.py:410-425 | missing or empty graph nodes fail; on success the graph nodes are the ones at `batch.graph.nodes`, the workflow nodes are those at `batch.workflow.nodes` when present, and the node map is valid |
| Patcher.PrepareTargetsLoop | processor.py:410-425 | the imperative prelude computes `PrepareTargets` |
| Patcher.ApplyOne | processor.py:432-546 | the loop body computes `Step` |
| Patcher.Applied | processor.py:379-548 | the prelude's errors come first; a successful call returns a dict with the payload's top-level keys |
| Patcher.ApplyInputs | processor.py:379-548 | the imperative `apply_inputs` computes `Applied` |
| PatcherProperties.NoUpdatesReturnPayload | processor.py:405-548 | with no updates, the result is the stored payload unchanged, or the prelude's error |
| PatcherProperties.ApplyFromBindsOnePerUpdate | processor.py:429-476 | each update binds one new in-range position: the used set grows by exactly the number of updates |
| PatcherProperties.AtMostOneUpdatePerField | processor.py:429-476 | a successful call has no more updates than exposed fields |
| PatcherProperties.ApplyFromKeepsOtherSlots | processor.py:522-534 | a graph slot no exposed field names is never written |
| PatcherProperties.ApplyFromKeepsOtherNodes | processor.py:522-534 | a graph node no exposed field names is kept whole |
| PatcherProperties.ApplyFromKeepsOtherWorkflowNodes | processor.py:536-546 | a workflow node that no exposed field's node id files is kept whole |
| PatcherProperties.ApplyFromKeepsWorkflowPathsOff | processor.py:536-546 | inside a workflow node, every path that branches off the value path of each field filed there reads the same after the loop |
| PatcherProperties.ApplyFromSucceeds | processor.py:429-546 | the loop succeeds when the resolution pass binds every update, each bound value coerces and shapes, and the document is writable; it uses exactly the positions the pass found |
| PatcherProperties.ApplyFromBinds | processor.py:429-476 | a loop that succeeds passed the resolution pass, and used exactly the positions it found |
| PatcherProperties.AppliedSucceeds | processor.py:379-548 | `apply_inputs` succeeds when the graph nodes are present, the updates resolve, each bound value coerces and shapes, and both node collections are writable for every exposed field |
| PatcherProperties.AppliedBinds | processor.py:429-476 | a successful call had only single-key updates, all resolved by the resolution pass |
| PatcherProperties.ApplyFromKeepsOtherInputs | processor.py:536-546 | a workflow input no exposed field of that node names keeps its whole entry |
| PatcherProperties.LastWriteUntouched | processor.py:432-546 | a target that no binding names keeps the value it started with |
| PatcherProperties.LastWriteIsLast | processor.py:432-546 | a target holds the written value of the last update bound to one of its fields, whatever earlier updates wrote |
| PatcherProperties.LastWriteFromBindings | processor.py:443-476 | resolving keys update by update, as the loop does, binds the same fields as the resolution pass, so both give the same final values |
| PatcherProperties.StepGraphReadsBack | processor.py:522-534 | one update writes graph slot (n, f) exactly when its bound field names that slot and the slot exists or is a missing "board" of a dict node, and then the slot holds the shaped value; whether a slot takes writes does not change |
| PatcherProperties.StepInputReadsBack | processor.py:536-546 | one update writes input `f` of the workflow node at a position exactly when its bound field's node id is filed there, its field name is `f` and the input has a `value`; then the input holds the shaped value |
| PatcherProperties.ApplyFromSlot | processor.py:432-534 | after the loop, a graph slot that takes writes holds the value of the last update bound to it (or its old value if none is); a slot that does not take writes is as it was |
| PatcherProperties.ApplyFromInput | processor.py:432-546 | after the loop, a workflow input with a `value` holds the value of the last update bound to it (or its old value if none is); an input without a `value` still has none; the node list keeps its length |
| PatcherProperties.ApplyFromPatches | processor.py:432-520 | a loop that succeeds coerced and shaped every update's value for the field it was bound to |
| PatcherProperties.AppliedPatches | processor.py:379-548 | a successful call coerced and shaped every update's value for its bound field: the value condition of `AppliedSucceeds` is also necessary |
| PatcherProperties.AppliedWrote | processor.py:483-520 | in a successful call, each update has a written value for the field it was bound to |
| PatcherProperties.AppliedGraphSlot | processor.py:379-548 | in the returned document, `batch.graph.nodes[n][f]` holds the written value of the last update bound to one of its fields when the slot takes writes, and its old value otherwise |
| PatcherProperties.AppliedInput | processor.py:379-548 | when `batch.workflow.nodes` is a list, in the returned document input `f` of the dict node at a position holds the written value of the last update bound to one of its fields when it has a `value`, and stays without one otherwise; the node list keeps its length |
| PatcherProperties.PatchedHoldsLoopResult | processor.py:410-412 | the returned document holds the loop's graph nodes, and its workflow nodes when they were a list in the payload |
| PatcherProperties.AppliedChangesOnlyNodeCollections | processor.py:405-548 | nothing outside `batch.graph.nodes` and `batch.workflow.nodes` changes |
| PatcherProperties.AppliedReachesGraphNodes | processor.py:410-419 | a successful call found a truthy value at `batch.graph.nodes` |
| PatcherProperties.StampedIdPresent | processor.py:228-230 | a payload whose graph nodes can be reached carries the stamped graph id |
| PatcherProperties.GraphIdSurvives | processor.py:228-230 | for a processor storing the stamped payload, the graph id is in every document `apply_inputs` returns |

## Left out

- HTTP submission, response decoding and the invocation node (processor.py:631-769) are I/O. The module constants (processor.py:28-35) are configuration.
- `get_input_schema` (processor.py:329-377) only builds a pydantic model and a description string.
- The pydantic validators (processor.py:590-627) check files and parse JSON text in the host runtime.
- builder.py and `__init__.py` are not part of this model: they are host-runtime wrappers around JSON parsing and plugin registration.
- The fresh UUID is the parameter `graphId` of `Construct`, because randomness is outside the model.
- Python's constructors `int`, `float`, `str`, `bool`, `list` and `dict` are the parameter `conv`. It is constrained only so that a successful conversion has the requested type, because the concrete conversions are numeric parsing.
- Logging (`warning`, `info`) has no effect on the result and is left out.
- FieldTypes.Lower: lower-cases ASCII letters only, because Python's Unicode case mapping is out of scope.
- A `nodeId` or `fieldName` that is neither null nor a string gives `Err(OutOfModel)`. Python's cross-type key equality (`1 == 1.0 == True`) is not modelled.
- A non-string scalar id of a workflow node is ignored, since no string node id can equal it.
- Floats are kept as their bit pattern. Only their truthiness (zero or not) is interpreted.
- `Err(Unguarded)` stands for every exception the source does not raise on purpose, without distinguishing the Python exception class. An example is `.lower()` on a missing field name (processor.py:289), which fires before the validation at processor.py:313-318.
- Dict key order is not modelled. The key of a single-key update is unique, so no result depends on it.
- The constructor's graph-id write mutates the caller's document in place (processor.py:229-230). The model returns the stamped payload as a new value instead, so that aliasing is not captured.
- The JSON deep copy (processor.py:407) is the identity on the model's values.
- `apply_inputs` receives the update list itself, not the pydantic `inputs` object.
- Patcher.Step: its own contract states only that the workflow node map stays valid. When an update fails is stated by Patcher.StepErrors and Patcher.StepBinds, when it succeeds by Patcher.StepSucceeds, and what it writes by Patcher.StepEffect.
- Patcher.Applied: its own contract states only the prelude's errors and the top-level shape of the result. When a call succeeds is stated by PatcherProperties.AppliedSucceeds, PatcherProperties.AppliedBinds and PatcherProperties.AppliedPatches. The value it returns at each bound graph slot and workflow input is stated by PatcherProperties.AppliedGraphSlot and PatcherProperties.AppliedInput, through `LastWrite`, whose last-binding-wins property is PatcherProperties.LastWriteIsLast. What it keeps is stated by the frame lemmas (PatcherProperties.AppliedChangesOnlyNodeCollections and the ApplyFromKeeps lemmas).
- Patcher.ApplyFrom: its own contract states only that the workflow node map stays valid. When the loop succeeds is stated by PatcherProperties.ApplyFromSucceeds, PatcherProperties.ApplyFromBinds and PatcherProperties.ApplyFromPatches. What each slot and input holds afterwards is stated by PatcherProperties.ApplyFromSlot and PatcherProperties.ApplyFromInput, and what it keeps by the ApplyFromKeeps lemmas.
- PatcherProperties.AppliedSucceeds: the condition is sufficient, not necessary. It asks that the graph nodes be a dict and every exposed field's write path be dicts where present; a document that fails this only for fields no update targets also succeeds in the source.
