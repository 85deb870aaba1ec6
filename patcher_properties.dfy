/**
 * Properties of `apply_inputs` as a whole: what an empty update list
 * returns, how many updates a workflow can take, and what the call leaves
 * alone.
 */
module PatcherProperties {
  import opened Outcomes
  import opened Json
  import opened Indexer
  import opened FieldLookup
  import opened Processor
  import opened Patcher
  import opened SeqFacts

  /** With no updates the call returns the stored payload unchanged, or the prelude's error. */
  lemma NoUpdatesReturnPayload(p: WorkflowProcessor, conv: Converter)
    requires p.Valid() && ValidConverter(conv)
    ensures Applied(p, [], conv).Ok? <==> PrepareTargets(p.payload).Ok?
    ensures Applied(p, [], conv).Ok? ==> Applied(p, [], conv).value == p.payload
  {
    var t := PrepareTargets(p.payload);
    if t.Ok? {
      var t := t.value;
      PutPathExisting(p.payload, GraphNodesPath, t.graphNodes);
      if GetPath(p.payload, WorkflowNodesPath).Some? {
        PutPathExisting(p.payload, WorkflowNodesPath, t.workflowNodes);
      }
    }
  }

  /** Positions below `n` number at most `n`. */
  lemma {:induction false} BoundedPositions(s: set<nat>, n: nat)
    requires forall x :: x in s ==> x < n
    ensures |s| <= n
  {
    if n > 0 {
      BoundedPositions(s - {n - 1}, n - 1);
    } else {
      assert s == {};
    }
  }

  /** Each successful update binds one field not bound before. */
  lemma {:induction false} ApplyFromBindsOnePerUpdate(p: WorkflowProcessor, conv: Converter, index: map<string, nat>,
                                                      st: PatchState, updates: seq<Json>, i: nat)
    requires p.Valid() && ValidConverter(conv) && IndexValid(index, st.workflowNodes) && i <= |updates|
    requires ApplyFrom(p, conv, index, st, updates, i).Ok?
    requires forall x :: x in st.used ==> x < |p.fields|
    ensures var r := ApplyFrom(p, conv, index, st, updates, i).value;
            st.used <= r.used && |r.used| == |st.used| + (|updates| - i)
            && forall x :: x in r.used ==> x < |p.fields|
    decreases |updates| - i
  {
    if i < |updates| {
      StepEffect(p, conv, index, st, updates[i], i);
      var next := Step(p, conv, index, st, updates[i], i).value;
      ApplyFromBindsOnePerUpdate(p, conv, index, next, updates, i + 1);
    }
  }

  /** A call that succeeds carries at most one update per exposed field. */
  lemma AtMostOneUpdatePerField(p: WorkflowProcessor, updates: seq<Json>, conv: Converter)
    requires p.Valid() && ValidConverter(conv)
    requires Applied(p, updates, conv).Ok?
    ensures |updates| <= |p.fields|
  {
    var t := PrepareTargets(p.payload).value;
    var st := PatchState(t.graphNodes, t.items, {});
    ApplyFromBindsOnePerUpdate(p, conv, t.index, st, updates, 0);
    BoundedPositions(ApplyFrom(p, conv, t.index, st, updates, 0).value.used, |p.fields|);
  }

  /** A graph slot that no exposed field names is never written. */
  lemma {:induction false} ApplyFromKeepsOtherSlots(p: WorkflowProcessor, conv: Converter, index: map<string, nat>,
                                                    st: PatchState, updates: seq<Json>, i: nat, n: string, f: string)
    requires p.Valid() && ValidConverter(conv) && IndexValid(index, st.workflowNodes) && i <= |updates|
    requires ApplyFrom(p, conv, index, st, updates, i).Ok?
    requires forall j :: 0 <= j < |p.fields| && p.fields[j].nodeId == n ==> p.fields[j].fieldName != f
    ensures Slot(ApplyFrom(p, conv, index, st, updates, i).value.graphNodes, n, f) == Slot(st.graphNodes, n, f)
    decreases |updates| - i
  {
    if i < |updates| {
      StepEffect(p, conv, index, st, updates[i], i);
      var next := Step(p, conv, index, st, updates[i], i).value;
      ApplyFromKeepsOtherSlots(p, conv, index, next, updates, i + 1, n, f);
    }
  }

  /** A graph node that no exposed field names is never written, whatever it holds. */
  lemma {:induction false} ApplyFromKeepsOtherNodes(p: WorkflowProcessor, conv: Converter, index: map<string, nat>,
                                                    st: PatchState, updates: seq<Json>, i: nat, n: string)
    requires p.Valid() && ValidConverter(conv) && IndexValid(index, st.workflowNodes) && i <= |updates|
    requires ApplyFrom(p, conv, index, st, updates, i).Ok?
    requires st.graphNodes.JObj? && n in st.graphNodes.fields
    requires forall j :: 0 <= j < |p.fields| ==> p.fields[j].nodeId != n
    ensures var r := ApplyFrom(p, conv, index, st, updates, i).value;
            r.graphNodes.JObj? && n in r.graphNodes.fields && r.graphNodes.fields[n] == st.graphNodes.fields[n]
    decreases |updates| - i
  {
    if i < |updates| {
      StepEffect(p, conv, index, st, updates[i], i);
      var next := Step(p, conv, index, st, updates[i], i).value;
      ApplyFromKeepsOtherNodes(p, conv, index, next, updates, i + 1, n);
    }
  }

  /**
   * A workflow input that no exposed field names is never written: the
   * node list keeps its length, and in node `k` the whole entry of input
   * `f` stays as it was.
   */
  lemma {:induction false} ApplyFromKeepsOtherInputs(p: WorkflowProcessor, conv: Converter, index: map<string, nat>,
                                                     st: PatchState, updates: seq<Json>, i: nat, k: nat, f: string)
    requires p.Valid() && ValidConverter(conv) && IndexValid(index, st.workflowNodes) && i <= |updates|
    requires ApplyFrom(p, conv, index, st, updates, i).Ok?
    requires k < |st.workflowNodes| && st.workflowNodes[k].JObj?
    requires forall j :: 0 <= j < |p.fields| && p.fields[j].nodeId in index && index[p.fields[j].nodeId] == k
                         ==> p.fields[j].fieldName != f
    ensures var r := ApplyFrom(p, conv, index, st, updates, i).value;
            |r.workflowNodes| == |st.workflowNodes| && r.workflowNodes[k].JObj?
            && InputEntry(r.workflowNodes[k].fields, f) == InputEntry(st.workflowNodes[k].fields, f)
    decreases |updates| - i
  {
    if i < |updates| {
      StepEffect(p, conv, index, st, updates[i], i);
      var next := Step(p, conv, index, st, updates[i], i).value;
      var key := KeyOf(updates[i]);
      var j := Resolve(p.lookup, st.used, key).value;
      var d := p.fields[j];
      if d.nodeId in index && index[d.nodeId] == k {
        var w := PatchValue(d, key, updates[i].fields[key], conv).value;
        WorkflowSetKeepsOtherEntries(st.workflowNodes[k].fields, d.fieldName, w, f);
      }
      ApplyFromKeepsOtherInputs(p, conv, index, next, updates, i + 1, k, f);
    }
  }

  /** A workflow node that no exposed field's node id files is never written. */
  lemma {:induction false} ApplyFromKeepsOtherWorkflowNodes(p: WorkflowProcessor, conv: Converter, index: map<string, nat>,
                                                             st: PatchState, updates: seq<Json>, i: nat, k: nat)
    requires p.Valid() && ValidConverter(conv) && IndexValid(index, st.workflowNodes) && i <= |updates|
    requires ApplyFrom(p, conv, index, st, updates, i).Ok?
    requires k < |st.workflowNodes|
    requires forall j :: 0 <= j < |p.fields| && p.fields[j].nodeId in index ==> index[p.fields[j].nodeId] != k
    ensures var r := ApplyFrom(p, conv, index, st, updates, i).value;
            |r.workflowNodes| == |st.workflowNodes| && r.workflowNodes[k] == st.workflowNodes[k]
    decreases |updates| - i
  {
    if i < |updates| {
      StepEffect(p, conv, index, st, updates[i], i);
      var next := Step(p, conv, index, st, updates[i], i).value;
      ApplyFromKeepsOtherWorkflowNodes(p, conv, index, next, updates, i + 1, k);
    }
  }

  /** `q` branches off the path of input `f`'s value. */
  predicate OffValuePath(q: seq<string>, f: string) {
    exists i: nat | i < |q| :: DivergesAt(q, ValuePath(f), i)
  }

  /**
   * Inside a workflow node, every path that branches off the value path of
   * each field filed under that node (its `id`, `data.label`, an input's
   * `label`, ...) reads the same after the loop.
   */
  lemma {:induction false} ApplyFromKeepsWorkflowPathsOff(p: WorkflowProcessor, conv: Converter, index: map<string, nat>,
                                                          st: PatchState, updates: seq<Json>, i: nat, k: nat, q: seq<string>)
    requires p.Valid() && ValidConverter(conv) && IndexValid(index, st.workflowNodes) && i <= |updates|
    requires ApplyFrom(p, conv, index, st, updates, i).Ok?
    requires k < |st.workflowNodes|
    requires forall j :: 0 <= j < |p.fields| && p.fields[j].nodeId in index && index[p.fields[j].nodeId] == k
                         ==> OffValuePath(q, p.fields[j].fieldName)
    ensures var r := ApplyFrom(p, conv, index, st, updates, i).value;
            |r.workflowNodes| == |st.workflowNodes| && GetPath(r.workflowNodes[k], q) == GetPath(st.workflowNodes[k], q)
    decreases |updates| - i
  {
    if i < |updates| {
      StepEffect(p, conv, index, st, updates[i], i);
      var next := Step(p, conv, index, st, updates[i], i).value;
      var key := KeyOf(updates[i]);
      var j := Resolve(p.lookup, st.used, key).value;
      var d := p.fields[j];
      if d.nodeId in index && index[d.nodeId] == k {
        var w := PatchValue(d, key, updates[i].fields[key], conv).value;
        assert OffValuePath(q, d.fieldName);
        var n: nat :| n < |q| && DivergesAt(q, ValuePath(d.fieldName), n);
        PutPathElsewhere(st.workflowNodes[k], ValuePath(d.fieldName), w, q, n);
      }
      ApplyFromKeepsWorkflowPathsOff(p, conv, index, next, updates, i + 1, k, q);
    }
  }

  /** Update `k` is a single-key dict whose value coerces and shapes for the field at position `pos`. */
  predicate PatchesAt(p: WorkflowProcessor, conv: Converter, updates: seq<Json>, k: nat, pos: nat)
    requires ValidConverter(conv)
  {
    k < |updates| && pos < |p.fields| && SingleKey(updates[k])
    && PatchValue(p.fields[pos], KeyOf(updates[k]), updates[k].fields[KeyOf(updates[k])], conv).Ok?
  }

  /** Each update from position `i` on coerces and shapes for the field the resolution pass bound it to. */
  predicate ValuesPatch(p: WorkflowProcessor, conv: Converter, updates: seq<Json>, i: nat, js: seq<nat>)
    requires ValidConverter(conv)
  {
    i + |js| == |updates| && forall m :: 0 <= m < |js| ==> PatchesAt(p, conv, updates, i + m, js[m])
  }

  /** Dropping the first binding keeps `ValuesPatch` for the rest. */
  lemma ValuesPatchTail(p: WorkflowProcessor, conv: Converter, updates: seq<Json>, i: nat, js: seq<nat>)
    requires ValidConverter(conv) && ValuesPatch(p, conv, updates, i, js) && js != []
    ensures PatchesAt(p, conv, updates, i, js[0])
    ensures ValuesPatch(p, conv, updates, i + 1, js[1..])
  {
    assert PatchesAt(p, conv, updates, i + 0, js[0]);
    forall m | 0 <= m < |js| - 1
      ensures PatchesAt(p, conv, updates, i + 1 + m, js[1..][m])
    {
      assert PatchesAt(p, conv, updates, i + (m + 1), js[m + 1]);
    }
  }

  /** A first binding that patches, followed by bindings that do, make `ValuesPatch`. */
  lemma ValuesPatchCons(p: WorkflowProcessor, conv: Converter, updates: seq<Json>, i: nat, js: seq<nat>)
    requires ValidConverter(conv) && js != []
    requires Written(p, conv, updates, i, js[0]).Ok? && ValuesPatch(p, conv, updates, i + 1, js[1..])
    ensures ValuesPatch(p, conv, updates, i, js)
  {
    forall m | 0 <= m < |js|
      ensures PatchesAt(p, conv, updates, i + m, js[m])
    {
      if m > 0 {
        assert PatchesAt(p, conv, updates, i + 1 + (m - 1), js[1..][m - 1]);
      }
    }
  }

  /** The loop runs to the end when the resolution pass binds every update, each bound value patches, and the document is writable. */
  lemma {:induction false} ApplyFromRuns(p: WorkflowProcessor, conv: Converter, index: map<string, nat>,
                                         st: PatchState, updates: seq<Json>, i: nat, js: seq<nat>)
    requires p.Valid() && ValidConverter(conv) && Writable(p, index, st) && i <= |updates|
    requires Bindings(p.lookup, st.used, updates, i) == Ok(js)
    requires ValuesPatch(p, conv, updates, i, js)
    ensures ApplyFrom(p, conv, index, st, updates, i).Ok?
    decreases |updates| - i
  {
    if i < |updates| {
      BindingsCons(p.lookup, st.used, updates, i, js);
      ValuesPatchTail(p, conv, updates, i, js);
      StepSucceeds(p, conv, index, st, updates[i], i);
      var next := Step(p, conv, index, st, updates[i], i).value;
      ApplyFromStep(p, conv, index, st, updates, i);
      ApplyFromRuns(p, conv, index, next, updates, i + 1, js[1..]);
    }
  }

  /** A loop that succeeds passed the resolution pass, and used exactly the positions it found. */
  lemma {:induction false} ApplyFromBinds(p: WorkflowProcessor, conv: Converter, index: map<string, nat>,
                                          st: PatchState, updates: seq<Json>, i: nat)
    requires p.Valid() && ValidConverter(conv) && IndexValid(index, st.workflowNodes) && i <= |updates|
    requires ApplyFrom(p, conv, index, st, updates, i).Ok?
    ensures Bindings(p.lookup, st.used, updates, i).Ok?
    ensures ApplyFrom(p, conv, index, st, updates, i).value.used
            == st.used + Elems(Bindings(p.lookup, st.used, updates, i).value)
    decreases |updates| - i
  {
    if i < |updates| {
      StepBinds(p, conv, index, st, updates[i], i);
      var j := Resolve(p.lookup, st.used, KeyOf(updates[i])).value;
      var next := Step(p, conv, index, st, updates[i], i).value;
      var used := ApplyFrom(p, conv, index, st, updates, i).value.used;
      assert Bindings(p.lookup, st.used + {j}, updates, i + 1).Ok?
             && used == (st.used + {j}) + Elems(Bindings(p.lookup, st.used + {j}, updates, i + 1).value) by {
        ApplyFromStep(p, conv, index, st, updates, i);
        ApplyFromBinds(p, conv, index, next, updates, i + 1);
      }
      var rest := Bindings(p.lookup, st.used + {j}, updates, i + 1).value;
      assert Bindings(p.lookup, st.used, updates, i) == Ok([j] + rest) by {
        BindingsStep(p.lookup, st.used, updates, i);
      }
      assert used == st.used + Elems([j] + rest) by {
        ElemsCons(j, rest);
      }
    }
  }

  /**
   * The loop succeeds when the resolution pass binds every update, each
   * bound value coerces and shapes, and the document is writable; it then
   * uses exactly the positions the resolution pass found.
   */
  lemma ApplyFromSucceeds(p: WorkflowProcessor, conv: Converter, index: map<string, nat>,
                          st: PatchState, updates: seq<Json>, i: nat, js: seq<nat>)
    requires p.Valid() && ValidConverter(conv) && Writable(p, index, st) && i <= |updates|
    requires Bindings(p.lookup, st.used, updates, i) == Ok(js)
    requires ValuesPatch(p, conv, updates, i, js)
    ensures ApplyFrom(p, conv, index, st, updates, i).Ok?
    ensures ApplyFrom(p, conv, index, st, updates, i).value.used == st.used + Elems(js)
  {
    ApplyFromRuns(p, conv, index, st, updates, i, js);
    ApplyFromBinds(p, conv, index, st, updates, i);
  }

  /** The state `apply_inputs` starts its loop from. */
  function Start(p: WorkflowProcessor): PatchState
    requires PrepareTargets(p.payload).Ok?
  {
    var t := PrepareTargets(p.payload).value;
    PatchState(t.graphNodes, t.items, {})
  }

  /**
   * `apply_inputs` succeeds when the graph nodes are present, every update
   * resolves in the resolution pass, each bound value coerces and shapes,
   * and both node collections are writable for every exposed field.
   */
  lemma AppliedSucceeds(p: WorkflowProcessor, updates: seq<Json>, conv: Converter)
    requires p.Valid() && ValidConverter(conv)
    requires PrepareTargets(p.payload).Ok?
    requires Writable(p, PrepareTargets(p.payload).value.index, Start(p))
    requires Bindings(p.lookup, {}, updates, 0).Ok?
    requires ValuesPatch(p, conv, updates, 0, Bindings(p.lookup, {}, updates, 0).value)
    ensures Applied(p, updates, conv).Ok?
  {
    var t := PrepareTargets(p.payload).value;
    ApplyFromSucceeds(p, conv, t.index, Start(p), updates, 0, Bindings(p.lookup, {}, updates, 0).value);
  }

  /** A call that succeeds passed the resolution pass: every update was a single-key dict whose key resolved. */
  lemma AppliedBinds(p: WorkflowProcessor, updates: seq<Json>, conv: Converter)
    requires p.Valid() && ValidConverter(conv)
    requires Applied(p, updates, conv).Ok?
    ensures Bindings(p.lookup, {}, updates, 0).Ok?
    ensures forall k :: 0 <= k < |updates| ==> SingleKey(updates[k])
  {
    var t := PrepareTargets(p.payload).value;
    ApplyFromBinds(p, conv, t.index, Start(p), updates, 0);
  }

  // ---------------------------------------------------------------------------
  // What the bound fields hold afterwards

  /** The value update `k` writes once it is bound to position `j`: its value, coerced and shaped for that field. */
  function Written(p: WorkflowProcessor, conv: Converter, updates: seq<Json>, k: nat, j: nat): Result<Json>
    requires ValidConverter(conv)
  {
    if k < |updates| && SingleKey(updates[k]) && j < |p.fields| then
      PatchValue(p.fields[j], KeyOf(updates[k]), updates[k].fields[KeyOf(updates[k])], conv)
    else Err(Unguarded)
  }

  /** The exposed fields that write graph slot (n, f). */
  function SlotFields(p: WorkflowProcessor, n: string, f: string): set<nat> {
    set j: nat | j < |p.fields| && p.fields[j].nodeId == n && p.fields[j].fieldName == f
  }

  /** The exposed fields that write input `f` of the workflow node at position `pos`. */
  function InputFields(p: WorkflowProcessor, index: map<string, nat>, pos: nat, f: string): set<nat> {
    set j: nat | j < |p.fields| && p.fields[j].nodeId in index && index[p.fields[j].nodeId] == pos
                 && p.fields[j].fieldName == f
  }

  /**
   * What a target holds after the updates from `i` on, bound to `js`, when
   * it started as `cur`: each update bound to one of `targets` overwrites it
   * with its written value, so the last one wins.
   */
  function LastWrite(p: WorkflowProcessor, conv: Converter, updates: seq<Json>, i: nat, js: seq<nat>,
                     targets: set<nat>, cur: Option<Json>): Option<Json>
    requires ValidConverter(conv)
    decreases |js|
  {
    if js == [] then cur
    else
      var w := Written(p, conv, updates, i, js[0]);
      LastWrite(p, conv, updates, i + 1, js[1..], targets, if js[0] in targets && w.Ok? then Some(w.value) else cur)
  }

  /** No binding from position `from` on names one of `targets`. */
  predicate Untouched(js: seq<nat>, from: nat, targets: set<nat>) {
    forall l :: from <= l < |js| ==> js[l] !in targets
  }

  /** Dropping the first binding keeps `Untouched`, one position earlier. */
  lemma UntouchedTail(js: seq<nat>, from: nat, targets: set<nat>)
    requires js != [] && Untouched(js, from, targets)
    ensures Untouched(js[1..], if from == 0 then 0 else from - 1, targets)
  {
    forall l | (if from == 0 then 0 else from - 1) <= l < |js| - 1
      ensures js[1..][l] !in targets
    {
      assert js[1..][l] == js[l + 1];
    }
  }

  /** A target no binding names keeps its value. */
  lemma {:induction false} LastWriteUntouched(p: WorkflowProcessor, conv: Converter, updates: seq<Json>, i: nat,
                                              js: seq<nat>, targets: set<nat>, cur: Option<Json>)
    requires ValidConverter(conv) && Untouched(js, 0, targets)
    ensures LastWrite(p, conv, updates, i, js, targets, cur) == cur
    decreases |js|
  {
    if js != [] {
      assert js[0] !in targets;
      UntouchedTail(js, 0, targets);
      LastWriteUntouched(p, conv, updates, i + 1, js[1..], targets, cur);
    }
  }

  /** The target holds the value of the last update bound to it, when that value could be written. */
  lemma {:induction false} LastWriteIsLast(p: WorkflowProcessor, conv: Converter, updates: seq<Json>, i: nat,
                                           js: seq<nat>, targets: set<nat>, cur: Option<Json>, m: nat)
    requires ValidConverter(conv)
    requires m < |js| && js[m] in targets && Untouched(js, m + 1, targets)
    requires Written(p, conv, updates, i + m, js[m]).Ok?
    ensures LastWrite(p, conv, updates, i, js, targets, cur) == Some(Written(p, conv, updates, i + m, js[m]).value)
    decreases |js|
  {
    var w := Written(p, conv, updates, i, js[0]);
    var next := if js[0] in targets && w.Ok? then Some(w.value) else cur;
    UntouchedTail(js, m + 1, targets);
    if m == 0 {
      LastWriteUntouched(p, conv, updates, i + 1, js[1..], targets, next);
    } else {
      assert js[1..][m - 1] == js[m] && i + 1 + (m - 1) == i + m;
      LastWriteIsLast(p, conv, updates, i + 1, js[1..], targets, next, m - 1);
    }
  }

  /**
   * `LastWrite` with the bindings resolved on the way, from the positions in
   * `used` on, as the loop resolves them; it stops where resolution fails.
   */
  function LastWriteFrom(p: WorkflowProcessor, conv: Converter, updates: seq<Json>, i: nat, used: set<nat>,
                         targets: set<nat>, cur: Option<Json>): Option<Json>
    requires ValidConverter(conv) && i <= |updates|
    decreases |updates| - i
  {
    if i == |updates| || !SingleKey(updates[i]) || Resolve(p.lookup, used, KeyOf(updates[i])).Err? then cur
    else
      var j := Resolve(p.lookup, used, KeyOf(updates[i])).value;
      var w := Written(p, conv, updates, i, j);
      LastWriteFrom(p, conv, updates, i + 1, used + {j}, targets, if j in targets && w.Ok? then Some(w.value) else cur)
  }

  /** When the resolution pass succeeds, resolving on the way is following its bindings. */
  lemma {:induction false} LastWriteFromBindings(p: WorkflowProcessor, conv: Converter, updates: seq<Json>, i: nat,
                                                 used: set<nat>, js: seq<nat>, targets: set<nat>, cur: Option<Json>)
    requires ValidConverter(conv) && i <= |updates|
    requires Bindings(p.lookup, used, updates, i) == Ok(js)
    ensures LastWriteFrom(p, conv, updates, i, used, targets, cur) == LastWrite(p, conv, updates, i, js, targets, cur)
    decreases |updates| - i
  {
    if i < |updates| {
      BindingsCons(p.lookup, used, updates, i, js);
      var w := Written(p, conv, updates, i, js[0]);
      var next := if js[0] in targets && w.Ok? then Some(w.value) else cur;
      assert LastWrite(p, conv, updates, i, js, targets, cur) == LastWrite(p, conv, updates, i + 1, js[1..], targets, next);
      assert LastWriteFrom(p, conv, updates, i, used, targets, cur)
             == LastWriteFrom(p, conv, updates, i + 1, used + {js[0]}, targets, next);
      LastWriteFromBindings(p, conv, updates, i + 1, used + {js[0]}, js[1..], targets, next);
    }
  }

  /** Graph slot (n, f) takes a write: it exists, or it is a missing "board" of a dict node. */
  predicate TakesWrite(graphNodes: Json, n: string, f: string) {
    Slot(graphNodes, n, f).Some? || (f == "board" && DictNode(graphNodes, n))
  }

  /** A loop that succeeds took its first update as the resolution pass bound it, and went on from there. */
  lemma ApplyFromFirstStep(p: WorkflowProcessor, conv: Converter, index: map<string, nat>, st: PatchState,
                           updates: seq<Json>, i: nat, js: seq<nat>)
    requires p.Valid() && ValidConverter(conv) && IndexValid(index, st.workflowNodes) && i < |updates|
    requires ApplyFrom(p, conv, index, st, updates, i).Ok?
    requires Bindings(p.lookup, st.used, updates, i) == Ok(js)
    ensures Step(p, conv, index, st, updates[i], i).Ok?
    ensures SingleKey(updates[i]) && Resolve(p.lookup, st.used, KeyOf(updates[i])) == Ok(js[0])
    ensures Written(p, conv, updates, i, js[0]).Ok?
    ensures var next := Step(p, conv, index, st, updates[i], i).value;
            Bindings(p.lookup, next.used, updates, i + 1) == Ok(js[1..])
            && ApplyFrom(p, conv, index, next, updates, i + 1) == ApplyFrom(p, conv, index, st, updates, i)
  {
    StepEffect(p, conv, index, st, updates[i], i);
    BindingsCons(p.lookup, st.used, updates, i, js);
    ApplyFromStep(p, conv, index, st, updates, i);
  }

  /** One update bound to position `j` writes graph slot (n, f) exactly when `j` is one of its fields and the slot takes writes. */
  lemma StepGraphReadsBack(p: WorkflowProcessor, conv: Converter, index: map<string, nat>, st: PatchState,
                           updates: seq<Json>, i: nat, j: nat, n: string, f: string)
    requires p.Valid() && ValidConverter(conv) && IndexValid(index, st.workflowNodes) && i < |updates|
    requires Step(p, conv, index, st, updates[i], i).Ok?
    requires SingleKey(updates[i]) && Resolve(p.lookup, st.used, KeyOf(updates[i])) == Ok(j)
    ensures Written(p, conv, updates, i, j).Ok?
    ensures var r := Step(p, conv, index, st, updates[i], i).value;
            (TakesWrite(r.graphNodes, n, f) <==> TakesWrite(st.graphNodes, n, f))
            && Slot(r.graphNodes, n, f)
               == if j in SlotFields(p, n, f) && TakesWrite(st.graphNodes, n, f)
                  then Some(Written(p, conv, updates, i, j).value) else Slot(st.graphNodes, n, f)
  {
    StepEffect(p, conv, index, st, updates[i], i);
  }

  /** One update bound to position `j` writes input `f` of workflow node `pos` exactly when `j` is one of its fields and the input has a `value`. */
  lemma StepInputReadsBack(p: WorkflowProcessor, conv: Converter, index: map<string, nat>, st: PatchState,
                           updates: seq<Json>, i: nat, j: nat, pos: nat, f: string)
    requires p.Valid() && ValidConverter(conv) && IndexValid(index, st.workflowNodes) && i < |updates|
    requires Step(p, conv, index, st, updates[i], i).Ok?
    requires SingleKey(updates[i]) && Resolve(p.lookup, st.used, KeyOf(updates[i])) == Ok(j)
    requires pos < |st.workflowNodes| && st.workflowNodes[pos].JObj?
    ensures Written(p, conv, updates, i, j).Ok?
    ensures var r := Step(p, conv, index, st, updates[i], i).value;
            |r.workflowNodes| == |st.workflowNodes| && r.workflowNodes[pos].JObj?
            && InputValue(r.workflowNodes[pos].fields, f)
               == if j in InputFields(p, index, pos, f) && InputValue(st.workflowNodes[pos].fields, f).Some?
                  then Some(Written(p, conv, updates, i, j).value) else InputValue(st.workflowNodes[pos].fields, f)
  {
    StepEffect(p, conv, index, st, updates[i], i);
    var d := p.fields[j];
    var r := Step(p, conv, index, st, updates[i], i).value;
    WorkflowWriteReadsBack(st.workflowNodes, index, d.nodeId, d.fieldName, Written(p, conv, updates, i, j).value,
                           r.workflowNodes, pos, f);
  }

  /**
   * After the loop, graph slot (n, f) holds the value of the last update
   * bound to one of its fields, when the slot takes writes; a slot that does
   * not take writes is left as it was.
   */
  lemma {:induction false} ApplyFromSlot(p: WorkflowProcessor, conv: Converter, index: map<string, nat>,
                                         st: PatchState, updates: seq<Json>, i: nat, n: string, f: string)
    requires p.Valid() && ValidConverter(conv) && IndexValid(index, st.workflowNodes) && i <= |updates|
    requires ApplyFrom(p, conv, index, st, updates, i).Ok?
    ensures Slot(ApplyFrom(p, conv, index, st, updates, i).value.graphNodes, n, f)
            == if TakesWrite(st.graphNodes, n, f)
               then LastWriteFrom(p, conv, updates, i, st.used, SlotFields(p, n, f), Slot(st.graphNodes, n, f))
               else Slot(st.graphNodes, n, f)
    decreases |updates| - i
  {
    if i < |updates| {
      StepEffect(p, conv, index, st, updates[i], i);
      var j := Resolve(p.lookup, st.used, KeyOf(updates[i])).value;
      StepGraphReadsBack(p, conv, index, st, updates, i, j, n, f);
      var next := Step(p, conv, index, st, updates[i], i).value;
      ApplyFromStep(p, conv, index, st, updates, i);
      ApplyFromSlot(p, conv, index, next, updates, i + 1, n, f);
    }
  }

  /**
   * After the loop, input `f` of the workflow node at position `pos` holds
   * the value of the last update bound to one of its fields, when the input
   * has a `value`; otherwise it is left as it was.
   */
  lemma {:induction false} ApplyFromInput(p: WorkflowProcessor, conv: Converter, index: map<string, nat>,
                                          st: PatchState, updates: seq<Json>, i: nat, pos: nat, f: string)
    requires p.Valid() && ValidConverter(conv) && IndexValid(index, st.workflowNodes) && i <= |updates|
    requires ApplyFrom(p, conv, index, st, updates, i).Ok?
    requires pos < |st.workflowNodes| && st.workflowNodes[pos].JObj?
    ensures var r := ApplyFrom(p, conv, index, st, updates, i).value;
            |r.workflowNodes| == |st.workflowNodes| && r.workflowNodes[pos].JObj?
            && InputValue(r.workflowNodes[pos].fields, f)
               == if InputValue(st.workflowNodes[pos].fields, f).Some?
                  then LastWriteFrom(p, conv, updates, i, st.used, InputFields(p, index, pos, f),
                                     InputValue(st.workflowNodes[pos].fields, f))
                  else None
    decreases |updates| - i
  {
    if i < |updates| {
      StepEffect(p, conv, index, st, updates[i], i);
      var j := Resolve(p.lookup, st.used, KeyOf(updates[i])).value;
      StepInputReadsBack(p, conv, index, st, updates, i, j, pos, f);
      var next := Step(p, conv, index, st, updates[i], i).value;
      ApplyFromStep(p, conv, index, st, updates, i);
      ApplyFromInput(p, conv, index, next, updates, i + 1, pos, f);
    }
  }

  /** A loop that succeeds coerced and shaped every update's value for the field it was bound to. */
  lemma {:induction false} ApplyFromPatches(p: WorkflowProcessor, conv: Converter, index: map<string, nat>,
                                            st: PatchState, updates: seq<Json>, i: nat, js: seq<nat>)
    requires p.Valid() && ValidConverter(conv) && IndexValid(index, st.workflowNodes) && i <= |updates|
    requires ApplyFrom(p, conv, index, st, updates, i).Ok?
    requires Bindings(p.lookup, st.used, updates, i) == Ok(js)
    ensures ValuesPatch(p, conv, updates, i, js)
    decreases |updates| - i
  {
    if i < |updates| {
      ApplyFromFirstStep(p, conv, index, st, updates, i, js);
      var next := Step(p, conv, index, st, updates[i], i).value;
      ApplyFromPatches(p, conv, index, next, updates, i + 1, js[1..]);
      ValuesPatchCons(p, conv, updates, i, js);
    }
  }

  /** A call that succeeds coerced and shaped every update's value for the field the resolution pass bound it to. */
  lemma AppliedPatches(p: WorkflowProcessor, updates: seq<Json>, conv: Converter, js: seq<nat>)
    requires p.Valid() && ValidConverter(conv)
    requires Applied(p, updates, conv).Ok?
    requires Bindings(p.lookup, {}, updates, 0) == Ok(js)
    ensures ValuesPatch(p, conv, updates, 0, js)
  {
    var t := PrepareTargets(p.payload).value;
    ApplyFromPatches(p, conv, t.index, Start(p), updates, 0, js);
  }

  /** Update `k` of a call that succeeds wrote its coerced, shaped value. */
  lemma AppliedWrote(p: WorkflowProcessor, updates: seq<Json>, conv: Converter, js: seq<nat>, k: nat)
    requires p.Valid() && ValidConverter(conv)
    requires Applied(p, updates, conv).Ok?
    requires Bindings(p.lookup, {}, updates, 0) == Ok(js) && k < |js|
    ensures Written(p, conv, updates, k, js[k]).Ok?
  {
    AppliedPatches(p, updates, conv, js);
    assert PatchesAt(p, conv, updates, 0 + k, js[k]);
  }

  /** Graph slot (n, f) is the value at path [n, f] below the graph nodes. */
  lemma SlotIsPath(graphNodes: Json, n: string, f: string)
    ensures GetPath(graphNodes, [n, f]) == Slot(graphNodes, n, f)
  {
    assert [n, f][0] == n && [n, f][1..] == [f] && [f][0] == f && [f][1..] == [];
    if graphNodes.JObj? && n in graphNodes.fields {
      var node := graphNodes.fields[n];
      assert GetPath(graphNodes, [n, f]) == GetPath(node, [f]);
      if node.JObj? && f in node.fields {
        assert GetPath(node, [f]) == GetPath(node.fields[f], []);
      }
    }
  }

  /**
   * After a successful call, batch.graph.nodes[n][f] holds the value of the
   * last update bound to one of its fields when the slot takes writes, and
   * what it held before otherwise.
   */
  lemma AppliedGraphSlot(p: WorkflowProcessor, updates: seq<Json>, conv: Converter, js: seq<nat>, n: string, f: string)
    requires p.Valid() && ValidConverter(conv)
    requires Applied(p, updates, conv).Ok?
    requires Bindings(p.lookup, {}, updates, 0) == Ok(js)
    ensures GetPath(p.payload, GraphNodesPath).Some?
    ensures var g := GetPath(p.payload, GraphNodesPath).value;
            GetPath(Applied(p, updates, conv).value, GraphNodesPath + [n, f])
            == if TakesWrite(g, n, f) then LastWrite(p, conv, updates, 0, js, SlotFields(p, n, f), Slot(g, n, f))
               else Slot(g, n, f)
  {
    var t := PrepareTargets(p.payload).value;
    var st := ApplyFrom(p, conv, t.index, Start(p), updates, 0).value;
    ApplyFromSlot(p, conv, t.index, Start(p), updates, 0, n, f);
    LastWriteFromBindings(p, conv, updates, 0, {}, js, SlotFields(p, n, f), Slot(t.graphNodes, n, f));
    PatchedHoldsLoopResult(p.payload, st);
    GetPathAppend(Applied(p, updates, conv).value, GraphNodesPath, [n, f]);
    SlotIsPath(st.graphNodes, n, f);
    SlotIsPath(t.graphNodes, n, f);
  }

  /** The `value` of input `f` of the node at position `pos` of batch.workflow.nodes, when that node list exists. */
  function WorkflowInput(payload: Json, pos: nat, f: string): Option<Json> {
    var nodes := GetPath(payload, WorkflowNodesPath);
    if nodes.Some? && nodes.value.JList? && pos < |nodes.value.items| && nodes.value.items[pos].JObj?
    then InputValue(nodes.value.items[pos].fields, f)
    else None
  }

  /**
   * After a successful call on a payload whose batch.workflow.nodes is a
   * list, input `f` of the node at position `pos` holds the value of the last
   * update bound to one of its fields when it has a `value`, and stays
   * without one otherwise; the node list keeps its length.
   */
  lemma AppliedInput(p: WorkflowProcessor, updates: seq<Json>, conv: Converter, js: seq<nat>, t: Targets,
                     items: seq<Json>, pos: nat, f: string)
    requires p.Valid() && ValidConverter(conv)
    requires Applied(p, updates, conv).Ok?
    requires Bindings(p.lookup, {}, updates, 0) == Ok(js) && PrepareTargets(p.payload) == Ok(t)
    requires GetPath(p.payload, WorkflowNodesPath) == Some(JList(items)) && pos < |items| && items[pos].JObj?
    ensures var out := GetPath(Applied(p, updates, conv).value, WorkflowNodesPath);
            out.Some? && out.value.JList? && |out.value.items| == |items|
    ensures WorkflowInput(Applied(p, updates, conv).value, pos, f)
            == if WorkflowInput(p.payload, pos, f).Some?
               then LastWrite(p, conv, updates, 0, js, InputFields(p, t.index, pos, f), WorkflowInput(p.payload, pos, f))
               else None
  {
    var st := ApplyFrom(p, conv, t.index, Start(p), updates, 0).value;
    assert t.items == items;
    ApplyFromInput(p, conv, t.index, Start(p), updates, 0, pos, f);
    LastWriteFromBindings(p, conv, updates, 0, {}, js, InputFields(p, t.index, pos, f), InputValue(items[pos].fields, f));
    PatchedHoldsLoopResult(p.payload, st);
  }

  /**
   * The returned payload holds the loop's graph nodes at batch.graph.nodes
   * and, when the workflow nodes were a list present in the payload, the
   * loop's workflow nodes at batch.workflow.nodes.
   */
  lemma PatchedHoldsLoopResult(payload: Json, st: PatchState)
    requires PrepareTargets(payload).Ok?
    ensures var t := PrepareTargets(payload).value;
            GetPath(Patched(payload, t, st), GraphNodesPath) == Some(st.graphNodes)
            && (t.workflowNodes.JList? && GetPath(payload, WorkflowNodesPath).Some? ==>
                  GetPath(Patched(payload, t, st), WorkflowNodesPath) == Some(JList(st.workflowNodes)))
  {
    var t := PrepareTargets(payload).value;
    var wf := if t.workflowNodes.JList? then JList(st.workflowNodes) else t.workflowNodes;
    var once := PutPath(payload, GraphNodesPath, st.graphNodes);
    PutPathElsewhere(once, WorkflowNodesPath, wf, GraphNodesPath, 1);
    PutPathElsewhere(payload, GraphNodesPath, st.graphNodes, WorkflowNodesPath, 1);
  }

  /** Nothing outside batch.graph.nodes and batch.workflow.nodes changes. */
  lemma AppliedChangesOnlyNodeCollections(p: WorkflowProcessor, updates: seq<Json>, conv: Converter,
                                          q: seq<string>, i1: nat, i2: nat)
    requires p.Valid() && ValidConverter(conv)
    requires Applied(p, updates, conv).Ok?
    requires DivergesAt(q, GraphNodesPath, i1) && DivergesAt(q, WorkflowNodesPath, i2)
    ensures GetPath(Applied(p, updates, conv).value, q) == GetPath(p.payload, q)
  {
    var t := PrepareTargets(p.payload).value;
    var st := ApplyFrom(p, conv, t.index, PatchState(t.graphNodes, t.items, {}), updates, 0).value;
    var wf := if t.workflowNodes.JList? then JList(st.workflowNodes) else t.workflowNodes;
    PutPathElsewhere(p.payload, GraphNodesPath, st.graphNodes, q, i1);
    PutPathElsewhere(PutPath(p.payload, GraphNodesPath, st.graphNodes), WorkflowNodesPath, wf, q, i2);
  }

  /** A successful call found the graph nodes at batch.graph.nodes. */
  lemma AppliedReachesGraphNodes(p: WorkflowProcessor, updates: seq<Json>, conv: Converter)
    requires p.Valid() && ValidConverter(conv)
    requires Applied(p, updates, conv).Ok?
    ensures GetPath(p.payload, GraphNodesPath).Some? && Truthy(GetPath(p.payload, GraphNodesPath).value)
  {
    assert PrepareTargets(p.payload).Ok?;
  }

  /** batch.graph.id lies outside both node collections. */
  lemma IdPathBranchesOff()
    ensures DivergesAt(["batch", "graph", "id"], GraphNodesPath, 2)
    ensures DivergesAt(["batch", "graph", "id"], WorkflowNodesPath, 1)
  {
    assert ["batch", "graph", "id"][..2] == GraphNodesPath[..2];
    assert ["batch", "graph", "id"][..1] == WorkflowNodesPath[..1];
  }

  /** A payload whose batch.graph.nodes can be reached has its batch.graph stamped with the id. */
  lemma StampedIdPresent(doc: Json, graphId: string)
    requires GetPath(StampGraphId(doc, graphId), GraphNodesPath).Some?
    ensures GetPath(StampGraphId(doc, graphId), ["batch", "graph", "id"]) == Some(JStr(graphId))
  {
    var x := StampGraphId(doc, graphId);
    assert GraphNodesPath[1..] == ["graph", "nodes"] && GraphNodesPath[1..][1..] == ["nodes"];
    assert ["batch", "graph"][1..] == ["graph"];
    assert GetPath(x, ["batch", "graph"]).Some? && GetPath(x, ["batch", "graph"]).value.JObj?;
    assert GetPath(doc, ["batch", "graph"]).Some? && GetPath(doc, ["batch", "graph"]).value.JObj?;
  }

  /**
   * The graph id stamped at construction is still in the payload that
   * `apply_inputs` returns (`Construct` stores `StampGraphId(doc, graphId)`).
   */
  lemma GraphIdSurvives(p: WorkflowProcessor, doc: Json, graphId: string, updates: seq<Json>, conv: Converter)
    requires p.Valid() && ValidConverter(conv) && p.payload == StampGraphId(doc, graphId)
    requires Applied(p, updates, conv).Ok?
    ensures GetPath(Applied(p, updates, conv).value, ["batch", "graph", "id"]) == Some(JStr(graphId))
  {
    AppliedReachesGraphNodes(p, updates, conv);
    StampedIdPresent(doc, graphId);
    IdPathBranchesOff();
    AppliedChangesOnlyNodeCollections(p, updates, conv, ["batch", "graph", "id"], 2, 1);
  }
}
