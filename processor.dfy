/**
 * The processor as its constructor leaves it: the stored payload (with its
 * new graph id), the ordered exposed fields and the lookup map.  None of the
 * three changes after construction, so the processor is a value.
 */
module Processor {
  import opened Outcomes
  import opened Json
  import opened Indexer
  import opened FieldLookup

  datatype WorkflowProcessor = WorkflowProcessor(payload: Json, fields: seq<Descriptor>, lookup: LookupMap) {
    /** What construction establishes: the lookup map is the one built from the fields, and every field is named. */
    predicate Valid() {
      LookupOf(fields) == Ok(lookup)
      && forall i :: 0 <= i < |fields| ==> fields[i].nodeId != "" && fields[i].fieldName != ""
    }
  }

  /** `WorkflowProcessor(payload)`: index the form, then build the lookup map; `graphId` stands for the fresh UUID. */
  function Construct(doc: Json, graphId: string): (r: Result<WorkflowProcessor>)
    ensures r.Ok? ==> r.value.Valid()
    ensures r.Ok? ==> r.value.payload == StampGraphId(doc, graphId)
    ensures r.Ok? ==> IndexDocument(doc, graphId).Ok? && r.value.fields == IndexDocument(doc, graphId).value.fields
    ensures IndexDocument(doc, graphId).Err? ==> r == Err(IndexDocument(doc, graphId).error)
    ensures IndexDocument(doc, graphId).Ok? ==>
              (r.Ok? <==> LabelsNormalizable(IndexDocument(doc, graphId).value.fields, 0))
  {
    var indexed :- IndexDocument(doc, graphId);
    LookupContents(indexed.fields, "");
    var lookup :- LookupOf(indexed.fields);
    assert forall i :: 0 <= i < |indexed.fields| ==> indexed.fields[i] in indexed.fields;
    Ok(WorkflowProcessor(indexed.payload, indexed.fields, lookup))
  }

  /** The constructor, with the indexer's and the lookup map's loops. */
  method NewWorkflowProcessor(doc: Json, graphId: string) returns (r: Result<WorkflowProcessor>)
    ensures r == Construct(doc, graphId)
  {
    var indexed :- BuildOrderedExposedFields(doc, graphId);
    var lookup :- BuildFieldLookupMap(indexed.fields);
    return Ok(WorkflowProcessor(indexed.payload, indexed.fields, lookup));
  }

  /** Every position the lookup map can answer with names an exposed field. */
  lemma CandidatesInRange(p: WorkflowProcessor, key: string)
    requires p.Valid()
    ensures forall x :: x in Candidates(p.lookup, key) ==> x < |p.fields|
  {
    LookupMembership(p.fields, p.lookup, key, 0);
    LookupMembership(p.fields, p.lookup, Normalize(key), 0);
  }
}
