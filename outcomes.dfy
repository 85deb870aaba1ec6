/** Success/failure wrappers and the exceptions raised by the workflow processor. */
module Outcomes {

  datatype Option<+T> = None | Some(value: T)

  /** The `ValueError`s raised because the document's form or graph has the wrong shape. */
  datatype StructureFault =
    | FormNotObject                         // batch.workflow.form is not a dict
    | FormMalformed                         // form.elements is not a dict, or rootElementId is missing or falsy
    | RootNotContainer                      // the root element is missing, not a dict, or not of type "container"
    | ChildrenNotList                       // the root container's data.children is not a list
    | UnrecognizedDictValue(field: string)  // a graph value is a dict with no image_name, board_id or hash key
    | FieldIncomplete(elementId: string)    // a node-field element without nodeId or fieldName
    | GraphNodesMissing                     // batch.graph.nodes is missing or empty when inputs are applied

  datatype Error =
    | Structure(fault: StructureFault)
    | MalformedUpdate(position: nat)   // an update item is not a dict with exactly one key
    | UnknownField(key: string)        // the key matches no field name and no normalized label
    | ExhaustedField(key: string)      // every field the key matches is already bound in this call
    | UnsupportedType(field: string)   // TypeError: the settings type has no entry in the type map
    | CoercionFailed(field: string)    // TypeError: the value cannot be converted to the field's type
    | Unguarded                        // an AttributeError, TypeError or KeyError the code does not check for
    | OutOfModel                       // a nodeId or fieldName that is neither null nor a string

  datatype Result<+T> = Ok(value: T) | Err(error: Error) {
    predicate IsFailure() { Err? }

    function PropagateFailure<U>(): Result<U>
      requires Err?
    {
      Err(error)
    }

    function Extract(): T
      requires Ok?
    {
      value
    }
  }
}
