/**
 * The settings types of exposed fields, the Python type each one is coerced
 * to, and the inference of a type from a graph value or a field name.
 */
module FieldTypes {
  import opened Outcomes
  import opened Json

  /** The ten `settings.type` strings the processor knows. */
  datatype FieldKind =
    | IntegerField | FloatField | StringField | BooleanField | ImageField
    | ImageCollectionField | CollectionField | BoardField | ModelField | ObjectField

  /** An explicit `settings.type` may be any truthy JSON value; only the ten names are mapped. */
  datatype SettingsType = Known(kind: FieldKind) | Unmapped(raw: Json)

  function ConfigName(k: FieldKind): string {
    match k
    case IntegerField => "integer-field-config"
    case FloatField => "float-field-config"
    case StringField => "string-field-config"
    case BooleanField => "boolean-field-config"
    case ImageField => "image-field-config"
    case ImageCollectionField => "image-collection-field-config"
    case CollectionField => "collection-field-config"
    case BoardField => "board-field-config"
    case ModelField => "model-field-config"
    case ObjectField => "object-field-config"
  }

  /** The key set of the type map: which strings name a known settings type. */
  function KindOfName(s: string): (r: Option<FieldKind>)
    ensures r.Some? ==> ConfigName(r.value) == s
  {
    if s == "integer-field-config" then Some(IntegerField)
    else if s == "float-field-config" then Some(FloatField)
    else if s == "string-field-config" then Some(StringField)
    else if s == "boolean-field-config" then Some(BooleanField)
    else if s == "image-field-config" then Some(ImageField)
    else if s == "image-collection-field-config" then Some(ImageCollectionField)
    else if s == "collection-field-config" then Some(CollectionField)
    else if s == "board-field-config" then Some(BoardField)
    else if s == "model-field-config" then Some(ModelField)
    else if s == "object-field-config" then Some(ObjectField)
    else None
  }

  /** Every settings type the model names is recognised by its own name, so names and kinds are in one-to-one correspondence. */
  lemma KindOfNameRoundTrip(k: FieldKind)
    ensures KindOfName(ConfigName(k)) == Some(k)
  {
  }

  /** Reads an explicit, truthy `settings.type`. */
  function SettingsTypeOf(raw: Json): (st: SettingsType)
    ensures st.Known? <==> raw.JStr? && KindOfName(raw.s).Some?
    ensures st.Known? ==> ConfigName(st.kind) == raw.s
    ensures st.Unmapped? ==> st.raw == raw
  {
    if raw.JStr? && KindOfName(raw.s).Some? then Known(KindOfName(raw.s).value) else Unmapped(raw)
  }

  /** The Python types that the type map assigns. */
  datatype PyType = PyInt | PyFloat | PyStr | PyBool | PyList | PyDict

  /** The type map: the Python type a value for each settings type is coerced to. */
  function PythonType(k: FieldKind): (r: PyType)
    ensures r == PyInt <==> k == IntegerField
    ensures r == PyFloat <==> k == FloatField
    ensures r == PyBool <==> k == BooleanField
    ensures r == PyStr <==> k in {StringField, ImageField}
    ensures r == PyList <==> k in {ImageCollectionField, CollectionField}
    ensures r == PyDict <==> k in {BoardField, ModelField, ObjectField}
  {
    match k
    case IntegerField => PyInt
    case FloatField => PyFloat
    case StringField => PyStr
    case BooleanField => PyBool
    case ImageField => PyStr
    case ImageCollectionField => PyList
    case CollectionField => PyList
    case BoardField => PyDict
    case ModelField => PyDict
    case ObjectField => PyDict
  }

  /** `isinstance(v, t)`; a Python bool is also an int. */
  predicate IsInstance(v: Json, t: PyType)
    ensures v.JNull? ==> !IsInstance(v, t)
    ensures v.JBool? ==> (IsInstance(v, t) <==> t == PyBool || t == PyInt)
    ensures v.JInt? ==> (IsInstance(v, t) <==> t == PyInt)
  {
    match t
    case PyInt => v.JInt? || v.JBool?
    case PyFloat => v.JFloat?
    case PyStr => v.JStr?
    case PyBool => v.JBool?
    case PyList => v.JList?
    case PyDict => v.JObj?
  }

  predicate HasImageName(v: Json) {
    v.JObj? && "image_name" in v.fields
  }

  /**
   * The type inferred from the value a graph node holds for the field:
   * bools before ints, a list by its first item only, a dict by its marker
   * key, None as a string; a dict without a marker key is an error.
   */
  function InferFromValue(v: Json, fieldName: string): (r: Result<FieldKind>)
    ensures r.Err? <==> v.JObj? && "image_name" !in v.fields && "board_id" !in v.fields && "hash" !in v.fields
    ensures r.Err? ==> r.error == Structure(UnrecognizedDictValue(fieldName))
    ensures r.Ok? && !v.JNull? && r.value != ImageField ==> IsInstance(v, PythonType(r.value))
    // the isinstance checks in source order: a bool is checked before an int
    ensures v.JBool? ==> r == Ok(BooleanField)
    ensures v.JInt? ==> r == Ok(IntegerField)
    ensures v.JFloat? ==> r == Ok(FloatField)
    ensures v.JStr? || v.JNull? ==> r == Ok(StringField)
    // a list is an image collection exactly when its first item is an image dict
    ensures v.JList? ==> (r == Ok(ImageCollectionField) <==> |v.items| > 0 && HasImageName(v.items[0]))
    ensures v.JList? ==> r.Ok? && r.value in {ImageCollectionField, CollectionField}
    // marker keys of a dict, by priority: image_name, then board_id, then hash
    ensures v.JObj? && "image_name" in v.fields ==> r == Ok(ImageField)
    ensures v.JObj? && "image_name" !in v.fields && "board_id" in v.fields ==> r == Ok(BoardField)
    ensures v.JObj? && "image_name" !in v.fields && "board_id" !in v.fields && "hash" in v.fields ==> r == Ok(ModelField)
  {
    match v
    case JBool(_) => Ok(BooleanField)
    case JInt(_) => Ok(IntegerField)
    case JFloat(_) => Ok(FloatField)
    case JStr(_) => Ok(StringField)
    case JList(xs) =>
      if |xs| > 0 && HasImageName(xs[0]) then Ok(ImageCollectionField) else Ok(CollectionField)
    case JObj(m) =>
      if "image_name" in m then Ok(ImageField)
      else if "board_id" in m then Ok(BoardField)
      else if "hash" in m then Ok(ModelField)
      else Err(Structure(UnrecognizedDictValue(fieldName)))
    case JNull => Ok(StringField)
  }

  /** Lists are classified by their first item alone: what follows it never matters. */
  lemma ListKindDependsOnFirstItemOnly(xs: seq<Json>, ys: seq<Json>, fieldName: string)
    requires |xs| > 0 <==> |ys| > 0
    requires |xs| > 0 ==> xs[0] == ys[0]
    ensures InferFromValue(JList(xs), fieldName) == InferFromValue(JList(ys), fieldName)
    ensures InferFromValue(JList(xs), fieldName).Ok?
  {
  }

  /** A list whose image items come after a first non-image item is a plain collection. */
  lemma LaterImageItemsIgnored(first: Json, rest: seq<Json>, fieldName: string)
    requires !HasImageName(first)
    ensures InferFromValue(JList([first] + rest), fieldName) == Ok(CollectionField)
  {
  }

  function LowerChar(c: char): char {
    if 'A' <= c <= 'Z' then (c as int + 32) as char else c
  }

  /** `str.lower()` on ASCII letters. */
  function Lower(s: string): (r: string)
    ensures |r| == |s|
    ensures forall i :: 0 <= i < |s| ==> r[i] == LowerChar(s[i])
  {
    if s == [] then [] else [LowerChar(s[0])] + Lower(s[1..])
  }

  /** The last resort when neither `settings.type` nor the graph decides: the field's name. */
  function NameHeuristic(fieldName: string): (k: FieldKind)
    ensures k == BoardField <==> Lower(fieldName) == "board"
    ensures k == ModelField <==> Lower(fieldName) == "refiner_model"
    ensures k in {BoardField, ModelField, ObjectField}
  {
    var lowered := Lower(fieldName);
    if lowered == "board" then BoardField
    else if lowered == "refiner_model" then ModelField
    else ObjectField
  }
}
