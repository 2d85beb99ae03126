/**
 * The dynamically typed values the program handles: parsed JSON, plus the model
 * instances that the program stores back into dictionaries before validating
 * the enclosing record. `Null` is Python's `None`.
 */
module Json {
  import opened Records

  datatype Value =
    | Null
    | Bool(b: bool)
    | Int(i: int)
    | Str(s: string)
    | List(items: seq<Value>)
    | Object(fields: map<string, Value>)
    | Instance(model: Model)

  /** `d.get(key)` on a dictionary: the value under `key`, or `None` when the key is absent. */
  function Get(d: map<string, Value>, key: string): Value {
    if key in d then d[key] else Null
  }

  /** The exceptions the modelled code can raise. */
  datatype Error =
    /** pydantic: a required field is absent. */
    | MissingField(cls: ModelClass, field: string)
    /** pydantic: a field holds a value of the wrong type. */
    | WrongType(cls: ModelClass, field: string)
    /** pydantic: `model_validate` got neither a dictionary nor an instance of the class. */
    | NotModelInput(cls: ModelClass)
    /** Python: an attribute (such as `.get`) looked up on a value that has none. */
    | NoAttribute(name: string)
}
