/** The Python objects that flow through the library: what a parsed JSON
    or YAML document holds, plus the library's own objects. */
module Values {
  import opened Errors

  /** A dict's items, in insertion order. */
  type Entries = seq<(string, Value)>

  datatype Value =
    | Null
    | Bool(b: bool)
    | Int(i: int)
      /** a finite float; rounding to double precision is not modelled */
    | Float(x: real)
    | Str(s: string)
    | List(items: seq<Value>)
      /** `exact` tells whether `type(v) is dict` holds; a YAML loader's
          dict subclass has the same entries but `exact == false` */
    | Dict(entries: Entries, exact: bool)
      /** a JSON2Obj instance, by its attribute dict */
    | Obj(attrs: Entries)
    | Variable(cv: ConfigVariable)

  /** The nine member values of `ConfigTypes`. */
  datatype ConfigType =
    | IntType
    | FloatType
    | StringType
    | BoolType
    | ListType
    | StringListType
    | BoolListType
    | IntListType
    | FloatListType

  /** A declared configuration variable; `metaData` is the attribute dict
      of the JSON2Obj built from its `meta_data` argument. */
  datatype ConfigVariable = ConfigVariable(
    name: string,
    dataType: ConfigType,
    description: Value,
    defaultValue: Value,
    defaultNoneOkay: Value,
    required: Value,
    example: Value,
    metaData: Entries)

  /** What the library takes from its surroundings: the process
      environment, the AWS KMS decryption of a base64 blob, `float()`
      and `str()` of the objects whose text form is not modelled. */
  datatype Host = Host(
    environ: map<string, string>,
    decrypt: string -> Result<string>,
    toFloat: Value -> Result<Value>,
    repr: Value -> string)
}
