/**
 * The slice of Go reflection that util.WriteCSV relies on, made static: a
 * value's kind and payload, and a struct type as its ordered list of declared
 * fields, each with its `csv` tag and a selector reading it from a value.
 */
module Reflect {

  /**
   * A field value, by reflect.Kind: String; Int (Int..Int64); Uint (Uint..Uint64);
   * Bool; Ptr or Interface, either nil or holding another value.
   */
  datatype Value =
    | String(s: string)
    | Int(i: int)
    | Uint(u: nat)
    | Bool(b: bool)
    | Nil
    | Ref(elem: Value)

  /** One declared struct field: its name, the value of its `csv` tag ("" when absent), and its selector. */
  datatype StructField<!T> = StructField(name: string, csvTag: string, get: T -> Value)

  /** The element type of a slice: a struct with its fields in declaration order, or another kind. */
  datatype TypeDesc<!T> = Struct(fields: seq<StructField<T>>) | NonStruct(kind: string)
}
