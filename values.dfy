/**
 * Values shared by every part of the model: a Go `any` as seen through
 * reflection, BSON documents, errors, hook parameters, and the
 * Option/Result wrappers used for the source's `(value, error)` returns.
 */
module Values {

  datatype Option<+T> = None | Some(value: T)

  /** A Go `(value, error)` pair where exactly one side is meaningful. */
  datatype Result<+T> = Ok(value: T) | Err(error: Error)

  /** A 12-byte ObjectID; 0 stands for the all-zero (zero-value) ObjectID. */
  type ObjectId = nat

  /** An instant; 0 stands for Go's zero `time.Time`. */
  type Timestamp = int

  /**
   * A Go value of any type as reflection sees it. Map entries are kept in
   * the order in which a range loop happens to visit them.
   */
  datatype Value =
    | Nil                                  // a nil interface (an untyped nil)
    | NilRef                               // a typed nil pointer, map or slice
    | Bool(b: bool)
    | Int(i: int)
    | Str(s: string)
    | Oid(id: ObjectId)
    | Time(at: Timestamp)
    | Ptr(target: Value)                   // a non-nil pointer
    | Iface(target: Value)                 // a non-nil interface-typed field and its dynamic value
    | Map(entries: seq<(string, Value)>)   // a non-nil map (a bson.M among them)
    | List(items: seq<Value>)              // a non-nil slice (a bson.D among them)
    | Array(items: seq<Value>)             // a fixed-length array
    | Struct(fields: seq<StructField>)

  datatype StructField = StructField(exported: bool, value: Value)

  /** bson.E and bson.D */
  type Elem = (string, Value)
  type Doc = seq<Elem>

  /** The errors the model distinguishes; everything raised by a collaborator is `External`. */
  datatype Error =
    | DangerousOperator(operator: string)  // sanitize.go ErrDangerousOperator
    | UnsupportedIdType(id: Value)         // model.go "not support type %v"
    | External(code: nat)                  // hooks, validator, hex parsing, BSON, driver

  /** What a hook function receives through `params ...any`. */
  datatype Param =
    | Arg(v: Value)                        // a filter or any other plain value
    | Row(fields: seq<Value>)              // a *M
    | Rows(rows: seq<seq<Value>>)          // a []*M
    | Elems(doc: Doc)                      // a []bson.E
    | Reply(token: nat)                    // a driver result object

  /**
   * What `reflect.Value.Interface()` hands back for a struct field, as a Go
   * `any`: an interface-typed field gives its dynamic value, any other field
   * its own value.
   */
  function DynamicValue(v: Value): Value {
    match v
    case Iface(x) => x
    case _ => v
  }

  /** Go's `reflect.Value.IsZero`. */
  predicate IsZero(v: Value) {
    match v
    case Nil => true
    case NilRef => true
    case Bool(b) => !b
    case Int(i) => i == 0
    case Str(s) => s == ""
    case Oid(id) => id == 0
    case Time(at) => at == 0
    case Ptr(_) => false
    case Iface(_) => false                 // an interface is zero only when nil
    case Map(_) => false
    case List(_) => false
    case Array(xs) => forall i :: 0 <= i < |xs| ==> IsZero(xs[i])
    case Struct(fs) => forall i :: 0 <= i < |fs| ==> IsZero(fs[i].value)
  }

}
