/** JavaScript values as the fixture engine sees them: options objects,
    instances and the keys they are cached under. */
module Values {

  datatype Option<T> = None | Some(value: T)

  /** A fixture request that names a type nobody defined fails; in the
      source this is the TypeError raised by destructuring `undefined`. */
  datatype Error = UnknownFixture(name: string)

  datatype Result<T> = Ok(value: T) | Err(error: Error)

  /** The values fixtures use. An object is a reference into the heap, so
      two objects are equal exactly when they are the same object, as in
      JavaScript's `===` and `Map` key comparison. */
  datatype Value = Undefined | Null | Int(i: int) | Str(s: string) | Obj(ref: nat)

  /** A plain JavaScript object: field name to value. */
  type Record = map<string, Value>

  /** `_.get(record, field)` for a single field name (no dotted paths). */
  function Get(r: Record, field: string): Value
  {
    if field in r then r[field] else Undefined
  }

  /** `_.isNil`: null or undefined. */
  predicate IsNil(v: Value)
  {
    v.Undefined? || v.Null?
  }

  /** `_.get(value, field)` where `value` may be an object in the heap;
      anything that is not an object has no fields. */
  function Field(heap: seq<Record>, v: Value, field: string): Value
  {
    if v.Obj? && v.ref < |heap| then Get(heap[v.ref], field) else Undefined
  }

  function DigitChar(d: nat): char
    requires d < 10
  {
    "0123456789"[d]
  }

  /** Decimal digits of a natural number, most significant first. */
  function Digits(n: nat): (s: string)
    ensures |s| > 0
    ensures forall i :: 0 <= i < |s| ==> '0' <= s[i] <= '9'
    decreases n
  {
    if n < 10 then [DigitChar(n)] else Digits(n / 10) + [DigitChar(n % 10)]
  }

  function Decimal(n: int): string
  {
    if n < 0 then "-" + Digits(-n) else Digits(n)
  }

  /** `String(v)`, as a template literal or a property key converts it. */
  function ToJsString(v: Value): string
  {
    match v
    case Undefined => "undefined"
    case Null => "null"
    case Int(i) => Decimal(i)
    case Str(s) => s
    case Obj(_) => "[object Object]"
  }

  /** An object as JavaScript holds it: a plain record whose fields are
      updated in place. Options objects are passed by reference, and
      `_.defaults` writes into the caller's object. */
  class Options {
    var fields: Record

    constructor (fields: Record)
      ensures this.fields == fields
    {
      this.fields := fields;
    }
  }

  /** The objects that factories have allocated, in allocation order.
      `Obj(i)` refers to `objects[i]`; objects are never changed. */
  class Heap {
    var objects: seq<Record>

    constructor ()
      ensures objects == []
    {
      objects := [];
    }

    /** Allocate a fresh object literal. */
    method Alloc(r: Record) returns (v: Value)
      modifies this
      ensures v == Obj(|old(objects)|)
      ensures objects == old(objects) + [r]
    {
      v := Obj(|objects|);
      objects := objects + [r];
    }
  }
}
