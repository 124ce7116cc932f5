/**
 * Decoded data as the YAML loader hands it over, and the few Python built-ins
 * the validator applies to it: `isinstance(v, Sequence)`, `isinstance(v, int)`,
 * `isinstance(v, string_types)`, `len`, iteration and `float(v)`.
 */
module Values {
  import opened Optional

  /** A Python float: a finite value, one of the two infinities, or NaN. */
  datatype Float = Finite(r: real) | PosInf | NegInf | NaN

  /** `f < 0` on a Python float; NaN compares false with everything. */
  predicate IsNegative(f: Float) {
    f.NegInf? || (f.Finite? && f.r < 0.0)
  }

  /** A decoded YAML value; mapping keys are the strings the checks look up. */
  datatype Value =
    | Null
    | Bool(b: bool)
    | Int(i: int)
    | Flt(f: Float)
    | Str(s: string)
    | List(items: seq<Value>)
    | Dict(fields: map<string, Value>)

  /** `isinstance(v, Sequence)`: lists and strings are sequences, mappings are not. */
  predicate IsSequence(v: Value) {
    v.List? || v.Str?
  }

  /** `isinstance(v, string_types)`. */
  predicate IsString(v: Value) {
    v.Str?
  }

  /** `isinstance(v, int)`: in Python `bool` is a subclass of `int`. */
  predicate IsInt(v: Value) {
    v.Int? || v.Bool?
  }

  /** `len(v)` of a sequence. */
  function Length(v: Value): nat
    requires IsSequence(v)
  {
    if v.Str? then |v.s| else |v.items|
  }

  /** What iterating over or indexing a sequence yields: a string yields its one-character strings. */
  function Elements(v: Value): (es: seq<Value>)
    requires IsSequence(v)
    ensures |es| == Length(v)
    ensures v.Str? ==> forall i :: 0 <= i < |es| ==> es[i] == Str([v.s[i]])
    ensures v.List? ==> es == v.items
  {
    if v.Str? then seq(|v.s|, i requires 0 <= i < |v.s| => Str([v.s[i]])) else v.items
  }

  /** Python's parsing of a float literal held in a string (`float("1.5")`); `None` when it raises ValueError. */
  type FloatParser = string -> Option<Float>

  /** The three ways `float(v)` can end. */
  datatype Conversion = Converted(f: Float) | RaisesValueError | RaisesTypeError

  /**
   * `float(v)`: numbers and booleans convert, a string converts when it parses
   * as a float literal and raises ValueError otherwise, any other type raises
   * TypeError.
   */
  function ToFloat(v: Value, parse: FloatParser): (c: Conversion)
    ensures c.RaisesTypeError? <==> !(IsInt(v) || v.Flt? || v.Str?)
    ensures c.RaisesValueError? ==> v.Str? && parse(v.s).None?
    ensures v.Int? ==> c == Converted(Finite(v.i as real))
    ensures v.Bool? ==> c == Converted(Finite(if v.b then 1.0 else 0.0))
    ensures v.Flt? ==> c == Converted(v.f)
    ensures v.Str? ==> c == if parse(v.s).Some? then Converted(parse(v.s).value) else RaisesValueError
  {
    match v
    case Bool(b) => Converted(Finite(if b then 1.0 else 0.0))
    case Int(i) => Converted(Finite(i as real))
    case Flt(f) => Converted(f)
    case Str(s) => if parse(s).Some? then Converted(parse(s).value) else RaisesValueError
    case _ => RaisesTypeError
  }
}
