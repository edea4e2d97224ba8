/**
 * The values a deferred call carries, and the call envelope itself (the `_F` record of
 * cloud_functions_dispatch/f.py).
 */
module Values {

  type Byte = b: int | 0 <= b < 256

  /**
   * A Python argument value, as a tagged union over the shapes the serializer understands.
   * `Unpicklable` stands for any object the serializer refuses (a lambda or a local function,
   * for which pickle raises `PicklingError`); `kind` only tells such objects apart.
   */
  datatype Value =
    | PyNone
    | Bool(b: bool)
    | Int(i: int)
    | Str(s: string)
    | List(items: seq<Value>)
    | Dict(entries: seq<(string, Value)>)
    | Unpicklable(kind: string)

  /** Keyword arguments in call order, the way a Python `**kwargs` dict keeps them. */
  type Kwargs = seq<(string, Value)>

  /** The keyword names of `kwargs`, in order. */
  function KeyList(kwargs: Kwargs): (ks: seq<string>)
    ensures |ks| == |kwargs|
    ensures forall i :: 0 <= i < |kwargs| ==> ks[i] == kwargs[i].0
  {
    if kwargs == [] then [] else [kwargs[0].0] + KeyList(kwargs[1..])
  }

  /** No keyword is given twice: what Python guarantees of every `**kwargs` dict. */
  predicate DistinctKeys(kwargs: Kwargs) {
    forall i, j :: 0 <= i < j < |kwargs| ==> kwargs[i].0 != kwargs[j].0
  }

  /** A value the serializer accepts: nothing unpicklable anywhere inside it. */
  predicate Picklable(v: Value)
    decreases v
  {
    match v
    case Unpicklable(_) => false
    case List(items) => forall i :: 0 <= i < |items| ==> Picklable(items[i])
    case Dict(entries) => forall i :: 0 <= i < |entries| ==> Picklable(entries[i].1)
    case _ => true
  }

  predicate AllPicklable(vs: seq<Value>) {
    forall i :: 0 <= i < |vs| ==> Picklable(vs[i])
  }

  predicate KwargsPicklable(kwargs: Kwargs) {
    forall i :: 0 <= i < |kwargs| ==> Picklable(kwargs[i].1)
  }

  /**
   * One deferred call: the identity of the target function, its positional arguments and
   * its keyword arguments.
   */
  datatype Envelope = Envelope(name: string, args: seq<Value>, kwargs: Kwargs) {

    /** Every argument value can be serialized. */
    predicate Picklable() {
      AllPicklable(args) && KwargsPicklable(kwargs)
    }

    /** An envelope as a Python call can build it: picklable, and no keyword twice. */
    predicate Representable() {
      Picklable() && DistinctKeys(kwargs)
    }
  }
}
