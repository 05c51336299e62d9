/**
 * The values that annotations and qualifiers carry, and `json_ready`, which
 * turns the parser's reference objects and ordered dictionaries into plain
 * JSON-ready values.
 */
module JsonValues {

  /** The Python values reachable from a parsed record's annotations. */
  datatype Value =
    | Null
    | Bool(b: bool)
    | Int(i: int)
    | Str(s: string)
    | List(items: seq<Value>)
    | Tuple(elems: seq<Value>)
    | OrderedDict(entries: seq<(string, Value)>)
    | Dict(pairs: seq<(string, Value)>)
    | Reference(title: string, authors: string, journal: string, pubmedId: string)

  /** `json_ready`: references become dictionaries of their four fields, lists and ordered dictionaries are converted element by element, everything else is returned as it is. */
  function JsonReady(v: Value): (r: Value)
    ensures !r.Reference? && !r.OrderedDict?
    decreases v
  {
    match v
    case Reference(t, a, j, p) =>
      Dict([("title", Str(t)), ("authors", Str(a)), ("journal", Str(j)), ("pubmed_id", Str(p))])
    case List(xs) =>
      List(seq(|xs|, i requires 0 <= i < |xs| => JsonReady(xs[i])))
    case OrderedDict(es) =>
      Dict(seq(|es|, i requires 0 <= i < |es| => (es[i].0, JsonReady(es[i].1))))
    case _ => v
  }

  /** A value `json_ready` has nothing left to do on: no reference or ordered dictionary at the top or down a chain of lists. */
  predicate Ready(v: Value)
    decreases v
  {
    match v
    case Reference(_, _, _, _) => false
    case OrderedDict(_) => false
    case List(xs) => forall i :: 0 <= i < |xs| ==> Ready(xs[i])
    case _ => true
  }

  /** The fixed points of `json_ready` are exactly the ready values. */
  lemma {:induction false} JsonReadyFixedPoints(v: Value)
    ensures JsonReady(v) == v <==> Ready(v)
    decreases v
  {
    match v
    case List(xs) =>
      forall i | 0 <= i < |xs| {
        JsonReadyFixedPoints(xs[i]);
      }
      if JsonReady(v) == v {
        forall i | 0 <= i < |xs| ensures Ready(xs[i]) {
          assert JsonReady(v).items[i] == xs[i];
        }
      }
    case _ =>
  }

  /** Whatever `json_ready` returns is ready. */
  lemma {:induction false} JsonReadyIsReady(v: Value)
    ensures Ready(JsonReady(v))
    decreases v
  {
    match v
    case List(xs) =>
      forall i | 0 <= i < |xs| {
        JsonReadyIsReady(xs[i]);
      }
    case _ =>
  }

  /** Serializing twice is serializing once. */
  lemma JsonReadyIdempotent(v: Value)
    ensures JsonReady(JsonReady(v)) == JsonReady(v)
  {
    JsonReadyIsReady(v);
    JsonReadyFixedPoints(JsonReady(v));
  }

  /** A qualifier list of strings passes through `json_ready` unchanged. */
  lemma StringListUnchanged(vs: seq<string>)
    ensures JsonReady(List(seq(|vs|, i requires 0 <= i < |vs| => Str(vs[i])))) == List(seq(|vs|, i requires 0 <= i < |vs| => Str(vs[i])))
  {
    var v := List(seq(|vs|, i requires 0 <= i < |vs| => Str(vs[i])));
    assert Ready(v);
    JsonReadyFixedPoints(v);
  }
}
