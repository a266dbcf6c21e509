/** JSON values.  N stands for the numbers; an object lists its fields in order. */
module JsonValues {

  datatype Json<N> =
    | Null
    | Bool(b: bool)
    | Number(n: N)
    | Text(s: string)
    | Array(items: seq<Json<N>>)
    | Object(fields: seq<Field<N>>)

  /** JSON.parse reads a number too large for a double as an infinity. */
  datatype Figure<T> = Finite(value: T) | Infinite(positive: bool)

  datatype Field<N> = Field(key: string, value: Json<N>)

  function Keys<N>(fields: seq<Field<N>>): (keys: seq<string>)
    ensures |keys| == |fields|
    ensures forall i :: 0 <= i < |fields| ==> keys[i] == fields[i].key
  {
    seq(|fields|, i requires 0 <= i < |fields| => fields[i].key)
  }

  predicate DistinctKeys<N>(fields: seq<Field<N>>) {
    forall i, j :: 0 <= i < j < |fields| ==> fields[i].key != fields[j].key
  }

  /** Objects have no key twice, at any depth. */
  predicate WellKeyed<N>(v: Json<N>) {
    match v
    case Array(items) => forall i :: 0 <= i < |items| ==> WellKeyed(items[i])
    case Object(fields) =>
      && DistinctKeys(fields)
      && forall i :: 0 <= i < |fields| ==> WellKeyed(fields[i].value)
    case _ => true
  }

  /** The same value, whatever the order of keys, at every depth; fields with an ignored key do not matter. */
  ghost predicate Same<N(!new)>(v: Json<N>, w: Json<N>, ignored: set<string>)
    decreases v
  {
    match v
    case Array(a) =>
      && w.Array?
      && |a| == |w.items|
      && forall i :: 0 <= i < |a| ==> Same(a[i], w.items[i], ignored)
    case Object(a) =>
      && w.Object?
      && SameFields(a, w.fields, ignored)
    case _ => v == w
  }

  ghost predicate SameFields<N(!new)>(a: seq<Field<N>>, b: seq<Field<N>>, ignored: set<string>)
    decreases a
  {
    && (forall k :: k !in ignored ==> (k in Keys(a) <==> k in Keys(b)))
    && forall i, j :: 0 <= i < |a| && 0 <= j < |b| && a[i].key == b[j].key && a[i].key !in ignored ==>
      Same(a[i].value, b[j].value, ignored)
  }

  /** No infinite number anywhere. */
  predicate AllFinite<T>(v: Json<Figure<T>>) {
    match v
    case Number(n) => n.Finite?
    case Array(items) => forall i :: 0 <= i < |items| ==> AllFinite(items[i])
    case Object(fields) => forall i :: 0 <= i < |fields| ==> AllFinite(fields[i].value)
    case _ => true
  }
}
