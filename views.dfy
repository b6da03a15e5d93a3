/** Shared view-model vocabulary for the page renderers.
    Each page maps a constant array of records to an ordered list of view
    records; `Enumerate` is the `(item, index)` form of `Array.map` that the
    pages use to give list children their `key`. */
module Views {

  /** A value that may be absent (`null` or `undefined` in the page data). */
  datatype Option<+T> = None | Some(value: T)

  /** A rendered list child together with the `key` React gives it. */
  datatype Keyed<+T> = Keyed(key: nat, value: T)

  /** JavaScript truthiness of an optional string: `null`, `undefined` and
      the empty string are falsy, every other string is truthy. */
  predicate Truthy(s: Option<string>)
    ensures Truthy(s) <==> s != None && s != Some("")
  {
    s.Some? && s.value != ""
  }

  /** `xs.map((x, index) => <child key={index}>x</child>)`: one child per
      element, in array order, keyed by its position. */
  function Enumerate<T>(xs: seq<T>): (r: seq<Keyed<T>>)
    ensures |r| == |xs|
    ensures forall i :: 0 <= i < |xs| ==> r[i] == Keyed(i, xs[i])
  {
    if xs == [] then []
    else Enumerate(xs[..|xs| - 1]) + [Keyed(|xs| - 1, xs[|xs| - 1])]
  }

  /** The values of a keyed list, in order. */
  function Values<T>(ks: seq<Keyed<T>>): (r: seq<T>)
    ensures |r| == |ks|
    ensures forall i :: 0 <= i < |ks| ==> r[i] == ks[i].value
  {
    if ks == [] then [] else [ks[0].value] + Values(ks[1..])
  }

  /** Enumerating and then dropping the keys gives back the array: the
      children appear exactly in array order, none added or lost. */
  lemma EnumerateValues<T>(xs: seq<T>)
    ensures Values(Enumerate(xs)) == xs
  {
  }
}
