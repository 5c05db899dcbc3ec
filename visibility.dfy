/** The `fieldVisibility` object of the costing components: a JavaScript
    object used as a dictionary from a line item's field name to whether the
    item is selected. Object keys keep their insertion order, which is the
    order in which `Object.keys(...).forEach` visits them. */
module FieldVisibility {

  datatype Dict = Dict(order: seq<string>, on: map<string, bool>) {

    /** Every key appears exactly once in the key order, and the key order
        lists exactly the keys of the dictionary. */
    ghost predicate Valid() {
      && (forall i, j :: 0 <= i < j < |order| ==> order[i] != order[j])
      && (forall k :: k in on <==> k in order)
    }

    /** `fieldVisibility[field]` is truthy: the key is present and true. */
    predicate IsOn(field: string) {
      field in on && on[field]
    }

    /** `fieldVisibility[field] = b`: an existing key keeps its place, a new
        key is appended to the key order. */
    function Put(field: string, b: bool): (d: Dict)
      requires Valid()
      ensures d.Valid()
      ensures d.IsOn(field) == b
      ensures forall k :: k != field ==> d.IsOn(k) == IsOn(k)
      ensures field in order ==> d.order == order
      ensures field !in order ==> d.order == order + [field]
    {
      Dict(if field in on then order else order + [field], on[field := b])
    }
  }

  /** The initial `fieldVisibility = {}`. */
  const Empty: Dict := Dict([], map[])

  lemma EmptyValid()
    ensures Empty.Valid()
    ensures forall k :: !Empty.IsOn(k)
  {
  }
}
