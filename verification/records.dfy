/**
 * JavaScript object records updated with `{...prev, [name]: value}`. Such a
 * record is a map from field names: the spread copies every key and the
 * computed key is set, or added when the record lacked it.
 */
module Records {

  /** `after` is `before` with the key `name` set to `value` and no other key touched. */
  ghost predicate SetsOnly<V>(before: map<string, V>, after: map<string, V>, name: string, value: V)
  {
    && after.Keys == before.Keys + {name}
    && after[name] == value
    && forall k :: k in before && k != name ==> after[k] == before[k]
  }

  /** `{...prev, [name]: value}`. */
  function SetField<V>(m: map<string, V>, name: string, value: V): (r: map<string, V>)
    ensures SetsOnly(m, r, name, value)
  {
    m[name := value]
  }

  /** Setting a field twice keeps only the second value. */
  lemma SetFieldTwice<V>(m: map<string, V>, name: string, a: V, b: V)
    ensures SetField(SetField(m, name, a), name, b) == SetField(m, name, b)
  {
  }

  /** Setting two different fields gives the same record in either order. */
  lemma SetFieldCommutes<V>(m: map<string, V>, x: string, a: V, y: string, b: V)
    requires x != y
    ensures SetField(SetField(m, x, a), y, b) == SetField(SetField(m, y, b), x, a)
  {
  }
}
