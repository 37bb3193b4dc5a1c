/**
 * A settings object of the source: string keys mapped to booleans or strings,
 * updated with the spread-and-override idiom `{...obj, [key]: value}`.
 */
module Records {

  datatype Value = Bool(b: bool) | Str(s: string)

  type Record = map<string, Value>

  /** JavaScript truthiness of `obj[key]`: a missing key is `undefined`, hence falsy. */
  predicate Truthy(obj: Record, key: string)
  {
    key in obj && match obj[key]
      case Bool(b) => b
      case Str(s) => s != ""
  }

  /** `{...obj, [key]: value}`: `key` now holds `value`; every other key keeps its entry. */
  function Set(obj: Record, key: string, value: Value): (r: Record)
    ensures key in r && r[key] == value
    ensures r.Keys == obj.Keys + {key}
    ensures forall k :: k in obj && k != key ==> r[k] == obj[k]
  {
    obj[key := value]
  }

  /** `{...obj, [key]: !obj[key]}`: `key` holds the boolean negation of its truthiness. */
  function Toggle(obj: Record, key: string): (r: Record)
    ensures key in r && r[key].Bool? && (r[key].b <==> !Truthy(obj, key))
    ensures r.Keys == obj.Keys + {key}
    ensures forall k :: k in obj && k != key ==> r[k] == obj[k]
  {
    Set(obj, key, Bool(!Truthy(obj, key)))
  }

  /** Toggling a boolean entry twice gives the original object back. */
  lemma ToggleTwice(obj: Record, key: string)
    requires key in obj && obj[key].Bool?
    ensures Toggle(Toggle(obj, key), key) == obj
  {
    var once := Toggle(obj, key);
    assert once[key].b == !obj[key].b;
    var twice := Toggle(once, key);
    assert twice.Keys == obj.Keys;
    assert forall k :: k in obj ==> twice[k] == obj[k];
  }

  /** A non-empty string entry toggled twice becomes `true`: the original value is lost. */
  lemma ToggleTwiceOnString(obj: Record, key: string)
    requires key in obj && obj[key].Str? && obj[key].s != ""
    ensures Toggle(Toggle(obj, key), key)[key] == Bool(true)
    ensures Toggle(Toggle(obj, key), key) != obj
  {
    var twice := Toggle(Toggle(obj, key), key);
    assert twice[key] != obj[key];
  }

  /** Setting a key twice keeps only the second value. */
  lemma SetSet(obj: Record, key: string, v: Value, w: Value)
    ensures Set(Set(obj, key, v), key, w) == Set(obj, key, w)
  {
  }

  /** Setting a key to the value it already holds changes nothing. */
  lemma SetSame(obj: Record, key: string)
    requires key in obj
    ensures Set(obj, key, obj[key]) == obj
  {
  }
}
