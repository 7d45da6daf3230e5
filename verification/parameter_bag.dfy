/**
 The keyed parameter store a request keeps its settings in. A lookup takes
 the default to answer when the key was never stored; a key that was stored,
 even with a null value, answers with what was stored.
 */
module ParameterBag {
  import opened PhpValue

  type Bag = map<string, Value>

  /** Reads a key, answering `default` when the key is absent. */
  function Get(bag: Bag, key: string, default: Value): (v: Value)
    ensures v in bag.Values || v == default
  {
    if key in bag then bag[key] else default
  }

  /** Stores a value under a key, replacing any earlier value of that key. */
  function Set(bag: Bag, key: string, value: Value): (b: Bag)
    ensures b.Keys == bag.Keys + {key}
    ensures Get(b, key, Null) == value
    ensures b - {key} == bag - {key}
  {
    bag[key := value]
  }

  /** Storing one key leaves the reading of every other key, under every default, as it was. */
  lemma GetSetOther(bag: Bag, key: string, value: Value, other: string, default: Value)
    requires other != key
    ensures Get(Set(bag, key, value), other, default) == Get(bag, other, default)
  {
  }
}
