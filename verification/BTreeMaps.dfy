/** A mutable ordered map. */
module BTreeMaps {
  import opened Keys
  import opened OrderedMaps

  /**
   * Besides its entries a map remembers whether it owns a root node. The first insertion allocates
   * one, and it stays when the map runs empty; only a map that never held anything has none.
   */
  class BTreeMap<V> {
    var entries: seq<Entry<V>>
    var rooted: bool

    ghost predicate Valid()
      reads this
    {
      Sorted(entries) && (entries != [] ==> rooted)
    }

    constructor ()
      ensures Valid() && entries == [] && !rooted
    {
      entries := [];
      rooted := false;
    }

    method Insert(key: Key, value: V)
      requires Valid()
      modifies this
      ensures Valid() && entries == OrderedMaps.Insert(old(entries), key, value) && rooted
    {
      entries := OrderedMaps.Insert(entries, key, value);
      rooted := true;
    }

    /** Takes out the entry at position `i`. */
    method RemoveAt(i: nat) returns (value: V)
      requires Valid() && i < |entries|
      modifies this
      ensures Valid() && entries == old(entries)[..i] + old(entries)[i + 1..] && rooted == old(rooted)
      ensures value == old(entries)[i].value
    {
      value := entries[i].value;
      entries := entries[..i] + entries[i + 1..];
    }

    /**
     * Keeps the entries below `key` and hands out the others, with a root of their own unless there was
     * nothing to split.
     */
    method SplitOff(key: Key) returns (upper: BTreeMap<V>)
      requires Valid()
      modifies this
      ensures Valid() && entries == Below(old(entries), key)
      ensures fresh(upper) && upper.Valid() && upper.entries == From(old(entries), key)
      ensures upper.rooted == (old(entries) != []) && rooted == old(rooted)
    {
      upper := new BTreeMap();
      upper.entries := From(entries, key);
      upper.rooted := entries != [];
      entries := Below(entries, key);
    }
  }
}
