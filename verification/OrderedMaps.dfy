/** Ordered maps from keys to values, written as strictly increasing sequences of entries. */
module OrderedMaps {
  import opened Keys

  datatype Entry<V> = Entry(key: Key, value: V)

  ghost predicate Sorted<V>(m: seq<Entry<V>>) {
    forall i, j | 0 <= i < j < |m| :: Less(m[i].key, m[j].key)
  }

  /** The number of entries with a key below `k`. */
  function Rank<V>(m: seq<Entry<V>>, k: Key): (r: nat)
    requires Sorted(m)
    ensures r <= |m|
    ensures forall i | 0 <= i < |m| :: Less(m[i].key, k) <==> i < r
  {
    if m == [] || Less(m[|m| - 1].key, k) then |m| else Rank(m[..|m| - 1], k)
  }

  predicate Has<V>(m: seq<Entry<V>>, k: Key)
    requires Sorted(m)
    ensures Has(m, k) <==> exists i :: 0 <= i < |m| && m[i].key == k
  {
    Rank(m, k) < |m| && m[Rank(m, k)].key == k
  }

  /** The number of entries at or before a lower bound. */
  function Cut<V>(m: seq<Entry<V>>, b: Bound): (r: nat)
    requires Sorted(m)
    ensures r <= |m|
    ensures forall i | 0 <= i < |m| :: Beyond(b, m[i].key) <==> r <= i
  {
    match b
    case Unbounded => 0
    case Excluded(k) => if Has(m, k) then Rank(m, k) + 1 else Rank(m, k)
  }

  /** Entries with a key below `k`. */
  function Below<V>(m: seq<Entry<V>>, k: Key): (r: seq<Entry<V>>)
    requires Sorted(m)
    ensures Sorted(r)
  {
    m[..Rank(m, k)]
  }

  /** Entries with a key at or above `k`. */
  function From<V>(m: seq<Entry<V>>, k: Key): (r: seq<Entry<V>>)
    requires Sorted(m)
    ensures Sorted(r)
  {
    m[Rank(m, k)..]
  }

  /** Entries strictly after a lower bound. */
  function After<V>(m: seq<Entry<V>>, b: Bound): (r: seq<Entry<V>>)
    requires Sorted(m)
    ensures Sorted(r)
  {
    m[Cut(m, b)..]
  }

  /** Entries with a key at or below `k`. */
  function UpTo<V>(m: seq<Entry<V>>, k: Key): (r: seq<Entry<V>>)
    requires Sorted(m)
    ensures Sorted(r)
  {
    m[..Cut(m, Excluded(k))]
  }

  /** The map with `k` bound to `v`; an old binding of `k` is replaced. */
  function Insert<V>(m: seq<Entry<V>>, k: Key, v: V): (r: seq<Entry<V>>)
    requires Sorted(m)
    ensures Sorted(r)
  {
    Below(m, k) + [Entry(k, v)] + After(m, Excluded(k))
  }

  /** Total size of the stored values. */
  function Bytes<V>(size: V -> nat, m: seq<Entry<V>>): nat {
    if m == [] then 0 else Bytes(size, m[..|m| - 1]) + size(m[|m| - 1].value)
  }

  lemma {:induction false} BytesConcat<V>(size: V -> nat, a: seq<Entry<V>>, b: seq<Entry<V>>)
    ensures Bytes(size, a + b) == Bytes(size, a) + Bytes(size, b)
  {
    if b == [] {
      assert a + b == a;
    } else {
      BytesConcat(size, a, b[..|b| - 1]);
      assert (a + b)[..|a + b| - 1] == a + b[..|b| - 1];
    }
  }
}
