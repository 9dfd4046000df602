/** Timeline keys: events and checkpoints are ordered by time first and by id second. */
module Keys {

  datatype Key = Key(time: int, id: nat)

  predicate Less(a: Key, b: Key) {
    a.time < b.time || (a.time == b.time && a.id < b.id)
  }

  /** The lower end of a key range: everything, or everything strictly after a key. */
  datatype Bound = Unbounded | Excluded(key: Key)

  predicate Beyond(b: Bound, k: Key) {
    b.Unbounded? || Less(b.key, k)
  }

  lemma Trichotomy(a: Key, b: Key)
    ensures Less(a, b) || a == b || Less(b, a)
  {
  }
}
